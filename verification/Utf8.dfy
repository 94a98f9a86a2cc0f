// UTF-8 as in section 3 of RFC 3629, as far as Rust strings show it: a string is a sequence
// of Unicode scalar values, and its bytes are theirs one after the other.
module Utf8 {
  newtype Byte = b: int | 0 <= b < 256

  function CharBytes(c: char): (bs: seq<Byte>)
    ensures 1 <= |bs| <= 4
  {
    var v := c as int;
    if v < 0x80 then [v as Byte]
    else if v < 0x800 then [(0xC0 + v / 64) as Byte, (0x80 + v % 64) as Byte]
    else if v < 0x1_0000 then
      [(0xE0 + v / 4096) as Byte, (0x80 + v / 64 % 64) as Byte, (0x80 + v % 64) as Byte]
    else
      [(0xF0 + v / 262144) as Byte, (0x80 + v / 4096 % 64) as Byte, (0x80 + v / 64 % 64) as Byte,
       (0x80 + v % 64) as Byte]
  }

  function Bytes(s: string): seq<Byte> {
    if s == "" then [] else CharBytes(s[0]) + Bytes(s[1..])
  }

  predicate IsContinuation(b: Byte) {
    0x80 <= b < 0xC0
  }

  // Rust's `str::is_char_boundary`.
  predicate IsBoundary(bs: seq<Byte>, i: nat) {
    i == 0 || i == |bs| || (i < |bs| && !IsContinuation(bs[i]))
  }

  // How many bytes the character with this lead byte has.
  function LengthByLead(b: Byte): nat {
    if b < 0x80 then 1 else if b < 0xE0 then 2 else if b < 0xF0 then 3 else 4
  }

  lemma CharShape(c: char)
    ensures |CharBytes(c)| == LengthByLead(CharBytes(c)[0])
    ensures !IsContinuation(CharBytes(c)[0])
    ensures forall i | 0 < i < |CharBytes(c)| :: IsContinuation(CharBytes(c)[i])
  {
  }

  lemma CharBytesInjective(c: char, d: char)
    requires CharBytes(c) == CharBytes(d)
    ensures c == d
  {
    var v, w := c as int, d as int;
    CharShape(c);
    CharShape(d);
    if |CharBytes(c)| == 2 {
      assert v / 64 == w / 64 && v % 64 == w % 64;
    } else if |CharBytes(c)| == 3 {
      assert v / 4096 == w / 4096 && v / 64 % 64 == w / 64 % 64 && v % 64 == w % 64;
      assert v / 64 / 64 == w / 64 / 64;
    } else if |CharBytes(c)| == 4 {
      assert v / 262144 == w / 262144 && v / 4096 % 64 == w / 4096 % 64;
      assert v / 64 % 64 == w / 64 % 64 && v % 64 == w % 64;
      assert v / 4096 / 64 == w / 4096 / 64 && v / 64 / 64 == v / 4096 && w / 64 / 64 == w / 4096;
    }
    assert v == w;
    assert c == v as char && d == w as char;
  }

  lemma {:induction false} BytesAppend(s: string, t: string)
    ensures Bytes(s + t) == Bytes(s) + Bytes(t)
  {
    if s == "" {
      assert s + t == t;
    } else {
      assert (s + t)[1..] == s[1..] + t;
      BytesAppend(s[1..], t);
    }
  }

  // UTF-8 is prefix-free: byte prefixes of whole strings are string prefixes.
  lemma {:induction false} PrefixReflects(p: string, s: string)
    requires Bytes(p) <= Bytes(s)
    ensures p <= s
  {
    if p != "" {
      assert s != "" by {
        assert Bytes(p) != [];
      }
      var cp, cs := CharBytes(p[0]), CharBytes(s[0]);
      CharShape(p[0]);
      CharShape(s[0]);
      assert Bytes(p)[0] == cp[0] && Bytes(s)[0] == cs[0];
      assert Bytes(s)[..|Bytes(p)|] == Bytes(p);
      assert cp == Bytes(p)[..|cp|] && cs == Bytes(s)[..|cs|];
      assert cp == cs;
      CharBytesInjective(p[0], s[0]);
      assert Bytes(p[1..]) == Bytes(p)[|cp|..] && Bytes(s[1..]) == Bytes(s)[|cs|..];
      PrefixReflects(p[1..], s[1..]);
    }
  }

  lemma PrefixPreserved(p: string, s: string)
    requires p <= s
    ensures Bytes(p) <= Bytes(s)
  {
    assert s == p + s[|p|..];
    BytesAppend(p, s[|p|..]);
  }

  // The boundaries of a string's bytes are exactly the ends of its prefixes.
  lemma {:induction false} PrefixIsBoundary(s: string, k: nat)
    requires k <= |s|
    ensures |Bytes(s[..k])| <= |Bytes(s)| && IsBoundary(Bytes(s), |Bytes(s[..k])|)
    ensures Bytes(s)[..|Bytes(s[..k])|] == Bytes(s[..k])
  {
    var p, t := s[..k], s[k..];
    assert s == p + t;
    BytesAppend(p, t);
    if t != "" {
      CharShape(t[0]);
      assert Bytes(s)[|Bytes(p)|] == CharBytes(t[0])[0];
    }
  }

  lemma HeadIsOneCharacter(s: string)
    requires s != ""
    ensures |CharBytes(s[0])| <= |Bytes(s)|
    ensures forall i | 0 < i < |CharBytes(s[0])| :: IsContinuation(Bytes(s)[i])
  {
    CharShape(s[0]);
    assert forall i | 0 < i < |CharBytes(s[0])| :: Bytes(s)[i] == CharBytes(s[0])[i];
  }

  lemma {:induction false} BoundaryIsPrefix(s: string, i: nat) returns (k: nat)
    requires i <= |Bytes(s)| && IsBoundary(Bytes(s), i)
    ensures k <= |s| && i == |Bytes(s[..k])|
  {
    if i == 0 {
      k := 0;
    } else {
      var head := CharBytes(s[0]);
      HeadIsOneCharacter(s);
      var rest := Bytes(s[1..]);
      if i > |head| && i < |Bytes(s)| {
        assert Bytes(s)[i] == rest[i - |head|];
      }
      assert IsBoundary(rest, i - |head|);
      var l := BoundaryIsPrefix(s[1..], i - |head|);
      k := l + 1;
      assert s[..k][1..] == s[1..][..l];
    }
  }
}
