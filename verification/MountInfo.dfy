// Reading /proc/self/mountinfo (crates/shim/src/mount_linux.rs): one line at a time, with
// the separator field looked for from the end.
module MountInfo {
  import opened Wrappers
  import opened Strings

  // ---- the library functions that the parser calls ----

  predicate IsWhitespace(c: char) {
    '\t' <= c <= '\r' || c == ' ' || c == '\U{0085}' || c == '\U{00A0}' || c == '\U{1680}'
    || '\U{2000}' <= c <= '\U{200A}' || c == '\U{2028}' || c == '\U{2029}' || c == '\U{202F}'
    || c == '\U{205F}' || c == '\U{3000}'
  }

  function WordLength(s: string): (n: nat)
    ensures n <= |s|
    ensures forall i | 0 <= i < n :: !IsWhitespace(s[i])
    ensures n < |s| ==> IsWhitespace(s[n])
  {
    if s == "" || IsWhitespace(s[0]) then 0 else 1 + WordLength(s[1..])
  }

  // `str::split_whitespace`.
  function Words(s: string): seq<string>
    decreases |s|
  {
    if s == "" then []
    else if IsWhitespace(s[0]) then Words(s[1..])
    else [s[..WordLength(s)]] + Words(s[WordLength(s)..])
  }

  const U32_MAX: nat := 0xFFFF_FFFF

  predicate IsDigit(c: char) {
    '0' <= c <= '9'
  }

  function DigitsValue(s: string): nat
    requires forall i | 0 <= i < |s| :: IsDigit(s[i])
  {
    if s == "" then 0
    else
      assert IsDigit(s[|s| - 1]);
      10 * DigitsValue(s[..|s| - 1]) + (s[|s| - 1] as int - '0' as int)
  }

  // `str::parse::<u32>`: decimal digits, with a plus sign allowed in front.
  function ParseU32(s: string): Option<nat> {
    var digits := if s != "" && s[0] == '+' then s[1..] else s;
    if digits == "" || exists i :: 0 <= i < |digits| && !IsDigit(digits[i]) then None
    else if DigitsValue(digits) > U32_MAX then None
    else Some(DigitsValue(digits))
  }

  function Show(n: nat): (s: string)
    ensures s != "" && forall i | 0 <= i < |s| :: IsDigit(s[i])
  {
    var last := [('0' as int + n % 10) as char];
    if n < 10 then last else Show(n / 10) + last
  }

  lemma {:induction false} ShowValue(n: nat)
    ensures DigitsValue(Show(n)) == n
  {
    var s := Show(n);
    if n >= 10 {
      ShowValue(n / 10);
      assert s[..|s| - 1] == Show(n / 10);
    } else {
      assert s[..0] == "";
    }
  }

  lemma ShowParses(n: nat)
    requires n <= U32_MAX
    ensures ParseU32(Show(n)) == Some(n)
  {
    ShowValue(n);
  }

  // A number parses, with or without a sign in front, exactly if it fits 32 bits.
  lemma ParsesIffFits(n: nat)
    ensures ParseU32(Show(n)) == if n < 0x1_0000_0000 then Some(n) else None
    ensures ParseU32("+" + Show(n)) == if n < 0x1_0000_0000 then Some(n) else None
  {
    ShowValue(n);
    assert ("+" + Show(n))[1..] == Show(n);
  }

  // ---- the parser ----

  const SEPARATOR := "-"

  datatype Info = Info(
    id: nat,
    parent: nat,
    major: nat,
    minor: nat,
    root: string,
    mountpoint: string,
    options: string,
    optional: string,
    fsType: string,
    source: string,
    vfsOptions: string)

  datatype Parsed = Skipped | Panicked | Mounted(info: Info)

  // The last lone dash before the last four words, or else the fourth word from the end,
  // whatever it is.
  function SeparatorBefore(parts: seq<string>, i: nat): (sep: nat)
    requires 4 <= |parts| && i <= |parts| - 4
    ensures sep <= |parts| - 4
    ensures (sep < i && parts[sep] == SEPARATOR) || sep == |parts| - 4
    ensures forall j | 0 <= j < i && parts[j] == SEPARATOR :: j <= sep < i
  {
    if i == 0 then |parts| - 4
    else if parts[i - 1] == SEPARATOR then i - 1
    else SeparatorBefore(parts, i - 1)
  }

  function ParsePair(s: string): Option<(nat, nat)> {
    var halves := Split(s, ':');
    if |halves| != 2 || ParseU32(halves[0]).None? || ParseU32(halves[1]).None? then None
    else Some((ParseU32(halves[0]).value, ParseU32(halves[1]).value))
  }

  function ParseWords(parts: seq<string>): Parsed {
    if |parts| < 10 then Skipped
    else
      var sep := SeparatorBefore(parts, |parts| - 4);
      if ParseU32(parts[0]).None? || ParseU32(parts[1]).None? then Skipped
      else if sep < 6 then Panicked
      else if ParsePair(parts[2]).None? then Skipped
      else
        var (major, minor) := ParsePair(parts[2]).value;
        Mounted(Info(ParseU32(parts[0]).value, ParseU32(parts[1]).value, major, minor,
                     parts[3], parts[4], parts[5], Join(parts[6..sep], ' '),
                     parts[sep + 1], parts[sep + 2], parts[sep + 3]))
  }

  method ParseLine(line: string) returns (r: Parsed)
    ensures r == ParseWords(Words(line))
  {
    var parts := Words(line);
    if |parts| < 10 {
      return Skipped;
    }
    var sepIdx := |parts| - 4;
    var i := sepIdx;
    while i > 0
      invariant 0 <= i <= |parts| - 4 && sepIdx == |parts| - 4
      invariant SeparatorBefore(parts, i) == SeparatorBefore(parts, |parts| - 4)
    {
      i := i - 1;
      if parts[i] == SEPARATOR {
        sepIdx := i;
        break;
      }
      if sepIdx == 5 {
        return Skipped;
      }
    }
    assert sepIdx == SeparatorBefore(parts, |parts| - 4);
    var id := ParseU32(parts[0]);
    if id.None? {
      return Skipped;
    }
    var parent := ParseU32(parts[1]);
    if parent.None? {
      return Skipped;
    }
    if sepIdx < 6 {
      return Panicked;
    }
    var optional := Join(parts[6..sepIdx], ' ');
    var majorMinor := Split(parts[2], ':');
    if |majorMinor| != 2 {
      return Skipped;
    }
    var major, minor := ParseU32(majorMinor[0]), ParseU32(majorMinor[1]);
    if major.None? || minor.None? {
      return Skipped;
    }
    return Mounted(Info(id.value, parent.value, major.value, minor.value, parts[3], parts[4], parts[5],
                        optional, parts[sepIdx + 1], parts[sepIdx + 2], parts[sepIdx + 3]));
  }

  // ---- the kernel's side ----

  predicate IsWord(s: string) {
    s != "" && forall i | 0 <= i < |s| :: !IsWhitespace(s[i])
  }

  // What the kernel can have printed a line for: `tags` are the optional fields, and `extra`
  // the rest of the last field if it has spaces in it.
  predicate Printable(m: Info, tags: seq<string>, extra: seq<string>) {
    && m.id <= U32_MAX && m.parent <= U32_MAX && m.major <= U32_MAX && m.minor <= U32_MAX
    && IsWord(m.root) && IsWord(m.mountpoint) && IsWord(m.options)
    && IsWord(m.fsType) && IsWord(m.source) && IsWord(m.vfsOptions)
    && (forall t | t in tags :: IsWord(t))
    && (forall t | t in extra :: IsWord(t))
    && m.optional == Join(tags, ' ')
  }

  function Fields(m: Info, tags: seq<string>, extra: seq<string>): seq<string> {
    [Show(m.id), Show(m.parent), Show(m.major) + ":" + Show(m.minor), m.root, m.mountpoint, m.options]
    + tags + [SEPARATOR, m.fsType, m.source, m.vfsOptions] + extra
  }

  function Print(m: Info, tags: seq<string>, extra: seq<string>): string {
    Join(Fields(m, tags, extra), ' ')
  }

  // ---- printing and parsing ----

  lemma WordLengthOf(w: string, rest: string)
    requires IsWord(w) && (rest == "" || IsWhitespace(rest[0]))
    ensures WordLength(w + rest) == |w|
  {
    var s := w + rest;
    var n := WordLength(s);
    assert forall i | 0 <= i < |w| :: s[i] == w[i];
    assert rest != "" ==> s[|w|] == rest[0];
  }

  lemma {:induction false} WordsOfJoin(words: seq<string>)
    requires forall w | w in words :: IsWord(w)
    ensures Words(Join(words, ' ')) == words
  {
    if words != [] {
      var w := words[0];
      var rest := if |words| == 1 then "" else " " + Join(words[1..], ' ');
      var s := w + rest;
      assert s == Join(words, ' ');
      assert w in words && s[0] == w[0];
      WordLengthOf(w, rest);
      assert s[..|w|] == w && s[|w|..] == rest;
      WordsOfJoin(words[1..]);
      if |words| > 1 {
        assert rest[1..] == Join(words[1..], ' ');
      }
    }
  }

  lemma DigitsAreWords(s: string)
    requires s != "" && forall i | 0 <= i < |s| :: IsDigit(s[i])
    ensures IsWord(s) && ':' !in s && s[0] != '+' && s != SEPARATOR
  {
  }

  lemma PairParses(major: nat, minor: nat)
    requires major <= U32_MAX && minor <= U32_MAX
    ensures var s := Show(major) + ":" + Show(minor);
            IsWord(s) && s != SEPARATOR && ParsePair(s) == Some((major, minor))
  {
    var a, b := Show(major), Show(minor);
    DigitsAreWords(a);
    DigitsAreWords(b);
    PairIsWord(a, b);
    assert a + [':'] + b == a + ":" + b;
    SplitAppend(a, ':', b);
    SplitWhole(b, ':');
    assert [a] + [b] == [a, b];
    ShowParses(major);
    ShowParses(minor);
  }

  lemma PairIsWord(a: string, b: string)
    requires IsWord(a) && IsWord(b)
    ensures IsWord(a + ":" + b) && a + ":" + b != SEPARATOR
  {
    var s := a + ":" + b;
    assert forall i | 0 <= i < |s| :: s[i] == if i < |a| then a[i] else if i == |a| then ':' else b[i - |a| - 1];
    assert |s| > 1;
  }

  lemma FieldsAreWords(m: Info, tags: seq<string>, extra: seq<string>)
    requires Printable(m, tags, extra)
    ensures forall f | f in Fields(m, tags, extra) :: IsWord(f)
  {
    DigitsAreWords(Show(m.id));
    DigitsAreWords(Show(m.parent));
    PairParses(m.major, m.minor);
  }

  lemma {:induction false} LongerJoin(a: seq<string>, b: seq<string>)
    requires a < b && forall w | w in b :: w != ""
    ensures |Join(a, ' ')| < |Join(b, ' ')|
  {
    assert b[0] in b;
    if |a| > 0 {
      assert a[0] == b[0] && b[..|a|] == a;
      assert b[1..][..|a| - 1] == a[1..];
      if |a| > 1 {
        assert forall w | w in b[1..] :: w in b;
        LongerJoin(a[1..], b[1..]);
      }
    }
  }

  // The line is read back right exactly when the separator is found where it is.
  lemma ParsedRightIff(m: Info, tags: seq<string>, extra: seq<string>)
    requires Printable(m, tags, extra)
    ensures var f := Fields(m, tags, extra);
            ParseWords(f) == Mounted(m) <==> SeparatorBefore(f, |f| - 4) == 6 + |tags|
  {
    var f := Fields(m, tags, extra);
    var n := 6 + |tags|;
    var sep := SeparatorBefore(f, |f| - 4);
    ShowParses(m.id);
    ShowParses(m.parent);
    PairParses(m.major, m.minor);
    FieldsAt(m, tags, extra);
    FieldsAreWords(m, tags, extra);
    if 6 <= sep && sep != n {
      JoinsDiffer(f, n, sep);
    }
  }

  lemma FieldsAt(m: Info, tags: seq<string>, extra: seq<string>)
    ensures var f := Fields(m, tags, extra);
            var n := 6 + |tags|;
            && f[0] == Show(m.id) && f[1] == Show(m.parent) && f[2] == Show(m.major) + ":" + Show(m.minor)
            && f[3] == m.root && f[4] == m.mountpoint && f[5] == m.options && f[6..n] == tags
            && f[n] == SEPARATOR && f[n + 1] == m.fsType && f[n + 2] == m.source && f[n + 3] == m.vfsOptions
  {
  }

  // The optional fields tell where they end.
  lemma JoinsDiffer(f: seq<string>, n: nat, sep: nat)
    requires 6 <= n <= |f| && 6 <= sep <= |f| && n != sep && forall w | w in f :: w != ""
    ensures Join(f[6..n], ' ') != Join(f[6..sep], ' ')
  {
    if n < sep {
      JoinGrows(f, n, sep);
    } else {
      JoinGrows(f, sep, n);
    }
  }

  lemma JoinGrows(f: seq<string>, lo: nat, hi: nat)
    requires 6 <= lo < hi <= |f| && forall w | w in f :: w != ""
    ensures |Join(f[6..lo], ' ')| < |Join(f[6..hi], ' ')|
  {
    assert f[6..lo] == f[6..hi][..lo - 6];
    assert f[6..lo] < f[6..hi];
    assert forall w | w in f[6..hi] :: w in f;
    LongerJoin(f[6..lo], f[6..hi]);
  }

  lemma PrintedWords(m: Info, tags: seq<string>, extra: seq<string>)
    requires Printable(m, tags, extra)
    ensures Words(Print(m, tags, extra)) == Fields(m, tags, extra)
  {
    FieldsAreWords(m, tags, extra);
    WordsOfJoin(Fields(m, tags, extra));
  }

  // Neither the numbers nor the device can be taken for a separator.
  lemma NumbersAreNoSeparator(m: Info, tags: seq<string>, extra: seq<string>)
    requires Printable(m, tags, extra)
    ensures var f := Fields(m, tags, extra); f[0] != SEPARATOR && f[1] != SEPARATOR && f[2] != SEPARATOR
  {
    DigitsAreWords(Show(m.id));
    DigitsAreWords(Show(m.parent));
    PairParses(m.major, m.minor);
  }

  // A line without spaces in its last field is read back exactly when none of the fields
  // before the separator is a lone dash.
  lemma RoundTripIff(m: Info, tags: seq<string>)
    requires Printable(m, tags, [])
    ensures ParseWords(Words(Print(m, tags, []))) == Mounted(m) <==>
              m.root != SEPARATOR && m.mountpoint != SEPARATOR && m.options != SEPARATOR && SEPARATOR !in tags
  {
    var f := Fields(m, tags, []);
    PrintedWords(m, tags, []);
    ParsedRightIff(m, tags, []);
    NumbersAreNoSeparator(m, tags, []);
    var n := 6 + |tags|;
    assert |f| - 4 == n;
    var clean := m.root != SEPARATOR && m.mountpoint != SEPARATOR && m.options != SEPARATOR && SEPARATOR !in tags;
    assert f[3] == m.root && f[4] == m.mountpoint && f[5] == m.options;
    assert forall i | 6 <= i < n :: f[i] == tags[i - 6];
    if clean {
      assert forall i | 0 <= i < n :: f[i] != SEPARATOR;
    } else if SEPARATOR in tags {
      var t :| 0 <= t < |tags| && tags[t] == SEPARATOR;
      assert f[6 + t] == SEPARATOR;
    }
  }

  // With spaces in the last field, it is read back, up to its first space, exactly when no
  // word between the separator and the last four is a lone dash; what stands before the
  // separator does not matter then.
  lemma ExtraWordsIff(m: Info, tags: seq<string>, extra: seq<string>)
    requires Printable(m, tags, extra) && extra != []
    ensures var f := Fields(m, tags, extra);
            ParseWords(Words(Print(m, tags, extra))) == Mounted(m) <==> SEPARATOR !in f[6 + |tags| + 1..|f| - 4]
  {
    PrintedWords(m, tags, extra);
    ParsedRightIff(m, tags, extra);
    ExtraSeparator(m, tags, extra);
  }

  lemma ExtraSeparator(m: Info, tags: seq<string>, extra: seq<string>)
    requires extra != []
    ensures var f := Fields(m, tags, extra);
            SeparatorBefore(f, |f| - 4) == 6 + |tags| <==> SEPARATOR !in f[6 + |tags| + 1..|f| - 4]
  {
    FieldsAt(m, tags, extra);
    NothingBetween(Fields(m, tags, extra), 6 + |tags|);
  }

  lemma NothingBetween(f: seq<string>, n: nat)
    requires n < |f| - 4 && f[n] == SEPARATOR
    ensures SeparatorBefore(f, |f| - 4) == n <==> SEPARATOR !in f[n + 1..|f| - 4]
  {
    var between := f[n + 1..|f| - 4];
    if SEPARATOR in between {
      var i :| 0 <= i < |between| && between[i] == SEPARATOR;
      assert f[n + 1 + i] == SEPARATOR;
    } else {
      forall i | n < i < |f| - 4
        ensures f[i] != SEPARATOR
      {
        assert f[i] == between[i - n - 1];
      }
    }
  }

  // How it fails: on a lone dash as the root the parser panics ...
  lemma PanicsOnRoot(m: Info)
    requires Printable(m, [], []) && m.root == SEPARATOR && m.mountpoint != SEPARATOR && m.options != SEPARATOR
    ensures ParseWords(Words(Print(m, [], []))) == Panicked
  {
    PrintedWords(m, [], []);
    FieldsAt(m, [], []);
    ShowParses(m.id);
    ShowParses(m.parent);
    var f := Fields(m, [], []);
    assert |f| == 10 && SeparatorBefore(f, 4) == 3;
    assert SeparatorBefore(f, 5) == 3;
  }

  // ... and a lone dash among the optional fields makes it take the separator itself for the
  // filesystem.
  lemma DashAsType(m: Info)
    requires Printable(m, ["-"], [])
    ensures ParseWords(Words(Print(m, ["-"], []))) ==
            Mounted(m.(optional := "", fsType := "-", source := m.fsType, vfsOptions := m.source))
  {
    var f := Fields(m, ["-"], []);
    PrintedWords(m, ["-"], []);
    FieldsAt(m, ["-"], []);
    ShowParses(m.id);
    ShowParses(m.parent);
    PairParses(m.major, m.minor);
    assert |f| == 11 && f[6..7] == ["-"] && f[6] == "-";
    assert SeparatorBefore(f, 7) == 6 && f[6..6] == [];
  }
}
