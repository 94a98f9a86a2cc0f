// The compaction of overlay mount options (crates/shim/src/mount_linux.rs): change to the
// directory that all lower directories share, and name them relative to it.
module Overlay {
  import opened Wrappers
  import opened Strings
  import opened Utf8

  const LOWERDIR_PREFIX := "lowerdir="

  // ---- the longest common prefix ----

  function CommonOfTwo(a: string, b: string): string {
    if a != "" && b != "" && a[0] == b[0] then [a[0]] + CommonOfTwo(a[1..], b[1..]) else ""
  }

  function CommonPrefix(dirs: seq<string>): string {
    if dirs == [] then ""
    else if |dirs| == 1 then dirs[0]
    else CommonOfTwo(dirs[0], CommonPrefix(dirs[1..]))
  }

  lemma {:induction false} CommonOfTwoIsLongest(a: string, b: string, q: string)
    ensures q <= a && q <= b <==> q <= CommonOfTwo(a, b)
  {
    if q != "" && a != "" && b != "" && a[0] == b[0] {
      CommonOfTwoIsLongest(a[1..], b[1..], q[1..]);
      var c := CommonOfTwo(a, b);
      assert c[1..] == CommonOfTwo(a[1..], b[1..]);
      assert q <= a <==> q[0] == a[0] && q[1..] <= a[1..];
      assert q <= b <==> q[0] == b[0] && q[1..] <= b[1..];
      assert q <= c <==> q[0] == c[0] && q[1..] <= c[1..];
    }
  }

  // The prefixes common to all are the prefixes of the longest one.
  lemma {:induction false} CommonPrefixIsLongest(dirs: seq<string>, q: string)
    requires dirs != []
    ensures (forall d | d in dirs :: q <= d) <==> q <= CommonPrefix(dirs)
  {
    assert dirs[0] in dirs;
    if |dirs| > 1 {
      CommonPrefixIsLongest(dirs[1..], q);
      CommonOfTwoIsLongest(dirs[0], CommonPrefix(dirs[1..]), q);
      assert forall d :: d in dirs <==> d == dirs[0] || d in dirs[1..];
    }
  }

  ghost predicate SharedUpTo(dirs: seq<string>, i: nat) {
    && dirs != []
    && i <= |Bytes(dirs[0])|
    && forall d | d in dirs :: Bytes(dirs[0])[..i] <= Bytes(d)
  }

  // No longer string is shared than the bytes are.
  lemma SharedStringsEnd(dirs: seq<string>, i: nat, j: nat)
    requires dirs != [] && i < |Bytes(dirs[0])| && j < |dirs|
    requires i >= |Bytes(dirs[j])| || Bytes(dirs[j])[i] != Bytes(dirs[0])[i]
    ensures CommonPrefix(dirs) <= dirs[0]
    ensures Bytes(CommonPrefix(dirs)) <= Bytes(dirs[0]) && |Bytes(CommonPrefix(dirs))| <= i
  {
    var longest := CommonPrefix(dirs);
    CommonPrefixIsLongest(dirs, longest);
    assert dirs[0] in dirs && dirs[j] in dirs;
    PrefixPreserved(longest, dirs[0]);
    PrefixPreserved(longest, dirs[j]);
    Agree(Bytes(longest), Bytes(dirs[0]), Bytes(dirs[j]), i);
  }

  lemma Agree(p: seq<Byte>, a: seq<Byte>, b: seq<Byte>, i: nat)
    requires p <= a && p <= b
    ensures i < |p| ==> i < |a| && i < |b| && a[i] == b[i]
  {
    assert i < |p| ==> p[i] == a[i] && p[i] == b[i];
  }

  // Backing off from the first byte that is not shared to the nearest boundary gives the
  // bytes of the longest common prefix of characters.
  lemma BackOff(dirs: seq<string>, i: nat, j: nat, end: nat)
    requires SharedUpTo(dirs, i) && i < |Bytes(dirs[0])| && j < |dirs|
    requires i >= |Bytes(dirs[j])| || Bytes(dirs[j])[i] != Bytes(dirs[0])[i]
    requires end <= i && IsBoundary(Bytes(dirs[0]), end)
    requires forall b: nat | end < b <= i :: !IsBoundary(Bytes(dirs[0]), b)
    ensures Bytes(dirs[0])[..end] == Bytes(CommonPrefix(dirs))
    ensures SliceTo(dirs[0], end) == Some(CommonPrefix(dirs))
  {
    var first, longest := dirs[0], CommonPrefix(dirs);
    var k := BoundaryIsPrefix(first, end);
    var p := first[..k];
    PrefixIsBoundary(first, k);
    forall d | d in dirs
      ensures p <= d
    {
      assert Bytes(first)[..i][..end] == Bytes(p);
      PrefixReflects(p, d);
    }
    CommonPrefixIsLongest(dirs, p);
    PrefixPreserved(p, longest);
    SharedStringsEnd(dirs, i, j);
    assert longest == first[..|longest|];
    PrefixIsBoundary(first, |longest|);
    assert |Bytes(longest)| <= end;
    SlicePrefix(first, longest);
  }

  lemma SharedOneMore(dirs: seq<string>, i: nat)
    requires SharedUpTo(dirs, i) && i < |Bytes(dirs[0])|
    requires forall d | d in dirs :: i < |Bytes(d)| && Bytes(d)[i] == Bytes(dirs[0])[i]
    ensures SharedUpTo(dirs, i + 1)
  {
    var first := Bytes(dirs[0]);
    forall d | d in dirs
      ensures first[..i + 1] <= Bytes(d)
    {
      ByteMore(first, Bytes(d), i);
    }
  }

  lemma ByteMore(a: seq<Byte>, b: seq<Byte>, i: nat)
    requires i < |a| && i < |b| && a[..i] <= b && a[i] == b[i]
    ensures a[..i + 1] <= b
  {
    assert a[..i + 1] == a[..i] + [a[i]];
  }

  // A string cut at a byte offset, which panics off a boundary.
  function SliceTo(s: string, end: nat): Option<string> {
    if end == 0 then Some("")
    else if s == "" || |CharBytes(s[0])| > end then None
    else
      match SliceTo(s[1..], end - |CharBytes(s[0])|)
      case Some(rest) => Some([s[0]] + rest)
      case None => None
  }

  lemma {:induction false} SlicePrefix(s: string, p: string)
    requires p <= s
    ensures SliceTo(s, |Bytes(p)|) == Some(p)
  {
    if p != "" {
      assert s[0] == p[0] && p[1..] <= s[1..];
      SlicePrefix(s[1..], p[1..]);
      assert [p[0]] + p[1..] == p;
    }
  }

  // The scan goes byte by byte over the first directory, comparing with all of them. It never
  // cuts through a character.
  method LongestCommonPrefix(dirs: seq<string>) returns (prefix: string)
    ensures prefix == CommonPrefix(dirs)
  {
    if dirs == [] {
      return "";
    }
    var first := Bytes(dirs[0]);
    var i := 0;
    while i < |first|
      invariant SharedUpTo(dirs, i)
    {
      var j := 0;
      while j < |dirs|
        invariant j <= |dirs|
        invariant forall d | d in dirs[..j] :: i < |Bytes(d)| && Bytes(d)[i] == first[i]
      {
        var dir := Bytes(dirs[j]);
        if i >= |dir| || dir[i] != first[i] {
          var end: nat := i;
          while !IsBoundary(first, end)
            invariant end <= i
            invariant forall b: nat | end < b <= i :: !IsBoundary(first, b)
            decreases end
          {
            end := end - 1;
          }
          BackOff(dirs, i, j, end);
          return SliceTo(dirs[0], end).value;
        }
        j := j + 1;
      }
      assert dirs[..j] == dirs;
      SharedOneMore(dirs, i);
      i := i + 1;
    }
    WholeFirst(dirs);
    return dirs[0];
  }

  lemma WholeFirst(dirs: seq<string>)
    requires dirs != [] && SharedUpTo(dirs, |Bytes(dirs[0])|)
    ensures CommonPrefix(dirs) == dirs[0]
  {
    forall d | d in dirs
      ensures dirs[0] <= d
    {
      PrefixReflects(dirs[0], d);
    }
    CommonPrefixIsLongest(dirs, dirs[0]);
    CommonPrefixIsLongest(dirs, CommonPrefix(dirs));
  }

  // ---- the directory to change to ----

  // `s[0..s.rfind('/').unwrap_or(0) + 1]`, which slices bytes: without a slash the slice is
  // the first byte, and there is none, or it is not a whole character, when this is None.
  function TrimFlawedDir(s: string): Option<string> {
    match RFind(s, '/')
    case Some(i) => Some(s[..i + 1])
    case None => if s == "" || s[0] as int >= 0x80 then None else Some(s[..1])
  }

  lemma TrimFlawedDirInRange(s: string)
    ensures TrimFlawedDir(s).Some? <==> '/' in s || (s != "" && IsBoundary(Bytes(s), 1))
    ensures TrimFlawedDir(s).Some? ==> TrimFlawedDir(s).value <= s && TrimFlawedDir(s).value != ""
  {
    var i := RFind(s, '/');
    if i.Some? {
      assert s[i.value] in s;
    } else if s != "" {
      FirstIsAscii(s);
    }
  }

  lemma FirstIsAscii(s: string)
    requires s != ""
    ensures IsBoundary(Bytes(s), 1) <==> s[0] as int < 0x80
  {
    var head, rest := CharBytes(s[0]), Bytes(s[1..]);
    assert Bytes(s) == head + rest;
    if s[0] as int >= 0x80 {
      HeadIsOneCharacter(s);
    } else if s[1..] != "" {
      CharShape(s[1]);
      assert Bytes(s)[1] == rest[0] == CharBytes(s[1])[0];
    }
  }

  // What it is for: the longest prefix that ends in a slash.
  lemma TrimIsLongest(s: string, q: string)
    requires '/' in s && q != "" && q[|q| - 1] == '/'
    ensures TrimFlawedDir(s).Some? && var t := TrimFlawedDir(s).value; t[|t| - 1] == '/' && (q <= s <==> q <= t)
  {
    var i := RFind(s, '/').value;
    NotLater(s, '/', i + 1);
  }

  lemma NotLater(s: string, c: char, n: nat)
    requires n <= |s| && c !in s[n..]
    ensures forall k | n <= k < |s| :: s[k] != c
  {
    forall k | n <= k < |s|
      ensures s[k] != c
    {
      assert s[k] == s[n..][k - n];
    }
  }

  datatype Target = Panics | Stay | ChangeTo(dir: string)

  function ChdirFor(dirs: seq<string>): Target {
    if |dirs| <= 1 then Stay
    else
      match TrimFlawedDir(CommonPrefix(dirs))
      case None => Panics
      case Some(t) => if t == "" || t == "/" then Stay else ChangeTo(t)
  }

  // ---- the options ----

  predicate IsLowerdir(option: string) {
    StartsWith(option, LOWERDIR_PREFIX)
  }

  function LowerDirs(options: seq<string>): seq<string> {
    if options == [] then []
    else
      (if IsLowerdir(options[0]) then Split(options[0][|LOWERDIR_PREFIX|..], ':') else []) + LowerDirs(options[1..])
  }

  function Relative(dirs: seq<string>, chdir: string): (r: seq<string>)
    ensures |r| == |dirs|
  {
    seq(|dirs|, i requires 0 <= i < |dirs| => if chdir <= dirs[i] then dirs[i][|chdir|..] else dirs[i])
  }

  function Replaced(options: seq<string>, lowerdir: string): (r: seq<string>)
    ensures |r| == |options|
  {
    seq(|options|, i requires 0 <= i < |options| =>
          if IsLowerdir(options[i]) then LOWERDIR_PREFIX + lowerdir else options[i])
  }

  function OptionsSize(options: seq<string>): nat {
    if options == [] then 0 else |Bytes(options[0])| + OptionsSize(options[1..])
  }

  datatype Compacted = Panicked | Options(chdir: Option<string>, options: seq<string>)

  function Compaction(options: seq<string>): Compacted {
    var dirs := LowerDirs(options);
    match ChdirFor(dirs)
    case Panics => Panicked
    case Stay => Options(None, options)
    case ChangeTo(chdir) => Options(Some(chdir), Replaced(options, Join(Relative(dirs, chdir), ':')))
  }

  class LowerdirCompactor {
    var options: seq<string>
    var lowerdirs: Option<seq<string>>
    var lowerdirPrefix: Option<string>

    constructor (opts: seq<string>)
      ensures options == opts && lowerdirs.None? && lowerdirPrefix.None?
    {
      options, lowerdirs, lowerdirPrefix := opts, None, None;
    }

    method CollectLowerdirs()
      modifies this`lowerdirs
      ensures lowerdirs == Some(LowerDirs(options))
    {
      var dirs: seq<string> := [];
      var i: nat := |options|;
      while i > 0
        invariant i <= |options| && dirs == LowerDirs(options[i..])
      {
        i := i - 1;
        assert options[i..][0] == options[i] && options[i..][1..] == options[i + 1..];
        if IsLowerdir(options[i]) {
          dirs := Split(options[i][|LOWERDIR_PREFIX|..], ':') + dirs;
        }
      }
      lowerdirs := Some(dirs);
    }

    // Returns whether it got through: slicing out of range panics.
    method FindPrefix() returns (ok: bool)
      requires lowerdirs.Some?
      modifies this`lowerdirPrefix
      ensures ok <==> !ChdirFor(lowerdirs.value).Panics?
      ensures ok ==> lowerdirPrefix == (match ChdirFor(lowerdirs.value) case ChangeTo(dir) => Some(dir) case _ => None)
    {
      lowerdirPrefix := None;
      if |lowerdirs.value| > 1 {
        var prefix := LongestCommonPrefix(lowerdirs.value);
        var trimmed := TrimFlawedDir(prefix);
        if trimmed.None? {
          return false;
        }
        if trimmed.value != "" && trimmed.value != "/" {
          lowerdirPrefix := trimmed;
        }
      }
      return true;
    }

    method Compact() returns (r: Compacted)
      modifies this
      ensures r == Compaction(old(options)) && options == old(options)
    {
      CollectLowerdirs();
      var ok := FindPrefix();
      if !ok {
        return Panicked;
      }
      if lowerdirPrefix.None? {
        return Options(None, options);
      }
      var chdir := lowerdirPrefix.value;
      var lowerdirStr := Join(Relative(lowerdirs.value, chdir), ':');
      var replaced: seq<string> := [];
      var i := 0;
      while i < |options|
        invariant i <= |options| && replaced == Replaced(options, lowerdirStr)[..i]
      {
        replaced := replaced + [if IsLowerdir(options[i]) then LOWERDIR_PREFIX + lowerdirStr else options[i]];
        i := i + 1;
      }
      return Options(Some(chdir), replaced);
    }
  }

  // ---- what compaction keeps ----

  // The number of lowerdir options.
  function Count(options: seq<string>): nat {
    if options == [] then 0 else (if IsLowerdir(options[0]) then 1 else 0) + Count(options[1..])
  }

  function Repeat<T>(xs: seq<T>, n: nat): (r: seq<T>)
    ensures |r| == n * |xs|
  {
    if n == 0 then []
    else
      OneMore(n - 1, |xs|);
      xs + Repeat(xs, n - 1)
  }

  function AsDir(path: string): string {
    if path != "" && path[|path| - 1] == '/' then path else path + "/"
  }

  // The path that the kernel follows from the root when it is given this one in a working
  // directory; an empty one names nothing.
  function Resolve(cwd: string, path: string): Option<string> {
    if path == "" then None
    else if path[0] == '/' then Some(path)
    else Some(AsDir(cwd) + path)
  }

  // The working directory after a change.
  function Changed(cwd: string, chdir: string): string {
    if chdir != "" && chdir[0] == '/' then chdir else AsDir(cwd) + chdir
  }

  const UPPERDIR_PREFIX := "upperdir="
  const WORKDIR_PREFIX := "workdir="

  // The paths in the overlay's other options.
  function UpperPaths(options: seq<string>): seq<string> {
    if options == [] then []
    else PathIn(options[0]) + UpperPaths(options[1..])
  }

  function PathIn(option: string): seq<string> {
    if StartsWith(option, UPPERDIR_PREFIX) then [option[|UPPERDIR_PREFIX|..]]
    else if StartsWith(option, WORKDIR_PREFIX) then [option[|WORKDIR_PREFIX|..]]
    else []
  }

  ghost predicate SamePaths(cwd: string, paths: seq<string>, changed: string, others: seq<string>) {
    |others| == |paths| && forall k | 0 <= k < |paths| :: Resolve(changed, others[k]) == Resolve(cwd, paths[k])
  }

  // The compacted options mean, after the change of directory, what the original ones did
  // before it: the same lower directories in the same order, the same upper and work
  // directories, and every option but the lower ones as it was. `places` are further paths
  // that the mount looks up.
  ghost predicate SameMeaning(
    cwd: string, options: seq<string>, chdir: string, compacted: seq<string>, places: seq<string>)
  {
    var changed := Changed(cwd, chdir);
    && |compacted| == |options|
    && (forall j | 0 <= j < |options| && !IsLowerdir(options[j]) :: compacted[j] == options[j])
    && SamePaths(cwd, LowerDirs(options), changed, LowerDirs(compacted))
    && SamePaths(cwd, UpperPaths(options), changed, UpperPaths(compacted))
    && SamePaths(cwd, places, changed, places)
  }

  lemma {:induction false} DirsHaveNoColon(options: seq<string>)
    ensures forall d | d in LowerDirs(options) :: ':' !in d
    ensures Count(options) <= |LowerDirs(options)| && (Count(options) == 0 ==> LowerDirs(options) == [])
  {
    if options != [] {
      DirsHaveNoColon(options[1..]);
      if IsLowerdir(options[0]) {
        JoinSplit(options[0][|LOWERDIR_PREFIX|..], ':');
      }
    }
  }

  lemma {:induction false} ReplacedDirs(options: seq<string>, text: string)
    ensures LowerDirs(Replaced(options, text)) == Repeat(Split(text, ':'), Count(options))
    ensures Count(Replaced(options, text)) == Count(options)
  {
    if options != [] {
      var r := Replaced(options, text);
      assert r[1..] == Replaced(options[1..], text);
      ReplacedDirs(options[1..], text);
      BehindPrefix(LOWERDIR_PREFIX, text);
    }
  }

  lemma BehindPrefix(prefix: string, text: string)
    ensures prefix <= prefix + text && (prefix + text)[|prefix|..] == text
  {
  }

  // Reading the compacted options back gives the relative names, once for every lowerdir
  // option there is.
  lemma CompactedDirs(options: seq<string>, chdir: string)
    ensures var rel := Relative(LowerDirs(options), chdir);
            LowerDirs(Replaced(options, Join(rel, ':'))) == Repeat(rel, Count(options))
  {
    var dirs := LowerDirs(options);
    var rel := Relative(dirs, chdir);
    DirsHaveNoColon(options);
    forall r | r in rel
      ensures ':' !in r
    {
      var k :| 0 <= k < |rel| && rel[k] == r;
      assert dirs[k] in dirs;
    }
    ReplacedDirs(options, Join(rel, ':'));
    if rel != [] {
      SplitJoin(rel, ':');
    }
  }

  lemma ChdirIsShared(dirs: seq<string>, k: nat)
    requires ChdirFor(dirs).ChangeTo? && k < |dirs|
    ensures ChdirFor(dirs).dir <= dirs[k]
    ensures ChdirFor(dirs).dir + Relative(dirs, ChdirFor(dirs).dir)[k] == dirs[k]
  {
    var p := CommonPrefix(dirs);
    CommonPrefixIsLongest(dirs, p);
    TrimFlawedDirInRange(p);
    assert dirs[k] in dirs;
  }

  // What is left of every directory after the one to change to names something below it.
  ghost predicate RestsAreNames(dirs: seq<string>, chdir: string) {
    forall d | d in dirs :: |chdir| < |d| && d[|chdir|] != '/'
  }

  lemma ResolveIff(cwd: string, chdir: string, rel: string, d: string)
    requires chdir != "" && chdir + rel == d
    ensures Resolve(Changed(cwd, chdir), rel) == Resolve(cwd, d) <==>
              chdir[|chdir| - 1] == '/' && |chdir| < |d| && d[|chdir|] != '/'
  {
    var changed := Changed(cwd, chdir);
    assert changed[|changed| - 1] == chdir[|chdir| - 1];
    assert changed + rel == (if d[0] == '/' then "" else AsDir(cwd)) + d;
    assert d[0] == chdir[0];
    if rel != "" && rel[0] == '/' {
      assert |rel| < |d|;
    } else if rel != "" && chdir[|chdir| - 1] != '/' {
      assert |changed + "/" + rel| > |changed + rel|;
    }
  }

  predicate IsRelative(path: string) {
    path != "" && path[0] != '/'
  }

  lemma UnmovedIff(cwd: string, changed: string, paths: seq<string>)
    ensures SamePaths(cwd, paths, changed, paths) <==>
              AsDir(changed) == AsDir(cwd) || forall p | p in paths :: !IsRelative(p)
  {
    forall k | 0 <= k < |paths|
      ensures Resolve(changed, paths[k]) == Resolve(cwd, paths[k]) <==>
                AsDir(changed) == AsDir(cwd) || !IsRelative(paths[k])
    {
      BeforeSame(AsDir(changed), AsDir(cwd), paths[k]);
    }
  }

  lemma BeforeSame(a: string, b: string, p: string)
    ensures a + p == b + p <==> a == b
  {
    if a + p == b + p {
      assert |a| == |b|;
      assert (a + p)[..|a|] == a && (b + p)[..|b|] == b;
    }
  }

  lemma {:induction false} ReplacedUppers(options: seq<string>, text: string)
    ensures UpperPaths(Replaced(options, text)) == UpperPaths(options)
  {
    if options != [] {
      var r := Replaced(options, text);
      assert r[1..] == Replaced(options[1..], text);
      ReplacedUppers(options[1..], text);
      if IsLowerdir(options[0]) {
        LowerIsNoUpper(options[0]);
        LowerIsNoUpper(r[0]);
      }
    }
  }

  lemma LowerIsNoUpper(option: string)
    requires IsLowerdir(option)
    ensures PathIn(option) == []
  {
    assert option[0] == LOWERDIR_PREFIX[0] == 'l' && UPPERDIR_PREFIX[0] == 'u' && WORKDIR_PREFIX[0] == 'w';
  }

  lemma ChdirEndsInSlash(dirs: seq<string>)
    requires ChdirFor(dirs).ChangeTo?
    ensures var chdir := ChdirFor(dirs).dir; chdir != "" && (chdir[|chdir| - 1] == '/' <==> '/' in CommonPrefix(dirs))
  {
    var p := CommonPrefix(dirs);
    TrimFlawedDirInRange(p);
    if '/' in p {
      TrimIsLongest(p, "/");
    } else {
      assert p[0] in p;
    }
  }

  // Nothing that is looked up after the change of directory depends on it.
  ghost predicate Unmoved(cwd: string, options: seq<string>, chdir: string, places: seq<string>) {
    || AsDir(Changed(cwd, chdir)) == AsDir(cwd)
    || forall p | p in UpperPaths(options) + places :: !IsRelative(p)
  }

  // Exactly when compaction keeps the meaning: if there is one lowerdir option, the shared
  // part has a slash in it, no directory ends or doubles the slash right after the last
  // shared one, and no other path is relative, or the change of directory leads nowhere. With
  // several lowerdir options, each is given the whole list.
  lemma KeepsMeaningIff(cwd: string, options: seq<string>, places: seq<string>)
    requires Compaction(options).Options? && Compaction(options).chdir.Some?
    ensures var dirs, c := LowerDirs(options), Compaction(options);
            SameMeaning(cwd, options, c.chdir.value, c.options, places) <==>
              && Count(options) == 1
              && '/' in CommonPrefix(dirs) && RestsAreNames(dirs, c.chdir.value)
              && Unmoved(cwd, options, c.chdir.value, places)
  {
    var dirs := LowerDirs(options);
    var chdir := Compaction(options).chdir.value;
    var changed := Changed(cwd, chdir);
    var rel := Relative(dirs, chdir);
    CompactedDirs(options, chdir);
    ChdirEndsInSlash(dirs);
    ResolvesAll(cwd, dirs, rel, chdir);
    DirsHaveNoColon(options);
    RepeatedOnce(rel, Count(options));
    ReplacedUppers(options, Join(rel, ':'));
    UnmovedIff(cwd, changed, UpperPaths(options));
    UnmovedIff(cwd, changed, places);
    assert forall p :: p in UpperPaths(options) + places <==> p in UpperPaths(options) || p in places;
  }

  lemma RelativeMoves(cwd: string, options: seq<string>, chdir: string, path: string, places: seq<string>)
    requires ChdirFor(LowerDirs(options)) == ChangeTo(chdir) && path in UpperPaths(options) && IsRelative(path)
    requires AsDir(Changed(cwd, chdir)) != AsDir(cwd)
    ensures var c := Compaction(options);
            c.Options? && c.chdir == Some(chdir) && !SameMeaning(cwd, options, chdir, c.options, places)
  {
    KeepsMeaningIff(cwd, options, places);
    assert path in UpperPaths(options) + places;
  }

  lemma RepeatedOnce(rel: seq<string>, n: nat)
    requires rel != [] && n > 0
    ensures n == 1 ==> Repeat(rel, n) == rel
    ensures n > 1 ==> |Repeat(rel, n)| > |rel|
  {
    if n == 1 {
      assert Repeat(rel, 1) == rel + Repeat(rel, 0) == rel;
    } else {
      ManyAreMore(n, |rel|);
    }
  }

  lemma ManyAreMore(n: nat, d: nat)
    requires n > 1 && d > 0
    ensures n * d > d
  {
  }

  lemma ResolvesAll(cwd: string, dirs: seq<string>, rel: seq<string>, chdir: string)
    requires ChdirFor(dirs) == ChangeTo(chdir) && rel == Relative(dirs, chdir) && chdir != ""
    ensures SamePaths(cwd, dirs, Changed(cwd, chdir), rel) <==> chdir[|chdir| - 1] == '/' && RestsAreNames(dirs, chdir)
  {
    var changed := Changed(cwd, chdir);
    forall k | 0 <= k < |dirs|
      ensures Resolve(changed, rel[k]) == Resolve(cwd, dirs[k]) <==>
                chdir[|chdir| - 1] == '/' && |chdir| < |dirs[k]| && dirs[k][|chdir|] != '/'
    {
      ChdirIsShared(dirs, k);
      ResolveIff(cwd, chdir, rel[k], dirs[k]);
    }
    assert Resolve(changed, rel[0]) == Resolve(cwd, dirs[0]) ==> chdir[|chdir| - 1] == '/';
  }

  // Absolute, and every slash is followed by a name.
  predicate CleanAbsolute(d: string) {
    d != "" && d[0] == '/' && forall k | 0 <= k < |d| && d[k] == '/' :: k + 1 < |d| && d[k + 1] != '/'
  }

  lemma CleanRestsAreNames(dirs: seq<string>)
    requires forall d | d in dirs :: CleanAbsolute(d)
    requires ChdirFor(dirs).ChangeTo? && '/' in CommonPrefix(dirs)
    ensures RestsAreNames(dirs, ChdirFor(dirs).dir)
    ensures forall d | d in dirs :: ChdirFor(dirs).dir <= d
  {
    var chdir := ChdirFor(dirs).dir;
    ChdirEndsInSlash(dirs);
    forall d | d in dirs
      ensures chdir <= d && |chdir| < |d| && d[|chdir|] != '/'
    {
      var k :| 0 <= k < |dirs| && dirs[k] == d;
      ChdirIsShared(dirs, k);
      assert d[|chdir| - 1] == chdir[|chdir| - 1];
    }
  }

  lemma AbsoluteShareSlash(dirs: seq<string>)
    requires dirs != [] && forall d | d in dirs :: d != "" && d[0] == '/'
    ensures '/' in CommonPrefix(dirs)
  {
    CommonPrefixIsLongest(dirs, "/");
    assert CommonPrefix(dirs)[0] == '/';
  }

  // For clean absolute directories there is no panic, and nothing is lost or reordered unless
  // they come in several lowerdir options or some other path is relative.
  lemma CleanDirsKeepMeaning(cwd: string, options: seq<string>, places: seq<string>)
    requires forall d | d in LowerDirs(options) :: CleanAbsolute(d)
    ensures Compaction(options).Options?
    ensures var c := Compaction(options);
            if c.chdir.None? then c.options == options
            else SameMeaning(cwd, options, c.chdir.value, c.options, places) <==>
                   Count(options) == 1 && Unmoved(cwd, options, c.chdir.value, places)
  {
    var dirs := LowerDirs(options);
    if |dirs| > 1 {
      AbsoluteShareSlash(dirs);
      if ChdirFor(dirs).ChangeTo? {
        CleanRestsAreNames(dirs);
        KeepsMeaningIff(cwd, options, places);
      }
    }
  }

  // The directory to change to is the longest common prefix that ends in a slash.
  lemma ChdirIsLongest(dirs: seq<string>, q: string)
    requires |dirs| > 1 && '/' in CommonPrefix(dirs) && q != "" && q[|q| - 1] == '/'
    ensures (forall d | d in dirs :: q <= d) <==> q <= match ChdirFor(dirs) case ChangeTo(dir) => dir case _ => "/"
    ensures !ChdirFor(dirs).Panics?
  {
    CommonPrefixIsLongest(dirs, q);
    TrimIsLongest(CommonPrefix(dirs), q);
  }

  ghost predicate SharedDir(dirs: seq<string>, q: string) {
    Shared(dirs, q) && q != "" && q[|q| - 1] == '/'
  }

  // What is trimmed is a directory that all share, and all others are above it.
  lemma TrimmedShared(dirs: seq<string>, q: string)
    requires dirs != [] && '/' in CommonPrefix(dirs)
    ensures TrimFlawedDir(CommonPrefix(dirs)).Some?
    ensures var t := TrimFlawedDir(CommonPrefix(dirs)).value; SharedDir(dirs, t) && (SharedDir(dirs, q) ==> q <= t)
  {
    var p := CommonPrefix(dirs);
    TrimFlawedDirInRange(p);
    var t := TrimFlawedDir(p).value;
    TrimIsLongest(p, "/");
    CommonPrefixIsLongest(dirs, t);
    if SharedDir(dirs, q) {
      CommonPrefixIsLongest(dirs, q);
      TrimIsLongest(p, q);
    }
  }

  // No directory is changed to exactly if the root is the only one shared.
  lemma StaysIff(dirs: seq<string>)
    requires |dirs| > 1 && '/' in CommonPrefix(dirs)
    ensures ChdirFor(dirs).Stay? <==> forall q | SharedDir(dirs, q) :: q == "/"
    ensures ChdirFor(dirs).ChangeTo? ==> ChdirFor(dirs).dir != "/"
  {
    TrimmedShared(dirs, "/");
    var t := TrimFlawedDir(CommonPrefix(dirs)).value;
    assert SharedDir(dirs, t);
    forall q | SharedDir(dirs, q) && t == "/"
      ensures q == "/"
    {
      TrimmedShared(dirs, q);
    }
  }

  // ---- how much shorter the options get ----

  lemma JoinSize(parts: seq<string>)
    requires |parts| > 1
    ensures |Bytes(Join(parts, ':'))| == |Bytes(parts[0])| + 1 + |Bytes(Join(parts[1..], ':'))|
  {
    BytesAppend(parts[0] + [':'], Join(parts[1..], ':'));
    BytesAppend(parts[0], [':']);
    CharShape(':');
    assert Bytes([':']) == CharBytes(':') + Bytes("");
  }

  // A product, in steps the sizes below are built up in.
  function Times(n: nat, x: nat): nat {
    if n == 0 then 0 else x + Times(n - 1, x)
  }

  lemma {:induction false} TimesIsProduct(n: nat, x: nat)
    ensures Times(n, x) == n * x
  {
    if n > 0 {
      TimesIsProduct(n - 1, x);
      OneMore(n - 1, x);
    }
  }

  lemma {:induction false} JoinedSize(dirs: seq<string>, rel: seq<string>, chdir: string)
    requires |rel| == |dirs| && forall k | 0 <= k < |dirs| :: chdir + rel[k] == dirs[k]
    ensures |Bytes(Join(dirs, ':'))| == |Bytes(Join(rel, ':'))| + Times(|dirs|, |Bytes(chdir)|)
  {
    if |dirs| >= 1 {
      BytesAppend(chdir, rel[0]);
      assert Times(1, |Bytes(chdir)|) == |Bytes(chdir)|;
      if |dirs| > 1 {
        forall k | 0 <= k < |dirs[1..]|
          ensures chdir + rel[1..][k] == dirs[1..][k]
        {
          assert chdir + rel[k + 1] == dirs[k + 1];
        }
        JoinedSize(dirs[1..], rel[1..], chdir);
        JoinSize(dirs);
        JoinSize(rel);
      }
    }
  }

  lemma OneMore(n: nat, c: nat)
    ensures (n + 1) * c == n * c + c
  {
  }

  // The bytes of the lists in the lowerdir options.
  function TextSize(options: seq<string>): nat {
    if options == [] then 0
    else (if IsLowerdir(options[0]) then |Bytes(options[0][|LOWERDIR_PREFIX|..])| else 0) + TextSize(options[1..])
  }

  lemma {:induction false} SizeOfReplaced(options: seq<string>, text: string)
    ensures OptionsSize(Replaced(options, text)) + TextSize(options) ==
            OptionsSize(options) + Times(Count(options), |Bytes(text)|)
  {
    if options != [] {
      var r := Replaced(options, text);
      assert r[1..] == Replaced(options[1..], text);
      SizeOfReplaced(options[1..], text);
      if IsLowerdir(options[0]) {
        Exchanged(LOWERDIR_PREFIX, options[0], text);
      }
    }
  }

  lemma Exchanged(prefix: string, option: string, text: string)
    requires prefix <= option
    ensures |Bytes(prefix + text)| + |Bytes(option[|prefix|..])| == |Bytes(option)| + |Bytes(text)|
  {
    assert option == prefix + option[|prefix|..];
    BytesAppend(prefix, option[|prefix|..]);
    BytesAppend(prefix, text);
  }

  lemma {:induction false} JoinOfAll(a: seq<string>, b: seq<string>)
    requires a != [] && b != []
    ensures |Bytes(Join(a + b, ':'))| == |Bytes(Join(a, ':'))| + 1 + |Bytes(Join(b, ':'))|
  {
    var all := a + b;
    assert all[1..] == a[1..] + b;
    JoinSize(all);
    if |a| > 1 {
      JoinSize(a);
      JoinOfAll(a[1..], b);
    } else {
      assert a[1..] + b == b;
    }
  }

  // The list of all directories is as long as the lists in the options, with a colon between
  // one and the next.
  lemma {:induction false} SizeOfAll(options: seq<string>)
    requires Count(options) > 0
    ensures |Bytes(Join(LowerDirs(options), ':'))| == TextSize(options) + Count(options) - 1
  {
    var rest := options[1..];
    DirsHaveNoColon(rest);
    if IsLowerdir(options[0]) {
      var own := options[0][|LOWERDIR_PREFIX|..];
      JoinSplit(own, ':');
      if Count(rest) > 0 {
        SizeOfAll(rest);
        JoinOfAll(Split(own, ':'), LowerDirs(rest));
      } else {
        NoText(rest);
        assert Split(own, ':') + [] == Split(own, ':');
      }
    } else {
      SizeOfAll(rest);
      assert [] + LowerDirs(rest) == LowerDirs(rest);
    }
  }

  lemma {:induction false} NoText(options: seq<string>)
    requires Count(options) == 0
    ensures TextSize(options) == 0
  {
    if options != [] {
      NoText(options[1..]);
    }
  }

  // Every directory gets shorter by the one to change to, and every lowerdir option after the
  // first costs the whole compacted list and a colon. So with one the size drops by exactly
  // the number of directories times the length of the one changed to.
  lemma SizeChangesExactly(options: seq<string>, chdir: string)
    requires ChdirFor(LowerDirs(options)) == ChangeTo(chdir)
    ensures var dirs := LowerDirs(options);
            var text := Join(Relative(dirs, chdir), ':');
            && Compaction(options) == Options(Some(chdir), Replaced(options, text))
            && Count(options) > 0
            && OptionsSize(options) + Times(Count(options) - 1, |Bytes(text)| + 1) ==
               OptionsSize(Replaced(options, text)) + Times(|dirs|, |Bytes(chdir)|)
  {
    var dirs := LowerDirs(options);
    DirsHaveNoColon(options);
    JoinShrinks(dirs);
    SizeWith(options, Join(Relative(dirs, chdir), ':'), Times(|dirs|, |Bytes(chdir)|));
  }

  lemma JoinShrinks(dirs: seq<string>)
    requires ChdirFor(dirs).ChangeTo?
    ensures var chdir := ChdirFor(dirs).dir;
            |Bytes(Join(dirs, ':'))| == |Bytes(Join(Relative(dirs, chdir), ':'))| + Times(|dirs|, |Bytes(chdir)|)
  {
    var chdir := ChdirFor(dirs).dir;
    var rel := Relative(dirs, chdir);
    forall k | 0 <= k < |dirs|
      ensures chdir + rel[k] == dirs[k]
    {
      ChdirIsShared(dirs, k);
    }
    JoinedSize(dirs, rel, chdir);
  }

  lemma SizeWith(options: seq<string>, text: string, drop: nat)
    requires Count(options) > 0 && |Bytes(Join(LowerDirs(options), ':'))| == |Bytes(text)| + drop
    ensures OptionsSize(options) +
              Times(Count(options) - 1, |Bytes(text)| + 1) == OptionsSize(Replaced(options, text)) + drop
  {
    SizeOfAll(options);
    SizeOfReplaced(options, text);
    Distribute(Count(options), |Bytes(text)|);
  }

  lemma {:induction false} Distribute(n: nat, x: nat)
    requires n > 0
    ensures Times(n - 1, x + 1) == Times(n, x) - x + n - 1
  {
    if n > 1 {
      Distribute(n - 1, x);
    }
  }

  // ---- where the code falls short ----

  ghost predicate Shared(dirs: seq<string>, q: string) {
    forall d | d in dirs :: q <= d
  }

  // Exactly when the compactor panics instead of answering: several directories that have
  // no slash in common and do not all begin with the same ASCII character.
  lemma PanicsIff(options: seq<string>)
    ensures var dirs := LowerDirs(options);
            Compaction(options).Panicked? <==>
              && |dirs| > 1
              && (forall q | Shared(dirs, q) :: '/' !in q)
              && (forall c: char | Shared(dirs, [c]) :: c as int >= 0x80)
  {
    var dirs := LowerDirs(options);
    if |dirs| > 1 {
      SharedSlash(dirs);
      SharedAscii(dirs);
    }
  }

  lemma SharedSlash(dirs: seq<string>)
    requires dirs != []
    ensures (forall q | Shared(dirs, q) :: '/' !in q) <==> '/' !in CommonPrefix(dirs)
  {
    var p := CommonPrefix(dirs);
    CommonPrefixIsLongest(dirs, p);
    assert Shared(dirs, p);
    forall q | Shared(dirs, q)
      ensures '/' in q ==> '/' in p
    {
      CommonPrefixIsLongest(dirs, q);
      assert forall k | 0 <= k < |q| :: q[k] == p[k];
    }
  }

  lemma SharedAscii(dirs: seq<string>)
    requires dirs != []
    ensures var p := CommonPrefix(dirs);
            (forall c: char | Shared(dirs, [c]) :: c as int >= 0x80) <==> p == "" || p[0] as int >= 0x80
  {
    var p := CommonPrefix(dirs);
    forall c: char
      ensures Shared(dirs, [c]) <==> [c] <= p
    {
      CommonPrefixIsLongest(dirs, [c]);
    }
    if p != "" {
      assert [p[0]] <= p;
    }
  }
}
