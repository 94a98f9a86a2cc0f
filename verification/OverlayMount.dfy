// The two halves of `mount_rootfs` (crates/shim/src/mount_linux.rs) together: overlay options
// too long for a page are compacted before they are folded into flags and data.
module OverlayMount {
  import opened Wrappers
  import opened Strings
  import opened Utf8
  import opened Overlay
  import opened MountOptions

  // Left free in the page for the rest of the mount data.
  const RESERVE: nat := 512

  datatype Mounting = Aborted | Calls(chdir: Option<string>, calls: seq<Call>)

  predicate TooLong(fsType: Option<string>, options: seq<string>, pageSize: nat)
    requires pageSize >= RESERVE
  {
    fsType == Some("overlay") && OptionsSize(options) >= pageSize - RESERVE
  }

  // A short list is mounted as it is; a long one from inside the directory it shares.
  method MountRootfs(fsType: Option<string>, options: seq<string>, pageSize: nat) returns (r: Mounting)
    requires pageSize >= RESERVE
    ensures !TooLong(fsType, options, pageSize) ==> r == Calls(None, Planned(options))
    ensures TooLong(fsType, options, pageSize) ==>
              r == match Compaction(options)
                   case Panicked => Aborted
                   case Options(chdir, compacted) => Calls(chdir, Planned(compacted))
    // Nothing is compacted that is no overlay's, or that leaves 512 bytes of the page free.
    ensures r.Aborted? || r.chdir.Some? ==> fsType == Some("overlay") && OptionsSize(options) + 512 >= pageSize
  {
    var chdir, opts := None, options;
    if fsType == Some("overlay") && OptionsSize(options) >= pageSize - RESERVE {
      var compactor := new LowerdirCompactor(options);
      var compacted := compactor.Compact();
      if compacted.Panicked? {
        return Aborted;
      }
      chdir, opts := compacted.chdir, compacted.options;
    }
    var calls := MountCalls(opts);
    return Calls(chdir, calls);
  }

  lemma LowerdirIsData(option: string)
    requires IsLowerdir(option)
    ensures IsData(option)
  {
    assert option[3] == LOWERDIR_PREFIX[3] && option[5] == LOWERDIR_PREFIX[5] && option[8] == LOWERDIR_PREFIX[8];
  }

  lemma SameFlags(options: seq<string>, lowerdir: string, b: Bit)
    ensures LastSets(Replaced(options, lowerdir), b) <==> LastSets(options, b)
  {
    var r := Replaced(options, lowerdir);
    forall k | 0 <= k < |options|
      ensures Sets(r[k], b) == Sets(options[k], b) && Clears(r[k], b) == Clears(options[k], b)
    {
      if IsLowerdir(options[k]) {
        LowerdirIsData(options[k]);
        LowerdirIsData(r[k]);
      }
    }
    PointwiseLastWins(r, options, o => Sets(o, b), o => Clears(o, b));
  }

  lemma PointwiseLastWins<T>(xs: seq<T>, ys: seq<T>, on: T -> bool, off: T -> bool)
    requires |xs| == |ys|
    requires forall k | 0 <= k < |xs| :: on(xs[k]) == on(ys[k]) && off(xs[k]) == off(ys[k])
    ensures LastWins(xs, on, off) <==> LastWins(ys, on, off)
  {
    if LastWins(xs, on, off) {
      var i :| 0 <= i < |xs| && on(xs[i]) && forall j | i < j < |xs| :: !off(xs[j]);
      assert on(ys[i]);
    }
    if LastWins(ys, on, off) {
      var i :| 0 <= i < |ys| && on(ys[i]) && forall j | i < j < |ys| :: !off(ys[j]);
      assert on(xs[i]);
    }
  }

  lemma {:induction false} SameData(options: seq<string>, lowerdir: string)
    ensures DataOf(Replaced(options, lowerdir)) == Replaced(DataOf(options), lowerdir)
  {
    var r := Replaced(options, lowerdir);
    if options != [] {
      var n := |options| - 1;
      SameData(options[..n], lowerdir);
      assert r[..n] == Replaced(options[..n], lowerdir);
      if IsLowerdir(options[n]) {
        LowerdirIsData(options[n]);
        LowerdirIsData(r[n]);
      }
    }
  }

  // Compacting changes nothing about the mount but the lower directories in its data: the
  // same calls in the same order, each with the same flags.
  lemma CompactionKeepsCalls(options: seq<string>)
    requires Compaction(options).Options?
    ensures var c := Compaction(options).options;
            && Wanted(c) == Wanted(options)
            && (LOOP in c <==> LOOP in options)
            && |DataOf(c)| == |DataOf(options)|
            && (forall k | 0 <= k < |DataOf(c)| && !IsLowerdir(DataOf(options)[k]) ::
                  DataOf(c)[k] == DataOf(options)[k])
            && |Planned(c)| == |Planned(options)|
            && (forall k | 0 <= k < |Planned(c)| :: Planned(c)[k].flags == Planned(options)[k].flags)
  {
    if Compaction(options).chdir.Some? {
      var lowerdir := Join(Relative(LowerDirs(options), Compaction(options).chdir.value), ':');
      SameData(options, lowerdir);
      forall b
        ensures LastSets(Replaced(options, lowerdir), b) <==> LastSets(options, b)
      {
        SameFlags(options, lowerdir, b);
      }
      assert Wanted(Replaced(options, lowerdir)) == Wanted(options);
      SameLoop(options, lowerdir);
      PlannedAlike(Replaced(options, lowerdir), options);
    }
  }

  lemma PlannedAlike(a: seq<string>, b: seq<string>)
    requires Wanted(a) == Wanted(b) && |DataOf(a)| == |DataOf(b)| && (LOOP in a <==> LOOP in b)
    ensures |Planned(a)| == |Planned(b)|
    ensures forall k | 0 <= k < |Planned(a)| :: Planned(a)[k].flags == Planned(b)[k].flags
  {
  }

  lemma SameLoop(options: seq<string>, lowerdir: string)
    ensures LOOP in Replaced(options, lowerdir) <==> LOOP in options
  {
    var r := Replaced(options, lowerdir);
    forall k | 0 <= k < |options|
      ensures r[k] == LOOP <==> options[k] == LOOP
    {
      if IsLowerdir(options[k]) {
        LowerdirIsData(options[k]);
        LowerdirIsData(r[k]);
      }
    }
    if LOOP in options {
      var k :| 0 <= k < |options| && options[k] == LOOP;
      assert r[k] == LOOP;
    }
  }

  // The paths besides those in the options that a mount looks up after the change of
  // directory: its target, and its source if that is to be bound or put behind a loop device.
  ghost function PlacesOf(source: Option<string>, target: string, options: seq<string>): seq<string> {
    [target] + if source.Some? && (LOOP in options || BIND in Wanted(options)) then [source.value] else []
  }

  // Exactly when a compacted mount is the mount that was asked for: the same calls, with the
  // same flags, and every path in them leading where it led from the shim's own directory.
  lemma MountKeepsMeaningIff(cwd: string, source: Option<string>, target: string, options: seq<string>)
    requires Compaction(options).Options? && Compaction(options).chdir.Some?
    ensures var c := Compaction(options);
            && PlacesOf(source, target, c.options) == PlacesOf(source, target, options)
            && |Planned(c.options)| == |Planned(options)|
            && (forall k | 0 <= k < |Planned(options)| :: Planned(c.options)[k].flags == Planned(options)[k].flags)
    ensures var c, dirs := Compaction(options), LowerDirs(options);
            SameMeaning(cwd, options, c.chdir.value, c.options, PlacesOf(source, target, options)) <==>
              && Count(options) == 1
              && '/' in CommonPrefix(dirs) && RestsAreNames(dirs, c.chdir.value)
              && Unmoved(cwd, options, c.chdir.value, PlacesOf(source, target, options))
  {
    CompactionKeepsCalls(options);
    KeepsMeaningIff(cwd, options, PlacesOf(source, target, options));
  }

  // ---- what the bound is for ----

  lemma {:induction false} DataSize(options: seq<string>)
    ensures OptionsSize(DataOf(options)) <= OptionsSize(options) && |DataOf(options)| <= |options|
  {
    if options != [] {
      var n := |options| - 1;
      DataSize(options[..n]);
      assert options == options[..n] + [options[n]];
      SizeAppend(options[..n], options[n]);
      SizeAppend(DataOf(options[..n]), options[n]);
    }
  }

  lemma {:induction false} SizeAppend(options: seq<string>, last: string)
    ensures OptionsSize(options + [last]) == OptionsSize(options) + |Bytes(last)|
  {
    if options == [] {
      assert [] + [last] == [last] && [last][1..] == [];
    } else {
      assert (options + [last])[1..] == options[1..] + [last];
      SizeAppend(options[1..], last);
    }
  }

  lemma {:induction false} JoinedSizeAtMost(parts: seq<string>)
    requires parts != []
    ensures |Bytes(Join(parts, ','))| == OptionsSize(parts) + |parts| - 1
  {
    if |parts| > 1 {
      JoinedSizeAtMost(parts[1..]);
      BytesAppend(parts[0] + [','], Join(parts[1..], ','));
      BytesAppend(parts[0], [',']);
      CharShape(',');
      assert Bytes([',']) == CharBytes(',') + Bytes("");
    }
  }

  // Overlay options that are not too long fit into a page as the kernel is given them, with
  // commas in between, if there are no more than 513 of them.
  lemma ShortOptionsFit(options: seq<string>, pageSize: nat)
    requires pageSize >= RESERVE && !TooLong(Some("overlay"), options, pageSize) && |options| <= 513
    ensures |Bytes(Join(DataOf(options), ','))| < pageSize
  {
    DataSize(options);
    if DataOf(options) != [] {
      JoinedSizeAtMost(DataOf(options));
    }
  }

  // ---- where the code falls short ----

  // An option that makes any list too long.
  function Padding(pageSize: nat): (option: string)
    ensures option != "" && option[0] == 'x' && !IsLowerdir(option)
  {
    var option := "x" + seq(pageSize, _ => 'x');
    assert option[0] == 'x' && LOWERDIR_PREFIX[0] == 'l';
    option
  }

  lemma {:induction false} BytesAtLeast(s: string)
    ensures |Bytes(s)| >= |s|
  {
    if s != "" {
      BytesAtLeast(s[1..]);
      CharShape(s[0]);
    }
  }

  lemma PaddedIsTooLong(option: string, pageSize: nat)
    requires pageSize >= RESERVE
    ensures TooLong(Some("overlay"), [option, Padding(pageSize)], pageSize)
  {
    BytesAtLeast(Padding(pageSize));
    var options := [option, Padding(pageSize)];
    assert options[1..] == [Padding(pageSize)] && options[1..][1..] == [];
  }

  lemma DirsOfPadded(option: string, pageSize: nat)
    requires IsLowerdir(option)
    ensures var options := [option, Padding(pageSize)];
            LowerDirs(options) == Split(option[|LOWERDIR_PREFIX|..], ':') && Count(options) == 1
  {
    var options := [option, Padding(pageSize)];
    assert options[1..] == [Padding(pageSize)] && options[1..][1..] == [];
    assert LowerDirs(options[1..]) == [] && Count(options[1..]) == 0;
    assert Split(option[|LOWERDIR_PREFIX|..], ':') + [] == Split(option[|LOWERDIR_PREFIX|..], ':');
  }

  lemma SplitTwo(a: string, b: string)
    requires ':' !in a && ':' !in b
    ensures Split(a + [':'] + b, ':') == [a, b]
  {
    SplitAppend(a, ':', b);
    SplitWhole(b, ':');
  }

  lemma SharedByNone()
    ensures ChdirFor(["a", "b"]).Panics?
  {
    assert CommonPrefix(["a", "b"][1..]) == "b";
  }

  // Two relative directories with nothing in common, in a list that is to be compacted: the
  // mount is aborted.
  lemma PanicsInMount(pageSize: nat)
    requires pageSize >= RESERVE
    ensures var options := ["lowerdir=a:b", Padding(pageSize)];
            TooLong(Some("overlay"), options, pageSize) && Compaction(options).Panicked?
  {
    var option := "lowerdir=a:b";
    assert option[|LOWERDIR_PREFIX|..] == "a" + [':'] + "b";
    SplitTwo("a", "b");
    PaddedIsTooLong(option, pageSize);
    PanicsWith(option, pageSize);
  }

  lemma PanicsWith(option: string, pageSize: nat)
    requires IsLowerdir(option) && Split(option[|LOWERDIR_PREFIX|..], ':') == ["a", "b"]
    ensures Compaction([option, Padding(pageSize)]).Panicked?
  {
    DirsOfPadded(option, pageSize);
    SharedByNone();
  }

  lemma SharedBySlashes()
    ensures ChdirFor(["/s//x", "/s/y"]) == ChangeTo("/s/")
  {
    var dirs := ["/s//x", "/s/y"];
    assert CommonPrefix(dirs[1..]) == "/s/y";
    assert CommonOfTwo("/x", "y") == "";
    assert "/s//x"[1..] == "s//x" && "s//x"[1..] == "//x" && "//x"[1..] == "/x";
    assert "/s/y"[1..] == "s/y" && "s/y"[1..] == "/y" && "/y"[1..] == "y";
    assert CommonOfTwo("//x", "/y") == "/";
    assert CommonOfTwo("s//x", "s/y") == "s/";
    assert CommonPrefix(dirs) == "/s/";
  }

  // A doubled slash right after the shared part, in a list that is to be compacted: the mount
  // is made with another directory.
  lemma MistakesInMount(cwd: string, pageSize: nat)
    requires pageSize >= RESERVE
    ensures var options := ["lowerdir=/s//x:/s/y", Padding(pageSize)];
            var c := Compaction(options);
            && TooLong(Some("overlay"), options, pageSize)
            && c.Options? && c.chdir == Some("/s/") && !SameMeaning(cwd, options, "/s/", c.options, [])
  {
    var option := "lowerdir=/s//x:/s/y";
    assert option[|LOWERDIR_PREFIX|..] == "/s//x" + [':'] + "/s/y";
    SplitTwo("/s//x", "/s/y");
    PaddedIsTooLong(option, pageSize);
    MistakesWith(cwd, option, pageSize);
  }

  lemma MistakesWith(cwd: string, option: string, pageSize: nat)
    requires IsLowerdir(option) && Split(option[|LOWERDIR_PREFIX|..], ':') == ["/s//x", "/s/y"]
    ensures var options := [option, Padding(pageSize)];
            var c := Compaction(options);
            c.Options? && c.chdir == Some("/s/") && !SameMeaning(cwd, options, "/s/", c.options, [])
  {
    DirsOfPadded(option, pageSize);
    SharedBySlashes();
    var dirs := ["/s//x", "/s/y"];
    assert dirs[0] in dirs && dirs[0][3] == '/';
    KeepsMeaningIff(cwd, [option, Padding(pageSize)], []);
  }

  lemma SharedByNames()
    ensures ChdirFor(["/s/x", "/s/y"]) == ChangeTo("/s/")
  {
    var dirs := ["/s/x", "/s/y"];
    assert CommonPrefix(dirs[1..]) == "/s/y";
    assert CommonOfTwo("x", "y") == "";
    assert "/s/x"[1..] == "s/x" && "s/x"[1..] == "/x" && "/x"[1..] == "x";
    assert "/s/y"[1..] == "s/y" && "s/y"[1..] == "/y" && "/y"[1..] == "y";
    assert CommonOfTwo("/x", "/y") == "/";
    assert CommonOfTwo("s/x", "s/y") == "s/";
    assert CommonPrefix(dirs) == "/s/";
  }

  // A relative upper directory, next to lower ones that are compacted well: from anywhere but
  // the directory changed to, the mount is made with another.
  lemma UpperMoves(cwd: string, pageSize: nat)
    requires pageSize >= RESERVE && AsDir(cwd) != "/s/"
    ensures var options := ["lowerdir=/s/x:/s/y", "upperdir=u", Padding(pageSize)];
            var c := Compaction(options);
            && TooLong(Some("overlay"), options, pageSize)
            && c.Options? && c.chdir == Some("/s/") && !SameMeaning(cwd, options, "/s/", c.options, [])
  {
    var option := "lowerdir=/s/x:/s/y";
    assert option[|LOWERDIR_PREFIX|..] == "/s/x" + [':'] + "/s/y";
    SplitTwo("/s/x", "/s/y");
    UpperMovesWith(cwd, option, pageSize);
  }

  lemma UpperMovesWith(cwd: string, option: string, pageSize: nat)
    requires pageSize >= RESERVE && AsDir(cwd) != "/s/"
    requires IsLowerdir(option) && Split(option[|LOWERDIR_PREFIX|..], ':') == ["/s/x", "/s/y"]
    ensures var options := [option, "upperdir=u", Padding(pageSize)];
            var c := Compaction(options);
            && TooLong(Some("overlay"), options, pageSize)
            && c.Options? && c.chdir == Some("/s/") && !SameMeaning(cwd, options, "/s/", c.options, [])
  {
    var rest := ["upperdir=u", Padding(pageSize)];
    PaddedIsTooLong("upperdir=u", pageSize);
    StillTooLong(option, rest, pageSize);
    UpperOfPadded(option, pageSize);
    assert [option] + rest == [option, "upperdir=u", Padding(pageSize)];
    UpperMistaken(cwd, [option] + rest);
  }

  lemma StillTooLong(option: string, rest: seq<string>, pageSize: nat)
    requires pageSize >= RESERVE && TooLong(Some("overlay"), rest, pageSize)
    ensures TooLong(Some("overlay"), [option] + rest, pageSize)
  {
    assert ([option] + rest)[1..] == rest;
  }

  lemma UpperMistaken(cwd: string, options: seq<string>)
    requires LowerDirs(options) == ["/s/x", "/s/y"] && UpperPaths(options) == ["u"] && AsDir(cwd) != "/s/"
    ensures var c := Compaction(options);
            c.Options? && c.chdir == Some("/s/") && !SameMeaning(cwd, options, "/s/", c.options, [])
  {
    SharedByNames();
    assert "/s/"[0] == '/' && "/s/"[2] == '/';
    RelativeMoves(cwd, options, "/s/", "u", []);
  }

  lemma UpperOfPadded(option: string, pageSize: nat)
    requires IsLowerdir(option) && Split(option[|LOWERDIR_PREFIX|..], ':') == ["/s/x", "/s/y"]
    ensures var options := [option, "upperdir=u", Padding(pageSize)];
            UpperPaths(options) == ["u"] && LowerDirs(options) == ["/s/x", "/s/y"]
  {
    var upper, padding := "upperdir=u", Padding(pageSize);
    assert padding[0] == 'x' && UPPERDIR_PREFIX[0] == 'u' && WORKDIR_PREFIX[0] == 'w' && LOWERDIR_PREFIX[0] == 'l';
    assert PathIn(padding) == [] && upper[0] == 'u' && !IsLowerdir(upper);
    assert upper == UPPERDIR_PREFIX + "u" && PathIn(upper) == ["u"];
    LowerIsNoUpper(option);
    OptionFirst(padding, []);
    OptionFirst(upper, [padding]);
    OptionFirst(option, [upper, padding]);
    assert [padding] + [] == [padding] && [upper] + [padding] == [upper, padding];
    assert [option] + [upper, padding] == [option, upper, padding];
  }

  lemma OptionFirst(option: string, rest: seq<string>)
    ensures var options := [option] + rest;
            && UpperPaths(options) == PathIn(option) + UpperPaths(rest)
            && LowerDirs(options) ==
               (if IsLowerdir(option) then Split(option[|LOWERDIR_PREFIX|..], ':') else []) + LowerDirs(rest)
  {
    assert ([option] + rest)[1..] == rest;
  }
}
