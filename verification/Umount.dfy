// Unmounting everything at and below a directory (crates/shim/src/mount_linux.rs), over a
// mount table in which mounts can be stacked on one point.
module Umount {
  import opened Wrappers
  import opened Strings
  import opened Utf8

  datatype Errno = EINVAL | EBUSY

  // Whether a mountpoint is strictly below another, as the kernel sees it.
  predicate Below(m: string, p: string) {
    m != p && (p == "/" || StartsWith(m, p + "/"))
  }

  // What a file can be called.
  predicate IsName(c: string) {
    c != "" && c != "." && c != ".." && '/' !in c
  }

  // A directory is given by the names on the way to it from the root. One component of a path
  // leads from there to it itself, to its parent, or further down.
  function Enter(dir: seq<string>, c: string): seq<string> {
    if c == "" || c == "." then dir
    else if c == ".." then if dir == [] then [] else dir[..|dir| - 1]
    else dir + [c]
  }

  function Walk(dir: seq<string>, path: seq<string>): seq<string>
    decreases |path|
  {
    if path == [] then dir else Walk(Enter(dir, path[0]), path[1..])
  }

  // Where the kernel gets to with a path from a working directory, if no symbolic link is in
  // the way.
  function Place(cwd: seq<string>, path: string): seq<string> {
    Walk(if path != "" && path[0] == '/' then [] else cwd, Split(path, '/'))
  }

  ghost predicate IsPlace(dir: seq<string>) {
    forall c | c in dir :: IsName(c)
  }

  // A mountpoint as the kernel prints it: the root, or names with one slash before each.
  predicate Absolute(m: string) {
    m == "/" || (m != "" && m[0] == '/' && forall c | c in Split(m[1..], '/') :: IsName(c))
  }

  function Filter<T>(xs: seq<T>, keep: T -> bool): seq<T> {
    if xs == [] then [] else (if keep(xs[0]) then [xs[0]] else []) + Filter(xs[1..], keep)
  }

  lemma {:induction false} FilterIn<T>(xs: seq<T>, keep: T -> bool, x: T)
    ensures x in Filter(xs, keep) <==> x in xs && keep(x)
  {
    if xs != [] {
      FilterIn(xs[1..], keep, x);
      assert xs == [xs[0]] + xs[1..];
    }
  }

  lemma {:induction false} FilterSame<T>(xs: seq<T>, f: T -> bool, g: T -> bool)
    requires forall x | x in xs :: f(x) == g(x)
    ensures Filter(xs, f) == Filter(xs, g)
  {
    if xs != [] {
      FilterSame(xs[1..], f, g);
    }
  }

  // A mount table without every mount on one of the given points.
  function Except(table: seq<string>, gone: seq<string>): seq<string> {
    Filter(table, m => m !in gone)
  }

  lemma ExceptNone(table: seq<string>, gone: seq<string>)
    requires forall m | m in table :: m !in gone
    ensures Except(table, gone) == table
  {
    KeepAll(table, m => m !in gone);
  }

  lemma {:induction false} KeepAll<T>(xs: seq<T>, keep: T -> bool)
    requires forall x | x in xs :: keep(x)
    ensures Filter(xs, keep) == xs
  {
    if xs != [] {
      assert xs[0] in xs;
      KeepAll(xs[1..], keep);
    }
  }

  lemma ExceptIn(table: seq<string>, gone: seq<string>, m: string)
    ensures m in Except(table, gone) <==> m in table && m !in gone
  {
    FilterIn(table, x => x !in gone, m);
  }

  lemma {:induction false} ExceptNext(table: seq<string>, gone: seq<string>, m: string)
    ensures Except(Except(table, gone), [m]) == Except(table, gone + [m])
  {
    if table != [] {
      ExceptNext(table[1..], gone, m);
      var rest := Except(table[1..], gone);
      if table[0] in gone {
        assert Except(table, gone) == rest;
      } else {
        assert Except(table, gone) == [table[0]] + rest;
        assert Except(table, gone)[1..] == rest;
      }
    }
  }

  // ---- which mounts a target takes with it ----

  // `prefix_filter` answers true for the mounts to leave alone.
  predicate PrefixFilter(prefix: string, mountpoint: string) {
    !StartsWith(mountpoint + "/", prefix + "/")
  }

  function Listing(table: seq<string>, target: string): seq<string> {
    Filter(table, m => !PrefixFilter(target, m))
  }

  predicate AtOrBelow(m: string, target: string) {
    m == target || StartsWith(m, target + "/")
  }

  lemma FilterIsAtOrBelow(m: string, target: string)
    ensures !PrefixFilter(target, m) <==> AtOrBelow(m, target)
  {
    if |m| > |target| {
      assert (m + "/")[..|target| + 1] == m[..|target| + 1];
    } else if StartsWith(m + "/", target + "/") {
      assert (m + "/")[..|target|] == m;
    }
  }

  // The filter compares whole components: no sibling whose name only begins alike.
  lemma FilterIsComponentwise(m: string, target: string)
    ensures !PrefixFilter(target, m) <==> Split(target, '/') <= Split(m, '/')
  {
    FilterIsAtOrBelow(m, target);
    if AtOrBelow(m, target) {
      if m != target {
        var rest := m[|target| + 1..];
        assert m == target + ['/'] + rest;
        SplitConcat(target, '/', rest);
      }
    } else if Split(target, '/') <= Split(m, '/') {
      PrefixIsAtOrBelow(m, target);
    }
  }

  lemma PrefixIsAtOrBelow(m: string, target: string)
    requires Split(target, '/') <= Split(m, '/')
    ensures AtOrBelow(m, target)
  {
    JoinSplit(target, '/');
    JoinSplit(m, '/');
    JoinPrefix(Split(target, '/'), Split(m, '/'), '/');
  }

  lemma {:induction false} SplitConcat<T>(a: seq<T>, sep: T, b: seq<T>)
    ensures Split(a + [sep] + b, sep) == Split(a, sep) + Split(b, sep)
  {
    var all := a + [sep] + b;
    if a == [] {
      assert all[1..] == b;
    } else {
      assert all[1..] == a[1..] + [sep] + b;
      SplitConcat(a[1..], sep, b);
    }
  }

  lemma {:induction false} JoinPrefix<T>(p: seq<seq<T>>, q: seq<seq<T>>, sep: T)
    requires p != [] && p <= q
    ensures Join(p, sep) == Join(q, sep) || Join(p, sep) + [sep] <= Join(q, sep)
  {
    assert p[0] == q[0];
    if |p| > 1 {
      assert p[1..] <= q[1..];
      JoinPrefix(p[1..], q[1..], sep);
    }
  }

  // What a target means, independently of the filter: the place it names and all that is
  // further down. An empty path names nothing.
  predicate Under(cwd: seq<string>, m: string, target: string) {
    target != "" && Place(cwd, target) <= Place([], m)
  }

  // A target the filter understands: absolute, and names all along.
  predicate Plain(target: string) {
    target != "/" && Absolute(target)
  }

  lemma {:induction false} WalkNames(dir: seq<string>, path: seq<string>)
    requires IsPlace(path)
    ensures Walk(dir, path) == dir + path
    decreases |path|
  {
    if path != [] {
      assert path[0] in path;
      WalkNames(Enter(dir, path[0]), path[1..]);
      assert Enter(dir, path[0]) + path[1..] == dir + path;
    }
  }

  lemma {:induction false} WalkIsPlace(dir: seq<string>, path: seq<string>)
    requires IsPlace(dir) && forall c | c in path :: '/' !in c
    ensures IsPlace(Walk(dir, path))
    decreases |path|
  {
    if path != [] {
      WalkIsPlace(Enter(dir, path[0]), path[1..]);
    }
  }

  lemma PlaceIsPlace(cwd: seq<string>, target: string)
    requires IsPlace(cwd)
    ensures IsPlace(Place(cwd, target))
  {
    JoinSplit(target, '/');
    WalkIsPlace(if target != "" && target[0] == '/' then [] else cwd, Split(target, '/'));
  }

  lemma AbsolutePlace(cwd: seq<string>, m: string)
    requires Absolute(m) && m != "/"
    ensures Split(m, '/') == [""] + Place(cwd, m) && Place(cwd, m) == Split(m[1..], '/') != []
  {
    var names := Split(m[1..], '/');
    assert Split(m, '/') == [[]] + names;
    assert Split(m, '/')[1..] == names;
    WalkNames([], names);
    assert [] + names == names;
  }

  lemma RootPlace(cwd: seq<string>)
    ensures Place(cwd, "/") == [] && Split("/", '/') == ["", ""]
  {
    assert "/"[1..] == "";
    assert Split("", '/') == [""];
    assert Split("/", '/') == [""] + [""];
    assert ["", ""][1..] == [""] && [""][1..] == [];
    assert Walk([], [""]) == Walk([], []) == [];
  }

  // For a plain target the filter selects exactly what the target means.
  lemma PlainMeans(cwd: seq<string>, m: string, target: string)
    requires Absolute(m) && Plain(target)
    ensures AtOrBelow(m, target) <==> Under(cwd, m, target)
  {
    FilterIsAtOrBelow(m, target);
    FilterIsComponentwise(m, target);
    AbsolutePlace(cwd, target);
    if m == "/" {
      RootPlace([]);
      assert Place(cwd, target)[0] in Split(target[1..], '/');
    } else {
      AbsolutePlace([], m);
      PrefixBehind([""], Place(cwd, target), Place([], m));
    }
  }

  // What a recursive unmount should leave.
  function Elsewhere(cwd: seq<string>, table: seq<string>, target: string): seq<string> {
    Filter(table, m => !Under(cwd, m, target))
  }

  ghost predicate TakesExactly(cwd: seq<string>, table: seq<string>, target: string) {
    (forall m | m in table :: Absolute(m)) && !RootBusy(table, target) ==>
      Remaining(table, target) == Elsewhere(cwd, table, target)
  }

  lemma PlainTakes(cwd: seq<string>, table: seq<string>, target: string)
    requires Plain(target) && forall m | m in table :: Absolute(m)
    ensures Remaining(table, target) == Elsewhere(cwd, table, target) && !RootBusy(table, target)
  {
    forall m | m in table
      ensures !AtOrBelow(m, target) == !Under(cwd, m, target)
    {
      PlainMeans(cwd, m, target);
    }
    FilterSame(table, m => !AtOrBelow(m, target), m => !Under(cwd, m, target));
  }

  // A mountpoint one name below what the target means.
  function Inside(cwd: seq<string>, target: string): string {
    "/" + Join(Place(cwd, target) + ["a"], '/')
  }

  lemma NamesArePath(names: seq<string>)
    requires names != [] && IsPlace(names)
    ensures var m := "/" + Join(names, '/'); Absolute(m) && m != "/" && Split(m[1..], '/') == names
  {
    var m := "/" + Join(names, '/');
    SplitJoin(names, '/');
    assert m[1..] == Join(names, '/');
    assert Join(names, '/') != "" by {
      assert Split("", '/') == [""] && names[|names| - 1] in names;
    }
  }

  lemma InsideIsAbsolute(cwd: seq<string>, target: string)
    requires IsPlace(cwd)
    ensures var m := Inside(cwd, target);
            && Absolute(m) && m != "/"
            && Place([], m) == Place(cwd, target) + ["a"] && Split(m, '/') == [""] + Place([], m)
    ensures IsPlace(Place([], Inside(cwd, target)))
  {
    PlaceIsPlace(cwd, target);
    NamesArePath(Place(cwd, target) + ["a"]);
    AbsolutePlace([], Inside(cwd, target));
  }

  // The filter does what the target means, whatever is mounted and wherever the shim is,
  // exactly for plain targets. For any other there is a mount that is left although it is
  // there, or, for the empty one, taken although it is not.
  lemma PlainIff(cwd: seq<string>, target: string)
    requires IsPlace(cwd)
    ensures Plain(target) <==> forall table :: TakesExactly(cwd, table, target)
  {
    if Plain(target) {
      forall table
        ensures TakesExactly(cwd, table, target)
      {
        if forall m | m in table :: Absolute(m) {
          PlainTakes(cwd, table, target);
        }
      }
    } else {
      var m := Inside(cwd, target);
      InsideIsAbsolute(cwd, target);
      NotPlainMistakes(cwd, m, target);
      assert !(m in Remaining([m], target) <==> m in Elsewhere(cwd, [m], target)) by {
        FilterIn([m], x => !AtOrBelow(x, target), m);
        FilterIn([m], x => !Under(cwd, x, target), m);
      }
      assert !TakesExactly(cwd, [m], target);
    }
  }

  lemma NotPlainMistakes(cwd: seq<string>, m: string, target: string)
    requires !Plain(target) && IsPlace(cwd) && m == Inside(cwd, target)
    ensures AtOrBelow(m, target) <==> !Under(cwd, m, target)
  {
    InsideIsAbsolute(cwd, target);
    assert Place(cwd, target) <= Place([], m);
    if target == "" {
      assert StartsWith(m, "" + "/");
    } else if target[0] == '/' {
      FilterIsAtOrBelow(m, target);
      FilterIsComponentwise(m, target);
      NoName(target);
      assert forall k | 1 <= k < |Split(m, '/')| :: Split(m, '/')[k] == Place([], m)[k - 1];
    }
  }

  lemma NoName(target: string)
    requires target != "" && target[0] == '/' && !Plain(target)
    ensures exists k :: 1 <= k < |Split(target, '/')| && !IsName(Split(target, '/')[k])
  {
    var names := Split(target[1..], '/');
    assert Split(target, '/') == [[]] + names;
    if target == "/" {
      RootPlace([]);
      assert !IsName(Split(target, '/')[1]);
    } else {
      var k :| 0 <= k < |names| && !IsName(names[k]);
      assert Split(target, '/')[k + 1] == names[k];
    }
  }

  lemma PrefixBehind<T>(head: seq<T>, a: seq<T>, b: seq<T>)
    ensures head + a <= head + b <==> a <= b
  {
    assert (head + a)[|head|..] == a && (head + b)[|head|..] == b;
    if head + a <= head + b {
      assert (head + b)[..|head + a|][|head|..] == b[..|a|];
    }
  }

  function Remaining(table: seq<string>, target: string): seq<string> {
    Filter(table, m => !AtOrBelow(m, target))
  }

  // ---- the order ----

  function Longer(a: string, b: string): bool {
    |Bytes(a)| >= |Bytes(b)|
  }

  // A stable sort, longest first.
  function Insert(x: string, xs: seq<string>): seq<string> {
    if xs == [] || Longer(x, xs[0]) then [x] + xs else [xs[0]] + Insert(x, xs[1..])
  }

  function LongestFirst(xs: seq<string>): seq<string> {
    if xs == [] then [] else Insert(xs[0], LongestFirst(xs[1..]))
  }

  ghost predicate Descending(xs: seq<string>) {
    forall i, j | 0 <= i < j < |xs| :: Longer(xs[i], xs[j])
  }

  lemma {:induction false} InsertAdds(x: string, xs: seq<string>)
    ensures multiset(Insert(x, xs)) == multiset(xs) + multiset{x}
    ensures forall y :: y in Insert(x, xs) <==> y == x || y in xs
  {
    if xs != [] {
      InsertAdds(x, xs[1..]);
      assert xs == [xs[0]] + xs[1..];
    }
  }

  lemma {:induction false} InsertSorts(x: string, xs: seq<string>)
    requires Descending(xs)
    ensures Descending(Insert(x, xs))
  {
    if xs != [] && !Longer(x, xs[0]) {
      InsertSorts(x, xs[1..]);
      var r := Insert(x, xs[1..]);
      InsertAdds(x, xs[1..]);
      forall i | 0 <= i < |r|
        ensures Longer(xs[0], r[i])
      {
        assert r[i] in r;
      }
    }
  }

  lemma {:induction false} LongestFirstSorts(xs: seq<string>)
    ensures Descending(LongestFirst(xs))
    ensures multiset(LongestFirst(xs)) == multiset(xs)
    ensures forall x :: x in LongestFirst(xs) <==> x in xs
  {
    if xs != [] {
      LongestFirstSorts(xs[1..]);
      InsertSorts(xs[0], LongestFirst(xs[1..]));
      InsertAdds(xs[0], LongestFirst(xs[1..]));
      assert xs == [xs[0]] + xs[1..];
    }
  }

  lemma BelowIsLonger(m: string, p: string)
    requires Below(m, p) && Absolute(m)
    ensures |Bytes(m)| > |Bytes(p)|
  {
    if p == "/" {
      assert "/" <= m;
      var rest := m[1..];
      assert m == "/" + rest;
      BytesAppend("/", rest);
    } else {
      var rest := m[|p|..];
      assert m == p + rest;
      BytesAppend(p, rest);
    }
  }

  // ---- the kernel and the code ----

  // `present` are the paths that can be looked up, among them every mountpoint.
  class MountTable {
    var table: seq<string>
    const present: string -> bool

    ghost predicate Valid()
      reads this
    {
      forall m | m in table :: Absolute(m) && present(m)
    }

    constructor (mounts: seq<string>, lookup: string -> bool)
      requires forall m | m in mounts :: Absolute(m) && lookup(m)
      ensures Valid() && table == mounts && present == lookup
    {
      table, present := mounts, lookup;
    }

    // Takes the topmost mount off a point.
    method Umount2(path: string) returns (r: Result<(), Errno>)
      requires Valid()
      modifies this
      ensures Valid()
      ensures r == Err(EINVAL) <==> path !in old(table)
      ensures r == Err(EBUSY) <==> path in old(table) && exists m :: m in old(table) && Below(m, path)
      ensures r.Err? ==> table == old(table)
      ensures r.Ok? ==> |table| == |old(table)| - 1
      ensures r.Ok? ==> Except(table, [path]) == Except(old(table), [path])
    {
      if path !in table {
        return Err(EINVAL);
      }
      if exists m :: m in table && Below(m, path) {
        return Err(EBUSY);
      }
      var i := |table| - 1;
      while table[i] != path
        invariant 0 <= i < |table| && path in table[..i + 1]
        decreases i
      {
        i := i - 1;
      }
      RemoveOne(table, i);
      table := table[..i] + table[i + 1..];
      return Ok(());
    }

    method UmountAll(target: string) returns (r: Result<(), Errno>)
      requires Valid()
      modifies this
      ensures Valid()
      ensures r.Err? <==> target in old(table) && exists m :: m in old(table) && Below(m, target)
      ensures r.Err? ==> table == old(table) && r.error == EBUSY
      ensures r.Ok? ==> table == Except(old(table), [target])
    {
      if !present(target) {
        ExceptNone(table, [target]);
        return Ok(());
      }
      while true
        invariant Valid()
        invariant Except(table, [target]) == Except(old(table), [target])
        invariant table == old(table) || (target in old(table) && !exists m :: m in old(table) && Below(m, target))
        decreases |table|
      {
        var umounted := Umount2(target);
        if umounted.Err? {
          if umounted.error == EINVAL {
            ExceptNone(table, [target]);
            return Ok(());
          }
          StillBusy(table, old(table), target);
          return umounted;
        }
      }
    }

    // Succeeds exactly unless it is asked for the root while other things are mounted, and
    // then takes every mount at or below the target and no other, leaving the rest in order.
    method UmountRecursive(target: Option<string>) returns (r: Result<(), Errno>)
      requires Valid()
      modifies this
      ensures Valid()
      ensures r.Err? <==> target.Some? && RootBusy(old(table), target.value)
      ensures r.Err? ==> table == old(table) && r.error == EBUSY
      ensures r.Ok? ==> table == if target.Some? then Remaining(old(table), target.value) else old(table)
      ensures target.Some? && Plain(target.value) ==>
                r.Ok? && forall cwd :: table == Elsewhere(cwd, old(table), target.value)
    {
      if target.None? {
        return Ok(());
      }
      var t := target.value;
      var mounts := LongestFirst(Listing(table, t));
      Listed(table, t);
      ExceptNone(table, mounts[..0]);
      var i := 0;
      while i < |mounts|
        invariant 0 <= i <= |mounts|
        invariant Valid()
        invariant table == Except(old(table), mounts[..i])
        invariant Clear(old(table), t, i)
      {
        var done := UmountAll(mounts[i]);
        if done.Err? {
          OnlyTheRoot(old(table), t, mounts, i);
          return done;
        }
        NowDone(old(table), t, mounts, i);
        i := i + 1;
      }
      AllTaken(old(table), t, mounts);
      return Ok(());
    }
  }

  lemma {:induction false} RemoveOne(xs: seq<string>, i: nat)
    requires i < |xs|
    ensures Except(xs[..i] + xs[i + 1..], [xs[i]]) == Except(xs, [xs[i]])
  {
    var x := xs[i];
    var ys := xs[..i] + xs[i + 1..];
    if i == 0 {
      assert ys == xs[1..];
    } else {
      RemoveOne(xs[1..], i - 1);
      assert ys[0] == xs[0] && ys[1..] == xs[1..][..i - 1] + xs[1..][i..];
    }
  }

  lemma StillBusy(now: seq<string>, before: seq<string>, target: string)
    requires Except(now, [target]) == Except(before, [target])
    requires exists m :: m in now && Below(m, target)
    ensures exists m :: m in before && Below(m, target)
  {
    var m :| m in now && Below(m, target);
    ExceptIn(now, [target], m);
    ExceptIn(before, [target], m);
  }

  ghost predicate Lists(mounts: seq<string>, table: seq<string>, t: string) {
    Descending(mounts) && forall m :: m in mounts <==> m in table && AtOrBelow(m, t)
  }

  // Some mount is left that keeps the root busy.
  ghost predicate RootBusy(table: seq<string>, t: string) {
    t == "/" && "/" in table && exists m :: m in table && m != "/"
  }

  // The mounts to come can be taken.
  ghost predicate Clear(table: seq<string>, t: string, i: nat) {
    t == "/" && i > 0 ==> forall m | m in table :: m == "/"
  }

  lemma Listed(table: seq<string>, t: string)
    ensures Lists(LongestFirst(Listing(table, t)), table, t)
  {
    var mounts := LongestFirst(Listing(table, t));
    LongestFirstSorts(Listing(table, t));
    forall m
      ensures m in mounts <==> m in table && AtOrBelow(m, t)
    {
      FilterIn(table, x => !PrefixFilter(t, x), m);
      FilterIsAtOrBelow(m, t);
    }
  }

  // Whatever is below the next mount has been taken already: it is below the target too,
  // and longer. Only the root's own listing leaves out what is below it.
  lemma NotBusy(table: seq<string>, t: string, mounts: seq<string>, i: nat)
    requires i < |mounts| && forall m | m in table :: Absolute(m)
    requires Lists(mounts, table, t)
    ensures mounts[i] in table
    ensures t != "/" ==> forall m | m in table && Below(m, mounts[i]) :: m in mounts[..i]
    ensures t == "/" ==> mounts[i] == "/"
  {
    assert mounts[i] in mounts;
    if t == "/" {
      NoDoubleSlash(mounts[i]);
    } else {
      forall m | m in table && Below(m, mounts[i])
        ensures m in mounts[..i]
      {
        BelowIsLonger(m, mounts[i]);
        BelowTarget(m, mounts[i], t);
        var j :| 0 <= j < |mounts| && mounts[j] == m;
        assert j < i;
      }
    }
  }

  lemma NoDoubleSlash(m: string)
    ensures StartsWith(m, "//") ==> !Absolute(m)
  {
    if StartsWith(m, "//") {
      assert m[1] == '/' && m[1..][0] == '/';
      assert "" in Split(m[1..], '/');
    }
  }

  lemma BelowTarget(m: string, p: string, t: string)
    requires Below(m, p) && AtOrBelow(p, t) && Absolute(m) && t != "/"
    ensures AtOrBelow(m, t)
  {
  }

  // The one way to find the next mount busy.
  lemma OnlyTheRoot(table: seq<string>, t: string, mounts: seq<string>, i: nat)
    requires i < |mounts| && forall m | m in table :: Absolute(m)
    requires Lists(mounts, table, t)
    requires mounts[i] in Except(table, mounts[..i])
    requires exists m :: m in Except(table, mounts[..i]) && Below(m, mounts[i])
    requires Clear(table, t, i)
    ensures RootBusy(table, t) && Except(table, mounts[..i]) == table
  {
    NotBusy(table, t, mounts, i);
    ExceptIn(table, mounts[..i], mounts[i]);
    var m :| m in Except(table, mounts[..i]) && Below(m, mounts[i]);
    ExceptIn(table, mounts[..i], m);
    assert m in table && m !in mounts[..i];
    ExceptNone(table, mounts[..i]);
  }

  lemma NowDone(table: seq<string>, t: string, mounts: seq<string>, i: nat)
    requires i < |mounts| && forall m | m in table :: Absolute(m)
    requires Lists(mounts, table, t)
    requires !(mounts[i] in Except(table, mounts[..i]) && exists m ::
               m in Except(table, mounts[..i]) && Below(m, mounts[i]))
    requires Clear(table, t, i)
    ensures Clear(table, t, i + 1)
    ensures Except(Except(table, mounts[..i]), [mounts[i]]) == Except(table, mounts[..i + 1])
  {
    ExceptNext(table, mounts[..i], mounts[i]);
    assert mounts[..i + 1] == mounts[..i] + [mounts[i]];
    if t == "/" && i == 0 {
      NotBusy(table, t, mounts, i);
      forall m | m in table
        ensures m == "/"
      {
        ExceptIn(table, mounts[..i], m);
        ExceptIn(table, mounts[..i], mounts[i]);
      }
    }
  }

  lemma AllTaken(table: seq<string>, t: string, mounts: seq<string>)
    requires Lists(mounts, table, t)
    requires Clear(table, t, |mounts|)
    requires forall m | m in table :: Absolute(m)
    ensures Except(table, mounts[..|mounts|]) == Remaining(table, t)
    ensures Plain(t) ==> forall cwd :: Remaining(table, t) == Elsewhere(cwd, table, t)
    ensures !RootBusy(table, t)
  {
    assert mounts[..|mounts|] == mounts;
    FilterSame(table, m => m !in mounts, m => !AtOrBelow(m, t));
    if Plain(t) {
      forall cwd
        ensures Remaining(table, t) == Elsewhere(cwd, table, t)
      {
        PlainTakes(cwd, table, t);
      }
    }
  }
}
