// How `mount_rootfs` (crates/shim/src/mount_linux.rs) turns a list of mount options into
// flags, data and mount calls. Flags are sets of MS_* bits.
module MountOptions {
  import opened Wrappers

  datatype Bit =
    | RDONLY | NOSUID | NODEV | NOEXEC | SYNCHRONOUS | REMOUNT | MANDLOCK | DIRSYNC
    | NOATIME | NODIRATIME | BIND | REC | RELATIME | STRICTATIME | SILENT
    | SHARED | PRIVATE | SLAVE | UNBINDABLE

  datatype Flag = Flag(clear: bool, flags: set<Bit>)

  const MOUNT_FLAGS: map<string, Flag> := map[
    "async" := Flag(true, {SYNCHRONOUS}),
    "atime" := Flag(true, {NOATIME}),
    "bind" := Flag(false, {BIND}),
    "defaults" := Flag(false, {}),
    "dev" := Flag(true, {NODEV}),
    "diratime" := Flag(true, {NODIRATIME}),
    "dirsync" := Flag(false, {DIRSYNC}),
    "exec" := Flag(true, {NOEXEC}),
    "mand" := Flag(false, {MANDLOCK}),
    "noatime" := Flag(false, {NOATIME}),
    "nodev" := Flag(false, {NODEV}),
    "nodiratime" := Flag(false, {NODIRATIME}),
    "noexec" := Flag(false, {NOEXEC}),
    "nomand" := Flag(true, {MANDLOCK}),
    "norelatime" := Flag(true, {RELATIME}),
    "nostrictatime" := Flag(true, {STRICTATIME}),
    "nosuid" := Flag(false, {NOSUID}),
    "rbind" := Flag(false, {BIND, REC}),
    "relatime" := Flag(false, {RELATIME}),
    "remount" := Flag(false, {REMOUNT}),
    "ro" := Flag(false, {RDONLY}),
    "rw" := Flag(true, {RDONLY}),
    "strictatime" := Flag(false, {STRICTATIME}),
    "suid" := Flag(true, {NOSUID}),
    "sync" := Flag(false, {SYNCHRONOUS})
  ]

  const PROPAGATION_TYPES: set<Bit> := {SHARED, PRIVATE, SLAVE, UNBINDABLE}
  const MS_PROPAGATION: set<Bit> := PROPAGATION_TYPES + {REC, SILENT}
  const MS_BIND_RO: set<Bit> := {BIND, RDONLY}
  const LOOP := "loop"

  // ---- what the options ask for ----

  predicate Sets(option: string, b: Bit) {
    option in MOUNT_FLAGS && !MOUNT_FLAGS[option].clear && b in MOUNT_FLAGS[option].flags
  }

  predicate Clears(option: string, b: Bit) {
    option in MOUNT_FLAGS && MOUNT_FLAGS[option].clear && b in MOUNT_FLAGS[option].flags
  }

  // Some element switches on, and none after it switches off.
  ghost predicate LastWins<T>(xs: seq<T>, on: T -> bool, off: T -> bool) {
    exists i :: 0 <= i < |xs| && on(xs[i]) && forall j | i < j < |xs| :: !off(xs[j])
  }

  // The last option that touches a bit decides about it.
  ghost predicate LastSets(options: seq<string>, b: Bit) {
    LastWins(options, o => Sets(o, b), o => Clears(o, b))
  }

  predicate IsData(option: string) {
    option !in MOUNT_FLAGS && option != LOOP
  }

  function DataOf(options: seq<string>): seq<string> {
    if options == [] then []
    else
      var before := DataOf(options[..|options| - 1]);
      var last := options[|options| - 1];
      if IsData(last) then before + [last] else before
  }

  datatype Parsed = Parsed(flags: set<Bit>, data: seq<string>, loopSetup: bool)

  lemma LastWinsOneMore<T>(xs: seq<T>, x: T, on: T -> bool, off: T -> bool)
    ensures LastWins(xs + [x], on, off) <==> on(x) || (LastWins(xs, on, off) && !off(x))
  {
    var more := xs + [x];
    if on(x) {
      assert on(more[|xs|]);
    }
    if LastWins(xs, on, off) && !off(x) {
      var i :| 0 <= i < |xs| && on(xs[i]) && forall j | i < j < |xs| :: !off(xs[j]);
      assert on(more[i]);
    }
    if LastWins(more, on, off) && !on(x) {
      var i :| 0 <= i < |more| && on(more[i]) && forall j | i < j < |more| :: !off(more[j]);
      assert !off(more[|xs|]);
      assert on(xs[i]);
      forall j | i < j < |xs|
        ensures !off(xs[j])
      {
        assert xs[j] == more[j];
      }
    }
  }

  lemma LastSetsOneMore(options: seq<string>, option: string, b: Bit)
    ensures LastSets(options + [option], b) <==> Sets(option, b) || (LastSets(options, b) && !Clears(option, b))
  {
    LastWinsOneMore(options, option, o => Sets(o, b), o => Clears(o, b));
  }

  lemma OneMore(options: seq<string>, i: nat)
    requires i < |options|
    ensures forall b ::
              LastSets(options[..i + 1], b) <==>
              Sets(options[i], b) || (LastSets(options[..i], b) && !Clears(options[i], b))
    ensures DataOf(options[..i + 1]) == DataOf(options[..i]) + if IsData(options[i]) then [options[i]] else []
    ensures LOOP in options[..i + 1] <==> LOOP in options[..i] || options[i] == LOOP
  {
    assert options[..i + 1] == options[..i] + [options[i]];
    forall b
      ensures LastSets(options[..i + 1], b) <==>
              Sets(options[i], b) || (LastSets(options[..i], b) && !Clears(options[i], b))
    {
      LastSetsOneMore(options[..i], options[i], b);
    }
  }

  method Fold(options: seq<string>) returns (r: Parsed)
    ensures forall b :: b in r.flags <==> LastSets(options, b)
    ensures r.data == DataOf(options)
    ensures r.loopSetup <==> LOOP in options
  {
    var flags: set<Bit>, data: seq<string>, loopSetup := {}, [], false;
    var i := 0;
    while i < |options|
      invariant 0 <= i <= |options|
      invariant forall b :: b in flags <==> LastSets(options[..i], b)
      invariant data == DataOf(options[..i])
      invariant loopSetup <==> LOOP in options[..i]
    {
      var x := options[i];
      OneMore(options, i);
      if x in MOUNT_FLAGS {
        var f := MOUNT_FLAGS[x];
        if f.clear {
          flags := flags - f.flags;
        } else {
          flags := flags + f.flags;
        }
      } else if x == LOOP {
        loopSetup := true;
      } else {
        data := data + [x];
      }
      i := i + 1;
    }
    assert options[..i] == options;
    return Parsed(flags, data, loopSetup);
  }

  // ---- the mount calls ----

  // A mount call as the kernel gets it. `loopDevice` says that the source is a loop device
  // set up over the given one, read-only if so asked.
  datatype Call = Mount(flags: set<Bit>, data: seq<string>, loopDevice: Option<bool>) | Change(flags: set<Bit>)

  method MountCalls(options: seq<string>) returns (calls: seq<Call>)
    ensures calls == Planned(options)
  {
    var p := Fold(options);
    calls := [];
    var oflags := p.flags - PROPAGATION_TYPES;
    var loopDevice := None;
    if p.loopSetup {
      loopDevice := Some(RDONLY in oflags);
    }
    if REMOUNT !in p.flags || p.data != [] {
      calls := calls + [Mount(oflags, p.data, loopDevice)];
    }
    // Change the propagation type.
    if p.flags * PROPAGATION_TYPES != {} {
      calls := calls + [Change(MS_PROPAGATION)];
    }
    if oflags * MS_BIND_RO == MS_BIND_RO {
      calls := calls + [Change(oflags + {REMOUNT})];
    }
    Plans(options, p.flags);
  }

  ghost function Wanted(options: seq<string>): set<Bit> {
    set b: Bit | LastSets(options, b)
  }

  // The calls in terms of the options alone: one mount with everything asked for, unless it
  // is a bare remount, and one more to make a bind mount read-only, as the kernel ignores
  // that flag the first time. The propagation call is not among them.
  ghost function Planned(options: seq<string>): seq<Call> {
    var wanted := Wanted(options);
    (if REMOUNT in wanted && DataOf(options) == [] then []
     else [Mount(wanted, DataOf(options), if LOOP in options then Some(RDONLY in wanted) else None)])
    + (if BIND in wanted && RDONLY in wanted then [Change(wanted + {REMOUNT})] else [])
  }

  // ---- what the table says ----

  // The options that set a bit, and those that clear it.
  function SetBy(b: Bit): set<string> {
    match b
    case RDONLY => {"ro"}
    case NOSUID => {"nosuid"}
    case NODEV => {"nodev"}
    case NOEXEC => {"noexec"}
    case SYNCHRONOUS => {"sync"}
    case REMOUNT => {"remount"}
    case MANDLOCK => {"mand"}
    case DIRSYNC => {"dirsync"}
    case NOATIME => {"noatime"}
    case NODIRATIME => {"nodiratime"}
    case BIND => {"bind", "rbind"}
    case REC => {"rbind"}
    case RELATIME => {"relatime"}
    case STRICTATIME => {"strictatime"}
    case _ => {}
  }

  function ClearedBy(b: Bit): set<string> {
    match b
    case RDONLY => {"rw"}
    case NOSUID => {"suid"}
    case NODEV => {"dev"}
    case NOEXEC => {"exec"}
    case SYNCHRONOUS => {"async"}
    case MANDLOCK => {"nomand"}
    case NOATIME => {"atime"}
    case NODIRATIME => {"diratime"}
    case RELATIME => {"norelatime"}
    case STRICTATIME => {"nostrictatime"}
    case _ => {}
  }

  // The bits in two halves, as the table is long.
  predicate IsRight(b: Bit) {
    b in {RDONLY, NOSUID, NODEV, NOEXEC, SYNCHRONOUS}
  }

  lemma RightsCleared(option: string, b: Bit)
    requires IsRight(b)
    ensures Clears(option, b) <==> option in ClearedBy(b)
  {
  }

  lemma OthersCleared(option: string, b: Bit)
    requires !IsRight(b)
    ensures Clears(option, b) <==> option in ClearedBy(b)
  {
  }

  lemma RightsSet(option: string, b: Bit)
    requires IsRight(b)
    ensures Sets(option, b) <==> option in SetBy(b)
  {
  }

  lemma OthersSet(option: string, b: Bit)
    requires !IsRight(b)
    ensures Sets(option, b) <==> option in SetBy(b)
  {
  }

  // Every bit has its options, and the clearing ones undo the setting ones.
  lemma TableIs(option: string, b: Bit)
    ensures Sets(option, b) <==> option in SetBy(b)
    ensures Clears(option, b) <==> option in ClearedBy(b)
  {
    if IsRight(b) {
      RightsSet(option, b);
      RightsCleared(option, b);
    } else {
      OthersSet(option, b);
      OthersCleared(option, b);
    }
  }

  lemma SomeBit(option: string)
    requires option in MOUNT_FLAGS && option != "defaults"
    ensures exists b :: b in MOUNT_FLAGS[option].flags
  {
    var flags := MOUNT_FLAGS[option].flags;
    assert flags != {};
  }

  // An option is data exactly if it is no bit's and none of the two that are about none.
  lemma IsDataIff(option: string)
    ensures IsData(option) <==>
              option != LOOP && option != "defaults" && forall b :: option !in SetBy(b) && option !in ClearedBy(b)
  {
    forall b
      ensures option in SetBy(b) || option in ClearedBy(b) <==> Sets(option, b) || Clears(option, b)
    {
      TableIs(option, b);
    }
    if option in MOUNT_FLAGS && option != "defaults" {
      SomeBit(option);
      var b :| b in MOUNT_FLAGS[option].flags;
      assert Sets(option, b) || Clears(option, b);
    }
  }

  // No option touches a propagation bit, so none is ever among the flags.
  lemma NoPropagation(options: seq<string>, b: Bit)
    requires b in PROPAGATION_TYPES || b == SILENT
    ensures !LastSets(options, b)
  {
    forall i | 0 <= i < |options|
      ensures !Sets(options[i], b)
    {
      if options[i] in MOUNT_FLAGS {
        TableAvoids(options[i], b);
      }
    }
  }

  lemma TableAvoids(option: string, b: Bit)
    requires option in MOUNT_FLAGS && (b in PROPAGATION_TYPES || b == SILENT)
    ensures b !in MOUNT_FLAGS[option].flags
  {
  }

  lemma Unasked(options: seq<string>, b: Bit)
    ensures LastSets(options, b) ==> b !in PROPAGATION_TYPES
  {
    if b in PROPAGATION_TYPES {
      NoPropagation(options, b);
    }
  }

  lemma Plans(options: seq<string>, flags: set<Bit>)
    requires forall b :: b in flags <==> LastSets(options, b)
    ensures flags == Wanted(options)
    ensures flags - PROPAGATION_TYPES == flags
    ensures flags * PROPAGATION_TYPES == {}
    ensures (flags - PROPAGATION_TYPES) * MS_BIND_RO == MS_BIND_RO <==> BIND in flags && RDONLY in flags
  {
    forall b | b in flags
      ensures b !in PROPAGATION_TYPES
    {
      Unasked(options, b);
    }
    if BIND in flags && RDONLY in flags {
      assert MS_BIND_RO <= flags;
    } else {
      assert BIND in MS_BIND_RO && RDONLY in MS_BIND_RO;
    }
  }

  // The data are the unrecognised options and nothing else, each as often as it was given.
  lemma {:induction false} DataKeepsOrder(options: seq<string>)
    ensures |DataOf(options)| <= |options|
    ensures forall d :: d in DataOf(options) <==> d in options && IsData(d)
    ensures forall d | IsData(d) :: multiset(DataOf(options))[d] == multiset(options)[d]
  {
    if options != [] {
      var past := options[..|options| - 1];
      DataKeepsOrder(past);
      assert options == past + [options[|options| - 1]];
    }
  }

  // ---- what the calls amount to ----

  // The flags that say which kind of call it is.
  const KINDS: set<Bit> := {BIND, REC, REMOUNT, SILENT}

  // The kernel: the flags in force on the target after a call. A remount sets them; a call
  // for the propagation type leaves them; a bind takes those of what it binds, whatever it
  // is told; and a new mount has those it is given.
  function InForce(now: set<Bit>, bound: set<Bit>, flags: set<Bit>): set<Bit> {
    if flags * PROPAGATION_TYPES != {} then now
    else if REMOUNT in flags then flags - KINDS
    else if BIND in flags then bound
    else flags - KINDS
  }

  function AllInForce(now: set<Bit>, bound: set<Bit>, calls: seq<Call>): set<Bit>
    decreases |calls|
  {
    if calls == [] then now else AllInForce(InForce(now, bound, calls[0].flags), bound, calls[1..])
  }

  // The last of the options that set or clear a bit, by their names, sets it.
  ghost predicate Asked(options: seq<string>, b: Bit) {
    exists i :: 0 <= i < |options| && options[i] in SetBy(b) &&
      forall j | i < j < |options| :: options[j] !in ClearedBy(b)
  }

  lemma AskedIsWanted(options: seq<string>, b: Bit)
    ensures Asked(options, b) <==> b in Wanted(options)
  {
    forall i | 0 <= i < |options|
      ensures Sets(options[i], b) <==> options[i] in SetBy(b)
      ensures Clears(options[i], b) <==> options[i] in ClearedBy(b)
    {
      TableIs(options[i], b);
    }
    if LastSets(options, b) {
      var i :| 0 <= i < |options| && Sets(options[i], b) && forall j | i < j < |options| :: !Clears(options[j], b);
      assert options[i] in SetBy(b);
    }
    if Asked(options, b) {
      var i :| 0 <= i < |options| && options[i] in SetBy(b) &&
        forall j | i < j < |options| :: options[j] !in ClearedBy(b);
      assert Sets(options[i], b);
    }
  }

  // Whether there is any call at all: a remount with nothing to tell the filesystem is none,
  // unless it is of a bind mount that is to be read-only.
  ghost predicate Bare(options: seq<string>) {
    Asked(options, REMOUNT) && DataOf(options) == []
  }

  // The flags in force afterwards: those asked for, unless a bind mount is asked for without
  // "ro", which has those of what it binds, or a bare remount, which changes nothing.
  lemma FlagsInForce(options: seq<string>, now: set<Bit>, bound: set<Bit>, b: Bit)
    ensures var bindRo := Asked(options, BIND) && Asked(options, RDONLY);
            b in AllInForce(now, bound, Planned(options)) <==>
              if Bare(options) && !bindRo then b in now
              else if Asked(options, BIND) && !Asked(options, REMOUNT) && !bindRo then b in bound
              else Asked(options, b) && b !in KINDS
  {
    AskedIsWanted(options, REMOUNT);
    AskedIsWanted(options, BIND);
    AskedIsWanted(options, RDONLY);
    AskedIsWanted(options, b);
    forall p | p in PROPAGATION_TYPES
      ensures p !in Wanted(options)
    {
      NoPropagation(options, p);
    }
    CallsInForce(options, now, bound);
  }

  lemma CallsInForce(options: seq<string>, now: set<Bit>, bound: set<Bit>)
    requires forall p | p in PROPAGATION_TYPES :: p !in Wanted(options)
    ensures var w := Wanted(options);
            AllInForce(now, bound, Planned(options)) ==
              if BIND in w && RDONLY in w then w - KINDS
              else if REMOUNT in w && DataOf(options) == [] then now
              else if BIND in w && REMOUNT !in w then bound
              else w - KINDS
  {
    var w := Wanted(options);
    var calls := Planned(options);
    RemountInForce(now, bound, w);
    RemountInForce(bound, bound, w);
    RemountInForce(w - KINDS, bound, w);
    OneAsked(now, bound, w);
    if |calls| == 2 {
      TwoInForce(now, bound, calls[0], calls[1]);
      assert calls == [calls[0], calls[1]];
    } else if |calls| == 1 {
      OneInForce(now, bound, calls[0]);
      assert calls == [calls[0]];
    }
  }

  lemma OneInForce(now: set<Bit>, bound: set<Bit>, a: Call)
    ensures AllInForce(now, bound, [a]) == InForce(now, bound, a.flags)
  {
    assert [a][1..] == [];
  }

  lemma TwoInForce(now: set<Bit>, bound: set<Bit>, a: Call, b: Call)
    ensures AllInForce(now, bound, [a, b]) == InForce(InForce(now, bound, a.flags), bound, b.flags)
  {
    assert [a, b][1..] == [b];
    OneInForce(InForce(now, bound, a.flags), bound, b);
  }

  lemma OneAsked(now: set<Bit>, bound: set<Bit>, w: set<Bit>)
    requires forall p | p in PROPAGATION_TYPES :: p !in w
    ensures InForce(now, bound, w) == if REMOUNT in w then w - KINDS else if BIND in w then bound else w - KINDS
  {
    assert w * PROPAGATION_TYPES == {};
  }

  lemma RemountInForce(now: set<Bit>, bound: set<Bit>, w: set<Bit>)
    requires forall p | p in PROPAGATION_TYPES :: p !in w
    ensures InForce(now, bound, w + {REMOUNT}) == w - KINDS
  {
    assert (w + {REMOUNT}) * PROPAGATION_TYPES == {};
    assert w + {REMOUNT} - KINDS == w - KINDS;
  }

  // So the mount is read-only exactly if the last of "ro" and "rw" is "ro", but for a bind
  // without "ro" of what is read-only, and for a bare remount of anything but a bind mount.
  lemma ReadOnlyIff(options: seq<string>, now: set<Bit>, bound: set<Bit>)
    ensures var ro := exists i ::
              0 <= i < |options| && options[i] == "ro" && forall j | i < j < |options| :: options[j] != "rw";
            RDONLY in AllInForce(now, bound, Planned(options)) <==>
              if Bare(options) && !(ro && Asked(options, BIND)) then RDONLY in now
              else ro || (Asked(options, BIND) && !Asked(options, REMOUNT) && RDONLY in bound)
  {
    FlagsInForce(options, now, bound, RDONLY);
    assert SetBy(RDONLY) == {"ro"} && ClearedBy(RDONLY) == {"rw"};
    if Asked(options, RDONLY) {
      var i :| 0 <= i < |options| && options[i] in SetBy(RDONLY) &&
        forall j | i < j < |options| :: options[j] !in ClearedBy(RDONLY);
      assert options[i] == "ro";
    }
    if i :| 0 <= i < |options| && options[i] == "ro" && forall j | i < j < |options| :: options[j] != "rw" {
      assert options[i] in SetBy(RDONLY);
    }
  }

  // What the filesystem is told, and where the mount comes from: one call carries the data
  // and the loop device, which is read-only exactly if "ro" is asked for; a bare remount has
  // none. The only other call is the one that makes a bind mount read-only.
  lemma CallsCarry(options: seq<string>)
    ensures var calls := Planned(options);
            var mounts := if Bare(options) then 0 else 1;
            && |calls| == mounts + (if Asked(options, BIND) && Asked(options, RDONLY) then 1 else 0)
            && (forall k | 0 <= k < |calls| :: calls[k].Mount? <==> k < mounts)
            && (mounts == 1 ==>
                  && calls[0].data == DataOf(options)
                  && (calls[0].loopDevice.Some? <==> "loop" in options)
                  && (calls[0].loopDevice.Some? ==> (calls[0].loopDevice.value <==> Asked(options, RDONLY))))
  {
    AskedIsWanted(options, REMOUNT);
    AskedIsWanted(options, BIND);
    AskedIsWanted(options, RDONLY);
  }
}
