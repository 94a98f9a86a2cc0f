// The copy tasks of a process's stdio while they are aborted and shut down
// (crates/shim/src/asynchronous/io.rs): the copies, any number of callers of `abort` and
// `shutdown` with a handle on the same tasks, CloseIO, and copies that are set up meanwhile,
// in any interleaving. A caller can only wait for a tracker; the copies end by themselves.
module IoShutdown {
  import opened StdinHold

  // A wait for a tracker is over when it is closed and nothing it tracks runs.
  datatype Tracker = Tracker(closed: bool, running: set<nat>)

  const NEW_TRACKER: Tracker := Tracker(false, {})

  // Copies are numbered; `next` is the next one's number. `setUp` are those whose descriptors
  // are open and that have yet to be spawned. `cut` is history: those ended by the token.
  datatype Tasks = Tasks(
    outputs: Tracker,
    inputs: Tracker,
    cancelled: bool,
    stdin: Hold,
    setUp: set<nat>,
    next: nat,
    cut: set<nat>)

  function NewTasks(hold: Hold): Tasks {
    Tasks(NEW_TRACKER, NEW_TRACKER, false, hold, {}, 0, {})
  }

  datatype Phase =
    | Drains | Cancels | Releases | ClosesOutputs | ClosesInputs | Waits(outputs: bool, inputs: bool) | Returned

  // A call of `abort` or `shutdown`. `late` and `begun` are history: the copies that were
  // being set up when it began, and the number of the next one then.
  datatype Caller = Caller(phase: Phase, late: set<nat>, begun: nat)

  datatype World = World(tasks: Tasks, callers: seq<Caller>)

  datatype Step =
    // a copy is being set up, and runs
    | SetUpInput
    | SpawnInput(copy: nat)
    | SetUpOutput
    | SpawnOutput(copy: nat)
    | CloseIo
    // a copy comes to its end, or stops at the token
    | Ends(copy: nat)
    | IsCut(copy: nat)
    | CallShutdown
    | CallAbort
    | Drained(i: nat)
    | DrainTimesOut(i: nat)
    | Cancel(i: nat)
    | Release(i: nat)
    | CloseOutputs(i: nat)
    | CloseInputs(i: nat)
    | SeesOutputs(i: nat)
    | SeesInputs(i: nat)
    | Returns(i: nat)

  // ---- what happens to the tasks ----

  function HeldForInput(t: Tasks): Tasks {
    t.(stdin := Installed(t.stdin), setUp := t.setUp + {t.next}, next := t.next + 1)
  }

  function HeldForOutput(t: Tasks): Tasks {
    t.(setUp := t.setUp + {t.next}, next := t.next + 1)
  }

  function InputSpawned(t: Tasks, copy: nat): Tasks {
    t.(setUp := t.setUp - {copy}, inputs := t.inputs.(running := t.inputs.running + {copy}))
  }

  function OutputSpawned(t: Tasks, copy: nat): Tasks {
    t.(setUp := t.setUp - {copy}, outputs := t.outputs.(running := t.outputs.running + {copy}))
  }

  function InputClosed(t: Tasks): Tasks {
    t.(stdin := Released)
  }

  function CopyGone(t: Tasks, copy: nat): Tasks {
    t.(outputs := t.outputs.(running := t.outputs.running - {copy}),
        inputs := t.inputs.(running := t.inputs.running - {copy}))
  }

  function OutputsClosed(t: Tasks): Tasks {
    t.(outputs := t.outputs.(closed := true))
  }

  function InputsClosed(t: Tasks): Tasks {
    t.(inputs := t.inputs.(closed := true))
  }

  function Running(t: Tasks): set<nat> {
    t.outputs.running + t.inputs.running
  }

  // No fifo is open on account of the tasks.
  predicate HoldsNothing(t: Tasks) {
    t.outputs.running == {} && t.inputs.running == {} && t.setUp == {} && t.stdin != Open
  }

  // ---- the steps ----

  predicate AtPhase(w: World, i: nat, phase: Phase) {
    i < |w.callers| && w.callers[i].phase == phase
  }

  predicate Done(tracker: Tracker) {
    tracker.closed && tracker.running == {}
  }

  predicate Enabled(w: World, a: Step) {
    match a
    case SetUpInput => true
    case SpawnInput(copy) => copy in w.tasks.setUp
    case SetUpOutput => true
    case SpawnOutput(copy) => copy in w.tasks.setUp
    case CloseIo => true
    case Ends(copy) => copy in Running(w.tasks)
    case IsCut(copy) => copy in Running(w.tasks) && w.tasks.cancelled
    case CallShutdown => true
    case CallAbort => true
    case Drained(i) => AtPhase(w, i, Drains) && Done(w.tasks.outputs)
    case DrainTimesOut(i) => AtPhase(w, i, Drains)
    case Cancel(i) => AtPhase(w, i, Cancels)
    case Release(i) => AtPhase(w, i, Releases)
    case CloseOutputs(i) => AtPhase(w, i, ClosesOutputs)
    case CloseInputs(i) => AtPhase(w, i, ClosesInputs)
    case SeesOutputs(i) =>
      i < |w.callers| && w.callers[i].phase.Waits? && !w.callers[i].phase.outputs && Done(w.tasks.outputs)
    case SeesInputs(i) =>
      i < |w.callers| && w.callers[i].phase.Waits? && !w.callers[i].phase.inputs && Done(w.tasks.inputs)
    case Returns(i) => AtPhase(w, i, Waits(true, true))
  }

  function Called(w: World, phase: Phase): World {
    w.(callers := w.callers + [Caller(phase, w.tasks.setUp, w.tasks.next)])
  }

  function Moved(w: World, i: nat, phase: Phase): World
    requires i < |w.callers|
  {
    w.(callers := w.callers[i := w.callers[i].(phase := phase)])
  }

  function Apply(w: World, a: Step): World
    requires Enabled(w, a)
  {
    var t := w.tasks;
    match a
    case SetUpInput => w.(tasks := HeldForInput(t))
    case SpawnInput(copy) => w.(tasks := InputSpawned(t, copy))
    case SetUpOutput => w.(tasks := HeldForOutput(t))
    case SpawnOutput(copy) => w.(tasks := OutputSpawned(t, copy))
    case CloseIo => w.(tasks := InputClosed(t))
    case Ends(copy) => w.(tasks := CopyGone(t, copy))
    case IsCut(copy) => w.(tasks := CopyGone(t, copy).(cut := t.cut + {copy}))
    case CallShutdown => Called(w, Drains).(tasks := OutputsClosed(t))
    case CallAbort => Called(w, Cancels)
    case Drained(i) => Moved(w, i, Cancels)
    case DrainTimesOut(i) => Moved(w, i, Cancels)
    case Cancel(i) => Moved(w, i, Releases).(tasks := t.(cancelled := true))
    case Release(i) => Moved(w, i, ClosesOutputs).(tasks := InputClosed(t))
    case CloseOutputs(i) => Moved(w, i, ClosesInputs).(tasks := OutputsClosed(t))
    case CloseInputs(i) => Moved(w, i, Waits(false, false)).(tasks := InputsClosed(t))
    case SeesOutputs(i) => Moved(w, i, w.callers[i].phase.(outputs := true))
    case SeesInputs(i) => Moved(w, i, w.callers[i].phase.(inputs := true))
    case Returns(i) => Moved(w, i, Returned)
  }

  // ---- what every step keeps ----

  predicate Named(t: Tasks) {
    && (forall c | c in t.setUp :: c < t.next)
    && (forall c | c in t.outputs.running :: c < t.next)
    && (forall c | c in t.inputs.running :: c < t.next)
  }

  lemma NamedStep(w: World, a: Step)
    requires Named(w.tasks) && Enabled(w, a)
    ensures Named(Apply(w, a).tasks)
  {
  }

  // A copy that was set up or numbered after the call began.
  predicate Since(c: Caller, copy: nat) {
    copy in c.late || copy >= c.begun
  }

  predicate HasCancelled(phase: Phase) {
    !phase.Drains? && !phase.Cancels?
  }

  // What a call can rely on, by how far it has come.
  ghost predicate CallerOk(t: Tasks, c: Caller) {
    && c.begun <= t.next
    && (forall copy | copy in t.setUp :: Since(c, copy))
    && (c.phase.Drains? ==> t.outputs.closed)
    && (HasCancelled(c.phase) ==> t.cancelled)
    && (HasCancelled(c.phase) && !c.phase.Releases? ==> t.stdin == Released)
    && (c.phase.ClosesInputs? || c.phase.Waits? || c.phase.Returned? ==> t.outputs.closed)
    && (c.phase.Waits? || c.phase.Returned? ==> t.inputs.closed)
    && ((c.phase.Waits? && c.phase.outputs) || c.phase.Returned? ==>
          forall copy | copy in t.outputs.running :: Since(c, copy))
    && ((c.phase.Waits? && c.phase.inputs) || c.phase.Returned? ==>
          forall copy | copy in t.inputs.running :: Since(c, copy))
  }

  ghost predicate Inv(w: World) {
    && Named(w.tasks)
    && (forall i | 0 <= i < |w.callers| :: CallerOk(w.tasks, w.callers[i]))
    && (w.tasks.cut != {} ==> w.tasks.cancelled)
    && (w.tasks.cancelled ==> exists i :: 0 <= i < |w.callers| && HasCancelled(w.callers[i].phase))
  }

  predicate Init(w: World) {
    w.callers == [] && w.tasks == NewTasks(w.tasks.stdin) && w.tasks.stdin != Open
  }

  predicate OfTasks(a: Step) {
    a.SetUpInput? || a.SpawnInput? || a.SetUpOutput? || a.SpawnOutput? || a.CloseIo? || a.Ends? || a.IsCut?
  }

  lemma TasksKeepCaller(w: World, a: Step, c: Caller)
    requires Named(w.tasks) && CallerOk(w.tasks, c) && OfTasks(a) && Enabled(w, a)
    ensures CallerOk(Apply(w, a).tasks, c)
  {
  }

  lemma TasksInv(w: World, a: Step)
    requires Inv(w) && OfTasks(a) && Enabled(w, a)
    ensures Inv(Apply(w, a))
  {
    var v := Apply(w, a);
    NamedStep(w, a);
    if v.tasks.cancelled {
      var i :| 0 <= i < |w.callers| && HasCancelled(w.callers[i].phase);
      assert HasCancelled(v.callers[i].phase);
    }
    forall i | 0 <= i < |v.callers|
      ensures CallerOk(v.tasks, v.callers[i])
    {
      TasksKeepCaller(w, a, w.callers[i]);
    }
  }

  // A call's own steps only close, cancel and release, which no other call minds.
  lemma CallKeepsCaller(w: World, a: Step, c: Caller)
    requires CallerOk(w.tasks, c) && !OfTasks(a) && Enabled(w, a)
    ensures CallerOk(Apply(w, a).tasks, c)
  {
  }

  predicate SetsUp(a: Step) {
    a.SetUpInput? || a.SetUpOutput?
  }

  predicate IsCall(a: Step) {
    a.CallShutdown? || a.CallAbort?
  }

  lemma NewCallerOk(w: World, a: Step)
    requires IsCall(a) && Enabled(w, a)
    ensures var v := Apply(w, a); |v.callers| == |w.callers| + 1 && CallerOk(v.tasks, v.callers[|w.callers|])
  {
  }

  lemma CallInv(w: World, a: Step)
    requires Inv(w) && IsCall(a) && Enabled(w, a)
    ensures Inv(Apply(w, a))
  {
    var v := Apply(w, a);
    var n := |w.callers|;
    NamedStep(w, a);
    forall i | 0 <= i < |v.callers|
      ensures CallerOk(v.tasks, v.callers[i])
    {
      if i < n {
        assert v.callers[i] == w.callers[i];
        CallKeepsCaller(w, a, w.callers[i]);
      } else {
        NewCallerOk(w, a);
      }
    }
    if v.tasks.cancelled {
      var i :| 0 <= i < |w.callers| && HasCancelled(w.callers[i].phase);
      assert HasCancelled(v.callers[i].phase);
    }
  }

  // The call that takes a step gets to where it goes.
  lemma OwnStep(w: World, a: Step, i: nat)
    requires Inv(w) && !OfTasks(a) && !IsCall(a) && Enabled(w, a) && i == a.i
    ensures CallerOk(Apply(w, a).tasks, Apply(w, a).callers[i])
    ensures HasCancelled(w.callers[i].phase) ==> HasCancelled(Apply(w, a).callers[i].phase)
    ensures Apply(w, a).tasks.cancelled && !w.tasks.cancelled ==> HasCancelled(Apply(w, a).callers[i].phase)
    ensures |Apply(w, a).callers| == |w.callers| && forall j | 0 <= j < |w.callers| && j != i ::
              Apply(w, a).callers[j] == w.callers[j]
    ensures Apply(w, a).tasks.cut == w.tasks.cut && (w.tasks.cancelled ==> Apply(w, a).tasks.cancelled)
  {
    assert CallerOk(w.tasks, w.callers[i]);
  }

  lemma OwnInv(w: World, a: Step)
    requires Inv(w) && !OfTasks(a) && !IsCall(a) && Enabled(w, a)
    ensures Inv(Apply(w, a))
  {
    var v := Apply(w, a);
    OwnStep(w, a, a.i);
    NamedStep(w, a);
    forall j | 0 <= j < |v.callers|
      ensures CallerOk(v.tasks, v.callers[j])
    {
      if j != a.i {
        CallKeepsCaller(w, a, w.callers[j]);
      }
    }
    if w.tasks.cancelled {
      var j :| 0 <= j < |w.callers| && HasCancelled(w.callers[j].phase);
      assert HasCancelled(v.callers[j].phase);
    }
  }

  lemma StepInv(w: World, a: Step)
    requires Inv(w) && Enabled(w, a)
    ensures Inv(Apply(w, a))
  {
    if OfTasks(a) {
      TasksInv(w, a);
    } else if IsCall(a) {
      CallInv(w, a);
    } else {
      OwnInv(w, a);
    }
  }

  ghost predicate Run(worlds: seq<World>, steps: seq<Step>) {
    && |worlds| == |steps| + 1 && Init(worlds[0])
    && (forall k | 0 <= k < |steps| :: Enabled(worlds[k], steps[k]) && worlds[k + 1] == Apply(worlds[k], steps[k]))
  }

  lemma {:induction false} RunInv(worlds: seq<World>, steps: seq<Step>, k: nat)
    requires Run(worlds, steps) && k <= |steps|
    ensures Inv(worlds[k])
  {
    if k > 0 {
      RunInv(worlds, steps, k - 1);
      StepInv(worlds[k - 1], steps[k - 1]);
    }
  }

  // ---- what a return means ----

  // When a call has returned, and ever after, no copy that ran when it began is running, and
  // none that was not being set up then or later; the stdin hold is released for good. So
  // until another copy is set up, if none was being so, nothing runs and no fifo is held,
  // whoever else has a handle on the tasks and whatever they do with it.
  lemma ReturnsClean(worlds: seq<World>, steps: seq<Step>, k: nat, i: nat)
    requires Run(worlds, steps) && k <= |steps| && i < |worlds[k].callers| && worlds[k].callers[i].phase.Returned?
    ensures var t, c := worlds[k].tasks, worlds[k].callers[i];
            && t.cancelled && t.stdin == Released && t.outputs.closed && t.inputs.closed
            && (forall copy | copy in Running(t) :: Since(c, copy))
            && (t.next == c.begun && c.late == {} ==> HoldsNothing(t))
  {
    RunInv(worlds, steps, k);
    var t, c := worlds[k].tasks, worlds[k].callers[i];
    assert CallerOk(t, c);
    forall copy | copy in Running(t)
      ensures Since(c, copy)
    {
    }
    if t.next == c.begun && c.late == {} {
      forall copy | copy in Running(t) || copy in t.setUp
        ensures copy < t.next && Since(c, copy)
      {
      }
      NoneLeft(t, c);
    }
  }

  lemma NoneLeft(t: Tasks, c: Caller)
    requires t.next == c.begun && c.late == {} && t.stdin != Open
    requires forall copy | copy in Running(t) || copy in t.setUp :: copy < t.next && Since(c, copy)
    ensures HoldsNothing(t)
  {
    forall copy: nat
      ensures copy !in t.outputs.running && copy !in t.inputs.running && copy !in t.setUp
    {
      assert copy in t.outputs.running ==> copy in Running(t);
      assert copy in t.inputs.running ==> copy in Running(t);
    }
  }

  // A call is the same one later, and numbers only go up, by the copies set up.
  lemma CallStays(w: World, a: Step, i: nat)
    requires Enabled(w, a) && i < |w.callers|
    ensures var v := Apply(w, a);
            && i < |v.callers| && v.callers[i].late == w.callers[i].late && v.callers[i].begun == w.callers[i].begun
            && v.tasks.next == w.tasks.next + if SetsUp(a) then 1 else 0
  {
  }

  lemma {:induction false} CallLasts(worlds: seq<World>, steps: seq<Step>, m: nat, k: nat, i: nat)
    requires Run(worlds, steps) && m <= k <= |steps| && i < |worlds[m].callers|
    ensures i < |worlds[k].callers|
    ensures worlds[k].callers[i].late == worlds[m].callers[i].late
    ensures worlds[k].callers[i].begun == worlds[m].callers[i].begun
    ensures (forall x | m <= x < k :: !SetsUp(steps[x])) ==> worlds[k].tasks.next == worlds[m].tasks.next
    decreases k - m
  {
    if m < k {
      CallLasts(worlds, steps, m, k - 1, i);
      CallStays(worlds[k - 1], steps[k - 1], i);
    }
  }

  // In terms of the run: a call that begins while no copy is being set up has, when it has
  // returned and for as long as no other copy is set up, left nothing running and no fifo held.
  lemma NothingUntilNextCopy(worlds: seq<World>, steps: seq<Step>, m: nat, k: nat)
    requires Run(worlds, steps) && m < k <= |steps| && IsCall(steps[m]) && worlds[m].tasks.setUp == {}
    requires forall x | m < x < k :: !SetsUp(steps[x])
    ensures var i := |worlds[m].callers|;
            i < |worlds[k].callers| && (worlds[k].callers[i].phase.Returned? ==> HoldsNothing(worlds[k].tasks))
  {
    var i := |worlds[m].callers|;
    BeginsAt(worlds[m], steps[m]);
    CallLasts(worlds, steps, m + 1, k, i);
    if worlds[k].callers[i].phase.Returned? {
      ReturnsClean(worlds, steps, k, i);
    }
  }

  lemma BeginsAt(w: World, a: Step)
    requires IsCall(a) && Enabled(w, a)
    ensures var v := Apply(w, a);
            && |v.callers| == |w.callers| + 1 && v.tasks.next == w.tasks.next
            && v.callers[|w.callers|].late == w.tasks.setUp && v.callers[|w.callers|].begun == w.tasks.next
  {
  }

  // ---- and exactly when it means that ----

  // A run goes on with a call, and then sets up no copy.
  ghost predicate Continues(worlds: seq<World>, steps: seq<Step>, call: Step, more: seq<World>, moreSteps: seq<Step>) {
    && Run(more, moreSteps) && worlds <= more && steps + [call] <= moreSteps
    && forall x | |steps| < x < |moreSteps| :: !SetsUp(moreSteps[x])
  }

  // However the run goes on, when that call returns nothing runs and no fifo is held.
  ghost predicate LeavesNothing(worlds: seq<World>, steps: seq<Step>, call: Step)
    requires Run(worlds, steps)
  {
    forall more: seq<World>, moreSteps: seq<Step> |
      Continues(worlds, steps, call, more, moreSteps) && EndsIn(moreSteps, Returns(|worlds[|steps|].callers|)) ::
      HoldsNothing(more[|moreSteps|].tasks)
  }

  predicate EndsIn(steps: seq<Step>, a: Step) {
    steps != [] && steps[|steps| - 1] == a
  }

  // A call can be relied on to leave nothing if and only if no copy is being set up when it
  // begins. If one is, it may be spawned after the call has seen the last copy end.
  lemma LeavesNothingIff(worlds: seq<World>, steps: seq<Step>, call: Step)
    requires Run(worlds, steps) && IsCall(call)
    ensures LeavesNothing(worlds, steps, call) <==> worlds[|steps|].tasks.setUp == {}
  {
    var n := |steps|;
    if worlds[n].tasks.setUp == {} {
      forall more: seq<World>, moreSteps: seq<Step> |
        Continues(worlds, steps, call, more, moreSteps) && EndsIn(moreSteps, Returns(|worlds[n].callers|))
        ensures HoldsNothing(more[|moreSteps|].tasks)
      {
        assert moreSteps[n] == (steps + [call])[n] && more[n] == worlds[n];
        NothingUntilNextCopy(more, moreSteps, n, |moreSteps|);
      }
    } else {
      var copy :| copy in worlds[n].tasks.setUp;
      var more, moreSteps := CopyOutlives(worlds, steps, call, copy);
      assert !HoldsNothing(more[|moreSteps|].tasks);
    }
  }

  lemma Longer(worlds: seq<World>, steps: seq<Step>, a: Step) returns (more: seq<World>, moreSteps: seq<Step>)
    requires Run(worlds, steps) && Enabled(worlds[|steps|], a)
    ensures Run(more, moreSteps) && more == worlds + [Apply(worlds[|steps|], a)] && moreSteps == steps + [a]
  {
    more, moreSteps := worlds + [Apply(worlds[|steps|], a)], steps + [a];
  }

  // More steps, none of which sets up a copy.
  ghost predicate Extends(worlds: seq<World>, steps: seq<Step>, more: seq<World>, moreSteps: seq<Step>) {
    && Run(more, moreSteps) && worlds <= more && steps <= moreSteps
    && forall x | |steps| <= x < |moreSteps| :: !SetsUp(moreSteps[x])
  }

  // The call comes to its cancelling, and on to its wait.
  lemma CallCancels(worlds: seq<World>, steps: seq<Step>, call: Step) returns (more: seq<World>, moreSteps: seq<Step>)
    requires Run(worlds, steps) && IsCall(call)
    ensures Continues(worlds, steps, call, more, moreSteps)
    ensures var w, v := worlds[|steps|], more[|moreSteps|];
            && |v.callers| == |w.callers| + 1 && v.callers[|w.callers|].phase == Cancels
            && v.tasks.setUp == w.tasks.setUp
  {
    more, moreSteps := Longer(worlds, steps, call);
    if call.CallShutdown? {
      more, moreSteps := Longer(more, moreSteps, DrainTimesOut(|worlds[|steps|].callers|));
    }
  }

  lemma CancelsToWait(worlds: seq<World>, steps: seq<Step>, i: nat) returns (more: seq<World>, moreSteps: seq<Step>)
    requires Run(worlds, steps) && AtPhase(worlds[|steps|], i, Cancels)
    ensures Run(more, moreSteps) && worlds <= more
    ensures moreSteps == steps + [Cancel(i), Release(i), CloseOutputs(i), CloseInputs(i)]
    ensures var w, v := worlds[|steps|], more[|moreSteps|];
            && |v.callers| == |w.callers| && v.callers[i].phase == Waits(false, false)
            && v.tasks.setUp == w.tasks.setUp && v.tasks.outputs.closed && v.tasks.inputs.closed
  {
    more, moreSteps := Longer(worlds, steps, Cancel(i));
    more, moreSteps := Longer(more, moreSteps, Release(i));
    more, moreSteps := Longer(more, moreSteps, CloseOutputs(i));
    more, moreSteps := Longer(more, moreSteps, CloseInputs(i));
  }

  // All copies that run come to their ends.
  lemma {:induction false} AllEnd(worlds: seq<World>, steps: seq<Step>) returns (more: seq<World>, moreSteps: seq<Step>)
    requires Run(worlds, steps)
    ensures Extends(worlds, steps, more, moreSteps)
    ensures var w, v := worlds[|steps|], more[|moreSteps|];
            && v.callers == w.callers && v.tasks.setUp == w.tasks.setUp
            && v.tasks.outputs == w.tasks.outputs.(running := {}) && v.tasks.inputs == w.tasks.inputs.(running := {})
    decreases |worlds[|steps|].tasks.outputs.running| + |worlds[|steps|].tasks.inputs.running|
  {
    more, moreSteps := worlds, steps;
    var t := worlds[|steps|].tasks;
    if Running(t) != {} {
      var copy :| copy in Running(t);
      CopyWork(t, Ends(copy));
      var rest, restSteps := Longer(worlds, steps, Ends(copy));
      more, moreSteps := AllEnd(rest, restSteps);
    } else {
      EmptyTrackers(t);
    }
  }

  // The call has seen both trackers done, a copy is spawned, and the call returns.
  lemma SpawnedMeanwhile(worlds: seq<World>, steps: seq<Step>, i: nat, copy: nat)
    returns (more: seq<World>, moreSteps: seq<Step>)
    requires Run(worlds, steps) && AtPhase(worlds[|steps|], i, Waits(false, false))
    requires copy in worlds[|steps|].tasks.setUp
    requires Done(worlds[|steps|].tasks.outputs) && Done(worlds[|steps|].tasks.inputs)
    ensures Run(more, moreSteps) && worlds <= more
    ensures moreSteps == steps + [SeesOutputs(i), SeesInputs(i), SpawnInput(copy), Returns(i)]
    ensures AtPhase(more[|moreSteps|], i, Returned) && more[|moreSteps|].tasks.inputs.running == {copy}
  {
    more, moreSteps := Longer(worlds, steps, SeesOutputs(i));
    more, moreSteps := Longer(more, moreSteps, SeesInputs(i));
    more, moreSteps := Longer(more, moreSteps, SpawnInput(copy));
    more, moreSteps := Longer(more, moreSteps, Returns(i));
  }

  lemma CopyOutlives(worlds: seq<World>, steps: seq<Step>, call: Step, copy: nat)
    returns (more: seq<World>, moreSteps: seq<Step>)
    requires Run(worlds, steps) && IsCall(call) && copy in worlds[|steps|].tasks.setUp
    ensures Continues(worlds, steps, call, more, moreSteps)
    ensures EndsIn(moreSteps, Returns(|worlds[|steps|].callers|))
    ensures AtPhase(more[|moreSteps|], |worlds[|steps|].callers|, Returned)
    ensures more[|moreSteps|].tasks.inputs.running == {copy}
  {
    var n := |worlds[|steps|].callers|;
    more, moreSteps := CallCancels(worlds, steps, call);
    more, moreSteps := CancelsToWait(more, moreSteps, n);
    more, moreSteps := AllEnd(more, moreSteps);
    more, moreSteps := SpawnedMeanwhile(more, moreSteps, n, copy);
  }

  // So there is a run in which an abort returns and a copy runs on.
  lemma CopyOutlivesAbort() returns (worlds: seq<World>, steps: seq<Step>)
    ensures Run(worlds, steps) && EndsIn(steps, Returns(0))
    ensures var w := worlds[|steps|];
            |w.callers| > 0 && w.callers[0].phase.Returned? && w.tasks.inputs.running == {0}
  {
    var first, firstSteps := Longer([World(NewTasks(Pending), [])], [], SetUpInput);
    worlds, steps := CopyOutlives(first, firstSteps, CallAbort, 0);
  }

  // No copy is cut before some call is past its drain: a shutdown gives the outputs their
  // chance to end, unless another call on the same tasks does not.
  lemma CutOnlyAfterDrain(worlds: seq<World>, steps: seq<Step>, k: nat)
    requires Run(worlds, steps) && k <= |steps| && worlds[k].tasks.cut != {}
    ensures exists i :: 0 <= i < |worlds[k].callers| && HasCancelled(worlds[k].callers[i].phase)
  {
    RunInv(worlds, steps, k);
  }

  // ---- the drain ----

  // An output copy that was spawned before any call is safe for as long as every call waits
  // for the outputs: it may have ended by now, but no call has cancelled while it ran.
  ghost predicate Safe(w: World, copy: nat) {
    && copy < w.tasks.next && copy !in w.tasks.setUp && copy !in w.tasks.inputs.running && copy !in w.tasks.cut
    && (w.tasks.cancelled ==> copy !in w.tasks.outputs.running)
    && forall i | 0 <= i < |w.callers| && !w.callers[i].phase.Drains? :: copy !in w.tasks.outputs.running
  }

  lemma SafeTasks(w: World, a: Step, copy: nat)
    requires Safe(w, copy) && Enabled(w, a) && OfTasks(a)
    ensures Safe(Apply(w, a), copy)
  {
    assert Apply(w, a).callers == w.callers;
  }

  lemma SafeCall(w: World, copy: nat)
    requires Safe(w, copy)
    ensures Safe(Apply(w, CallShutdown), copy)
  {
    var v := Apply(w, CallShutdown);
    assert forall i | 0 <= i < |w.callers| :: v.callers[i] == w.callers[i];
    assert v.callers[|w.callers|].phase == Drains;
  }

  lemma SafeOwn(w: World, a: Step, copy: nat)
    requires Safe(w, copy) && Enabled(w, a) && !OfTasks(a) && !IsCall(a) && !a.DrainTimesOut?
    ensures Safe(Apply(w, a), copy)
  {
    var v := Apply(w, a);
    assert w.callers[a.i].phase.Drains? ==> a.Drained?;
    assert forall j | 0 <= j < |w.callers| && j != a.i :: v.callers[j] == w.callers[j];
  }

  lemma SpawnedSafe(w: World, copy: nat)
    requires Inv(w) && w.callers == [] && copy in w.tasks.setUp && copy !in w.tasks.inputs.running
    ensures Safe(Apply(w, SpawnOutput(copy)), copy)
  {
  }

  lemma {:induction false} StaysSafe(worlds: seq<World>, steps: seq<Step>, m: nat, k: nat, copy: nat)
    requires Run(worlds, steps) && m <= k <= |steps| && Safe(worlds[m], copy)
    requires forall x | m <= x < k :: !steps[x].CallAbort? && !steps[x].DrainTimesOut?
    ensures Safe(worlds[k], copy)
    decreases k - m
  {
    if m < k {
      StaysSafe(worlds, steps, m, k - 1, copy);
      var w, a := worlds[k - 1], steps[k - 1];
      if OfTasks(a) {
        SafeTasks(w, a, copy);
      } else if IsCall(a) {
        SafeCall(w, copy);
      } else {
        SafeOwn(w, a, copy);
      }
    }
  }

  // No copy that is being set up runs already.
  ghost predicate SetUpApart(t: Tasks) {
    forall copy | copy in t.setUp :: copy !in t.outputs.running && copy !in t.inputs.running && copy < t.next
  }

  lemma ApartStep(w: World, a: Step)
    requires SetUpApart(w.tasks) && Named(w.tasks) && Enabled(w, a)
    ensures SetUpApart(Apply(w, a).tasks)
  {
  }

  lemma {:induction false} RunApart(worlds: seq<World>, steps: seq<Step>, k: nat)
    requires Run(worlds, steps) && k <= |steps|
    ensures SetUpApart(worlds[k].tasks)
  {
    if k > 0 {
      RunApart(worlds, steps, k - 1);
      RunInv(worlds, steps, k - 1);
      ApartStep(worlds[k - 1], steps[k - 1]);
    }
  }

  lemma {:induction false} NoCallYet(worlds: seq<World>, steps: seq<Step>, m: nat)
    requires Run(worlds, steps) && m <= |steps| && forall x | 0 <= x < m :: !IsCall(steps[x])
    ensures worlds[m].callers == []
  {
    if m > 0 {
      NoCallYet(worlds, steps, m - 1);
    }
  }

  // A shutdown drains the outputs: an output copy that was spawned before any call is never
  // cut, however many shutdowns there are, unless an abort is called or a drain times out.
  lemma NeverCutInDrain(worlds: seq<World>, steps: seq<Step>, m: nat, k: nat, copy: nat)
    requires Run(worlds, steps) && m < k <= |steps| && steps[m] == SpawnOutput(copy)
    requires forall x | 0 <= x < m :: !IsCall(steps[x])
    requires forall x | 0 <= x < k :: !steps[x].CallAbort? && !steps[x].DrainTimesOut?
    ensures copy !in worlds[k].tasks.cut
    ensures worlds[k].tasks.cancelled ==> copy !in Running(worlds[k].tasks)
  {
    RunInv(worlds, steps, m);
    RunApart(worlds, steps, m);
    NoCallYet(worlds, steps, m);
    SpawnedSafe(worlds[m], copy);
    StaysSafe(worlds, steps, m + 1, k, copy);
  }

  lemma OutputRuns() returns (worlds: seq<World>, steps: seq<Step>)
    ensures Run(worlds, steps) && steps == [SetUpOutput, SpawnOutput(0), CallShutdown]
    ensures var w := worlds[|steps|];
            && AtPhase(w, 0, Drains) && w.tasks.outputs == Tracker(true, {0}) && w.tasks.inputs.running == {}
            && !w.tasks.cancelled && w.tasks.cut == {}
  {
    worlds, steps := Longer([World(NewTasks(Pending), [])], [], SetUpOutput);
    worlds, steps := Longer(worlds, steps, SpawnOutput(0));
    worlds, steps := Longer(worlds, steps, CallShutdown);
  }

  // A shutdown that gets through its drain, and one that does not.
  lemma DrainsThenCancels() returns (worlds: seq<World>, steps: seq<Step>)
    ensures Run(worlds, steps)
    ensures steps == [SetUpOutput, SpawnOutput(0), CallShutdown, Ends(0), Drained(0), Cancel(0)]
    ensures worlds[|steps|].tasks.cancelled && worlds[|steps|].tasks.cut == {}
  {
    worlds, steps := OutputRuns();
    worlds, steps := Longer(worlds, steps, Ends(0));
    worlds, steps := Longer(worlds, steps, Drained(0));
    worlds, steps := Longer(worlds, steps, Cancel(0));
  }

  lemma TimesOutAndCuts() returns (worlds: seq<World>, steps: seq<Step>)
    ensures Run(worlds, steps)
    ensures steps == [SetUpOutput, SpawnOutput(0), CallShutdown, DrainTimesOut(0), Cancel(0), IsCut(0)]
    ensures worlds[|steps|].tasks.cut == {0}
  {
    worlds, steps := OutputRuns();
    worlds, steps := Longer(worlds, steps, DrainTimesOut(0));
    worlds, steps := Longer(worlds, steps, Cancel(0));
    worlds, steps := Longer(worlds, steps, IsCut(0));
  }

  // ---- the hold ----

  // CloseIO can come at any time, and does nothing but release the hold. An input copy that
  // is set up takes it, unless it has been released.
  lemma HoldMoves(w: World)
    ensures Enabled(w, CloseIo) && Apply(w, CloseIo) == w.(tasks := w.tasks.(stdin := Released))
    ensures Enabled(w, SetUpInput) && Enabled(w, SetUpOutput)
    ensures Apply(w, SetUpInput).tasks.stdin == if w.tasks.stdin == Released then Released else Open
    ensures Apply(w, SetUpOutput).tasks.stdin == w.tasks.stdin
  {
  }

  lemma ReleasedStays(w: World, a: Step)
    requires Enabled(w, a) && w.tasks.stdin == Released
    ensures Apply(w, a).tasks.stdin == Released
  {
  }

  // Once a CloseIO or a call has released the hold it is released for good, whatever copies
  // are set up afterwards.
  lemma {:induction false} ReleasedForGood(worlds: seq<World>, steps: seq<Step>, m: nat, k: nat)
    requires Run(worlds, steps) && m < k <= |steps| && (steps[m].CloseIo? || steps[m].Release?)
    ensures worlds[k].tasks.stdin == Released
  {
    if k > m + 1 {
      ReleasedForGood(worlds, steps, m, k - 1);
      ReleasedStays(worlds[k - 1], steps[k - 1]);
    }
  }

  // ---- and that every call returns ----

  // The steps that come by themselves: not new copies, calls and CloseIOs, nor a copy's
  // ending on its own, which nobody can count on.
  predicate Own(a: Step) {
    !SetsUp(a) && !a.CloseIo? && !IsCall(a) && !a.Ends?
  }

  ghost predicate Quiet(w: World) {
    forall a | Own(a) :: !Enabled(w, a)
  }

  // A wait cannot get stuck: when nothing is left to happen by itself, all calls have
  // returned, as every copy they wait for can be cut.
  lemma QuietHasReturned(worlds: seq<World>, steps: seq<Step>, k: nat, i: nat)
    requires Run(worlds, steps) && k <= |steps| && Quiet(worlds[k]) && i < |worlds[k].callers|
    ensures worlds[k].callers[i].phase.Returned?
  {
    RunInv(worlds, steps, k);
    QuietCaller(worlds[k], i);
  }

  lemma Cannot(w: World, a: Step)
    requires Quiet(w) && Own(a)
    ensures !Enabled(w, a)
  {
  }

  lemma QuietCaller(w: World, i: nat)
    requires Inv(w) && Quiet(w) && i < |w.callers|
    ensures w.callers[i].phase.Returned?
  {
    assert CallerOk(w.tasks, w.callers[i]);
    Cannot(w, DrainTimesOut(i));
    Cannot(w, Cancel(i));
    Cannot(w, Release(i));
    Cannot(w, CloseOutputs(i));
    Cannot(w, CloseInputs(i));
    Cannot(w, SeesOutputs(i));
    Cannot(w, SeesInputs(i));
    Cannot(w, Returns(i));
    forall copy
      ensures w.tasks.cancelled ==> copy !in Running(w.tasks)
    {
      Cannot(w, IsCut(copy));
    }
    EmptyTrackers(w.tasks);
  }

  lemma EmptyTrackers(t: Tasks)
    ensures (forall copy :: copy !in Running(t)) ==> t.outputs.running == {} && t.inputs.running == {}
  {
    if forall copy :: copy !in Running(t) {
      forall copy: nat
        ensures copy !in t.outputs.running && copy !in t.inputs.running
      {
        assert copy !in Running(t);
      }
    }
  }

  function PhaseWork(phase: Phase): nat {
    match phase
    case Drains => 8
    case Cancels => 7
    case Releases => 6
    case ClosesOutputs => 5
    case ClosesInputs => 4
    case Waits(outputs, inputs) => 1 + (if outputs then 0 else 1) + (if inputs then 0 else 1)
    case Returned => 0
  }

  function CallsWork(callers: seq<Caller>): nat {
    if callers == [] then 0 else PhaseWork(callers[0].phase) + CallsWork(callers[1..])
  }

  function Work(w: World): nat {
    2 * |w.tasks.setUp| + |w.tasks.outputs.running| + |w.tasks.inputs.running| + CallsWork(w.callers)
  }

  lemma {:induction false} CallsWorkUpdate(callers: seq<Caller>, i: nat, c: Caller)
    requires i < |callers|
    ensures CallsWork(callers[i := c]) + PhaseWork(callers[i].phase) == CallsWork(callers) + PhaseWork(c.phase)
  {
    if i == 0 {
      assert callers[i := c][1..] == callers[1..];
    } else {
      assert callers[i := c][1..] == callers[1..][i - 1 := c];
      CallsWorkUpdate(callers[1..], i - 1, c);
    }
  }

  // And there are only so many such steps, however they are interleaved.
  lemma WorkDecreases(w: World, a: Step)
    requires Enabled(w, a) && (Own(a) || a.Ends?)
    ensures Work(Apply(w, a)) < Work(w)
  {
    if OfTasks(a) {
      CopyWork(w.tasks, a);
    } else {
      CallsWorkUpdate(w.callers, a.i, Apply(w, a).callers[a.i]);
    }
  }

  lemma CopyWork(t: Tasks, a: Step)
    requires a.SpawnInput? || a.SpawnOutput? ==> a.copy in t.setUp
    requires a.Ends? || a.IsCut? ==> a.copy in Running(t)
    ensures a.SpawnInput? ==> 2 * |InputSpawned(t, a.copy).setUp| + |InputSpawned(t, a.copy).inputs.running| <
                              2 * |t.setUp| + |t.inputs.running|
    ensures a.SpawnOutput? ==> 2 * |OutputSpawned(t, a.copy).setUp| + |OutputSpawned(t, a.copy).outputs.running| <
                               2 * |t.setUp| + |t.outputs.running|
    ensures a.Ends? || a.IsCut? ==> |CopyGone(t, a.copy).outputs.running| + |CopyGone(t, a.copy).inputs.running| <
                                    |t.outputs.running| + |t.inputs.running|
  {
  }
}
