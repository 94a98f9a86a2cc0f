// What a caller can conclude from a process's record over a whole run: when a stopped exec
// stays stopped, when a waiter wakes and whose exit it is told, and which exits are reported.
module LifecycleRecords {
  import opened Wrappers
  import opened Processes
  import opened Registry
  import opened Kernel
  import opened Lifecycle
  import opened LifecycleInvariant
  import opened LifecycleTheorems
  import opened LifecycleHistory

  function At(s: Sys, k: Key): Process {
    if Has(s.containers, k) then Get(s.containers, k) else Fresh(0)
  }

  // A start of an exec takes effect. An init is started only once, and under the pid it has.
  ghost predicate Begins(s: Sys, a: Step, k: Key) {
    k.exec.Some? && Starts(s, a, k)
  }

  // The process called `obj` is registered under the key.
  predicate Named(s: Sys, k: Key, obj: nat) {
    Has(s.containers, k) && Get(s.containers, k).obj == obj
  }

  // An instance that has been adopted and is still the process's own.
  predicate Holds(s: Sys, k: Key, obj: nat, inst: nat) {
    Named(s, k, obj) && Get(s.containers, k).inst == inst
  }

  ghost predicate MovedAt(states: seq<Sys>, steps: seq<Step>, m: nat, k: Key)
    requires m < |steps| && |states| == |steps| + 1
  {
    Moved(At(states[m], k), At(states[m + 1], k), Begins(states[m], steps[m], k), Marks(steps[m], k), |states[m].waits|)
  }

  // One process all the way from one state to another.
  ghost predicate Path(states: seq<Sys>, steps: seq<Step>, i: nat, j: nat, k: Key, obj: nat) {
    && |states| == |steps| + 1 && i <= j <= |steps|
    && (forall m | i <= m <= j :: Named(states[m], k, obj))
    && (forall m | i <= m < j :: MovedAt(states, steps, m, k))
  }

  ghost predicate NoStart(states: seq<Sys>, steps: seq<Step>, i: nat, j: nat, k: Key)
    requires i <= j <= |steps| && |states| == |steps| + 1
  {
    forall m | i <= m < j :: !Begins(states[m], steps[m], k)
  }

  ghost predicate NoMark(steps: seq<Step>, i: nat, j: nat, k: Key)
    requires i <= j <= |steps|
  {
    forall m | i <= m < j :: !Marks(steps[m], k)
  }

  ghost predicate Linked(states: seq<Sys>, steps: seq<Step>, m: nat, k: Key, obj: nat)
    requires m < |steps| && |states| == |steps| + 1
  {
    Named(states[m + 1], k, obj) ==> Named(states[m], k, obj) && MovedAt(states, steps, m, k)
  }

  // A name that is still there has been there all along, as names are not used twice.
  lemma PathTo(states: seq<Sys>, steps: seq<Step>, i: nat, j: nat, k: Key, obj: nat)
    requires Started(states, steps) && i <= j <= |steps|
    requires obj < states[i].nextObj && Named(states[j], k, obj)
    ensures Path(states, steps, i, j, k, obj)
  {
    forall m | i <= m < j
      ensures Linked(states, steps, m, k, obj)
    {
      NamesOnlyGrow(states, steps, i, m);
      PathStep(states, steps, m, k, obj);
    }
    LinkedPath(states, steps, i, j, k, obj);
  }

  lemma {:induction false} LinkedPath(states: seq<Sys>, steps: seq<Step>, i: nat, j: nat, k: Key, obj: nat)
    requires |states| == |steps| + 1 && i <= j <= |steps| && Named(states[j], k, obj)
    requires forall m | i <= m < j :: Linked(states, steps, m, k, obj)
    ensures Path(states, steps, i, j, k, obj)
    decreases j - i
  {
    if i < j {
      assert Linked(states, steps, j - 1, k, obj);
      LinkedPath(states, steps, i, j - 1, k, obj);
    }
  }

  lemma PathStep(states: seq<Sys>, steps: seq<Step>, m: nat, k: Key, obj: nat)
    requires Started(states, steps) && m < |steps|
    requires obj < states[m].nextObj
    ensures Linked(states, steps, m, k, obj)
  {
    RunFull(states, steps, m);
    assert Next(states[m], steps[m], states[m + 1]);
    StepFollows(states[m], steps[m], k, obj);
  }

  lemma {:induction false} PathInst(states: seq<Sys>, steps: seq<Step>, i: nat, j: nat, k: Key, obj: nat)
    requires Path(states, steps, i, j, k, obj)
    ensures At(states[j], k).inst >= At(states[i], k).inst
    ensures At(states[j], k).inst == At(states[i], k).inst <==> NoStart(states, steps, i, j, k)
    decreases j - i
  {
    if i < j {
      PathInst(states, steps, i, j - 1, k, obj);
      assert MovedAt(states, steps, j - 1, k);
    }
  }

  lemma {:induction false} PathStopped(states: seq<Sys>, steps: seq<Step>, i: nat, j: nat, k: Key, obj: nat)
    requires Path(states, steps, i, j, k, obj) && At(states[i], k).state == STOPPED
    ensures At(states[j], k) == At(states[i], k) <==> NoStart(states, steps, i, j, k)
    decreases j - i
  {
    PathInst(states, steps, i, j, k, obj);
    if i < j && NoStart(states, steps, i, j, k) {
      PathStopped(states, steps, i, j - 1, k, obj);
      assert MovedAt(states, steps, j - 1, k);
    }
  }

  lemma {:induction false} PathWaiter(states: seq<Sys>, steps: seq<Step>, i: nat, j: nat, k: Key, obj: nat, w: nat)
    requires Path(states, steps, i, j, k, obj) && forall m | i <= m < j :: w < |states[m].waits|
    requires w in At(states[i], k).waiters
    ensures w in At(states[j], k).waiters <==> NoMark(steps, i, j, k)
    decreases j - i
  {
    if i < j {
      PathWaiter(states, steps, i, j - 1, k, obj, w);
      assert MovedAt(states, steps, j - 1, k);
      if !NoMark(steps, i, j - 1, k) {
        assert !NoMark(steps, i, j, k);
      }
    }
  }

  lemma {:induction false} PathRecord(states: seq<Sys>, steps: seq<Step>, i: nat, j: nat, k: Key, obj: nat)
    requires Path(states, steps, i, j, k, obj) && NoMark(steps, i, j, k)
    ensures At(states[j], k).exitCode == At(states[i], k).exitCode
    ensures At(states[j], k).exitedAt == At(states[i], k).exitedAt
    decreases j - i
  {
    if i < j {
      PathRecord(states, steps, i, j - 1, k, obj);
      assert MovedAt(states, steps, j - 1, k);
    }
  }

  lemma {:induction false} LastMark(steps: seq<Step>, i: nat, j: nat, k: Key) returns (m: nat)
    requires i <= j <= |steps| && !NoMark(steps, i, j, k)
    ensures i <= m < j && Marks(steps[m], k) && NoMark(steps, m + 1, j, k)
    decreases j - i
  {
    if Marks(steps[j - 1], k) {
      m := j - 1;
    } else {
      m := LastMark(steps, i, j - 1, k);
    }
  }

  // ---- stopped processes ----

  // A process that has stopped stays as it is, for as long as it is registered, if and only
  // if no start of it takes effect; an init never gets that far.
  lemma StoppedStaysIff(states: seq<Sys>, steps: seq<Step>, i: nat, j: nat, k: Key)
    requires Started(states, steps) && i <= j <= |steps|
    requires Has(states[i].containers, k) && Get(states[i].containers, k).state == STOPPED
    requires Named(states[j], k, Get(states[i].containers, k).obj)
    ensures Get(states[j].containers, k) == Get(states[i].containers, k) <==> NoStart(states, steps, i, j, k)
  {
    RunFull(states, steps, i);
    var obj := Get(states[i].containers, k).obj;
    PathTo(states, steps, i, j, k, obj);
    PathStopped(states, steps, i, j, k, obj);
  }

  // The same for one step, from any state that satisfies the invariants: the start that takes
  // effect is a handler's finishing with success, whatever state the exec is in.
  lemma StoppedStepIff(s: Sys, a: Step, k: Key)
    requires Full(s) && Enabled(s, a) && Has(s.containers, k) && Get(s.containers, k).state == STOPPED
    ensures CallHeld(s.lock, s.containers)
    ensures Named(Apply(s, a), k, Get(s.containers, k).obj) ==>
              (Get(Apply(s, a).containers, k) == Get(s.containers, k) <==>
               !(k.exec.Some? && a == Finish(true) && s.lock.Handler? && s.lock.call == Start(k.cid, k.exec)))
  {
    StepFollows(s, a, k, Get(s.containers, k).obj);
  }

  // ---- waiters ----

  lemma {:induction false} WaitsGrow(states: seq<Sys>, steps: seq<Step>, i: nat, j: nat)
    requires Run(states, steps) && i <= j <= |steps|
    ensures |states[i].waits| <= |states[j].waits|
    decreases j - i
  {
    if i < j {
      WaitsGrow(states, steps, i, j - 1);
      WaitsGrowStep(states[j - 1], steps[j - 1], states[j - 1 + 1]);
    }
  }

  lemma WaitsGrowStep(s: Sys, a: Step, t: Sys)
    requires Next(s, a, t)
    ensures |s.waits| <= |t.waits|
  {
  }

  // A process keeps a waiter's sender exactly until it is marked, however often it is
  // started again in between.
  lemma WaiterHeldIff(states: seq<Sys>, steps: seq<Step>, i: nat, j: nat, k: Key, w: nat)
    requires Started(states, steps) && i <= j <= |steps|
    requires Has(states[i].containers, k) && w in Get(states[i].containers, k).waiters
    requires Named(states[j], k, Get(states[i].containers, k).obj)
    ensures w in Get(states[j].containers, k).waiters <==> NoMark(steps, i, j, k)
  {
    RunFull(states, steps, i);
    var obj := Get(states[i].containers, k).obj;
    assert WaitersOk(k, Get(states[i].containers, k), states[i].waits);
    PathTo(states, steps, i, j, k, obj);
    forall m | i <= m < j
      ensures w < |states[m].waits|
    {
      WaitsGrow(states, steps, i, m);
    }
    PathWaiter(states, steps, i, j, k, obj, w);
  }

  // A wait call that blocks at one step, and a later state.
  ghost predicate BlockedAt(states: seq<Sys>, steps: seq<Step>, i: nat, key: Key, j: nat) {
    && Started(states, steps) && i < j <= |steps|
    && steps[i] == WaitCalled(key) && Has(states[i].containers, key)
    && ReportedStatus(states[i].containers, key) in {RUNNING, CREATED}
  }

  lemma BlockedStarts(states: seq<Sys>, steps: seq<Step>, i: nat, key: Key, j: nat)
    requires BlockedAt(states, steps, i, key, j)
    ensures var p := Get(states[i].containers, key);
            var w := |states[i].waits|;
            && p.obj < states[i].nextObj
            && Named(states[i + 1], key, p.obj)
            && w in Get(states[i + 1].containers, key).waiters
            && Get(states[i + 1].containers, key).inst == p.inst
            && w < |states[i + 1].waits| <= |states[j].waits|
            && states[i + 1].waits[w] == Blocked(key, p.obj)
  {
    RunFull(states, steps, i);
    assert Next(states[i], steps[i], states[i + 1]);
    var p := Get(states[i].containers, key);
    WaitBlocks(states[i].containers, key, states[i].lock);
    PutGet(states[i].containers, key, Awaited(p, |states[i].waits|));
    WaitsGrow(states, steps, i + 1, j);
  }

  // No waiter wakes before its time, restarts or not: between the call and a state in which
  // it is no longer blocked, its process has been marked, unless it is not registered then.
  lemma WokenByMark(states: seq<Sys>, steps: seq<Step>, i: nat, key: Key, j: nat)
    requires BlockedAt(states, steps, i, key, j)
    requires Named(states[j], key, Get(states[i].containers, key).obj)
    ensures |states[i].waits| < |states[j].waits|
    ensures !states[j].waits[|states[i].waits|].Blocked? ==> !NoMark(steps, i + 1, j, key)
  {
    BlockedStarts(states, steps, i, key, j);
    var w := |states[i].waits|;
    WaiterHeldIff(states, steps, i + 1, j, key, w);
    RunFull(states, steps, j);
    assert WaitersOk(key, Get(states[j].containers, key), states[j].waits);
  }

  predicate ExitStays(s: Sys, t: Sys, n: nat) {
    n in s.exits ==> n in t.exits && t.exits[n] == s.exits[n]
  }

  lemma ExitsStay(s: Sys, a: Step, n: nat)
    requires CallHeld(s.lock, s.containers) && KernelOk(s.kernel, s.exits, s.nextInst) && Enabled(s, a)
    ensures ExitStays(s, Apply(s, a), n)
  {
    if a.Finish? || a.Request? || a.Launch? || a.PumpKills? || a.Orphan? {
      SpawnsKeepExits(s, a, n);
    } else if !a.Dies? {
      OthersKeepExits(s, a, n);
    }
  }

  lemma SpawnsKeepExits(s: Sys, a: Step, n: nat)
    requires CallHeld(s.lock, s.containers) && Enabled(s, a)
    requires a.Finish? || a.Request? || a.Launch? || a.PumpKills? || a.Orphan?
    ensures ExitStays(s, Apply(s, a), n)
  {
  }

  lemma OthersKeepExits(s: Sys, a: Step, n: nat)
    requires CallHeld(s.lock, s.containers) && Enabled(s, a)
    requires !a.Finish? && !a.Request? && !a.Launch? && !a.PumpKills? && !a.Orphan? && !a.Dies?
    ensures ExitStays(s, Apply(s, a), n)
  {
  }

  lemma ExitsLast(states: seq<Sys>, steps: seq<Step>, i: nat, j: nat, n: nat)
    requires Started(states, steps) && i <= j <= |steps| && n in states[i].exits
    ensures n in states[j].exits && states[j].exits[n] == states[i].exits[n]
  {
    forall m | i <= m < j
      ensures ExitStays(states[m], states[m + 1], n)
    {
      RunFull(states, steps, m);
      assert Next(states[m], steps[m], states[m + 1]);
      ExitsStay(states[m], steps[m], n);
    }
    ExitsAlong(states, i, j, n);
  }

  lemma {:induction false} ExitsAlong(states: seq<Sys>, i: nat, j: nat, n: nat)
    requires i <= j < |states| && n in states[i].exits
    requires forall m | i <= m < j :: ExitStays(states[m], states[m + 1], n)
    ensures n in states[j].exits && states[j].exits[n] == states[i].exits[n]
    decreases j - i
  {
    if i < j {
      ExitsAlong(states, i, j - 1, n);
      assert ExitStays(states[j - 1], states[j - 1 + 1], n);
    }
  }

  // What a mark writes: the exit code of the instance the process has at that time.
  lemma MarkWrites(states: seq<Sys>, steps: seq<Step>, m: nat, j: nat, k: Key, obj: nat)
    requires Started(states, steps) && m < j <= |steps| && Path(states, steps, m, j, k, obj)
    requires Marks(steps[m], k) && NoMark(steps, m + 1, j, k)
    ensures var n, q := At(states[m], k).inst, At(states[j], k);
            n in states[j].exits && q.exitCode == states[j].exits[n] && q.exitedAt == Some(steps[m].now)
  {
    RunFull(states, steps, m);
    assert Next(states[m], steps[m], states[m + 1]);
    FollowsMark(states[m], k, steps[m].now, k, obj);
    assert Path(states, steps, m + 1, j, k, obj);
    PathRecord(states, steps, m + 1, j, k, obj);
    ExitsLast(states, steps, m, j, At(states[m], k).inst);
  }

  // What the reply to a blocked call says while its process is registered: the exit recorded
  // by the last mark before it.
  lemma AnswerOfLastMark(states: seq<Sys>, steps: seq<Step>, i: nat, key: Key, j: nat) returns (m: nat)
    requires BlockedAt(states, steps, i, key, j)
    requires |states[i].waits| < |states[j].waits| && Enabled(states[j], WaitReplies(|states[i].waits|))
    requires Named(states[j], key, Get(states[i].containers, key).obj)
    ensures i < m < j && Marks(steps[m], key) && NoMark(steps, m + 1, j, key)
    ensures Named(states[m], key, Get(states[i].containers, key).obj)
    ensures CallHeld(states[j].lock, states[j].containers)
    ensures var w := |states[i].waits|;
            var p := Get(states[i].containers, key);
            var n := At(states[m], key).inst;
            && n in states[j].exits
            && Apply(states[j], WaitReplies(w)).waits[w] == Answered(key, p.obj, states[j].exits[n], Some(steps[m].now))
            && (n == p.inst <==> NoStart(states, steps, i, m, key))
  {
    var w := |states[i].waits|;
    var p := Get(states[i].containers, key);
    BlockedStarts(states, steps, i, key, j);
    WokenByMark(states, steps, i, key, j);
    m := LastMark(steps, i + 1, j, key);
    PathTo(states, steps, i, j, key, p.obj);
    assert Path(states, steps, m, j, key, p.obj);
    MarkWrites(states, steps, m, j, key, p.obj);
    assert Path(states, steps, i, m, key, p.obj);
    PathInst(states, steps, i, m, key, p.obj);
    AnswerKey(states, steps, i, key, j);
    RunFull(states, steps, j);
  }

  // And when it is not: that nothing is there, or the record of another process, registered
  // under the key since the call, whatever it says.
  lemma AnswerOtherwise(states: seq<Sys>, steps: seq<Step>, i: nat, key: Key, j: nat)
    requires BlockedAt(states, steps, i, key, j)
    requires |states[i].waits| < |states[j].waits| && Enabled(states[j], WaitReplies(|states[i].waits|))
    requires !Named(states[j], key, Get(states[i].containers, key).obj)
    ensures CallHeld(states[j].lock, states[j].containers)
    ensures var w := |states[i].waits|;
            var reply := Apply(states[j], WaitReplies(w)).waits[w];
            && (!Has(states[j].containers, key) <==> reply == NotFound)
            && (Has(states[j].containers, key) ==>
                  reply == Answer(states[j].containers, key) && reply.obj >= states[i].nextObj)
  {
    BlockedStarts(states, steps, i, key, j);
    AnswerKey(states, steps, i, key, j);
    RunFull(states, steps, j);
    if Has(states[j].containers, key) && Get(states[j].containers, key).obj < states[i].nextObj {
      PathTo(states, steps, i, j, key, Get(states[j].containers, key).obj);
    }
  }

  // The reply is the exit of that instance, as the last mark before it recorded it.
  ghost predicate AnswersFor(
    states: seq<Sys>, steps: seq<Step>, i: nat, j: nat, key: Key, obj: nat, inst: nat, reply: WaitCall)
    requires i <= j <= |steps| && |states| == |steps| + 1
  {
    inst in states[j].exits && exists m ::
      && i < m < j && Marks(steps[m], key) && NoMark(steps, m + 1, j, key)
      && Holds(states[m], key, obj, inst)
      && reply == Answered(key, obj, states[j].exits[inst], Some(steps[m].now))
  }

  // A start of the exec takes effect, and later there is a mark.
  ghost predicate StartThenMark(states: seq<Sys>, steps: seq<Step>, i: nat, j: nat, k: Key)
    requires i <= j <= |steps| && |states| == |steps| + 1
  {
    exists x, m :: i <= x < m < j && Begins(states[x], steps[x], k) && Marks(steps[m], k)
  }

  // Whose exit the reply to a blocked call is: that of the instance registered at the time of
  // the call if and only if its process is still registered at the time of the reply and no
  // start in between is followed by a mark.
  lemma AnswerIsOwnIff(states: seq<Sys>, steps: seq<Step>, i: nat, key: Key, j: nat)
    requires BlockedAt(states, steps, i, key, j)
    requires |states[i].waits| < |states[j].waits| && Enabled(states[j], WaitReplies(|states[i].waits|))
    ensures CallHeld(states[j].lock, states[j].containers)
    ensures var w := |states[i].waits|;
            var p := Get(states[i].containers, key);
            AnswersFor(states, steps, i, j, key, p.obj, p.inst, Apply(states[j], WaitReplies(w)).waits[w]) <==>
              Named(states[j], key, p.obj) && !StartThenMark(states, steps, i, j, key)
  {
    var p := Get(states[i].containers, key);
    if Named(states[j], key, p.obj) {
      var m := AnswerOfLastMark(states, steps, i, key, j);
      LastStart(states, steps, i, m, j, key);
      OnlyLastMark(steps, i, m, j, key);
    } else {
      BlockedStarts(states, steps, i, key, j);
      AnswerOtherwise(states, steps, i, key, j);
    }
  }

  lemma LastStart(states: seq<Sys>, steps: seq<Step>, i: nat, m: nat, j: nat, k: Key)
    requires i <= m < j <= |steps| && |states| == |steps| + 1
    requires Marks(steps[m], k) && NoMark(steps, m + 1, j, k)
    ensures StartThenMark(states, steps, i, j, k) <==> !NoStart(states, steps, i, m, k)
  {
    if x :| i <= x < m && Begins(states[x], steps[x], k) {
      assert Begins(states[x], steps[x], k) && Marks(steps[m], k);
    }
  }

  lemma OnlyLastMark(steps: seq<Step>, i: nat, m: nat, j: nat, k: Key)
    requires i < m < j <= |steps| && Marks(steps[m], k) && NoMark(steps, m + 1, j, k)
    ensures forall n | i < n < j && Marks(steps[n], k) && NoMark(steps, n + 1, j, k) :: n == m
  {
  }

  // A call is about the same process until it is answered.
  predicate CallStays(s: Sys, t: Sys, w: nat) {
    w < |s.waits| ==>
      && w < |t.waits|
      && (t.waits[w].Blocked? || t.waits[w].Woken? ==>
            (s.waits[w].Blocked? || s.waits[w].Woken?) && t.waits[w].key == s.waits[w].key
                && t.waits[w].obj == s.waits[w].obj)
  }

  lemma CallKept(s: Sys, a: Step, w: nat)
    requires CallHeld(s.lock, s.containers) && Enabled(s, a)
    ensures CallStays(s, Apply(s, a), w)
  {
    if !a.WaitCalled? && !a.WaitWakes? && !a.WaitReplies? {
      WaitsAlone(s, a);
    }
  }

  lemma {:induction false} CallAlong(states: seq<Sys>, i: nat, j: nat, w: nat)
    requires i <= j < |states| && w < |states[i].waits|
    requires forall m | i <= m < j :: CallStays(states[m], states[m + 1], w)
    ensures CallStays(states[i], states[j], w)
    decreases j - i
  {
    if i < j {
      CallAlong(states, i, j - 1, w);
      assert CallStays(states[j - 1], states[j - 1 + 1], w);
    }
  }

  // The call that replies is the one that blocked.
  lemma AnswerKey(states: seq<Sys>, steps: seq<Step>, i: nat, key: Key, j: nat)
    requires BlockedAt(states, steps, i, key, j)
    ensures var w := |states[i].waits|;
            && w < |states[j].waits|
            && (states[j].waits[w].Blocked? || states[j].waits[w].Woken? ==>
                  states[j].waits[w].key == key && states[j].waits[w].obj == Get(states[i].containers, key).obj)
  {
    var w := |states[i].waits|;
    BlockedStarts(states, steps, i, key, j);
    forall m | i + 1 <= m < j
      ensures CallStays(states[m], states[m + 1], w)
    {
      assert Next(states[m], steps[m], states[m + 1]);
      CallKept(states[m], steps[m], w);
    }
    CallAlong(states, i + 1, j, w);
  }

  lemma WaitsAlone(s: Sys, a: Step)
    requires CallHeld(s.lock, s.containers) && Enabled(s, a) && !a.WaitCalled? && !a.WaitWakes? && !a.WaitReplies?
    ensures Apply(s, a).waits == s.waits
  {
  }

  // ---- what is reported ----

  lemma ReachableFull(s: Sys)
    requires Reachable(s)
    ensures Full(s)
  {
    var states, steps :| Run(states, steps) && Init(states[0]) && states[|steps|] == s;
    RunFull(states, steps, |steps|);
  }

  // A marked exit is reported, exactly once: the event, with the process's name, instance,
  // code and time, is in the channel's history or with the pump, and not in both or twice.
  lemma ExitReportedOnce(s: Sys, k: Key)
    requires Reachable(s) && Has(s.containers, k) && Get(s.containers, k).state == STOPPED
    ensures var p := Get(s.containers, k);
            && ExitSent(s.log, s.lock, k, p)
            && (forall i, j | 0 <= i < j < |s.log| && Reports(s.log[i], k, p) :: !Reports(s.log[j], k, p))
            && (forall i | 0 <= i < |s.log| && Reports(s.log[i], k, p) ::
                  !(s.lock.PumpSend? && Reports(s.lock.event, k, p)))
  {
    ReachableFull(s);
  }

  // What takes a process out of the registry, or puts another in its place.
  ghost predicate Takes(s: Sys, a: Step, k: Key) {
    || (a.Remove? && a.i < |s.deletions| && s.deletions[a.i].cid == k.cid)
    || (a.DeleteExec? && k == Key(a.cid, Some(a.exec)))
    || (a.AddExec? && k == Key(a.cid, Some(a.exec)))
    || (a == Finish(true) && s.lock.Handler? && s.lock.call == Create(k.cid))
  }

  lemma FinishTakes(c: Containers, call: Call, launched: Option<Adopted>, ok: bool, next: nat, k: Key)
    requires CallOk(c, call)
    requires ok && (call.Create? || (call.Start? && call.exec.Some?)) ==> launched.Some?
    requires Has(c, k) && !(ok && call == Create(k.cid))
    ensures var d := Finished(c, call, launched, ok, next); Has(d, k) && Get(d, k).obj == Get(c, k).obj
  {
  }

  lemma StepTakes(s: Sys, a: Step, k: Key)
    requires CallHeld(s.lock, s.containers) && Enabled(s, a) && Has(s.containers, k) && !Takes(s, a, k)
    ensures Named(Apply(s, a), k, Get(s.containers, k).obj)
  {
    if a.Finish? {
      FinishTakes(s.containers, s.lock.call, s.lock.launched, a.ok, s.nextObj, k);
    } else if a.PumpMarks? {
      PutGet(s.containers, a.key, Exited(Get(s.containers, a.key), s.hand.value.code, a.now));
    } else if a.WaitCalled? {
      PutGet(s.containers, a.key, Awaited(Get(s.containers, a.key), |s.waits|));
    } else if a.Request? {
      RequestTakes(s.containers, a.call, k);
    } else if a.Remove? || a.DeleteExec? || a.AddExec? {
      RemovalTakes(s, a, k);
    } else {
      FollowsOther(s, a, k, 0);
    }
  }

  lemma RequestTakes(c: Containers, call: Call, k: Key)
    requires Admissible(c, call) && Has(c, k)
    ensures Has(Requested(c, call), k) && Get(Requested(c, call), k).obj == Get(c, k).obj
  {
  }

  lemma RemovalTakes(s: Sys, a: Step, k: Key)
    requires CallHeld(s.lock, s.containers) && Enabled(s, a) && Has(s.containers, k) && !Takes(s, a, k)
    requires a.Remove? || a.DeleteExec? || a.AddExec?
    ensures Named(Apply(s, a), k, Get(s.containers, k).obj)
  {
  }

  // No adopted kernel process drops out of sight: at any later time it is still registered
  // under its instance, or there was one step at which it was and that started the exec
  // anew, replaced the process or removed it. Until then, once it was marked its exit was
  // reported.
  lemma {:induction false} AdoptedIsAccounted(
    states: seq<Sys>, steps: seq<Step>, i: nat, j: nat, k: Key, obj: nat, inst: nat) returns (m: nat)
    requires Started(states, steps) && i <= j <= |steps| && Holds(states[i], k, obj, inst)
    ensures i <= m <= j && Holds(states[m], k, obj, inst)
    ensures m < j ==> Begins(states[m], steps[m], k) || Takes(states[m], steps[m], k)
    ensures forall x | i <= x <= m :: Holds(states[x], k, obj, inst)
    ensures Get(states[m].containers, k).pid == Get(states[i].containers, k).pid
    ensures Get(states[m].containers, k).state == STOPPED ==>
              ExitSent(states[m].log, states[m].lock, k, Get(states[m].containers, k))
    decreases j - i
  {
    RunFull(states, steps, i);
    if i == j {
      m := i;
    } else if Begins(states[i], steps[i], k) || Takes(states[i], steps[i], k) {
      m := i;
    } else {
      StaysHeld(states, steps, i, k, obj, inst);
      m := AdoptedIsAccounted(states, steps, i + 1, j, k, obj, inst);
    }
  }

  lemma StaysHeld(states: seq<Sys>, steps: seq<Step>, i: nat, k: Key, obj: nat, inst: nat)
    requires Started(states, steps) && i < |steps| && Holds(states[i], k, obj, inst)
    requires !Begins(states[i], steps[i], k) && !Takes(states[i], steps[i], k)
    ensures Holds(states[i + 1], k, obj, inst)
    ensures Get(states[i + 1].containers, k).pid == Get(states[i].containers, k).pid
  {
    RunFull(states, steps, i);
    assert Next(states[i], steps[i], states[i + 1]);
    StepTakes(states[i], steps[i], k);
    PathStep(states, steps, i, k, obj);
    assert Linked(states, steps, i, k, obj);
  }

  // ---- what is not ----

  // The instance is registered nowhere.
  ghost predicate Nowhere(c: Containers, inst: nat) {
    forall k | Has(c, k) :: Get(c, k).inst != inst
  }

  // Nothing is registered under the instance, nothing is about to be, and it has not been
  // reported.
  ghost predicate Gone(s: Sys, inst: nat) {
    && 0 < inst < s.nextInst
    && Nowhere(s.containers, inst)
    && (s.lock.Handler? && s.lock.launched.Some? ==> s.lock.launched.value.inst != inst)
    && !ExitOut(s, inst)
  }

  lemma GoneFromContainers(c: Containers, d: Containers, adopted: Option<(Key, nat)>, next: nat, inst: nat)
    requires Descends(c, d, adopted, next) && inst > 0
    requires forall k | Has(c, k) :: Get(c, k).inst != inst
    requires adopted.Some? ==> adopted.value.1 != inst
    ensures forall k | Has(d, k) :: Get(d, k).inst != inst
  {
  }

  lemma GoneStep(s: Sys, a: Step, inst: nat)
    requires Inv(s) && Enabled(s, a) && Gone(s, inst)
    ensures CallHeld(s.lock, s.containers) && Gone(Apply(s, a), inst)
  {
    if a.Finish? {
      GoneFinish(s, a.ok, inst);
    } else {
      GoneOther(s, a, inst);
    }
  }

  lemma GoneFinish(s: Sys, ok: bool, inst: nat)
    requires CallHeld(s.lock, s.containers) && CanFinish(s, ok) && Gone(s, inst)
    ensures Gone(FinishedBy(s, ok), inst)
  {
    FinishDescends(s.containers, s.lock.call, s.lock.launched, ok, s.nextObj);
    GoneFromContainers(s.containers, FinishedBy(s, ok).containers, Adoption(s.lock.call, s.lock.launched),
        s.nextObj, inst);
  }

  lemma GoneOther(s: Sys, a: Step, inst: nat)
    requires CallHeld(s.lock, s.containers) && SendsOk(s.sends, s.containers, s.nextObj)
    requires Enabled(s, a) && !a.Finish? && Gone(s, inst)
    ensures Gone(Apply(s, a), inst)
  {
    StepDescends(s, a);
    StepLock(s, a);
    GoneFromContainers(s.containers, Apply(s, a).containers, None, s.nextObj, inst);
    NewEvents(s, a);
  }

  // A TaskExit in the pump's hands is of a registered process, and what enters the history
  // comes from there or is no TaskExit.
  lemma NewEvents(s: Sys, a: Step)
    requires CallHeld(s.lock, s.containers) && SendsOk(s.sends, s.containers, s.nextObj) && Enabled(s, a) && !a.Finish?
    ensures var t := Apply(s, a);
            && (forall i | |s.log| <= i < |t.log| && t.log[i].TaskExit? :: s.lock.PumpSend? && t.log[i] == s.lock.event)
            && s.log <= t.log
            && (t.lock.PumpSend? ==>
                  || t.lock == s.lock
                  || (a.PumpMarks? && t.lock.event.TaskExit? && Has(s.containers, a.key) &&
                      t.lock.event.inst == Get(s.containers, a.key).inst))
  {
    if a.Send? {
    } else if !OfLock(a) {
      LockAlone(s, a);
      LogAlone(s, a);
    }
  }

  lemma LogAlone(s: Sys, a: Step)
    requires CallHeld(s.lock, s.containers) && Enabled(s, a) && !OfLock(a) && !a.Send?
    ensures Apply(s, a).log == s.log
  {
  }

  lemma {:induction false} GoneForGood(states: seq<Sys>, steps: seq<Step>, i: nat, j: nat, inst: nat)
    requires Started(states, steps) && i <= j <= |steps| && Gone(states[i], inst)
    ensures Gone(states[j], inst)
    decreases j - i
  {
    if i < j {
      GoneForGood(states, steps, i, j - 1, inst);
      RunFull(states, steps, j - 1);
      assert Next(states[j - 1], steps[j - 1], states[j - 1 + 1]);
      GoneStep(states[j - 1], steps[j - 1], inst);
    }
  }

  // A process that is started anew, replaced or removed before its exit was marked is lost:
  // its exit is never reported, nor recorded anywhere.
  lemma LostIsSilent(states: seq<Sys>, steps: seq<Step>, m: nat, j: nat, k: Key)
    requires Started(states, steps) && m < j <= |steps|
    requires Begins(states[m], steps[m], k) || Takes(states[m], steps[m], k)
    requires Has(states[m].containers, k) && At(states[m], k).pid > 0 && At(states[m], k).state != STOPPED
    ensures Gone(states[j], At(states[m], k).inst)
  {
    RunFull(states, steps, m);
    assert Next(states[m], steps[m], states[m + 1]);
    if Begins(states[m], steps[m], k) {
      OverwrittenIsGone(states[m], k);
    } else {
      TakenIsGone(states[m], steps[m], k);
    }
    GoneForGood(states, steps, m + 1, j, At(states[m], k).inst);
  }

  lemma OverwrittenIsGone(s: Sys, k: Key)
    requires Full(s) && Enabled(s, Finish(true)) && Begins(s, Finish(true), k)
    requires At(s, k).pid > 0 && At(s, k).state != STOPPED
    ensures CallHeld(s.lock, s.containers) && Gone(FinishedBy(s, true), At(s, k).inst)
  {
    var p := At(s, k);
    UnspentIsUnreported(s, k);
    PutGet(s.containers, k, InState(Launched(p, s.lock.launched.value.pid, s.lock.launched.value.inst), RUNNING));
  }

  lemma TakenIsGone(s: Sys, a: Step, k: Key)
    requires Full(s) && Enabled(s, a) && Takes(s, a, k)
    requires Has(s.containers, k) && Get(s.containers, k).pid > 0 && Get(s.containers, k).state != STOPPED
    ensures CallHeld(s.lock, s.containers) && Gone(Apply(s, a), Get(s.containers, k).inst)
  {
    var inst := Get(s.containers, k).inst;
    UnspentIsUnreported(s, k);
    if a.Finish? {
      FinishTakesAway(s, k);
      TakenUnheard(s, a, inst);
    } else {
      RemovalTakesAway(s, a, k);
      TakenUnheard(s, a, inst);
    }
  }

  // None of these steps tells anybody of an exit, or starts a process.
  lemma TakenUnheard(s: Sys, a: Step, inst: nat)
    requires CallHeld(s.lock, s.containers) && Enabled(s, a) && (a.Finish? || a.Remove? || a.DeleteExec? || a.AddExec?)
    ensures var t := Apply(s, a);
            t.log == s.log && t.nextInst == s.nextInst && t.lock.Free? && (ExitOut(t, inst) ==> ExitOut(s, inst))
  {
  }

  lemma FinishTakesAway(s: Sys, k: Key)
    requires CallHeld(s.lock, s.containers) && CanFinish(s, true) && Takes(s, Finish(true), k)
    requires Newest(s.containers, s.lock, s.nextInst) && ObjsOk(s.containers, s.nextObj) && Has(s.containers, k)
    ensures var p := Get(s.containers, k);
            !Named(FinishedBy(s, true), k, p.obj) && (p.inst > 0 ==> Nowhere(FinishedBy(s, true).containers, p.inst))
  {
    var d := FinishedBy(s, true).containers;
    forall j | Has(d, j) && j != Key(k.cid, None)
      ensures j != k && Has(s.containers, j) && Get(s.containers, j) == Get(d, j)
    {
    }
  }

  lemma RemovalTakesAway(s: Sys, a: Step, k: Key)
    requires CallHeld(s.lock, s.containers) && Enabled(s, a) && (a.Remove? || a.DeleteExec? || a.AddExec?)
    requires Takes(s, a, k)
    requires InstsDistinct(s.containers) && ObjsOk(s.containers, s.nextObj) && Has(s.containers, k)
    ensures var p := Get(s.containers, k);
            !Named(Apply(s, a), k, p.obj) && (p.inst > 0 ==> Nowhere(Apply(s, a).containers, p.inst))
  {
    var d := Apply(s, a).containers;
    forall j | Has(d, j) && j != k
      ensures Has(s.containers, j) && Get(s.containers, j) == Get(d, j)
    {
    }
  }

  lemma UnspentIsUnreported(s: Sys, k: Key)
    requires ExitsInv(s) && ProcessInv(s) && Has(s.containers, k)
    requires Get(s.containers, k).pid > 0 && Get(s.containers, k).state != STOPPED
    ensures !ExitOut(s, Get(s.containers, k).inst)
  {
    var p := Get(s.containers, k);
    assert ProcessOk(p, s.kernel, Pending(s), s.exits);
    forall i | 0 <= i < |s.log| && s.log[i].TaskExit?
      ensures s.log[i].inst != p.inst
    {
      assert Spent(s.log[i].inst, s.kernel, Pending(s), s.exits);
    }
  }

  // An exit of the instance is with the pump or in the channel's history.
  ghost predicate ExitOut(s: Sys, inst: nat) {
    || (exists i :: 0 <= i < |s.log| && s.log[i].TaskExit? && s.log[i].inst == inst)
    || (s.lock.PumpSend? && s.lock.event.TaskExit? && s.lock.event.inst == inst)
  }

  lemma {:induction false} SentAlong(states: seq<Sys>, steps: seq<Step>, i: nat, j: nat, k: Key, p: Process)
    requires Started(states, steps) && i <= j <= |steps| && ExitSent(states[i].log, states[i].lock, k, p)
    ensures ExitSent(states[j].log, states[j].lock, k, p)
    decreases j - i
  {
    if i < j {
      SentAlong(states, steps, i, j - 1, k, p);
      RunFull(states, steps, j - 1);
      assert Next(states[j - 1], steps[j - 1], states[j - 1 + 1]);
      SentStays(states[j - 1], steps[j - 1], k, p);
    }
  }

  // A start makes it another instance's, and what is taken is there no more.
  lemma HeldNoMore(s: Sys, a: Step, k: Key)
    requires Full(s) && Enabled(s, a) && Has(s.containers, k) && (Begins(s, a, k) || Takes(s, a, k))
    ensures CallHeld(s.lock, s.containers)
    ensures !Holds(Apply(s, a), k, Get(s.containers, k).obj, Get(s.containers, k).inst)
  {
    if Begins(s, a, k) {
      StepFollows(s, a, k, Get(s.containers, k).obj);
    } else if a.Finish? {
      FinishTakesAway(s, k);
    } else {
      RemovalTakesAway(s, a, k);
    }
  }

  // A name and an instance that come together at two times do so all along.
  lemma HeldBetween(states: seq<Sys>, steps: seq<Step>, i: nat, n: nat, j: nat, k: Key, obj: nat, inst: nat)
    requires Started(states, steps) && i <= n <= j <= |steps|
    requires Holds(states[i], k, obj, inst) && Holds(states[j], k, obj, inst)
    ensures Holds(states[n], k, obj, inst)
  {
    RunFull(states, steps, i);
    PathTo(states, steps, i, j, k, obj);
    assert Path(states, steps, i, n, k, obj) && Path(states, steps, n, j, k, obj);
    PathInst(states, steps, i, n, k, obj);
    PathInst(states, steps, n, j, k, obj);
  }

  // Exactly when the exit of an adopted process is reported: at any later time its event is
  // with the pump or in the channel's history if and only if the process was STOPPED in the
  // last state in which it was registered under its instance.
  lemma ExitReportedIff(states: seq<Sys>, steps: seq<Step>, i: nat, j: nat, k: Key, obj: nat, inst: nat)
    returns (m: nat)
    requires Started(states, steps) && i <= j <= |steps|
    requires Holds(states[i], k, obj, inst) && Get(states[i].containers, k).pid > 0
    ensures i <= m <= j && Holds(states[m], k, obj, inst)
    ensures forall x | m < x <= j :: !Holds(states[x], k, obj, inst)
    ensures m < j ==> Begins(states[m], steps[m], k) || Takes(states[m], steps[m], k)
    ensures ExitOut(states[j], inst) <==> Get(states[m].containers, k).state == STOPPED
  {
    m := AdoptedIsAccounted(states, steps, i, j, k, obj, inst);
    RunFull(states, steps, m);
    if Get(states[m].containers, k).state == STOPPED {
      SentAlong(states, steps, m, j, k, Get(states[m].containers, k));
    } else if m == j {
      UnspentIsUnreported(states[m], k);
    } else {
      LostIsSilent(states, steps, m, j, k);
    }
    forall x | m < x <= j
      ensures !Holds(states[x], k, obj, inst)
    {
      assert Next(states[m], steps[m], states[m + 1]);
      HeldNoMore(states[m], steps[m], k);
      if Holds(states[x], k, obj, inst) {
        HeldBetween(states, steps, m, m + 1, x, k, obj, inst);
      }
    }
  }

  // ---- what the second section of a delete removes ----

  // A create of the id takes effect.
  ghost predicate Creates(s: Sys, a: Step, cid: Id) {
    a == Finish(true) && s.lock.Handler? && s.lock.call == Create(cid)
  }

  ghost predicate NoCreate(states: seq<Sys>, steps: seq<Step>, d: nat, r: nat, cid: Id)
    requires d <= r <= |steps| && |states| == |steps| + 1
  {
    forall m | d <= m < r :: !Creates(states[m], steps[m], cid)
  }

  predicate InitIs(s: Sys, cid: Id, obj: nat) {
    cid in s.containers && s.containers[cid].init.obj == obj
  }

  // A container is there with the same init before any step that is not its creation.
  lemma InitStays(s: Sys, a: Step, cid: Id)
    requires CallHeld(s.lock, s.containers) && Enabled(s, a) && !Creates(s, a, cid)
    ensures cid in Apply(s, a).containers ==> InitIs(s, cid, Apply(s, a).containers[cid].init.obj)
  {
    if a.Finish? {
      FinishKeepsInit(s, a.ok, cid);
    }
  }

  lemma FinishKeepsInit(s: Sys, ok: bool, cid: Id)
    requires CallHeld(s.lock, s.containers) && CanFinish(s, ok) && !Creates(s, Finish(ok), cid)
    ensures var d := FinishedBy(s, ok).containers; cid in d ==> InitIs(s, cid, d[cid].init.obj)
  {
  }

  lemma {:induction false} InitBefore(states: seq<Sys>, steps: seq<Step>, d: nat, r: nat, cid: Id)
    requires Started(states, steps) && d <= r <= |steps| && NoCreate(states, steps, d, r, cid)
    requires cid in states[r].containers
    ensures InitIs(states[d], cid, states[r].containers[cid].init.obj)
    decreases r - d
  {
    if d < r {
      RunFull(states, steps, r - 1);
      assert Next(states[r - 1], steps[r - 1], states[r - 1 + 1]);
      InitStays(states[r - 1], steps[r - 1], cid);
      InitBefore(states, steps, d, r - 1, cid);
    }
  }

  // The init that a delete has looked at in its first section, at step d, is the one that its
  // second section removes, at step r, if there still is a container of that id, if and only
  // if no create of the id took effect in between.
  lemma RemovesOwnIff(states: seq<Sys>, steps: seq<Step>, d: nat, r: nat, i: nat)
    requires Started(states, steps) && d < r < |steps| && steps[r] == Remove(i) && i < |states[r].deletions|
    requires steps[d] == Finish(true) && states[d].lock.Handler?
    requires states[d].lock.call == Delete(states[r].deletions[i].cid)
    requires InitIs(states[d], states[r].deletions[i].cid, states[r].deletions[i].obj)
    ensures var cid, obj := states[r].deletions[i].cid, states[r].deletions[i].obj;
            cid in states[r].containers ==> (InitIs(states[r], cid, obj) <==> NoCreate(states, steps, d, r, cid))
  {
    var cid, obj := states[r].deletions[i].cid, states[r].deletions[i].obj;
    if cid in states[r].containers && NoCreate(states, steps, d, r, cid) {
      InitBefore(states, steps, d, r, cid);
    }
    if InitIs(states[r], cid, obj) {
      RunFull(states, steps, d);
      PathTo(states, steps, d, r, Key(cid, None), obj);
      forall m | d <= m < r
        ensures !Creates(states[m], steps[m], cid)
      {
        NotCreated(states, steps, m, cid, obj);
      }
    }
  }

  lemma NotCreated(states: seq<Sys>, steps: seq<Step>, m: nat, cid: Id, obj: nat)
    requires Started(states, steps) && m < |steps|
    requires Named(states[m], Key(cid, None), obj) && Named(states[m + 1], Key(cid, None), obj)
    ensures !Creates(states[m], steps[m], cid)
  {
    RunFull(states, steps, m);
    assert Next(states[m], steps[m], states[m + 1]);
    if Creates(states[m], steps[m], cid) {
      FinishTakesAway(states[m], Key(cid, None));
    }
  }
}
