// What becomes of one registered process over a run: which steps change it, which wake its
// waiters, and whose exit is in its record. Execs can be started again at any time, so the
// instance number, which only grows, tells the starts of one exec apart.
module LifecycleHistory {
  import opened Wrappers
  import opened Processes
  import opened Registry
  import opened Kernel
  import opened Lifecycle
  import opened LifecycleInvariant
  import opened LifecycleTheorems

  // ---- two more things that every step keeps ----

  ghost predicate Below(c: Containers, inst: nat) {
    0 < inst && forall k | Has(c, k) :: Get(c, k).inst < inst
  }

  ghost predicate InstsDistinct(c: Containers) {
    && (forall k | Has(c, k) && Get(c, k).pid != 0 :: Get(c, k).inst > 0)
    && forall j, k | Has(c, j) && Has(c, k) && j != k && Get(c, j).inst > 0 :: Get(c, j).inst != Get(c, k).inst
  }

  // A pid comes with an instance, no two processes share one, and what is adopted next is newer than all of them.
  ghost predicate Newest(c: Containers, lock: Lock, nextInst: nat) {
    && Below(c, nextInst)
    && InstsDistinct(c)
    && (lock.Handler? && lock.launched.Some? ==>
          lock.launched.value.inst < nextInst && Below(c, lock.launched.value.inst))
  }

  // The exit of a process is in the channel's history, or in the pump's hands on its way there.
  ghost predicate ExitSent(log: seq<Event>, lock: Lock, k: Key, p: Process) {
    || (exists i :: 0 <= i < |log| && Reports(log[i], k, p))
    || (lock.PumpSend? && Reports(lock.event, k, p))
  }

  predicate Reports(e: Event, k: Key, p: Process) {
    && e.TaskExit? && e.key == k && e.pid == p.pid
    && e.obj == p.obj && e.inst == p.inst && e.code == p.exitCode && e.at == p.exitedAt
  }

  ghost predicate Reported(c: Containers, log: seq<Event>, lock: Lock) {
    forall k | Has(c, k) && Get(c, k).state == STOPPED :: ExitSent(log, lock, k, Get(c, k))
  }

  ghost predicate Full(s: Sys) {
    Inv(s) && Newest(s.containers, s.lock, s.nextInst) && Reported(s.containers, s.log, s.lock)
  }

  // ---- what one step does to a process ----

  // The end of a start command for a process, with success.
  ghost predicate Starts(s: Sys, a: Step, k: Key) {
    a == Finish(true) && s.lock.Handler? && s.lock.call == Start(k.cid, k.exec)
  }

  predicate Marks(a: Step, k: Key) {
    a.PumpMarks? && a.key == k
  }

  // A start of an exec gives it a newer instance and leaves the rest of its record; a mark
  // records an exit and lets the waiters go; any other step leaves the record alone and at
  // most adds the caller of a wait, and not even that if the process has stopped.
  ghost predicate Moved(p: Process, q: Process, started: bool, marked: bool, caller: nat) {
    if started
    then q.inst > p.inst && q == InState(Launched(p, q.pid, q.inst), RUNNING)
    else if marked
    then p.state != STOPPED && q.exitedAt.Some? && q == Exited(p, q.exitCode, q.exitedAt.value)
    else
      && q.inst == p.inst && q.pid == p.pid && q.exitCode == p.exitCode && q.exitedAt == p.exitedAt
      && (q.waiters == p.waiters || q.waiters == p.waiters + [caller])
      && (p.state == STOPPED <==> q.state == STOPPED) && (p.state == STOPPED ==> q == p)
  }

  // Whatever has the name after a step had it before, under the same key.
  ghost predicate Follows(c: Containers, d: Containers, k: Key, obj: nat, started: bool, marked: bool, caller: nat) {
    Has(d, k) && Get(d, k).obj == obj ==>
      Has(c, k) && Get(c, k).obj == obj && Moved(Get(c, k), Get(d, k), started, marked, caller)
  }

  lemma FollowsFinish(
    c: Containers, call: Call, launched: Option<Adopted>, ok: bool, next: nat, k: Key, obj: nat, caller: nat)
    requires CallOk(c, call) && obj < next
    requires ok && (call.Create? || (call.Start? && call.exec.Some?)) ==> launched.Some?
    requires launched.Some? ==> forall j | Has(c, j) :: Get(c, j).inst < launched.value.inst
    ensures Follows(c, Finished(c, call, launched, ok, next), k, obj,
                    k.exec.Some? && ok && call == Start(k.cid, k.exec), false, caller)
  {
  }

  lemma FollowsRequest(c: Containers, call: Call, k: Key, obj: nat, caller: nat)
    requires Admissible(c, call)
    ensures Follows(c, Requested(c, call), k, obj, false, false, caller)
  {
  }

  lemma FollowsMark(s: Sys, key: Key, now: int, k: Key, obj: nat)
    requires Inv(s) && CanMark(s, key)
    ensures Follows(s.containers, Marked(s, key, now).containers, k, obj, false, k == key, |s.waits|)
    ensures var p := Get(s.containers, key);
            && Get(Marked(s, key, now).containers, key).exitedAt == Some(now)
            && p.inst in s.exits && Get(Marked(s, key, now).containers, key).exitCode == s.exits[p.inst]
  {
    Identified(s, key);
    PutGet(s.containers, key, Exited(Get(s.containers, key), s.hand.value.code, now));
    assert Pending(s)[0] == s.hand.value;
    assert Truthful(Pending(s)[0], s.exits);
  }

  lemma FollowsWait(s: Sys, key: Key, k: Key, obj: nat)
    requires Has(s.containers, key)
    ensures Follows(s.containers, Waiting(s, key).containers, k, obj, false, false, |s.waits|)
  {
    PutGet(s.containers, key, Awaited(Get(s.containers, key), |s.waits|));
  }

  lemma FollowsRemoval(s: Sys, a: Step, k: Key, obj: nat)
    requires Enabled(s, a) && (a.Remove? || a.DeleteExec? || a.AddExec?) && obj < s.nextObj
    requires CallHeld(s.lock, s.containers)
    ensures Follows(s.containers, Apply(s, a).containers, k, obj, false, false, |s.waits|)
  {
  }

  lemma FollowsOther(s: Sys, a: Step, k: Key, obj: nat)
    requires Enabled(s, a) && CallHeld(s.lock, s.containers)
    requires !a.Finish? && !a.Request? && !a.PumpMarks? && !a.WaitCalled? && !a.Remove? && !a.DeleteExec? && !a.AddExec?
    ensures Apply(s, a).containers == s.containers
  {
  }

  // In one step a process changes as its kind says.
  lemma StepFollows(s: Sys, a: Step, k: Key, obj: nat)
    requires Inv(s) && Newest(s.containers, s.lock, s.nextInst) && Enabled(s, a) && obj < s.nextObj
    ensures CallHeld(s.lock, s.containers)
    ensures Follows(s.containers, Apply(s, a).containers, k, obj,
                    k.exec.Some? && Starts(s, a, k), Marks(a, k), |s.waits|)
  {
    if a.Finish? {
      FinishFollows(s, a.ok, k, obj);
    } else if a.PumpMarks? {
      FollowsMark(s, a.key, a.now, k, obj);
    } else {
      StepKeeps(s, a, k, obj);
    }
  }

  lemma FinishFollows(s: Sys, ok: bool, k: Key, obj: nat)
    requires CallHeld(s.lock, s.containers) && Newest(s.containers, s.lock, s.nextInst)
    requires CanFinish(s, ok) && obj < s.nextObj
    ensures Follows(s.containers, FinishedBy(s, ok).containers, k, obj,
                    k.exec.Some? && Starts(s, Finish(ok), k), false, |s.waits|)
  {
    FollowsFinish(s.containers, s.lock.call, s.lock.launched, ok, s.nextObj, k, obj, |s.waits|);
  }

  lemma StepKeeps(s: Sys, a: Step, k: Key, obj: nat)
    requires CallHeld(s.lock, s.containers) && Enabled(s, a) && obj < s.nextObj && !a.Finish? && !a.PumpMarks?
    ensures Follows(s.containers, Apply(s, a).containers, k, obj, false, false, |s.waits|)
  {
    if a.Request? {
      FollowsRequest(s.containers, a.call, k, obj, |s.waits|);
    } else if a.WaitCalled? {
      FollowsWait(s, a.key, k, obj);
    } else if a.Remove? || a.DeleteExec? || a.AddExec? {
      FollowsRemoval(s, a, k, obj);
    } else {
      FollowsOther(s, a, k, obj);
    }
  }

  // ---- the two are kept ----

  // A process registered after a step was registered before, with the same instance or an
  // adopted one, or it has just been created.
  ghost predicate Descends(c: Containers, d: Containers, adopted: Option<(Key, nat)>, next: nat) {
    forall k | Has(d, k) ::
      var q := Get(d, k);
      && (|| q.inst == 0 == q.pid
          || (Has(c, k) && q.inst == Get(c, k).inst && q.pid == Get(c, k).pid)
          || adopted == Some((k, q.inst)))
      && ((Has(c, k) && q.obj == Get(c, k).obj) || (q.obj == next && q.state == CREATED))
  }

  function Adoption(call: Call, launched: Option<Adopted>): Option<(Key, nat)> {
    if launched.None? then None
    else if call.Start? then Some((Key(call.cid, call.exec), launched.value.inst))
    else Some((Key(call.cid, None), launched.value.inst))
  }

  lemma FinishDescends(c: Containers, call: Call, launched: Option<Adopted>, ok: bool, next: nat)
    requires CallOk(c, call)
    requires ok && (call.Create? || (call.Start? && call.exec.Some?)) ==> launched.Some?
    ensures Descends(c, Finished(c, call, launched, ok, next), Adoption(call, launched), next)
  {
  }

  lemma MarkDescends(s: Sys, key: Key, now: int)
    requires s.hand.Some? && Has(s.containers, key)
    ensures Descends(s.containers, Marked(s, key, now).containers, None, s.nextObj)
  {
    PutGet(s.containers, key, Exited(Get(s.containers, key), s.hand.value.code, now));
  }

  lemma WaitDescends(s: Sys, key: Key)
    requires Has(s.containers, key)
    ensures Descends(s.containers, Waiting(s, key).containers, None, s.nextObj)
  {
    PutGet(s.containers, key, Awaited(Get(s.containers, key), |s.waits|));
  }

  lemma StepDescends(s: Sys, a: Step)
    requires CallHeld(s.lock, s.containers) && Enabled(s, a) && !a.Finish?
    ensures Descends(s.containers, Apply(s, a).containers, None, s.nextObj)
  {
    if a.PumpMarks? {
      MarkDescends(s, a.key, a.now);
    } else if a.WaitCalled? {
      WaitDescends(s, a.key);
    } else if a.Request? {
      RequestDescends(s.containers, a.call, s.nextObj);
    } else if a.Remove? || a.DeleteExec? || a.AddExec? {
      RemovalDescends(s, a);
    } else {
      FollowsOther(s, a, Key("", None), 0);
    }
  }

  lemma RequestDescends(c: Containers, call: Call, next: nat)
    requires Admissible(c, call)
    ensures Descends(c, Requested(c, call), None, next)
  {
  }

  lemma RemovalDescends(s: Sys, a: Step)
    requires CallHeld(s.lock, s.containers) && Enabled(s, a) && (a.Remove? || a.DeleteExec? || a.AddExec?)
    ensures Descends(s.containers, Apply(s, a).containers, None, s.nextObj)
  {
  }

  lemma DescentKeeps(c: Containers, d: Containers, adopted: Option<(Key, nat)>, next: nat, bound: nat)
    requires Descends(c, d, adopted, next) && Below(c, bound) && InstsDistinct(c)
    requires adopted.Some? ==> adopted.value.1 < bound && Below(c, adopted.value.1)
    ensures Below(d, bound) && InstsDistinct(d)
  {
  }

  lemma NewestStep(s: Sys, a: Step)
    requires CallHeld(s.lock, s.containers) && Newest(s.containers, s.lock, s.nextInst) && Enabled(s, a)
    ensures var t := Apply(s, a); Newest(t.containers, t.lock, t.nextInst)
  {
    if a.Finish? {
      NewestFinish(s, a.ok);
    } else {
      NewestOther(s, a);
    }
  }

  lemma NewestFinish(s: Sys, ok: bool)
    requires CallHeld(s.lock, s.containers) && Newest(s.containers, s.lock, s.nextInst) && CanFinish(s, ok)
    ensures var t := FinishedBy(s, ok); Newest(t.containers, t.lock, t.nextInst)
  {
    var d := FinishedBy(s, ok).containers;
    FinishDescends(s.containers, s.lock.call, s.lock.launched, ok, s.nextObj);
    DescentKeeps(s.containers, d, Adoption(s.lock.call, s.lock.launched), s.nextObj, s.nextInst);
  }

  lemma NewestOther(s: Sys, a: Step)
    requires CallHeld(s.lock, s.containers) && Newest(s.containers, s.lock, s.nextInst) && Enabled(s, a) && !a.Finish?
    ensures var t := Apply(s, a); Newest(t.containers, t.lock, t.nextInst)
  {
    var t := Apply(s, a);
    StepDescends(s, a);
    StepLock(s, a);
    DescentKeeps(s.containers, t.containers, None, s.nextObj, s.nextInst);
    if t.lock.Handler? && t.lock.launched.Some? && !a.Launch? {
      DescentKeeps(s.containers, t.containers, None, s.nextObj, t.lock.launched.value.inst);
    }
  }

  // Only the lock's own holder has something to adopt, and only a launch gives it that.
  ghost predicate LockMoves(s: Sys, t: Sys, launch: bool) {
    && t.nextInst >= s.nextInst
    && (t.lock.Handler? && t.lock.launched.Some? ==>
          if launch
          then t.lock.launched.value.inst == s.nextInst < t.nextInst && t.containers == s.containers
          else s.lock.Handler? && t.lock.launched == s.lock.launched)
  }

  predicate OfLock(a: Step) {
    a.Request? || a.Launch? || a.Notify? || a.RuncReceive? || a.PumpKills? || a.PumpMarks? || a.PumpSends? || a.Finish?
  }

  lemma StepLock(s: Sys, a: Step)
    requires CallHeld(s.lock, s.containers) && Enabled(s, a) && !a.Finish?
    ensures LockMoves(s, Apply(s, a), a.Launch?)
  {
    if !OfLock(a) {
      LockAlone(s, a);
    }
  }

  lemma LockAlone(s: Sys, a: Step)
    requires CallHeld(s.lock, s.containers) && Enabled(s, a) && !OfLock(a)
    ensures Apply(s, a).lock == s.lock && Apply(s, a).nextInst >= s.nextInst
  {
  }

  lemma SentStays(s: Sys, a: Step, k: Key, p: Process)
    requires CallHeld(s.lock, s.containers) && Enabled(s, a) && ExitSent(s.log, s.lock, k, p)
    ensures ExitSent(Apply(s, a).log, Apply(s, a).lock, k, p)
  {
    var t := Apply(s, a);
    LogGrows(s, a);
    if i :| 0 <= i < |s.log| && Reports(s.log[i], k, p) {
      assert Reports(t.log[i], k, p);
    } else if a.PumpSends? {
      assert Reports(t.log[|s.log|], k, p);
    }
  }

  lemma LogGrows(s: Sys, a: Step)
    requires CallHeld(s.lock, s.containers) && Enabled(s, a)
    ensures s.log <= Apply(s, a).log
    ensures s.lock.PumpSend? && !a.PumpSends? ==> Apply(s, a).lock == s.lock
  {
    if !OfLock(a) {
      LockAlone(s, a);
    }
  }

  lemma ReportedStep(s: Sys, a: Step)
    requires Full(s) && Enabled(s, a)
    ensures CallHeld(s.lock, s.containers)
    ensures var t := Apply(s, a); Reported(t.containers, t.log, t.lock)
  {
    var t := Apply(s, a);
    forall k | Has(t.containers, k) && Get(t.containers, k).state == STOPPED
      ensures ExitSent(t.log, t.lock, k, Get(t.containers, k))
    {
      StoppedWasNamed(s, a, k);
      StepFollows(s, a, k, Get(t.containers, k).obj);
      if !Marks(a, k) {
        SentStays(s, a, k, Get(s.containers, k));
      }
    }
  }

  // What is new is not stopped.
  lemma StoppedWasNamed(s: Sys, a: Step, k: Key)
    requires Inv(s) && Enabled(s, a)
    ensures CallHeld(s.lock, s.containers)
    ensures var t := Apply(s, a); Has(t.containers, k) && Get(t.containers, k).state == STOPPED ==>
              Get(t.containers, k).obj < s.nextObj
  {
    if a.Finish? {
      FinishDescends(s.containers, s.lock.call, s.lock.launched, a.ok, s.nextObj);
    } else {
      StepDescends(s, a);
    }
  }

  lemma FullStep(s: Sys, a: Step)
    requires Full(s) && Enabled(s, a)
    ensures CallHeld(s.lock, s.containers) && Full(Apply(s, a))
  {
    StepInv(s, a);
    NewestStep(s, a);
    ReportedStep(s, a);
  }

  // A run from the start, as against `Run`, which may begin anywhere.
  ghost predicate Started(states: seq<Sys>, steps: seq<Step>) {
    Run(states, steps) && Init(states[0])
  }

  lemma {:induction false} RunFull(states: seq<Sys>, steps: seq<Step>, i: nat)
    requires Started(states, steps) && i <= |steps|
    ensures Full(states[i])
  {
    if i == 0 {
      InitInv(states[0]);
    } else {
      RunFull(states, steps, i - 1);
      assert Next(states[i - 1], steps[i - 1], states[i - 1 + 1]);
      FullStep(states[i - 1], steps[i - 1]);
    }
  }
}
