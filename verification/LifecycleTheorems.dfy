// What holds over every run of the protocol.
module LifecycleTheorems {
  import opened Wrappers
  import opened Processes
  import opened Registry
  import opened Kernel
  import opened Lifecycle
  import opened LifecycleInvariant

  ghost predicate Next(s: Sys, a: Step, t: Sys) {
    Enabled(s, a) && CallHeld(s.lock, s.containers) && t == Apply(s, a)
  }

  // A run: one state more than steps, each step leading from one state to the next.
  ghost predicate Run(states: seq<Sys>, steps: seq<Step>) {
    && |states| == |steps| + 1
    && forall i | 0 <= i < |steps| :: Next(states[i], steps[i], states[i + 1])
  }

  ghost predicate Reachable(s: Sys) {
    exists states, steps :: Run(states, steps) && Init(states[0]) && states[|steps|] == s
  }

  lemma StepInv(s: Sys, a: Step)
    requires Inv(s) && Enabled(s, a)
    ensures CallHeld(s.lock, s.containers)
    ensures Inv(Apply(s, a))
  {
    if a.Request? || a.Finish? || a.Remove? || a.DeleteExec? || a.AddExec? || a.RuncReceive? {
      HandlerStepInv(s, a);
    } else if a.PumpReceive? || a.PumpMiss? || a.PumpKills? || a.PumpMarks? || a.PumpSends? {
      PumpStepInv(s, a);
    } else {
      OtherStepInv(s, a);
    }
  }

  lemma HandlerStepInv(s: Sys, a: Step)
    requires Inv(s) && Enabled(s, a)
    requires a.Request? || a.Finish? || a.Remove? || a.DeleteExec? || a.AddExec? || a.RuncReceive?
    ensures CallHeld(s.lock, s.containers) && Inv(Apply(s, a))
  {
    match a
    case Request(call, rpid) => RequestInv(s, call, rpid);
    case RuncReceive => RuncReceiveInv(s);
    case Finish(ok) => FinishInv(s, ok);
    case Remove(i) => RemoveInv(s, i);
    case DeleteExec(cid, exec) => DeleteExecInv(s, cid, exec);
    case AddExec(cid, exec) => AddExecInv(s, cid, exec);
  }

  lemma PumpStepInv(s: Sys, a: Step)
    requires Inv(s) && Enabled(s, a)
    requires a.PumpReceive? || a.PumpMiss? || a.PumpKills? || a.PumpMarks? || a.PumpSends?
    ensures CallHeld(s.lock, s.containers) && Inv(Apply(s, a))
  {
    match a
    case PumpReceive => PumpReceiveInv(s);
    case PumpMiss => PumpMissInv(s);
    case PumpKills(cid, rpid) => PumpKillsInv(s, cid, rpid);
    case PumpMarks(key, now) => PumpMarksInv(s, key, now);
    case PumpSends => PumpSendsInv(s);
  }

  lemma OtherStepInv(s: Sys, a: Step)
    requires Inv(s) && Enabled(s, a)
    requires !(a.Request? || a.Finish? || a.Remove? || a.DeleteExec? || a.AddExec? || a.RuncReceive?)
    requires !(a.PumpReceive? || a.PumpMiss? || a.PumpKills? || a.PumpMarks? || a.PumpSends?)
    ensures CallHeld(s.lock, s.containers) && Inv(Apply(s, a))
  {
    match a
    case Launch(pid) => LaunchInv(s, pid);
    case Orphan(pid) => OrphanInv(s, pid);
    case Dies(pid, code) => DiesInv(s, pid, code);
    case ReaperWakes => ReaperWakesInv(s);
    case Reap(pid) => ReapInv(s, pid);
    case Notify => NotifyInv(s);
    case ReaperSleeps => ReaperSleepsInv(s);
    case Send(i) => SendInv(s, i);
    case Forward => ForwardInv(s);
    case WaitCalled(key) => WaitCalledInv(s, key);
    case WaitWakes(w) => WaitWakesInv(s, w);
    case WaitReplies(w) => WaitRepliesInv(s, w);
  }

  lemma {:induction false} RunInv(states: seq<Sys>, steps: seq<Step>, i: nat)
    requires Run(states, steps) && Inv(states[0]) && i <= |steps|
    ensures Inv(states[i])
  {
    if i > 0 {
      RunInv(states, steps, i - 1);
      assert Next(states[i - 1], steps[i - 1], states[i - 1 + 1]);
      StepInv(states[i - 1], steps[i - 1]);
    }
  }

  // Every reachable state satisfies the invariant. In particular a handler always finds
  // the container and the process it was called for, so `Next` restricts no step.
  lemma ReachableInv(s: Sys)
    requires Reachable(s)
    ensures Inv(s)
  {
    var states, steps :| Run(states, steps) && Init(states[0]) && states[|steps|] == s;
    InitInv(states[0]);
    RunInv(states, steps, |steps|);
  }

  // No exit is lost. The process behind a registered pid is running, or it is a zombie and
  // the reaper has been told, or its exit is with the reaper or the pump; and once it is marked, it is
  // marked with the code that very process exited with.
  lemma NoExitLost(s: Sys, k: Key)
    requires Reachable(s) && Has(s.containers, k)
    ensures var p := Get(s.containers, k);
            && (p.state != STOPPED && p.pid > 0 ==>
                  || (p.pid in s.kernel && s.kernel[p.pid] == Child(p.inst, Running))
                  || (p.pid in s.kernel && s.kernel[p.pid].inst == p.inst && s.kernel[p.pid].state.Zombie?
                        && (s.sigchld || s.draining))
                  || (p.inst in s.exits && s.reaped == Some(Exit(p.pid, p.inst, s.exits[p.inst])))
                  || (p.inst in s.exits && Exit(p.pid, p.inst, s.exits[p.inst]) in s.queue)
                  || (p.inst in s.exits && s.hand == Some(Exit(p.pid, p.inst, s.exits[p.inst]))))
            && (p.state == STOPPED ==> p.inst in s.exits && p.exitCode == s.exits[p.inst] && p.exitedAt.Some?)
  {
    ReachableInv(s);
    var p := Get(s.containers, k);
    var pend := Pending(s);
    if p.state != STOPPED && p.pid > 0 && Delivered(pend, p.pid, p.inst) {
      var i :| 0 <= i < |pend| && pend[i].pid == p.pid && pend[i].inst == p.inst;
      assert Truthful(pend[i], s.exits);
      assert pend[i] == Exit(p.pid, p.inst, s.exits[p.inst]);
    }
  }

  // The event channel, over its whole history: a process's TaskExit never comes after its
  // TaskDelete, a kernel process is reported at most once, and truthfully.
  lemma EventOrder(s: Sys, i: nat, j: nat)
    requires Reachable(s) && i < j < |s.log| && s.log[j].TaskExit?
    ensures s.log[i].TaskDelete? ==> s.log[i].obj != s.log[j].obj
    ensures s.log[i].TaskExit? ==> s.log[i].inst != s.log[j].inst
    ensures s.log[j].inst in s.exits && s.log[j].code == s.exits[s.log[j].inst]
  {
    ReachableInv(s);
  }

  // Deleting is final: what TaskDelete was sent for is not registered, also while another
  // delete of the same id is between its sections.
  lemma DeletedIsGone(s: Sys, e: Event)
    requires Reachable(s) && e.TaskDelete? && (e in s.log || e in s.sends)
    ensures !Registered(s.containers, e.obj)
  {
    ReachableInv(s);
  }

  // ---- wait calls ----

  // A wait call that registered is only woken once its process has exited or is no longer
  // registered; while neither is so, the process holds the caller's sender.
  lemma NoEarlyWakeup(s: Sys, w: nat, k: Key)
    requires Reachable(s) && w < |s.waits| && Has(s.containers, k)
    ensures s.waits[w].Woken? && Get(s.containers, k).obj == s.waits[w].obj ==> Get(s.containers, k).exitedAt.Some?
    ensures s.waits[w].Blocked? && Get(s.containers, k).obj == s.waits[w].obj && Get(s.containers, k).exitedAt.None? ==>
              w in Get(s.containers, k).waiters
    ensures Get(s.containers, k).state == STOPPED ==> Get(s.containers, k).waiters == []
  {
    ReachableInv(s);
    assert WaitOk(w, s.waits[w], s.containers, s.nextObj);
  }

  // The reply to a wait call that was blocked is the record of whatever is registered under
  // its key by then. If that is its own process, it has an exit time, and its code is the one
  // the process exited with unless the exec has been started again since.
  lemma RightAnswer(s: Sys, w: nat)
    requires Reachable(s) && Enabled(s, WaitReplies(w))
    ensures var key, obj := s.waits[w].key, s.waits[w].obj;
            var reply := Apply(s, WaitReplies(w)).waits[w];
            && (Has(s.containers, key) ==> reply == Answer(s.containers, key))
            && (Has(s.containers, key) && Get(s.containers, key).obj == obj ==>
                  && reply.at.Some?
                  && (var p := Get(s.containers, key);
                      p.state == STOPPED ==> p.inst in s.exits && reply.code == s.exits[p.inst]))
            && (!Has(s.containers, key) <==> reply == NotFound)
  {
    ReachableInv(s);
    var key := s.waits[w].key;
    assert WaitOk(w, s.waits[w], s.containers, s.nextObj);
    if Has(s.containers, key) {
      assert ProcessOk(Get(s.containers, key), s.kernel, Pending(s), s.exits);
    }
  }

  // Which wait calls block: those whose reported status is RUNNING or CREATED. A pausing or
  // paused init answers for itself and its execs at once, exited or not.
  lemma WaitBlocksIff(s: Sys, key: Key)
    requires Reachable(s) && Enabled(s, WaitCalled(key))
    ensures var w := |s.waits|;
            var t := Apply(s, WaitCalled(key));
            var p := Get(s.containers, key);
            if p.state != STOPPED && s.containers[key.cid].init.state != PAUSED
            then t.waits[w] == Blocked(key, p.obj) && Has(t.containers, key) && w in Get(t.containers, key).waiters
            else t.waits[w] == Answered(key, p.obj, p.exitCode, p.exitedAt) && t.containers == s.containers
  {
    ReachableInv(s);
    WaitBlocks(s.containers, key, s.lock);
    PutGet(s.containers, key, Awaited(Get(s.containers, key), |s.waits|));
  }

  lemma WaitBlocks(c: Containers, key: Key, lock: Lock)
    requires PausingHidden(c, lock) && lock.Free? && Has(c, key)
    ensures (ReportedStatus(c, key) == RUNNING || ReportedStatus(c, key) == CREATED) <==>
              Get(c, key).state != STOPPED && c[key.cid].init.state != PAUSED
  {
    assert Has(c, Key(key.cid, None));
  }

  // ---- the init process ----

  // No state in which the lock is free shows PAUSING.
  lemma PausingNeverShows(s: Sys, k: Key)
    requires Reachable(s) && s.lock.Free? && Has(s.containers, k)
    ensures Get(s.containers, k).state != PAUSING
    ensures ReportedStatus(s.containers, k) != PAUSING
  {
    ReachableInv(s);
    assert Has(s.containers, Key(k.cid, None));
  }

  // How one step treats the init process that a container has after it: it was there
  // before, and if it had stopped, it is untouched.
  ghost predicate InitKept(c: Containers, d: Containers, cid: Id, obj: nat) {
    cid in d && d[cid].init.obj == obj ==>
      && cid in c
      && c[cid].init.obj == obj
      && (c[cid].init.state == STOPPED ==> d[cid].init == c[cid].init)
  }

  lemma StoppedFinish(c: Containers, call: Call, launched: Option<Adopted>, ok: bool, next: nat, cid: Id, obj: nat)
    requires CallOk(c, call) && obj < next
    requires ok && (call.Create? || (call.Start? && call.exec.Some?)) ==> launched.Some?
    ensures InitKept(c, Finished(c, call, launched, ok, next), cid, obj)
  {
  }

  lemma StoppedMark(s: Sys, key: Key, now: int, cid: Id, obj: nat)
    requires Inv(s) && CanMark(s, key)
    ensures InitKept(s.containers, Marked(s, key, now).containers, cid, obj)
  {
    Identified(s, key);
  }

  lemma StoppedRequest(c: Containers, call: Call, cid: Id, obj: nat)
    requires Admissible(c, call)
    ensures InitKept(c, Requested(c, call), cid, obj)
  {
  }

  lemma StoppedWait(s: Sys, key: Key, cid: Id, obj: nat)
    requires Has(s.containers, key)
    ensures InitKept(s.containers, Waiting(s, key).containers, cid, obj)
  {
  }

  lemma StoppedStep(s: Sys, a: Step, cid: Id, obj: nat)
    requires Inv(s) && Enabled(s, a) && obj < s.nextObj
    ensures CallHeld(s.lock, s.containers)
    ensures InitKept(s.containers, Apply(s, a).containers, cid, obj)
  {
    if a.Finish? {
      StoppedFinish(s.containers, s.lock.call, s.lock.launched, a.ok, s.nextObj, cid, obj);
    } else if a.PumpMarks? {
      StoppedMark(s, a.key, a.now, cid, obj);
    } else {
      StoppedOther(s, a, cid, obj);
    }
  }

  lemma StoppedOther(s: Sys, a: Step, cid: Id, obj: nat)
    requires CallHeld(s.lock, s.containers) && Enabled(s, a) && !a.Finish? && !a.PumpMarks? && obj < s.nextObj
    ensures InitKept(s.containers, Apply(s, a).containers, cid, obj)
  {
    if a.Request? {
      StoppedRequest(s.containers, a.call, cid, obj);
    } else if a.WaitCalled? {
      StoppedWait(s, a.key, cid, obj);
    } else if a.Remove? || a.DeleteExec? || a.AddExec? {
      StoppedRemoval(s, a, cid, obj);
    }
  }

  lemma StoppedRemoval(s: Sys, a: Step, cid: Id, obj: nat)
    requires CallHeld(s.lock, s.containers) && Enabled(s, a) && (a.Remove? || a.DeleteExec? || a.AddExec?)
    ensures InitKept(s.containers, Apply(s, a).containers, cid, obj)
  {
  }

  lemma InitNamed(s: Sys, cid: Id)
    requires Inv(s) && cid in s.containers
    ensures s.containers[cid].init.obj < s.nextObj
  {
    assert Has(s.containers, Key(cid, None));
  }

  lemma RunNamed(states: seq<Sys>, steps: seq<Step>, i: nat, cid: Id)
    requires Run(states, steps) && Inv(states[0]) && i <= |steps| && cid in states[i].containers
    ensures states[i].containers[cid].init.obj < states[i].nextObj
  {
    RunInv(states, steps, i);
    InitNamed(states[i], cid);
  }

  lemma RunStopped(states: seq<Sys>, steps: seq<Step>, i: nat, cid: Id, obj: nat)
    requires Run(states, steps) && Inv(states[0]) && i < |steps| && obj < states[i].nextObj
    ensures InitKept(states[i].containers, states[i + 1].containers, cid, obj)
  {
    RunInv(states, steps, i);
    assert Next(states[i], steps[i], states[i + 1]);
    StoppedStep(states[i], steps[i], cid, obj);
  }

  // Once the init process has stopped it stays as it is for as long as it is registered:
  // its state, pid, exit code and exit time never change again, in any run.
  lemma StoppedIsFinal(states: seq<Sys>, steps: seq<Step>, i: nat, j: nat, cid: Id)
    requires Run(states, steps) && Inv(states[0]) && i <= j <= |steps|
    requires cid in states[i].containers && states[i].containers[cid].init.state == STOPPED
    requires cid in states[j].containers && states[j].containers[cid].init.obj == states[i].containers[cid].init.obj
    ensures states[j].containers[cid].init == states[i].containers[cid].init
  {
    var obj := states[i].containers[cid].init.obj;
    RunNamed(states, steps, i, cid);
    forall k | i <= k < j
      ensures InitKept(states[k].containers, states[k + 1].containers, cid, obj)
    {
      NamesOnlyGrow(states, steps, i, k);
      RunStopped(states, steps, k, cid, obj);
    }
    KeptAlong(states, i, j, cid, obj);
  }

  lemma {:induction false} KeptAlong(states: seq<Sys>, i: nat, j: nat, cid: Id, obj: nat)
    requires i <= j < |states| && forall k | i <= k < j ::
               InitKept(states[k].containers, states[k + 1].containers, cid, obj)
    ensures InitKept(states[i].containers, states[j].containers, cid, obj)
  {
    if i < j {
      KeptAlong(states, i, j - 1, cid, obj);
      assert InitKept(states[j - 1].containers, states[j - 1 + 1].containers, cid, obj);
    }
  }

  lemma NamesGrow(s: Sys, a: Step, t: Sys)
    requires Next(s, a, t)
    ensures s.nextObj <= t.nextObj
  {
  }

  lemma {:induction false} NamesOnlyGrow(states: seq<Sys>, steps: seq<Step>, i: nat, j: nat)
    requires Run(states, steps) && i <= j <= |steps|
    ensures states[i].nextObj <= states[j].nextObj
    decreases j - i
  {
    if i < j {
      NamesOnlyGrow(states, steps, i, j - 1);
      NamesGrow(states[j - 1], steps[j - 1], states[j - 1 + 1]);
    }
  }

  // Execs have no such guard: a command to start one can end in success exactly if the
  // runtime succeeded and there is a pid to show, and then the exec runs again, also if it
  // had stopped before. Otherwise it stays as it is.
  lemma StoppedExecRestarts(s: Sys)
    requires Reachable(s) && s.lock.Handler? && s.lock.call.Start? && s.lock.call.exec.Some?
    ensures CallHeld(s.lock, s.containers)
    ensures Enabled(s, Finish(true)) <==> s.lock.runc.code == Some(0) && s.lock.launched.Some?
    ensures Enabled(s, Finish(false)) <==> s.lock.runc.code.Some?
    ensures var key := Key(s.lock.call.cid, s.lock.call.exec);
            var p := Get(s.containers, key);
            && (Enabled(s, Finish(true)) ==>
                  Get(Apply(s, Finish(true)).containers, key) ==
                  p.(state := RUNNING, pid := s.lock.launched.value.pid, inst := s.lock.launched.value.inst))
            && (Enabled(s, Finish(false)) ==> Apply(s, Finish(false)).containers == s.containers)
  {
    ReachableInv(s);
  }
}
