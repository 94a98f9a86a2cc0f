// Runs that show what the theorems on records leave possible: a stopped exec runs again, a
// running one is overwritten, and a waiter is told of a later start's exit.
module LifecycleWitness {
  import opened Wrappers
  import opened Processes
  import opened Registry
  import opened Kernel
  import opened Lifecycle
  import opened LifecycleInvariant
  import opened LifecycleTheorems
  import opened LifecycleHistory
  import opened LifecycleRecords

  lemma Longer(states: seq<Sys>, steps: seq<Step>, a: Step) returns (more: seq<Sys>, moreSteps: seq<Step>)
    requires Started(states, steps) && Enabled(states[|steps|], a)
    ensures Started(more, moreSteps) && CallHeld(states[|steps|].lock, states[|steps|].containers)
    ensures more == states + [Apply(states[|steps|], a)] && moreSteps == steps + [a]
  {
    RunFull(states, steps, |steps|);
    more, moreSteps := states + [Apply(states[|steps|], a)], steps + [a];
    forall i | 0 <= i < |moreSteps|
      ensures Next(more[i], moreSteps[i], more[i + 1])
    {
      if i < |steps| {
        assert Next(states[i], steps[i], states[i + 1]);
      }
    }
  }

  // Nothing is under way.
  ghost predicate Idle(s: Sys) {
    s.lock.Free? && s.reaped.None? && s.queue == [] && s.hand.None? && !s.sigchld && !s.draining && NoZombies(s)
  }

  // What is new in the kernel's table is one running child.
  ghost predicate Adopts(k: Children, l: Children, pid: int, inst: nat) {
    && (forall p :: p in l <==> p in k || p == pid)
    && (forall p | p in k && p != pid :: l[p] == k[p])
    && pid in l && l[pid] == Child(inst, Running)
  }

  // A command that starts a container process, before the handler acts on its success ...
  ghost predicate InCommand(s: Sys, t: Sys, call: Call, rpid: int, pid: int) {
    && t.lock == Handler(call, Runc(rpid, s.nextInst, [], Some(0)), Some(Adopted(pid, s.nextInst + 1)))
    && t.reaped.None? && t.queue == [Exit(rpid, s.nextInst, 0)] && t.hand.None? && !t.sigchld && !t.draining
    && NoZombies(t)
    && Adopts(s.kernel, t.kernel, pid, s.nextInst + 1)
    && t.containers == s.containers
    && t.nextInst == s.nextInst + 2 && t.nextObj == s.nextObj
    && t.waits == s.waits && t.log == s.log && t.deletions == s.deletions && t.channel == s.channel
    && t.exits == s.exits[s.nextInst := 0]
  }

  // ... and when all about it is over.
  ghost predicate Commanded(s: Sys, t: Sys, call: Call, pid: int)
    requires CallOk(s.containers, call)
  {
    && Idle(t)
    && Adopts(s.kernel, t.kernel, pid, s.nextInst + 1)
    && t.containers == Finished(s.containers, call, Some(Adopted(pid, s.nextInst + 1)), true, s.nextObj)
    && t.nextInst == s.nextInst + 2 && t.nextObj == s.nextObj + 1
    && t.waits == s.waits && t.log == s.log && t.deletions == s.deletions && t.channel == s.channel
    && t.exits == s.exits[s.nextInst := 0]
  }

  ghost predicate CanCommand(s: Sys, call: Call, rpid: int, pid: int) {
    && Idle(s) && (call.Create? || (call.Start? && call.exec.Some?)) && Admissible(s.containers, call)
    && PidFree(s, rpid) && PidFree(s, pid) && pid != rpid
  }

  // The command has left its process behind and has exited; nobody has noticed yet.
  ghost predicate CommandOver(s: Sys, t: Sys, call: Call, rpid: int, pid: int) {
    && t.lock == Handler(call, Runc(rpid, s.nextInst, [], None), Some(Adopted(pid, s.nextInst + 1)))
    && t.reaped.None? && t.queue == [] && t.hand.None? && t.sigchld && !t.draining
    && rpid in t.kernel && t.kernel[rpid] == Child(s.nextInst, Zombie(0)) && rpid !in s.kernel
    && Adopts(s.kernel, t.kernel - {rpid}, pid, s.nextInst + 1)
    && t.containers == s.containers
    && t.nextInst == s.nextInst + 2 && t.nextObj == s.nextObj
    && t.waits == s.waits && t.log == s.log && t.deletions == s.deletions && t.channel == s.channel
    && t.exits == s.exits[s.nextInst := 0]
  }

  lemma CommandDies(states: seq<Sys>, steps: seq<Step>, call: Call, rpid: int, pid: int)
    returns (more: seq<Sys>, moreSteps: seq<Step>)
    requires Started(states, steps) && CanCommand(states[|steps|], call, rpid, pid)
    ensures Started(more, moreSteps) && states <= more
    ensures CommandOver(states[|steps|], more[|moreSteps|], call, rpid, pid)
    ensures moreSteps == steps + [Request(call, rpid), Launch(pid), Dies(rpid, 0)]
  {
    more, moreSteps := Longer(states, steps, Request(call, rpid));
    more, moreSteps := Longer(more, moreSteps, Launch(pid));
    more, moreSteps := Longer(more, moreSteps, Dies(rpid, 0));
  }

  // It has been reaped, and its exit is on its way to the pump and to the handler.
  ghost predicate CommandReaped(s: Sys, t: Sys, call: Call, rpid: int, pid: int) {
    && t.lock == Handler(call, Runc(rpid, s.nextInst, [Exit(rpid, s.nextInst, 0)], None),
                         Some(Adopted(pid, s.nextInst + 1)))
    && t.reaped.None? && t.queue == [Exit(rpid, s.nextInst, 0)] && t.hand.None? && !t.sigchld && t.draining
    && Adopts(s.kernel, t.kernel, pid, s.nextInst + 1)
    && t.containers == s.containers
    && t.nextInst == s.nextInst + 2 && t.nextObj == s.nextObj
    && t.waits == s.waits && t.log == s.log && t.deletions == s.deletions && t.channel == s.channel
    && t.exits == s.exits[s.nextInst := 0]
  }

  lemma CommandReaps(states: seq<Sys>, steps: seq<Step>, call: Call, rpid: int, pid: int)
    returns (more: seq<Sys>, moreSteps: seq<Step>)
    requires Started(states, steps) && CanCommand(states[|steps|], call, rpid, pid)
    ensures Started(more, moreSteps) && states <= more
    ensures CommandReaped(states[|steps|], more[|moreSteps|], call, rpid, pid)
    ensures moreSteps == steps + [Request(call, rpid), Launch(pid), Dies(rpid, 0), ReaperWakes, Reap(rpid), Notify]
  {
    more, moreSteps := CommandDies(states, steps, call, rpid, pid);
    more, moreSteps := Longer(more, moreSteps, ReaperWakes);
    more, moreSteps := Longer(more, moreSteps, Reap(rpid));
    more, moreSteps := Longer(more, moreSteps, Notify);
  }

  lemma CommandRuns(states: seq<Sys>, steps: seq<Step>, call: Call, rpid: int, pid: int)
    returns (more: seq<Sys>, moreSteps: seq<Step>)
    requires Started(states, steps) && CanCommand(states[|steps|], call, rpid, pid)
    ensures Started(more, moreSteps) && states <= more
    ensures InCommand(states[|steps|], more[|moreSteps|], call, rpid, pid)
    ensures moreSteps == steps + [Request(call, rpid), Launch(pid), Dies(rpid, 0), ReaperWakes, Reap(rpid), Notify]
                         + [ReaperSleeps, RuncReceive]
  {
    var s := states[|steps|];
    more, moreSteps := CommandReaps(states, steps, call, rpid, pid);
    assert NoZombies(s);
    more, moreSteps := Longer(more, moreSteps, ReaperSleeps);
    more, moreSteps := Longer(more, moreSteps, RuncReceive);
  }

  // The runtime command's own exit is nobody's.
  lemma CommandEnds(s: Sys, call: Call, rpid: int, pid: int, k: Key)
    requires CanCommand(s, call, rpid, pid)
    ensures !Matches(Finished(s.containers, call, Some(Adopted(pid, s.nextInst + 1)), true, s.nextObj), k, rpid)
  {
    assert !Matches(s.containers, k, rpid);
  }

  lemma Command(states: seq<Sys>, steps: seq<Step>, call: Call, rpid: int, pid: int)
    returns (more: seq<Sys>, moreSteps: seq<Step>)
    requires Started(states, steps) && CanCommand(states[|steps|], call, rpid, pid)
    ensures Started(more, moreSteps) && states <= more && |moreSteps| == |steps| + 11
    ensures moreSteps == steps + [Request(call, rpid), Launch(pid), Dies(rpid, 0), ReaperWakes, Reap(rpid), Notify]
                         + [ReaperSleeps, RuncReceive]
                         + [Finish(true), PumpReceive, PumpMiss]
    ensures CallOk(states[|steps|].containers, call) && Commanded(states[|steps|], more[|moreSteps|], call, pid)
    ensures more[|steps| + 8].lock.Handler? && more[|steps| + 8].lock.call == call
    ensures more[|steps| + 8].containers == states[|steps|].containers
  {
    var s := states[|steps|];
    more, moreSteps := CommandRuns(states, steps, call, rpid, pid);
    more, moreSteps := Longer(more, moreSteps, Finish(true));
    more, moreSteps := Longer(more, moreSteps, PumpReceive);
    forall k
      ensures !Matches(more[|moreSteps|].containers, k, rpid)
    {
      CommandEnds(s, call, rpid, pid, k);
    }
    more, moreSteps := Longer(more, moreSteps, PumpMiss);
  }

  // ---- an exit that is marked and reported ----

  ghost predicate CanExit(s: Sys, k: Key, pid: int) {
    && Idle(s) && |s.channel| < CHANNEL_SIZE && Matches(s.containers, k, pid)
    && pid in s.kernel && s.kernel[pid] == Child(Get(s.containers, k).inst, Running)
  }

  // A child has died and been reaped, and the pump has its exit.
  ghost predicate Received(s: Sys, t: Sys, pid: int, inst: nat, code: int) {
    && t.lock.Free? && t.reaped.None? && t.queue == [] && t.hand == Some(Exit(pid, inst, code)) && !t.sigchld
    && !t.draining
    && (forall p :: p in t.kernel <==> p in s.kernel && p != pid)
    && (forall p | p in t.kernel :: t.kernel[p] == s.kernel[p])
    && t.containers == s.containers
    && t.nextInst == s.nextInst && t.nextObj == s.nextObj
    && t.waits == s.waits && t.log == s.log && t.deletions == s.deletions && t.channel == s.channel
    && t.exits == s.exits[inst := code]
  }

  lemma ExitReceived(states: seq<Sys>, steps: seq<Step>, pid: int, inst: nat, code: int)
    returns (more: seq<Sys>, moreSteps: seq<Step>)
    requires Started(states, steps) && Idle(states[|steps|])
    requires pid in states[|steps|].kernel && states[|steps|].kernel[pid] == Child(inst, Running)
    ensures Started(more, moreSteps) && states <= more
    ensures moreSteps == steps + [Dies(pid, code), ReaperWakes, Reap(pid), Notify, ReaperSleeps, PumpReceive]
    ensures Received(states[|steps|], more[|moreSteps|], pid, inst, code)
  {
    assert NoZombies(states[|steps|]);
    more, moreSteps := Longer(states, steps, Dies(pid, code));
    more, moreSteps := Longer(more, moreSteps, ReaperWakes);
    more, moreSteps := Longer(more, moreSteps, Reap(pid));
    more, moreSteps := Longer(more, moreSteps, Notify);
    more, moreSteps := Longer(more, moreSteps, ReaperSleeps);
    more, moreSteps := Longer(more, moreSteps, PumpReceive);
  }

  ghost predicate Exiting(s: Sys, t: Sys, k: Key, pid: int, code: int, now: int)
    requires Has(s.containers, k)
  {
    var p := Exited(Get(s.containers, k), code, now);
    && Idle(t)
    && (forall q :: q in t.kernel <==> q in s.kernel && q != pid)
    && (forall q | q in t.kernel :: t.kernel[q] == s.kernel[q])
    && t.containers == Put(s.containers, k, p)
    && t.nextInst == s.nextInst && t.nextObj == s.nextObj
    && t.waits == s.waits && t.deletions == s.deletions
    && t.log == s.log + [TaskExit(k, p.obj, p.inst, pid, code, Some(now))] && |t.channel| == |s.channel| + 1
    && t.exits == s.exits[p.inst := code]
  }

  lemma ExitMarked(states: seq<Sys>, steps: seq<Step>, k: Key, pid: int, code: int, now: int)
    returns (more: seq<Sys>, moreSteps: seq<Step>)
    requires Started(states, steps) && CanExit(states[|steps|], k, pid)
    ensures Started(more, moreSteps) && states <= more
    ensures moreSteps == steps + [Dies(pid, code), ReaperWakes, Reap(pid), Notify, ReaperSleeps, PumpReceive]
                         + [PumpMarks(k, now), PumpSends]
    ensures Exiting(states[|steps|], more[|moreSteps|], k, pid, code, now)
  {
    var s := states[|steps|];
    more, moreSteps := ExitReceived(states, steps, pid, Get(s.containers, k).inst, code);
    assert NoZombies(s);
    more, moreSteps := Longer(more, moreSteps, PumpMarks(k, now));
    more, moreSteps := Longer(more, moreSteps, PumpSends);
  }

  // ---- any exec can be started at any time ----

  // From any idle state of any run, with the init not stopped, a start of an exec can take
  // effect, whatever state the exec is in; only its state, pid and instance change.
  lemma AnyExecStarts(states: seq<Sys>, steps: seq<Step>, cid: Id, exec: Id, rpid: int, pid: int)
    returns (more: seq<Sys>, moreSteps: seq<Step>)
    requires Started(states, steps) && CanCommand(states[|steps|], Start(cid, Some(exec)), rpid, pid)
    ensures Started(more, moreSteps) && states <= more && steps <= moreSteps && |moreSteps| == |steps| + 11
    ensures Commanded(states[|steps|], more[|moreSteps|], Start(cid, Some(exec)), pid)
    ensures Begins(more[|steps| + 8], moreSteps[|steps| + 8], Key(cid, Some(exec)))
    ensures At(more[|steps| + 8], Key(cid, Some(exec))) == At(states[|steps|], Key(cid, Some(exec)))
    ensures At(more[|moreSteps|], Key(cid, Some(exec))) ==
            InState(Launched(At(states[|steps|], Key(cid, Some(exec))), pid, states[|steps|].nextInst + 1), RUNNING)
    ensures NoMark(moreSteps, |steps|, |moreSteps|, Key(cid, Some(exec)))
  {
    more, moreSteps := Command(states, steps, Start(cid, Some(exec)), rpid, pid);
  }

  // ---- from the very start ----

  const CID: Id := "c"
  const EXEC: Id := "e"
  const EXEC_KEY: Key := Key(CID, Some(EXEC))

  // One container with its init and one exec, and the pids in use.
  ghost predicate OnlyExec(s: Sys, execPid: int, pids: set<int>) {
    && Idle(s) && s.deletions == []
    && (forall k :: Has(s.containers, k) <==> k == Key(CID, None) || k == EXEC_KEY)
    && CID in s.containers && s.containers[CID].init.state == CREATED && s.containers[CID].init.pid == 10
    && s.containers[CID].init.waiters == []
    && Get(s.containers, EXEC_KEY).pid == execPid
    && (forall p :: p in s.kernel <==> p in pids)
  }

  lemma Free(s: Sys, execPid: int, pids: set<int>, pid: int)
    requires OnlyExec(s, execPid, pids) && pid > 0 && pid !in pids && pid != 10 && pid != execPid
    ensures PidFree(s, pid)
  {
  }

  // The shim starts up, a container is created, and an exec added.
  lemma Created() returns (states: seq<Sys>, steps: seq<Step>)
    ensures Started(states, steps) && OnlyExec(states[|steps|], 0, {10})
    ensures var p := Get(states[|steps|].containers, EXEC_KEY);
            p.state == CREATED && p.exitedAt.None? && p.waiters == []
    ensures states[|steps|].log == [] && states[|steps|].waits == [] && states[|steps|].channel == []
  {
    var s := Sys(map[], Lock.Free, map[], false, false, None, [], None, [], [], [], [], [], map[], 1, 0);
    states, steps := Command([s], [], Create(CID), 1, 10);
    states, steps := Longer(states, steps, AddExec(CID, EXEC));
  }

  lemma ExecStarted(states: seq<Sys>, steps: seq<Step>, execPid: int, pids: set<int>, rpid: int, pid: int)
    returns (more: seq<Sys>, moreSteps: seq<Step>)
    requires Started(states, steps) && OnlyExec(states[|steps|], execPid, pids)
    requires 0 < rpid && 0 < pid != rpid && {rpid, pid} !! pids + {10, execPid}
    ensures Started(more, moreSteps) && states <= more && steps <= moreSteps && |moreSteps| == |steps| + 11
    ensures OnlyExec(more[|moreSteps|], pid, pids + {pid})
    ensures var s, t := states[|steps|], more[|moreSteps|];
            && Begins(more[|steps| + 8], moreSteps[|steps| + 8], EXEC_KEY)
            && At(more[|steps| + 8], EXEC_KEY) == At(s, EXEC_KEY)
            && At(t, EXEC_KEY) == InState(Launched(At(s, EXEC_KEY), pid, s.nextInst + 1), RUNNING)
            && t.kernel[pid] == Child(s.nextInst + 1, Running)
            && (forall p | p in s.kernel :: t.kernel[p] == s.kernel[p])
            && t.log == s.log && t.waits == s.waits && t.channel == s.channel && t.exits == s.exits[s.nextInst := 0]
    ensures NoMark(moreSteps, |steps|, |moreSteps|, EXEC_KEY)
  {
    Free(states[|steps|], execPid, pids, rpid);
    Free(states[|steps|], execPid, pids, pid);
    more, moreSteps := AnyExecStarts(states, steps, CID, EXEC, rpid, pid);
    var s := states[|steps|];
    PutGet(s.containers, EXEC_KEY, InState(Launched(At(s, EXEC_KEY), pid, s.nextInst + 1), RUNNING));
  }

  lemma ExecExits(states: seq<Sys>, steps: seq<Step>, pid: int, pids: set<int>, code: int, now: int)
    returns (more: seq<Sys>, moreSteps: seq<Step>)
    requires Started(states, steps) && OnlyExec(states[|steps|], pid, pids) && pid in pids && pid != 10
    requires states[|steps|].kernel[pid] == Child(Get(states[|steps|].containers, EXEC_KEY).inst, Running)
    requires |states[|steps|].channel| < CHANNEL_SIZE
    ensures Started(more, moreSteps) && states <= more && steps <= moreSteps && |moreSteps| == |steps| + 8
    ensures OnlyExec(more[|moreSteps|], pid, pids - {pid})
    ensures Exiting(states[|steps|], more[|moreSteps|], EXEC_KEY, pid, code, now)
    ensures moreSteps[|steps| + 6] == PumpMarks(EXEC_KEY, now) && NoMark(moreSteps, |steps|, |steps| + 6, EXEC_KEY)
  {
    more, moreSteps := ExitMarked(states, steps, EXEC_KEY, pid, code, now);
    PutGet(states[|steps|].containers, EXEC_KEY, Exited(Get(states[|steps|].containers, EXEC_KEY), code, now));
  }

  // A stopped exec runs again: there is a run in which an exec is started, exits, is marked
  // STOPPED and reported, and is started again under the same name.
  lemma StoppedExecRuns() returns (states: seq<Sys>, steps: seq<Step>, i: nat)
    ensures Started(states, steps) && i < |steps|
    ensures At(states[i], EXEC_KEY).state == STOPPED && At(states[|steps|], EXEC_KEY).state == RUNNING
    ensures Named(states[i], EXEC_KEY, At(states[i], EXEC_KEY).obj)
    ensures Named(states[|steps|], EXEC_KEY, At(states[i], EXEC_KEY).obj)
  {
    states, steps := Created();
    states, steps := ExecStarted(states, steps, 0, {10}, 2, 20);
    states, steps := ExecExits(states, steps, 20, {10} + {20}, 7, 100);
    i := |steps|;
    states, steps := ExecStarted(states, steps, 20, {10} + {20} - {20}, 3, 30);
  }

  // A running exec is overwritten: started again while it runs, its first process exits, the
  // pump finds nobody with that pid, everything is idle, and nothing was reported.
  lemma RunningExecOverwritten() returns (states: seq<Sys>, steps: seq<Step>, m: nat)
    ensures Started(states, steps) && m < |steps|
    ensures Begins(states[m], steps[m], EXEC_KEY) && At(states[m], EXEC_KEY).state == RUNNING
    ensures At(states[m], EXEC_KEY).inst in states[|steps|].exits
    ensures Idle(states[|steps|]) && states[|steps|].log == [] && Gone(states[|steps|], At(states[m], EXEC_KEY).inst)
  {
    states, steps := Created();
    states, steps := ExecStarted(states, steps, 0, {10}, 2, 20);
    var s := states[|steps|];
    m := |steps| + 8;
    states, steps := ExecStarted(states, steps, 20, {10} + {20}, 3, 30);
    var n := |steps|;
    states, steps := ExitReceived(states, steps, 20, At(s, EXEC_KEY).inst, 7);
    states, steps := Longer(states, steps, PumpMiss);
    LostIsSilent(states, steps, m, |steps|, EXEC_KEY);
  }

  // The exec's first start.
  lemma FirstStart() returns (states: seq<Sys>, steps: seq<Step>)
    ensures Started(states, steps) && OnlyExec(states[|steps|], 20, {10} + {20})
    ensures var s := states[|steps|];
            var p := At(s, EXEC_KEY);
            && s.waits == [] && s.log == [] && s.channel == []
            && p.state == RUNNING && p.waiters == [] && s.kernel[20] == Child(p.inst, Running) && p.inst < s.nextInst
  {
    states, steps := Created();
    states, steps := ExecStarted(states, steps, 0, {10}, 2, 20);
    InstBelow(states, steps);
  }

  lemma InstBelow(states: seq<Sys>, steps: seq<Step>)
    requires Started(states, steps)
    ensures forall k | Has(states[|steps|].containers, k) ::
              Get(states[|steps|].containers, k).inst < states[|steps|].nextInst
  {
    RunFull(states, steps, |steps|);
  }

  // A caller waits for it.
  lemma WaitBegun() returns (states: seq<Sys>, steps: seq<Step>)
    ensures |steps| > 0 && BlockedAt(states, steps, |steps| - 1, EXEC_KEY, |steps|)
    ensures var s, t := states[|steps| - 1], states[|steps|];
            var p := Get(s.containers, EXEC_KEY);
            && s.waits == [] && t.waits == [Blocked(EXEC_KEY, p.obj)] && t.log == [] && t.channel == []
            && OnlyExec(t, 20, {10} + {20}) && At(t, EXEC_KEY) == p.(waiters := [0]) && p.state == RUNNING
            && 20 in t.kernel && t.kernel[20] == Child(p.inst, Running) && p.inst < t.nextInst
  {
    states, steps := FirstStart();
    var s := states[|steps|];
    PutGet(s.containers, EXEC_KEY, Awaited(Get(s.containers, EXEC_KEY), 0));
    states, steps := Longer(states, steps, WaitCalled(EXEC_KEY));
  }

  // The first start exits with 7, and before the caller wakes the exec is started again.
  lemma WaitOvertaken() returns (states: seq<Sys>, steps: seq<Step>, i: nat)
    ensures i < |steps| && BlockedAt(states, steps, i, EXEC_KEY, |steps|)
    ensures var s, t := states[i], states[|steps|];
            var p := Get(s.containers, EXEC_KEY);
            && s.waits == [] && t.waits == [Blocked(EXEC_KEY, p.obj)] && |t.channel| == 1
            && p.inst in t.exits && t.exits[p.inst] == 7 && p.inst < At(t, EXEC_KEY).inst
            && OnlyExec(t, 30, {10} + {20} - {20} + {30})
            && At(t, EXEC_KEY).obj == p.obj && At(t, EXEC_KEY).waiters == []
            && t.kernel[30] == Child(At(t, EXEC_KEY).inst, Running)
  {
    states, steps := WaitBegun();
    i := |steps| - 1;
    var p := Get(states[i].containers, EXEC_KEY);
    states, steps := ExecExits(states, steps, 20, {10} + {20}, 7, 100);
    PutGet(states[i + 1].containers, EXEC_KEY, Exited(p.(waiters := [0]), 7, 100));
    states, steps := ExecStarted(states, steps, 20, {10} + {20} - {20}, 3, 30);
  }

  // A waiter is told of another start's exit: it waits for the first one, which exits with 7;
  // before it wakes the exec is started again and exits with 9; the reply is 9.
  lemma LaterExitAnswered() returns (states: seq<Sys>, steps: seq<Step>, i: nat)
    ensures i < |steps| && BlockedAt(states, steps, i, EXEC_KEY, |steps|)
    ensures var s, t := states[i], states[|steps|];
            var p := Get(s.containers, EXEC_KEY);
            && |s.waits| == 0 < |t.waits|
            && p.inst in t.exits && t.exits[p.inst] == 7
            && t.waits[0] == Answered(EXEC_KEY, p.obj, 9, Some(200))
  {
    states, steps, i := WaitOvertaken();
    var t := states[|steps|];
    states, steps := ExecExits(states, steps, 30, {10} + {20} - {20} + {30}, 9, 200);
    PutGet(t.containers, EXEC_KEY, Exited(At(t, EXEC_KEY), 9, 200));
    states, steps := FirstReplied(states, steps);
  }

  // A waiter is told of no exit at all: its running exec is deleted, which nothing refuses, and
  // another is added under the same id before the call looks again. The process it waits for
  // is still running, and its exit will never be reported.
  lemma DeletedExecAnswered() returns (states: seq<Sys>, steps: seq<Step>, i: nat)
    ensures i < |steps| && BlockedAt(states, steps, i, EXEC_KEY, |steps|)
    ensures var s, t := states[i], states[|steps|];
            var p := Get(s.containers, EXEC_KEY);
            && |s.waits| == 0 < |t.waits|
            && t.waits[0].Answered? && t.waits[0].obj != p.obj && t.waits[0].code == 0 && t.waits[0].at.None?
            && p.pid in t.kernel && t.kernel[p.pid] == Child(p.inst, Running)
            && Gone(t, p.inst)
  {
    states, steps := ExecReplaced();
    i := |steps| - 3;
    states, steps := FirstReplied(states, steps);
    LostIsSilent(states, steps, i + 1, |steps|, EXEC_KEY);
  }

  lemma ExecReplaced() returns (states: seq<Sys>, steps: seq<Step>)
    ensures |steps| > 2 && BlockedAt(states, steps, |steps| - 3, EXEC_KEY, |steps|)
    ensures steps[|steps| - 2] == DeleteExec(CID, EXEC)
    ensures var s, u, t := states[|steps| - 3], states[|steps| - 2], states[|steps|];
            var p := Get(s.containers, EXEC_KEY);
            && s.waits == [] && t.waits == [Blocked(EXEC_KEY, p.obj)] && t.lock.Free?
            && Has(u.containers, EXEC_KEY) && At(u, EXEC_KEY) == p.(waiters := [0]) && p.state == RUNNING && p.pid == 20
            && 20 in t.kernel && t.kernel[20] == Child(p.inst, Running)
            && Has(t.containers, EXEC_KEY) && Get(t.containers, EXEC_KEY) == Fresh(u.nextObj) && p.obj < u.nextObj
            && forall k | Has(t.containers, k) :: Get(t.containers, k).waiters == []
  {
    states, steps := WaitBegun();
    RunFull(states, steps, |steps|);
    Replaced(states[|steps|]);
    states, steps := Longer(states, steps, DeleteExec(CID, EXEC));
    states, steps := Longer(states, steps, AddExec(CID, EXEC));
  }

  // The exec's place is taken by a fresh one.
  lemma Replaced(s: Sys)
    requires OnlyExec(s, 20, {10} + {20}) && Get(s.containers, EXEC_KEY).obj < s.nextObj
    ensures CID in ExecDeleted(s, CID, EXEC).containers
    ensures var t := ExecAdded(ExecDeleted(s, CID, EXEC), CID, EXEC);
            && Has(t.containers, EXEC_KEY) && Get(t.containers, EXEC_KEY) == Fresh(s.nextObj)
            && (forall k | Has(t.containers, k) :: Get(t.containers, k).waiters == [])
            && t.kernel == s.kernel && t.waits == s.waits && t.lock.Free?
  {
    var u := ExecDeleted(s, CID, EXEC);
    PutGet(u.containers, EXEC_KEY, Fresh(s.nextObj));
    var t := ExecAdded(u, CID, EXEC);
    forall k | Has(t.containers, k)
      ensures Get(t.containers, k).waiters == []
    {
      assert Has(s.containers, k);
    }
  }

  lemma FirstReplied(states: seq<Sys>, steps: seq<Step>) returns (more: seq<Sys>, moreSteps: seq<Step>)
    requires Started(states, steps) && states[|steps|].lock.Free? && |states[|steps|].waits| > 0
    requires states[|steps|].waits[0].Blocked? && Has(states[|steps|].containers, states[|steps|].waits[0].key)
    requires forall k | Has(states[|steps|].containers, k) :: Get(states[|steps|].containers, k).waiters == []
    ensures Started(more, moreSteps) && states <= more && steps <= moreSteps && |moreSteps| == |steps| + 2
    ensures var s, t := states[|steps|], more[|moreSteps|];
            && |t.waits| > 0 && t.waits[0] == Answer(s.containers, s.waits[0].key)
            && t.exits == s.exits && t.kernel == s.kernel
  {
    more, moreSteps := Longer(states, steps, WaitWakes(0));
    more, moreSteps := Longer(more, moreSteps, WaitReplies(0));
  }

  // ---- a delete removes another's container ----

  // The first section of a delete of the container, before the handler acts on its command ...
  ghost predicate DeleteReaped(s: Sys, t: Sys, rpid: int) {
    && t.lock == Handler(Delete(CID), Runc(rpid, s.nextInst, [Exit(rpid, s.nextInst, 0)], None), None)
    && t.reaped.None? && t.queue == [Exit(rpid, s.nextInst, 0)] && t.hand.None? && !t.sigchld && t.draining
    && t.kernel == s.kernel && t.containers == s.containers && t.deletions == s.deletions
    && t.nextInst == s.nextInst + 1 && t.nextObj == s.nextObj
  }

  lemma DeleteReaps(states: seq<Sys>, steps: seq<Step>, rpid: int) returns (more: seq<Sys>, moreSteps: seq<Step>)
    requires Started(states, steps) && Idle(states[|steps|]) && CID in states[|steps|].containers
    requires PidFree(states[|steps|], rpid)
    ensures Started(more, moreSteps) && states <= more
    ensures moreSteps == steps + [Request(Delete(CID), rpid), Dies(rpid, 0), ReaperWakes, Reap(rpid), Notify]
    ensures DeleteReaped(states[|steps|], more[|moreSteps|], rpid)
  {
    var kernel := states[|steps|].kernel;
    more, moreSteps := Longer(states, steps, Request(Delete(CID), rpid));
    more, moreSteps := Longer(more, moreSteps, Dies(rpid, 0));
    more, moreSteps := Longer(more, moreSteps, ReaperWakes);
    more, moreSteps := Longer(more, moreSteps, Reap(rpid));
    assert more[|moreSteps|].kernel == kernel;
    more, moreSteps := Longer(more, moreSteps, Notify);
  }

  // ... and when it has.
  lemma DeleteEnds(states: seq<Sys>, steps: seq<Step>, rpid: int) returns (more: seq<Sys>, moreSteps: seq<Step>)
    requires Started(states, steps) && Idle(states[|steps|]) && CID in states[|steps|].containers
    requires PidFree(states[|steps|], rpid)
    ensures Started(more, moreSteps) && states <= more && |moreSteps| == |steps| + 8
    ensures var s, t := states[|steps|], more[|moreSteps|];
            && t.lock.Free? && NoZombies(t) && t.kernel == s.kernel && t.containers == s.containers
            && t.reaped.None? && t.queue == [Exit(rpid, s.nextInst, 0)] && t.hand.None? && !t.sigchld && !t.draining
            && t.deletions == s.deletions + ToDelete(s.containers, Delete(CID), true)
            && t.nextInst == s.nextInst + 1
  {
    more, moreSteps := DeleteReaps(states, steps, rpid);
    assert NoZombies(states[|steps|]);
    more, moreSteps := Longer(more, moreSteps, ReaperSleeps);
    more, moreSteps := Longer(more, moreSteps, RuncReceive);
    more, moreSteps := Longer(more, moreSteps, Finish(true));
  }

  lemma DeleteRuns(states: seq<Sys>, steps: seq<Step>, rpid: int) returns (more: seq<Sys>, moreSteps: seq<Step>)
    requires Started(states, steps) && Idle(states[|steps|]) && CID in states[|steps|].containers
    requires PidFree(states[|steps|], rpid)
    ensures Started(more, moreSteps) && states <= more && |moreSteps| == |steps| + 10
    ensures var s, t := states[|steps|], more[|moreSteps|];
            && Idle(t) && t.kernel == s.kernel && t.containers == s.containers
            && t.deletions == s.deletions + ToDelete(s.containers, Delete(CID), true)
            && t.nextInst == s.nextInst + 1
  {
    var s := states[|steps|];
    more, moreSteps := DeleteEnds(states, steps, rpid);
    more, moreSteps := Longer(more, moreSteps, PumpReceive);
    forall k
      ensures !Matches(s.containers, k, rpid)
    {
    }
    more, moreSteps := Longer(more, moreSteps, PumpMiss);
  }

  // A container is deleted and, before the handler takes the lock again to unregister it,
  // created anew under the same id. What is removed then is the new one, whose process runs
  // and whose exit will never be reported.
  lemma NewContainerRemoved() returns (states: seq<Sys>, steps: seq<Step>)
    ensures Started(states, steps) && |steps| > 0 && steps[|steps| - 1] == Remove(0)
    ensures var s, t := states[|steps| - 1], states[|steps|];
            && s.deletions != [] && s.deletions[0].cid == CID && CID in s.containers
            && s.containers[CID].init.obj != s.deletions[0].obj
            && CID !in t.containers
            && 30 in t.kernel && t.kernel[30] == Child(s.containers[CID].init.inst, Running)
            && Gone(t, s.containers[CID].init.inst)
  {
    states, steps := DeletedThenCreated();
    assert Has(states[|steps|].containers, Key(CID, None));
    states, steps := Longer(states, steps, Remove(0));
    LostIsSilent(states, steps, |steps| - 1, |steps|, Key(CID, None));
  }

  lemma DeletedThenCreated() returns (states: seq<Sys>, steps: seq<Step>)
    ensures Started(states, steps)
    ensures var s := states[|steps|];
            && Idle(s) && s.deletions != [] && s.deletions[0].cid == CID && CID in s.containers
            && var init := s.containers[CID].init;
            && init.obj != s.deletions[0].obj && init.pid == 30 && init.state == CREATED
            && 30 in s.kernel && s.kernel[30] == Child(init.inst, Running)
  {
    states, steps := ContainerDeleted();
    NamesBelow(states, steps);
    states, steps := Command(states, steps, Create(CID), 3, 30);
  }

  lemma NamesBelow(states: seq<Sys>, steps: seq<Step>)
    requires Started(states, steps)
    ensures var s := states[|steps|]; forall i | 0 <= i < |s.deletions| :: s.deletions[i].obj < s.nextObj
  {
    RunFull(states, steps, |steps|);
  }

  lemma ContainerDeleted() returns (states: seq<Sys>, steps: seq<Step>)
    ensures Started(states, steps) && CanCommand(states[|steps|], Create(CID), 3, 30)
    ensures states[|steps|].deletions != [] && states[|steps|].deletions[0].cid == CID
  {
    states, steps := Created();
    var s := states[|steps|];
    Free(s, 0, {10}, 2);
    Free(s, 0, {10}, 3);
    Free(s, 0, {10}, 30);
    states, steps := DeleteRuns(states, steps, 2);
  }
}
