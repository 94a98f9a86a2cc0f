// What the handlers that wait for the runtime make of its answer, in terms of the records and
// events themselves: from every reachable state, and over runs.
module LifecycleTransitions {
  import opened Wrappers
  import opened Processes
  import opened Registry
  import opened Kernel
  import opened Sequences
  import opened Lifecycle
  import opened LifecycleInvariant
  import opened LifecycleTheorems
  import opened LifecycleHistory
  import opened LifecycleRecords

  // A handler ends: the lock is free, the events are on their way, and of all processes at
  // most one record is another.
  ghost predicate Ends(s: Sys, t: Sys, key: Key, p: Process, events: seq<Event>) {
    && t == s.(containers := t.containers, lock := Free, sends := s.sends + events,
               deletions := t.deletions, nextObj := s.nextObj + 1)
    && Has(t.containers, key) && Get(t.containers, key) == p
    && (forall k | k != key :: Has(t.containers, k) <==> Has(s.containers, k))
    && (forall k | k != key && Has(s.containers, k) :: Get(t.containers, k) == Get(s.containers, k))
  }

  // A handler holds the lock for a call, and the runtime has answered.
  ghost predicate Answered(s: Sys, call: Call) {
    Reachable(s) && s.lock.Handler? && s.lock.call == call && s.lock.runc.code.Some?
  }

  lemma AnsweredHeld(s: Sys, call: Call)
    requires Answered(s, call)
    ensures CallHeld(s.lock, s.containers) && CallOk(s.containers, call)
  {
    ReachableInv(s);
  }

  // A start of an init succeeds exactly if the runtime does, and then it is RUNNING.
  lemma InitStartEnds(s: Sys, cid: Id)
    requires Answered(s, Start(cid, None))
    ensures CallHeld(s.lock, s.containers) && cid in s.containers
    ensures CanFinish(s, true) <==> s.lock.runc.code == Some(0)
    ensures CanFinish(s, false) <==> s.lock.runc.code != Some(0)
    ensures var p := s.containers[cid].init;
            && (CanFinish(s, true) ==>
                  Ends(s, FinishedBy(s, true), Key(cid, None), p.(state := RUNNING), [TaskStart(cid)])
                  && FinishedBy(s, true).deletions == s.deletions)
            && (CanFinish(s, false) ==>
                  FinishedBy(s, false) == s.(lock := Free, nextObj := s.nextObj + 1))
  {
    AnsweredHeld(s, Start(cid, None));
    PutGet(s.containers, Key(cid, None), s.containers[cid].init.(state := RUNNING));
  }

  // A pause leaves PAUSING either way: for PAUSED, or back to RUNNING.
  lemma PauseEnds(s: Sys, cid: Id)
    requires Answered(s, Pause(cid))
    ensures CallHeld(s.lock, s.containers) && cid in s.containers && s.containers[cid].init.state == PAUSING
    ensures CanFinish(s, true) <==> s.lock.runc.code == Some(0)
    ensures CanFinish(s, false) <==> s.lock.runc.code != Some(0)
    ensures var p := s.containers[cid].init;
            && (CanFinish(s, true) ==>
                  Ends(s, FinishedBy(s, true), Key(cid, None), p.(state := PAUSED), [TaskPaused(cid)])
                  && FinishedBy(s, true).deletions == s.deletions)
            && (CanFinish(s, false) ==>
                  Ends(s, FinishedBy(s, false), Key(cid, None), p.(state := RUNNING), [])
                  && FinishedBy(s, false).deletions == s.deletions)
  {
    AnsweredHeld(s, Pause(cid));
    PutGet(s.containers, Key(cid, None), s.containers[cid].init.(state := PAUSED));
    PutGet(s.containers, Key(cid, None), s.containers[cid].init.(state := RUNNING));
  }

  // A resume makes a PAUSED init RUNNING, or leaves everything as it was.
  lemma ResumeEnds(s: Sys, cid: Id)
    requires Answered(s, Resume(cid))
    ensures CallHeld(s.lock, s.containers) && cid in s.containers && s.containers[cid].init.state == PAUSED
    ensures CanFinish(s, true) <==> s.lock.runc.code == Some(0)
    ensures CanFinish(s, false) <==> s.lock.runc.code != Some(0)
    ensures var p := s.containers[cid].init;
            && (CanFinish(s, true) ==>
                  Ends(s, FinishedBy(s, true), Key(cid, None), p.(state := RUNNING), [TaskResumed(cid)])
                  && FinishedBy(s, true).deletions == s.deletions)
            && (CanFinish(s, false) ==>
                  FinishedBy(s, false) == s.(lock := Free, nextObj := s.nextObj + 1))
  {
    AnsweredHeld(s, Resume(cid));
    PutGet(s.containers, Key(cid, None), s.containers[cid].init.(state := RUNNING));
  }

  // A start of an exec that succeeds has it RUNNING under the pid that the runtime left.
  lemma ExecStartEnds(s: Sys, cid: Id, exec: Id)
    requires Answered(s, Start(cid, Some(exec)))
    ensures CallHeld(s.lock, s.containers) && Has(s.containers, Key(cid, Some(exec)))
    ensures CanFinish(s, true) <==> s.lock.runc.code == Some(0) && s.lock.launched.Some?
    ensures CanFinish(s, false)
    ensures var key, l := Key(cid, Some(exec)), s.lock.launched;
            var p := Get(s.containers, key);
            && (CanFinish(s, true) ==>
                  Ends(s, FinishedBy(s, true), key, p.(state := RUNNING, pid := l.value.pid, inst := l.value.inst),
                       [TaskExecStarted(cid, exec)])
                  && FinishedBy(s, true).deletions == s.deletions)
            && FinishedBy(s, false) == s.(lock := Free, nextObj := s.nextObj + 1)
  {
    AnsweredHeld(s, Start(cid, Some(exec)));
    var key := Key(cid, Some(exec));
    if s.lock.launched.Some? {
      var l := s.lock.launched.value;
      PutGet(s.containers, key, Get(s.containers, key).(state := RUNNING, pid := l.pid, inst := l.inst));
    }
  }

  // A create that succeeds registers a CREATED init with the pid that the runtime left, no
  // exit recorded, nobody waiting and no execs; whatever was under the id is gone.
  lemma CreateEnds(s: Sys, cid: Id)
    requires Answered(s, Create(cid))
    ensures CallHeld(s.lock, s.containers)
    ensures CanFinish(s, true) <==> s.lock.runc.code == Some(0) && s.lock.launched.Some?
    ensures CanFinish(s, false)
    ensures var l := s.lock.launched;
            && (CanFinish(s, true) ==>
                  var p := Process(s.nextObj, l.value.inst, CREATED, l.value.pid, 0, None, []);
                  FinishedBy(s, true) ==
                  s.(containers := s.containers[cid := Container(p, map[])], lock := Free,
                     sends := s.sends + [TaskCreate(cid)], nextObj := s.nextObj + 1))
            && FinishedBy(s, false) == s.(lock := Free, nextObj := s.nextObj + 1)
  {
    AnsweredHeld(s, Create(cid));
  }

  // The first section of a delete changes no record; if it succeeds, what TaskDelete is to
  // tell is put down as it is now. A kill changes nothing at all.
  lemma DeleteEnds(s: Sys, cid: Id, ok: bool)
    requires Answered(s, Delete(cid))
    ensures CallHeld(s.lock, s.containers) && cid in s.containers && CanFinish(s, ok)
    ensures var p := s.containers[cid].init;
            FinishedBy(s, ok) ==
            s.(lock := Free, nextObj := s.nextObj + 1,
               deletions := s.deletions +
                            if ok then [Deletion(cid, p.obj, p.pid, p.exitCode, p.exitedAt)] else [])
  {
    AnsweredHeld(s, Delete(cid));
  }

  lemma KillEnds(s: Sys, cid: Id, ok: bool)
    requires Answered(s, Kill(cid)) && CanFinish(s, ok)
    ensures CallHeld(s.lock, s.containers)
    ensures ok <==> s.lock.runc.code == Some(0)
    ensures FinishedBy(s, ok) == s.(lock := Free, nextObj := s.nextObj + 1)
  {
    AnsweredHeld(s, Kill(cid));
  }

  // ---- pause and resume over a run ----

  // A step that ends a pause of the init: a resume or a start that succeeds, or the pause's
  // own failure.
  ghost predicate Lifts(s: Sys, a: Step, cid: Id) {
    && a.Finish? && s.lock.Handler?
    && ((s.lock.call in {Resume(cid), Start(cid, None)} && a.ok) || (s.lock.call == Pause(cid) && !a.ok))
  }

  predicate Halted(p: Process) {
    p.state == PAUSING || p.state == PAUSED
  }

  // A record but for the two states of a pause.
  ghost predicate SameButHalted(p: Process, q: Process) {
    Halted(p) && Halted(q) && q == p.(state := q.state)
  }

  lemma HaltedStep(s: Sys, a: Step, cid: Id, obj: nat)
    requires Full(s) && Enabled(s, a) && InitIs(s, cid, obj) && Halted(s.containers[cid].init)
    requires !Lifts(s, a, cid) && !Marks(a, Key(cid, None))
    ensures CallHeld(s.lock, s.containers)
    ensures InitIs(Apply(s, a), cid, obj) ==>
              SameButHalted(s.containers[cid].init, Apply(s, a).containers[cid].init)
  {
    var key := Key(cid, None);
    assert Has(s.containers, key);
    if a.Finish? {
      HaltedFinish(s, a.ok, cid, obj);
    } else if a.PumpMarks? {
      PutGet(s.containers, a.key, Exited(Get(s.containers, a.key), s.hand.value.code, a.now));
    } else if a.WaitCalled? {
      HaltedWait(s, a.key, cid);
    } else if a.Request? || a.Remove? || a.DeleteExec? || a.AddExec? {
      HaltedOther(s, a, cid, obj);
    } else {
      FollowsOther(s, a, key, obj);
    }
  }

  lemma HaltedFinish(s: Sys, ok: bool, cid: Id, obj: nat)
    requires CallHeld(s.lock, s.containers) && ObjsOk(s.containers, s.nextObj) && CanFinish(s, ok)
    requires InitIs(s, cid, obj) && Halted(s.containers[cid].init) && !Lifts(s, Finish(ok), cid)
    requires PausingHidden(s.containers, s.lock)
    requires s.containers[cid].init.state == PAUSING ==> s.lock.call == Pause(cid)
    ensures InitIs(FinishedBy(s, ok), cid, obj) ==>
              SameButHalted(s.containers[cid].init, FinishedBy(s, ok).containers[cid].init)
  {
    assert Has(s.containers, Key(cid, None));
  }

  lemma HaltedWait(s: Sys, key: Key, cid: Id)
    requires Has(s.containers, key) && cid in s.containers && Halted(s.containers[cid].init)
    ensures Waiting(s, key).containers[cid].init == s.containers[cid].init
  {
  }

  lemma HaltedOther(s: Sys, a: Step, cid: Id, obj: nat)
    requires CallHeld(s.lock, s.containers) && Enabled(s, a) && InitIs(s, cid, obj) && Halted(s.containers[cid].init)
    requires a.Request? || a.Remove? || a.DeleteExec? || a.AddExec?
    ensures InitIs(Apply(s, a), cid, obj) ==>
              SameButHalted(s.containers[cid].init, Apply(s, a).containers[cid].init)
  {
  }

  ghost predicate HaltedOn(s: Sys, t: Sys, key: Key, obj: nat) {
    Named(s, key, obj) && Named(t, key, obj) && Halted(At(s, key)) ==> SameButHalted(At(s, key), At(t, key))
  }

  lemma HaltedSince(states: seq<Sys>, steps: seq<Step>, i: nat, j: nat, cid: Id, obj: nat)
    requires Path(states, steps, i, j, Key(cid, None), obj) && Started(states, steps)
    requires Halted(At(states[i], Key(cid, None))) && NoMark(steps, i, j, Key(cid, None))
    requires forall m | i <= m < j :: !Lifts(states[m], steps[m], cid)
    ensures SameButHalted(At(states[i], Key(cid, None)), At(states[j], Key(cid, None)))
  {
    forall m | i <= m < j
      ensures HaltedOn(states[m], states[m + 1], Key(cid, None), obj)
    {
      RunFull(states, steps, m);
      assert Next(states[m], steps[m], states[m + 1]);
      if InitIs(states[m], cid, obj) && Halted(At(states[m], Key(cid, None))) {
        HaltedStep(states[m], steps[m], cid, obj);
      }
    }
    HaltedAlong(states, i, j, Key(cid, None), obj);
  }

  lemma {:induction false} HaltedAlong(states: seq<Sys>, i: nat, j: nat, key: Key, obj: nat)
    requires i <= j < |states| && Halted(At(states[i], key))
    requires forall m | i <= m <= j :: Named(states[m], key, obj)
    requires forall m | i <= m < j :: HaltedOn(states[m], states[m + 1], key, obj)
    ensures SameButHalted(At(states[i], key), At(states[j], key))
    decreases j - i
  {
    if i < j {
      HaltedAlong(states, i, j - 1, key, obj);
      assert HaltedOn(states[j - 1], states[j - 1 + 1], key, obj);
    }
  }

  lemma ReachableAt(states: seq<Sys>, steps: seq<Step>, k: nat)
    requires Started(states, steps) && k <= |steps|
    ensures Reachable(states[k])
  {
    var few, fewSteps := states[..k + 1], steps[..k];
    forall i | 0 <= i < |fewSteps|
      ensures Next(few[i], fewSteps[i], few[i + 1])
    {
      assert Next(states[i], steps[i], states[i + 1]);
    }
    assert Run(few, fewSteps) && Init(few[0]) && few[|fewSteps|] == states[k];
  }

  lemma PauseBegins(states: seq<Sys>, steps: seq<Step>, i: nat, cid: Id, rpid: int)
    requires Started(states, steps) && i < |steps| && steps[i] == Request(Pause(cid), rpid)
    ensures cid in states[i].containers && cid in states[i + 1].containers
    ensures var p := states[i].containers[cid].init;
            && p.state == RUNNING && p.obj < states[i].nextObj
            && states[i + 1].containers[cid].init == p.(state := PAUSING)
  {
    RunFull(states, steps, i);
    assert Next(states[i], steps[i], states[i + 1]);
    assert Has(states[i].containers, Key(cid, None));
  }

  // A pause and the resume that ends it give back the record there was, whatever happens in
  // between, unless the process is marked: nobody even waits for it meanwhile.
  lemma PauseThenResume(states: seq<Sys>, steps: seq<Step>, i: nat, l: nat, cid: Id, rpid: int)
    requires Started(states, steps) && i < l < |steps| && steps[i] == Request(Pause(cid), rpid)
    requires steps[l] == Finish(true) && states[l].lock.Handler? && states[l].lock.call == Resume(cid)
    requires NoMark(steps, i, l, Key(cid, None)) && forall m | i < m < l :: !Lifts(states[m], steps[m], cid)
    requires cid in states[i].containers && InitIs(states[l + 1], cid, states[i].containers[cid].init.obj)
    ensures states[l + 1].containers[cid].init == states[i].containers[cid].init
  {
    var p := states[i].containers[cid].init;
    PauseBegins(states, steps, i, cid, rpid);
    PathTo(states, steps, i, l + 1, Key(cid, None), p.obj);
    assert Path(states, steps, i + 1, l, Key(cid, None), p.obj);
    HaltedSince(states, steps, i + 1, l, cid, p.obj);
    ReachableAt(states, steps, l);
    assert Next(states[l], steps[l], states[l + 1]);
    ResumeEnds(states[l], cid);
  }

  // ---- what is reported ----

  // With the lock free, State and Wait report PAUSED for a paused init and for each of its
  // execs, and otherwise the process's own state.
  lemma StatusReported(s: Sys, k: Key)
    requires Reachable(s) && s.lock.Free? && Has(s.containers, k)
    ensures ReportedStatus(s.containers, k) ==
            if s.containers[k.cid].init.state == PAUSED then PAUSED
            else if k.exec.None? then s.containers[k.cid].init.state
            else s.containers[k.cid].processes[k.exec.value].state
  {
    PausingNeverShows(s, Key(k.cid, None));
  }

  // ---- what a delete tells ----

  lemma DeletionAdded(s: Sys, a: Step, x: Deletion)
    requires CallHeld(s.lock, s.containers) && Enabled(s, a) && x in Apply(s, a).deletions && x !in s.deletions
    ensures a == Finish(true) && s.lock.Handler? && s.lock.call == Delete(x.cid) && x.cid in s.containers
    ensures var p := s.containers[x.cid].init; x == Deletion(x.cid, p.obj, p.pid, p.exitCode, p.exitedAt)
  {
    if a.Finish? || a.Remove? {
    } else {
      DeletionsAlone(s, a);
    }
  }

  lemma DeletionsAlone(s: Sys, a: Step)
    requires CallHeld(s.lock, s.containers) && Enabled(s, a) && !a.Remove? && !a.Finish?
    ensures Apply(s, a).deletions == s.deletions
  {
  }

  // What a delete of an init tells at the end of its second section is what its first one
  // read of the init: its pid, exit code and exit time.
  lemma {:induction false} DeletionRead(states: seq<Sys>, steps: seq<Step>, r: nat, x: Deletion) returns (d: nat)
    requires Started(states, steps) && r <= |steps| && x in states[r].deletions
    ensures d < r && steps[d] == Finish(true) && states[d].lock.Handler? && states[d].lock.call == Delete(x.cid)
    ensures x.cid in states[d].containers
    ensures var p := states[d].containers[x.cid].init; x == Deletion(x.cid, p.obj, p.pid, p.exitCode, p.exitedAt)
    decreases r
  {
    assert r > 0;
    RunFull(states, steps, r - 1);
    assert Next(states[r - 1], steps[r - 1], states[r - 1 + 1]);
    if x in states[r - 1].deletions {
      d := DeletionRead(states, steps, r - 1, x);
    } else {
      d := r - 1;
      DeletionAdded(states[d], steps[d], x);
    }
  }

  lemma DeleteTells(states: seq<Sys>, steps: seq<Step>, r: nat, i: nat) returns (d: nat)
    requires Started(states, steps) && r < |steps| && steps[r] == Remove(i) && i < |states[r].deletions|
    ensures d < r && steps[d] == Finish(true) && states[d].lock.Handler?
    ensures var cid := states[r].deletions[i].cid;
            && states[d].lock.call == Delete(cid) && cid in states[d].containers
            && var p := states[d].containers[cid].init;
            && states[r + 1].sends == states[r].sends + [TaskDelete(cid, p.obj, p.pid, p.exitCode, p.exitedAt)]
            && cid !in states[r + 1].containers
            && (p.state == STOPPED ==> p.inst in states[d].exits && p.exitCode == states[d].exits[p.inst])
  {
    d := DeletionRead(states, steps, r, states[r].deletions[i]);
    RunFull(states, steps, d);
    assert Has(states[d].containers, Key(states[r].deletions[i].cid, None));
    assert Next(states[r], steps[r], states[r + 1]);
  }

  // A delete of an exec does both at once.
  lemma ExecDeleteTells(s: Sys, cid: Id, exec: Id)
    requires Reachable(s) && Enabled(s, DeleteExec(cid, exec))
    ensures var key, t := Key(cid, Some(exec)), ExecDeleted(s, cid, exec);
            var p := Get(s.containers, key);
            && t.sends == s.sends + [TaskDelete(cid, p.obj, p.pid, p.exitCode, p.exitedAt)]
            && (forall k :: Has(t.containers, k) <==> Has(s.containers, k) && k != key)
            && (forall k | Has(t.containers, k) :: Get(t.containers, k) == Get(s.containers, k))
            && (p.state == STOPPED ==> p.inst in s.exits && p.exitCode == s.exits[p.inst])
  {
    ReachableInv(s);
  }

  // ---- what takes effect at once ----

  // What a handler asks of the containers before it runs its command.
  lemma RequestsIff(s: Sys, call: Call, rpid: int)
    requires Reachable(s)
    ensures Enabled(s, Request(call, rpid)) <==>
              && s.lock.Free? && PidFree(s, rpid)
              && (!call.Create? ==> call.cid in s.containers)
              && (call.Start? ==>
                    && s.containers[call.cid].init.state != STOPPED
                    && (call.exec.Some? ==> call.exec.value in s.containers[call.cid].processes))
              && (call.Pause? ==> s.containers[call.cid].init.state == RUNNING)
              && (call.Resume? ==> s.containers[call.cid].init.state == PAUSED)
  {
  }

  // And what it does before it waits: it holds the lock, and a pause has its init PAUSING.
  lemma RequestBegins(s: Sys, call: Call, rpid: int)
    requires Reachable(s) && Enabled(s, Request(call, rpid))
    ensures var t := RequestedBy(s, call, rpid);
            && t == s.(kernel := t.kernel, nextInst := t.nextInst, containers := t.containers, lock := t.lock)
            && t.lock == Handler(call, Runc(rpid, s.nextInst, [], None), None)
            && (!call.Pause? ==> t.containers == s.containers)
            && (call.Pause? ==>
                  var init := s.containers[call.cid].init;
                  t.containers == s.containers[call.cid := s.containers[call.cid].(init := init.(state := PAUSING))])
  {
  }

  // The pump has found the process that an exit is of: its record has the code of its own
  // exit, and the time, and holds nobody's sender; no other differs, and TaskExit is next.
  lemma MarkEnds(s: Sys, key: Key, now: int)
    requires Reachable(s) && Enabled(s, PumpMarks(key, now))
    ensures Has(s.containers, key) && Get(s.containers, key).inst in s.exits
    ensures var p, t := Get(s.containers, key), Marked(s, key, now);
            var code := s.exits[p.inst];
            && p.state != STOPPED && p.pid == s.hand.value.pid
            && t == s.(containers := t.containers, hand := None,
                       lock := PumpSend(TaskExit(key, p.obj, p.inst, p.pid, code, Some(now))))
            && Has(t.containers, key)
            && Get(t.containers, key) == p.(state := STOPPED, exitCode := code, exitedAt := Some(now), waiters := [])
            && (forall k | k != key :: Has(t.containers, k) <==> Has(s.containers, k))
            && (forall k | k != key && Has(s.containers, k) :: Get(t.containers, k) == Get(s.containers, k))
  {
    ReachableInv(s);
    Identified(s, key);
    assert Pending(s)[0] == s.hand.value;
    assert Truthful(Pending(s)[0], s.exits);
    PutGet(s.containers, key, Exited(Get(s.containers, key), s.hand.value.code, now));
  }

  // A new exec is CREATED, without a pid or an exit, in the place of one of that id.
  lemma ExecAddEnds(s: Sys, cid: Id, exec: Id)
    requires Reachable(s) && Enabled(s, AddExec(cid, exec))
    ensures var key, t := Key(cid, Some(exec)), ExecAdded(s, cid, exec);
            && t == s.(containers := t.containers, nextObj := s.nextObj + 1,
                       sends := s.sends + [TaskExecAdded(cid, exec)])
            && Has(t.containers, key)
            && Get(t.containers, key) == Process(s.nextObj, 0, CREATED, 0, 0, None, [])
            && (forall k | k != key :: Has(t.containers, k) <==> Has(s.containers, k))
            && (forall k | k != key && Has(s.containers, k) :: Get(t.containers, k) == Get(s.containers, k))
  {
    PutGet(s.containers, Key(cid, Some(exec)), Fresh(s.nextObj));
  }

  // A wait call changes no record but that of the process it waits for, which has one more
  // waiter if the call blocks.
  lemma WaitChanges(s: Sys, key: Key)
    requires Reachable(s) && Enabled(s, WaitCalled(key))
    ensures var p, t := Get(s.containers, key), Waiting(s, key);
            && t == s.(containers := t.containers, waits := t.waits) && |t.waits| == |s.waits| + 1
            && t.waits[..|s.waits|] == s.waits
            && Has(t.containers, key)
            && Get(t.containers, key) ==
               (if t.waits[|s.waits|].Blocked? then p.(waiters := p.waiters + [|s.waits|]) else p)
            && (forall k | k != key :: Has(t.containers, k) <==> Has(s.containers, k))
            && (forall k | k != key && Has(s.containers, k) :: Get(t.containers, k) == Get(s.containers, k))
  {
    ReachableInv(s);
    WaitBlocks(s.containers, key, s.lock);
    PutGet(s.containers, key, Awaited(Get(s.containers, key), |s.waits|));
  }

  // ---- the channel ----

  // The channel holds the events sent last, in the order of sending.
  ghost predicate IsTail(channel: seq<Event>, log: seq<Event>) {
    |channel| <= |log| && channel == log[|log| - |channel|..]
  }

  lemma TailStep(s: Sys, a: Step)
    requires CallHeld(s.lock, s.containers) && Enabled(s, a) && IsTail(s.channel, s.log) && |s.channel| <= CHANNEL_SIZE
    ensures IsTail(Apply(s, a).channel, Apply(s, a).log) && |Apply(s, a).channel| <= CHANNEL_SIZE
  {
    if !a.PumpSends? && !a.Send? && !a.Forward? {
      ChannelAlone(s, a);
    }
  }

  lemma ChannelAlone(s: Sys, a: Step)
    requires CallHeld(s.lock, s.containers) && Enabled(s, a) && !a.PumpSends? && !a.Send? && !a.Forward?
    ensures Apply(s, a).channel == s.channel && Apply(s, a).log == s.log
  {
  }

  // At most 128 events are in it.
  lemma {:induction false} ChannelIsTail(states: seq<Sys>, steps: seq<Step>, i: nat)
    requires Started(states, steps) && i <= |steps|
    ensures IsTail(states[i].channel, states[i].log) && |states[i].channel| <= CHANNEL_SIZE
  {
    if i > 0 {
      ChannelIsTail(states, steps, i - 1);
      assert Next(states[i - 1], steps[i - 1], states[i - 1 + 1]);
      TailStep(states[i - 1], steps[i - 1]);
    }
  }

  // The events there have been so far, sent or on their way.
  function Told(s: Sys): multiset<Event> {
    multiset(s.log) + multiset(s.sends) + (if s.lock.PumpSend? then multiset{s.lock.event} else multiset{})
  }

  // No event is lost, doubled or made up on its way to the channel: a step that announces
  // nothing leaves them all as they are.
  lemma ToldStays(s: Sys, a: Step)
    requires CallHeld(s.lock, s.containers) && Enabled(s, a)
    requires !a.Finish? && !a.Remove? && !a.DeleteExec? && !a.AddExec? && !a.PumpMarks?
    ensures Told(Apply(s, a)) == Told(s)
  {
    if a.Send? {
      assert s.sends == s.sends[..a.i] + [s.sends[a.i]] + s.sends[a.i + 1..];
    } else if !a.PumpSends? {
      SendsAlone(s, a);
    }
  }

  lemma SendsAlone(s: Sys, a: Step)
    requires CallHeld(s.lock, s.containers) && Enabled(s, a)
    requires !a.Finish? && !a.Remove? && !a.DeleteExec? && !a.AddExec? && !a.PumpMarks? && !a.Send? && !a.PumpSends?
    ensures var t := Apply(s, a);
            && t.log == s.log && t.sends == s.sends && (t.lock.PumpSend? <==> s.lock.PumpSend?)
            && (s.lock.PumpSend? ==> t.lock.event == s.lock.event)
  {
  }
}
