// The Task service's handlers (crates/runc-shim/src/task.rs) and the exit pump's search
// (crates/runc-shim/src/service.rs) as code over process objects in a map. `State` is what
// they make of the protocol's state, and each handler method is one of its steps: what its
// source does in one hold of the containers lock, or in the part of one before or after it
// waits for the OCI runtime. `AreSteps` says which step each contract names.
module Tasks {
  import opened Wrappers
  import opened Processes
  import opened Registry
  import opened Sequences
  import opened Lifecycle

  // A container's init process and its execs.
  datatype Cell = Cell(init: ProcessTemplate, processes: map<Id, ProcessTemplate>)

  predicate HasCell(c: map<Id, Cell>, k: Key) {
    k.cid in c && (k.exec.Some? ==> k.exec.value in c[k.cid].processes)
  }

  function CellAt(c: map<Id, Cell>, k: Key): ProcessTemplate
    requires HasCell(c, k)
  {
    if k.exec.None? then c[k.cid].init else c[k.cid].processes[k.exec.value]
  }

  // Each process has an object to itself.
  ghost predicate Separate(c: map<Id, Cell>, repr: set<ProcessTemplate>) {
    && (forall k | HasCell(c, k) :: CellAt(c, k) in repr)
    && (forall j, k | HasCell(c, j) && HasCell(c, k) && j != k :: CellAt(c, j) != CellAt(c, k))
  }

  ghost predicate Shape(c: map<Id, Cell>, v: Containers) {
    (forall cid :: cid in v <==> cid in c) && forall k :: Has(v, k) <==> HasCell(c, k)
  }

  // What the objects amount to as values, all of them or all but one.
  ghost predicate ShowsBut(c: map<Id, Cell>, v: Containers, repr: set<ProcessTemplate>, but: Option<Key>)
    requires Separate(c, repr)
    reads repr
  {
    Shape(c, v) && forall k | HasCell(c, k) && Some(k) != but :: Get(v, k) == CellAt(c, k).Value()
  }

  ghost predicate Shows(c: map<Id, Cell>, v: Containers, repr: set<ProcessTemplate>)
    requires Separate(c, repr)
    reads repr
  {
    ShowsBut(c, v, repr, None)
  }

  lemma Changed(c: map<Id, Cell>, v: Containers, repr: set<ProcessTemplate>, k: Key)
    requires Separate(c, repr) && HasCell(c, k) && ShowsBut(c, v, repr, Some(k))
    ensures k.cid in v && Shows(c, Put(v, k, CellAt(c, k).Value()), repr)
  {
    PutGet(v, k, CellAt(c, k).Value());
  }

  lemma InitInserted(c: map<Id, Cell>, v: Containers, repr: set<ProcessTemplate>, cid: Id, p: ProcessTemplate)
    requires Separate(c, repr) && Shows(c, v, repr) && p !in repr
    ensures var d := c[cid := Cell(p, map[])];
            Separate(d, repr + {p}) && Shows(d, v[cid := Container(p.Value(), map[])], repr + {p})
  {
    var d, u := c[cid := Cell(p, map[])], v[cid := Container(p.Value(), map[])];
    forall k
      ensures HasCell(d, k) ==>
                if k.cid == cid then k.exec.None? && CellAt(d, k) == p
                else HasCell(c, k) && CellAt(d, k) == CellAt(c, k)
      ensures Has(u, k) <==> HasCell(d, k)
    {
      assert Has(v, k) <==> HasCell(c, k);
    }
  }

  lemma ExecInserted(c: map<Id, Cell>, v: Containers, repr: set<ProcessTemplate>, cid: Id, exec: Id, p: ProcessTemplate)
    requires Separate(c, repr) && Shows(c, v, repr) && p !in repr && cid in c
    ensures var d := c[cid := c[cid].(processes := c[cid].processes[exec := p])];
            && cid in v && Separate(d, repr + {p})
            && Shows(d, Put(v, Key(cid, Some(exec)), p.Value()), repr + {p})
  {
    var key := Key(cid, Some(exec));
    var d := c[cid := c[cid].(processes := c[cid].processes[exec := p])];
    PutGet(v, key, p.Value());
    forall k
      ensures HasCell(d, k) <==> HasCell(c, k) || k == key
      ensures HasCell(d, k) ==> CellAt(d, k) == if k == key then p else CellAt(c, k)
    {
    }
  }

  lemma ContainerRemoved(c: map<Id, Cell>, v: Containers, repr: set<ProcessTemplate>, cid: Id)
    requires Separate(c, repr) && Shows(c, v, repr)
    ensures Separate(c - {cid}, repr) && Shows(c - {cid}, v - {cid}, repr)
  {
    forall k
      ensures HasCell(c - {cid}, k) <==> HasCell(c, k) && k.cid != cid
      ensures Has(v - {cid}, k) <==> Has(v, k) && k.cid != cid
    {
    }
  }

  lemma ExecRemoved(c: map<Id, Cell>, v: Containers, repr: set<ProcessTemplate>, cid: Id, exec: Id)
    requires Separate(c, repr) && Shows(c, v, repr) && HasCell(c, Key(cid, Some(exec)))
    ensures var key := Key(cid, Some(exec));
            var d := c[cid := c[cid].(processes := c[cid].processes - {exec})];
            Has(v, key) && Separate(d, repr) && Shows(d, Drop(v, key), repr)
  {
    var key := Key(cid, Some(exec));
    var d := c[cid := c[cid].(processes := c[cid].processes - {exec})];
    assert Has(v, key);
    forall k
      ensures HasCell(d, k) <==> HasCell(c, k) && k != key
      ensures HasCell(d, k) ==> CellAt(d, k) == CellAt(c, k)
      ensures Has(Drop(v, key), k) <==> Has(v, k) && k != key
      ensures Has(Drop(v, key), k) ==> Get(Drop(v, key), k) == Get(v, k)
    {
    }
  }

  lemma AreSteps(s: Sys, a: Step)
    requires s.lock.Handler? ==> CallOk(s.containers, s.lock.call)
    ensures match a
            case Request(call, rpid) =>
              && (Enabled(s, a) <==> CanRequest(s, call, rpid))
              && (Enabled(s, a) ==> Apply(s, a) == RequestedBy(s, call, rpid))
            case Finish(ok) =>
              (Enabled(s, a) <==> CanFinish(s, ok)) && (Enabled(s, a) ==> Apply(s, a) == FinishedBy(s, ok))
            case Remove(i) => Enabled(s, a) ==> Apply(s, a) == Removed(s, i)
            case DeleteExec(cid, exec) =>
              && (Enabled(s, a) <==> s.lock.Free? && Has(s.containers, Key(cid, Some(exec))))
              && (Enabled(s, a) ==> Apply(s, a) == ExecDeleted(s, cid, exec))
            case AddExec(cid, exec) =>
              && (Enabled(s, a) <==> s.lock.Free? && cid in s.containers)
              && (Enabled(s, a) ==> Apply(s, a) == ExecAdded(s, cid, exec))
            case WaitCalled(key) =>
              && (Enabled(s, a) <==> s.lock.Free? && Has(s.containers, key))
              && (Enabled(s, a) ==> Apply(s, a) == Waiting(s, key))
            case WaitReplies(w) =>
              (Enabled(s, a) <==> CanReply(s, w)) && (Enabled(s, a) ==> Apply(s, a) == Replied(s, w))
            case PumpMiss => (Enabled(s, a) <==> CanMiss(s)) && (Enabled(s, a) ==> Apply(s, a) == s.(hand := None))
            case PumpMarks(key, now) =>
              (Enabled(s, a) <==> CanMark(s, key)) && (Enabled(s, a) ==> Apply(s, a) == Marked(s, key, now))
            case _ => true
  {
  }

  lemma PauseFinished(s: Sys, cid: Id, ok: bool)
    requires CanFinish(s, ok) && CallOk(s.containers, s.lock.call) && s.lock.call == Pause(cid)
    ensures var key := Key(cid, None);
            FinishedBy(s, ok) ==
            s.(containers := Put(s.containers, key, InState(Get(s.containers, key), if ok then PAUSED else RUNNING)),
               sends := s.sends + (if ok then [TaskPaused(cid)] else []),
               nextObj := s.nextObj + 1,
               lock := Free)
  {
  }

  lemma Blocks(s: Sys, key: Key)
    requires Has(s.containers, key) && ReportedStatus(s.containers, key) in {RUNNING, CREATED}
    ensures var p := Get(s.containers, key);
            Waiting(s, key) ==
            s.(containers := Put(s.containers, key, Awaited(p, |s.waits|)), waits := s.waits + [Blocked(key, p.obj)])
  {
  }

  datatype HandlerError = NoSuchProcess | FailedPrecondition

  class TaskService {
    var containers: map<Id, Cell>
    // The events that handlers are on their way to send, deletes that have yet to
    // unregister their container, and the calls to wait. `nextObj` names processes.
    var sends: seq<Event>
    var deletions: seq<Deletion>
    var waits: seq<WaitCall>
    var nextObj: nat
    // The protocol's state, of which the parts above are overlaid, with what `containers` is
    // as a value.
    ghost var rest: Sys
    ghost var view: Containers
    ghost var repr: set<ProcessTemplate>

    ghost function State(): Sys
      reads this
    {
      rest.(containers := view, sends := sends, deletions := deletions, waits := waits, nextObj := nextObj)
    }

    ghost predicate Valid()
      reads this, repr
    {
      Separate(containers, repr) && Shows(containers, view, repr)
    }

    // ---- the registry ----

    method InsertCreated(cid: Id, name: nat, created: Adopted)
      requires Valid()
      modifies this`containers, this`view, this`repr
      ensures Valid() && view == old(view)[cid := Container(Launched(Fresh(name), created.pid, created.inst), map[])]
    {
      var init := new ProcessTemplate(name);
      init.Created(created.pid, created.inst);
      InitInserted(containers, view, repr, cid, init);
      containers := containers[cid := Cell(init, map[])];
      repr := repr + {init};
      view := view[cid := Container(init.Value(), map[])];
    }

    method InsertExec(cid: Id, exec: Id, process: ProcessTemplate)
      requires Valid() && process !in repr && cid in containers
      modifies this`containers, this`view, this`repr
      ensures Valid() && cid in old(view) && view == Put(old(view), Key(cid, Some(exec)), process.Value())
    {
      ExecInserted(containers, view, repr, cid, exec, process);
      containers := containers[cid := containers[cid].(processes := containers[cid].processes[exec := process])];
      repr := repr + {process};
      view := Put(view, Key(cid, Some(exec)), process.Value());
    }

    method RemoveContainer(cid: Id)
      requires Valid()
      modifies this`containers, this`view
      ensures Valid() && view == old(view) - {cid}
    {
      ContainerRemoved(containers, view, repr, cid);
      containers := containers - {cid};
      view := view - {cid};
    }

    method Find(key: Key) returns (process: ProcessTemplate)
      requires Valid() && HasCell(containers, key)
      ensures process == CellAt(containers, key) && process in repr
      ensures Has(view, key) && process.Value() == Get(view, key)
    {
      process := if key.exec.None? then containers[key.cid].init else containers[key.cid].processes[key.exec.value];
    }

    // The status as State and Wait report it.
    method Status(key: Key) returns (status: Status)
      requires Valid() && HasCell(containers, key)
      ensures Has(view, key) && status == ReportedStatus(view, key)
    {
      var init := Find(Key(key.cid, None));
      var process := Find(key);
      status := process.state;
      if init.state == PAUSING || init.state == PAUSED {
        status := init.state;
      }
    }

    // Keeps a waiter's sender with a process.
    method Register(key: Key, waiter: nat)
      requires Valid() && HasCell(containers, key)
      modifies this`view, repr
      ensures Valid() && Has(old(view), key) && view == Put(old(view), key, Awaited(Get(old(view), key), waiter))
    {
      var process := Find(key);
      ghost var before := view;
      var open := process.WaitChannel(waiter);
      Changed(containers, before, repr, key);
      view := Put(view, key, process.Value());
    }

    method MarkExited(key: Key, code: int, now: int)
      requires Valid() && HasCell(containers, key)
      modifies this`view, repr
      ensures Valid() && Has(old(view), key) && view == Put(old(view), key, Exited(Get(old(view), key), code, now))
    {
      var process := Find(key);
      ghost var before := view;
      process.SetExited(code, now);
      Changed(containers, before, repr, key);
      view := Put(view, key, process.Value());
    }

    method RunInit(cid: Id)
      requires Valid() && cid in containers
      modifies this`view, repr
      ensures Valid() && Has(old(view), Key(cid, None))
      ensures view == Put(old(view), Key(cid, None), InState(Get(old(view), Key(cid, None)), RUNNING))
    {
      ghost var before := view;
      var process := Find(Key(cid, None));
      process.InitStarted();
      Changed(containers, before, repr, Key(cid, None));
      view := Put(view, Key(cid, None), process.Value());
    }

    method RunExec(cid: Id, exec: Id, launched: Adopted)
      requires Valid() && HasCell(containers, Key(cid, Some(exec)))
      modifies this`view, repr
      ensures var key := Key(cid, Some(exec));
              && Valid() && Has(old(view), key)
              && view == Put(old(view), key,
                    InState(Launched(Get(old(view), key), launched.pid, launched.inst), RUNNING))
    {
      ghost var before := view;
      var process := Find(Key(cid, Some(exec)));
      process.ExecStarted(launched.pid, launched.inst);
      Changed(containers, before, repr, Key(cid, Some(exec)));
      view := Put(view, Key(cid, Some(exec)), process.Value());
    }

    method EndInitPause(cid: Id, ok: bool)
      requires Valid() && cid in containers
      modifies this`view, repr
      ensures Valid() && Has(old(view), Key(cid, None))
      ensures view == Put(old(view), Key(cid, None),
                InState(Get(old(view), Key(cid, None)), if ok then PAUSED else RUNNING))
    {
      ghost var before := view;
      var process := Find(Key(cid, None));
      process.PauseEnds(ok);
      Changed(containers, before, repr, Key(cid, None));
      view := Put(view, Key(cid, None), process.Value());
    }

    method BeginInitPause(cid: Id)
      requires Valid() && cid in containers
      modifies this`view, repr
      ensures Valid() && Has(old(view), Key(cid, None))
      ensures view == Put(old(view), Key(cid, None), InState(Get(old(view), Key(cid, None)), PAUSING))
    {
      ghost var before := view;
      var process := Find(Key(cid, None));
      process.PauseBegins();
      Changed(containers, before, repr, Key(cid, None));
      view := Put(view, Key(cid, None), process.Value());
    }

    // ---- the handlers that wait for the runtime ----

    // The part before the wait: refused exactly if the protocol has no such request.
    method BeginStart(cid: Id, exec: Option<Id>, ghost rpid: int) returns (r: Result<(), HandlerError>)
      requires Valid() && State().lock.Free? && PidFree(State(), rpid)
      modifies this`rest
      ensures Valid()
      ensures r.Ok? <==> CanRequest(old(State()), Start(cid, exec), rpid)
      ensures State() == if r.Ok? then RequestedBy(old(State()), Start(cid, exec), rpid) else old(State())
    {
      if cid !in containers {
        return Err(NoSuchProcess);
      }
      assert HasCell(containers, Key(cid, None));
      if containers[cid].init.state == STOPPED {
        return Err(FailedPrecondition);
      }
      if exec.Some? && exec.value !in containers[cid].processes {
        return Err(NoSuchProcess);
      }
      rest := RequestedBy(State(), Start(cid, exec), rpid);
      return Ok(());
    }

    method BeginPause(cid: Id, ghost rpid: int) returns (r: Result<(), HandlerError>)
      requires Valid() && State().lock.Free? && PidFree(State(), rpid)
      modifies this`rest, this`view, repr
      ensures Valid()
      ensures r.Ok? <==> CanRequest(old(State()), Pause(cid), rpid)
      ensures State() == if r.Ok? then RequestedBy(old(State()), Pause(cid), rpid) else old(State())
    {
      var key := Key(cid, None);
      if cid !in containers {
        return Err(NoSuchProcess);
      }
      assert HasCell(containers, key);
      if containers[cid].init.state != RUNNING {
        return Err(FailedPrecondition);
      }
      rest := RequestedBy(State(), Pause(cid), rpid);
      BeginInitPause(cid);
      return Ok(());
    }

    method BeginResume(cid: Id, ghost rpid: int) returns (r: Result<(), HandlerError>)
      requires Valid() && State().lock.Free? && PidFree(State(), rpid)
      modifies this`rest
      ensures Valid()
      ensures r.Ok? <==> CanRequest(old(State()), Resume(cid), rpid)
      ensures State() == if r.Ok? then RequestedBy(old(State()), Resume(cid), rpid) else old(State())
    {
      if cid !in containers {
        return Err(NoSuchProcess);
      }
      assert HasCell(containers, Key(cid, None));
      if containers[cid].init.state != PAUSED {
        return Err(FailedPrecondition);
      }
      rest := RequestedBy(State(), Resume(cid), rpid);
      return Ok(());
    }

    method BeginDelete(cid: Id, ghost rpid: int) returns (r: Result<(), HandlerError>)
      requires Valid() && State().lock.Free? && PidFree(State(), rpid)
      modifies this`rest
      ensures Valid()
      ensures r.Ok? <==> CanRequest(old(State()), Delete(cid), rpid)
      ensures State() == if r.Ok? then RequestedBy(old(State()), Delete(cid), rpid) else old(State())
    {
      if cid !in containers {
        return Err(NoSuchProcess);
      }
      rest := RequestedBy(State(), Delete(cid), rpid);
      return Ok(());
    }

    // The part after the wait, with what the handler makes of the runtime's answer.
    method EndCreate(cid: Id, created: Option<Adopted>, ok: bool)
      requires Valid() && CanFinish(State(), ok) && CallOk(view, State().lock.call)
      requires State().lock.call == Create(cid) && State().lock.launched == created
      modifies this
      ensures Valid() && State() == FinishedBy(old(State()), ok)
    {
      ghost var before := State();
      if ok {
        InsertCreated(cid, nextObj, created.value);
        sends := sends + [TaskCreate(cid)];
      }
      nextObj := nextObj + 1;
      rest := FinishedBy(before, ok);
    }

    method EndInitStart(cid: Id, ok: bool)
      requires Valid() && CanFinish(State(), ok) && CallOk(view, State().lock.call)
      requires State().lock.call == Start(cid, None)
      modifies this`rest, this`view, this`sends, this`nextObj, repr
      ensures Valid() && State() == FinishedBy(old(State()), ok)
    {
      ghost var before := State();
      assert HasCell(containers, Key(cid, None));
      if ok {
        RunInit(cid);
        sends := sends + [TaskStart(cid)];
      }
      nextObj := nextObj + 1;
      rest := FinishedBy(before, ok);
    }

    method EndExecStart(cid: Id, exec: Id, ok: bool, launched: Option<Adopted>)
      requires Valid() && CanFinish(State(), ok) && CallOk(view, State().lock.call)
      requires State().lock.call == Start(cid, Some(exec)) && State().lock.launched == launched
      modifies this`rest, this`view, this`sends, this`nextObj, repr
      ensures Valid() && State() == FinishedBy(old(State()), ok)
    {
      ghost var before := State();
      assert HasCell(containers, Key(cid, Some(exec)));
      if ok {
        RunExec(cid, exec, launched.value);
        sends := sends + [TaskExecStarted(cid, exec)];
      }
      nextObj := nextObj + 1;
      rest := FinishedBy(before, ok);
    }

    method EndPause(cid: Id, ok: bool)
      requires Valid() && CanFinish(State(), ok) && CallOk(view, State().lock.call) && State().lock.call == Pause(cid)
      modifies this`rest, this`view, this`sends, this`nextObj, repr
      ensures Valid() && State() == FinishedBy(old(State()), ok)
    {
      ghost var before := State();
      assert HasCell(containers, Key(cid, None));
      PauseFinished(before, cid, ok);
      EndInitPause(cid, ok);
      if ok {
        sends := sends + [TaskPaused(cid)];
      }
      nextObj := nextObj + 1;
      rest := FinishedBy(before, ok);
    }

    method EndResume(cid: Id, ok: bool)
      requires Valid() && CanFinish(State(), ok) && CallOk(view, State().lock.call) && State().lock.call == Resume(cid)
      modifies this`rest, this`view, this`sends, this`nextObj, repr
      ensures Valid() && State() == FinishedBy(old(State()), ok)
    {
      ghost var before := State();
      assert HasCell(containers, Key(cid, None));
      if ok {
        RunInit(cid);
        sends := sends + [TaskResumed(cid)];
      }
      nextObj := nextObj + 1;
      rest := FinishedBy(before, ok);
    }

    // The first section of an init delete ends here, with what is remembered of the process.
    method EndDelete(cid: Id, ok: bool)
      requires Valid() && CanFinish(State(), ok) && CallOk(view, State().lock.call) && State().lock.call == Delete(cid)
      modifies this`rest, this`deletions, this`nextObj
      ensures Valid() && State() == FinishedBy(old(State()), ok)
    {
      ghost var before := State();
      assert HasCell(containers, Key(cid, None));
      if ok {
        var init := containers[cid].init;
        deletions := deletions + [Deletion(cid, init.obj, init.pid, init.exitCode, init.exitedAt)];
      }
      nextObj := nextObj + 1;
      rest := FinishedBy(before, ok);
    }

    // ---- the handlers that do not ----

    // The second section of an init delete takes whatever is under the id.
    method Unregister(i: nat)
      requires Valid() && State().lock.Free? && i < |deletions|
      modifies this
      ensures Valid() && State() == Removed(old(State()), i)
    {
      ghost var before := State();
      var d := deletions[i];
      RemoveContainer(d.cid);
      deletions := deletions[..i] + deletions[i + 1..];
      sends := sends + [TaskDelete(d.cid, d.obj, d.pid, d.code, d.at)];
      rest := Removed(before, i);
    }

    method RemoveExec(cid: Id, exec: Id) returns (r: Result<(), HandlerError>)
      requires Valid() && State().lock.Free?
      modifies this
      ensures Valid()
      ensures r.Ok? <==> Has(old(view), Key(cid, Some(exec)))
      ensures State() == if r.Ok? then ExecDeleted(old(State()), cid, exec) else old(State())
    {
      ghost var before := State();
      if cid !in containers || exec !in containers[cid].processes {
        assert !HasCell(containers, Key(cid, Some(exec)));
        return Err(NoSuchProcess);
      }
      assert HasCell(containers, Key(cid, Some(exec)));
      var process := containers[cid].processes[exec];
      sends := sends + [TaskDelete(cid, process.obj, process.pid, process.exitCode, process.exitedAt)];
      ExecRemoved(containers, view, repr, cid, exec);
      containers := containers[cid := containers[cid].(processes := containers[cid].processes - {exec})];
      rest := ExecDeleted(before, cid, exec);
      view := rest.containers;
      return Ok(());
    }

    method NewExec(cid: Id, exec: Id) returns (r: Result<(), HandlerError>)
      requires Valid() && State().lock.Free?
      modifies this
      ensures Valid()
      ensures r.Ok? <==> cid in old(view)
      ensures State() == if r.Ok? then ExecAdded(old(State()), cid, exec) else old(State())
    {
      ghost var before := State();
      if cid !in containers {
        return Err(NoSuchProcess);
      }
      var process := new ProcessTemplate(nextObj);
      InsertExec(cid, exec, process);
      nextObj := nextObj + 1;
      sends := sends + [TaskExecAdded(cid, exec)];
      rest := ExecAdded(before, cid, exec);
      return Ok(());
    }

    // A wait call answers at once, or leaves its sender with the process.
    method Wait(cid: Id, exec: Option<Id>) returns (r: Result<(), HandlerError>)
      requires Valid() && State().lock.Free?
      modifies this`rest, this`view, this`waits, repr
      ensures Valid()
      ensures r.Ok? <==> Has(old(view), Key(cid, exec))
      ensures State() == if r.Ok? then Waiting(old(State()), Key(cid, exec)) else old(State())
    {
      var key := Key(cid, exec);
      if cid !in containers || (exec.Some? && exec.value !in containers[cid].processes) {
        assert !HasCell(containers, key);
        return Err(NoSuchProcess);
      }
      assert HasCell(containers, key);
      var status := Status(key);
      if status != RUNNING && status != CREATED {
        AnswerNow(key);
      } else {
        Block(key);
      }
      return Ok(());
    }

    method AnswerNow(key: Key)
      requires Valid() && HasCell(containers, key)
      requires Has(view, key) && ReportedStatus(view, key) !in {RUNNING, CREATED}
      modifies this`rest, this`waits
      ensures Valid() && State() == Waiting(old(State()), key)
    {
      rest := Waiting(State(), key);
      var process := Find(key);
      waits := waits + [Answered(key, process.obj, process.exitCode, process.exitedAt)];
    }

    method Block(key: Key)
      requires Valid() && HasCell(containers, key)
      requires Has(view, key) && ReportedStatus(view, key) in {RUNNING, CREATED}
      modifies this`rest, this`view, this`waits, repr
      ensures Valid() && State() == Waiting(old(State()), key)
    {
      Blocks(State(), key);
      rest := Waiting(State(), key);
      var process := Find(key);
      waits := waits + [Blocked(key, process.obj)];
      Register(key, |waits| - 1);
    }

    // The second part of a wait call that was woken.
    method Reply(w: nat)
      requires Valid() && CanReply(State(), w)
      modifies this`rest, this`waits
      ensures Valid() && State() == Replied(old(State()), w)
    {
      ghost var before := State();
      var key := waits[w].key;
      if key.cid !in containers || (key.exec.Some? && key.exec.value !in containers[key.cid].processes) {
        assert !HasCell(containers, key);
        waits := waits[w := WaitCall.NotFound];
      } else {
        assert HasCell(containers, key);
        var process :=
          if key.exec.None? then containers[key.cid].init else containers[key.cid].processes[key.exec.value];
        waits := waits[w := Answered(key, process.obj, process.exitCode, process.exitedAt)];
      }
      rest := Replied(before, w);
    }

    // ---- the pump ----

    // The search for the process that carries a pid: an init before the execs of the same
    // container. Maps are iterated in no particular order.
    method Search(pid: int) returns (hit: Option<Key>)
      requires Valid()
      ensures hit.Some? ==> Matches(view, hit.value, pid)
      ensures hit.Some? && hit.value.exec.Some? ==> !Matches(view, Key(hit.value.cid, None), pid)
      ensures hit.None? ==> forall k :: !Matches(view, k, pid)
    {
      var left := containers.Keys;
      while left != {}
        invariant left <= containers.Keys
        invariant forall k: Key :: HasCell(containers, k) && k.cid !in left ==> CellAt(containers, k).pid != pid
        decreases left
      {
        var cid :| cid in left;
        assert HasCell(containers, Key(cid, None));
        if containers[cid].init.pid == pid {
          return Some(Key(cid, None));
        }
        var exec := SearchExecs(cid, pid);
        if exec.Some? {
          assert HasCell(containers, Key(cid, exec));
          return Some(Key(cid, exec));
        }
        left := left - {cid};
      }
      return None;
    }

    method SearchExecs(cid: Id, pid: int) returns (exec: Option<Id>)
      requires Valid() && cid in containers
      ensures exec.Some? ==> exec.value in containers[cid].processes && containers[cid].processes[exec.value].pid == pid
      ensures exec.None? ==> forall k | HasCell(containers, k) && k.cid == cid && k.exec.Some? ::
                CellAt(containers, k).pid != pid
    {
      var left := containers[cid].processes.Keys;
      while left != {}
        invariant left <= containers[cid].processes.Keys
        invariant forall k | HasCell(containers, k) && k.cid == cid && k.exec.Some? && k.exec.value !in left ::
            CellAt(containers, k).pid != pid
        decreases left
      {
        var id :| id in left;
        if containers[cid].processes[id].pid == pid {
          return Some(id);
        }
        left := left - {id};
      }
      return None;
    }

    // What the pump does with the exit in its hand, when there is nothing to kill first: the
    // process it is about is marked, and no other, or there is none.
    method HandleExit(pid: int, code: int, now: int) returns (hit: Option<Key>)
      requires Valid() && State().lock.Free? && State().hand.Some?
      requires State().hand.value.pid == pid && State().hand.value.code == code
      modifies this`rest, this`view, repr
      ensures Valid()
      ensures hit.None? ==> CanMiss(old(State())) && State() == old(State()).(hand := None)
      ensures hit.Some? ==> CanMark(old(State()), hit.value) && State() == Marked(old(State()), hit.value, now)
      ensures hit.Some? && hit.value.exec.Some? ==> !Matches(old(view), Key(hit.value.cid, None), pid)
    {
      ghost var before := State();
      hit := Search(pid);
      if hit.None? {
        rest := before.(hand := None);
        return;
      }
      rest := Marked(before, hit.value, now);
      assert HasCell(containers, hit.value);
      MarkExited(hit.value, code, now);
    }
  }
}
