// One process of a container, as crates/runc-shim/src/processes.rs keeps it, and the
// transitions that crates/runc-shim/src/runc.rs makes on it.
module Processes {
  import opened Wrappers

  datatype Status = CREATED | RUNNING | PAUSING | PAUSED | STOPPED

  // `pid` is 0 until the runtime's pid file has been read. `waiters` are the wait calls
  // whose sender the process holds. Two fields are history: `obj` names the value itself,
  // since ids are reused, and `inst` names the kernel process that `pid` stood for when it
  // was recorded, since pids are reused.
  datatype Process = Process(
    obj: nat,
    inst: nat,
    state: Status,
    pid: int,
    exitCode: int,
    exitedAt: Option<int>,
    waiters: seq<nat>)

  function Fresh(obj: nat): Process {
    Process(obj, 0, CREATED, 0, 0, None, [])
  }

  function Exited(p: Process, code: int, now: int): Process {
    p.(state := STOPPED, exitCode := code, exitedAt := Some(now), waiters := [])
  }

  // A process that the runtime has started under a pid of its own.
  function Launched(p: Process, pid: int, inst: nat): Process {
    p.(pid := pid, inst := inst)
  }

  function InState(p: Process, state: Status): Process {
    p.(state := state)
  }

  function Awaited(p: Process, waiter: nat): Process {
    if p.state == STOPPED then p else p.(waiters := p.waiters + [waiter])
  }

  // A process template. The runtime's verdicts and the clock are parameters.
  class ProcessTemplate {
    var state: Status
    var pid: int
    var exitCode: int
    var exitedAt: Option<int>
    var waitChanTx: seq<nat>
    const obj: nat
    ghost var inst: nat

    ghost function Value(): Process
      reads this
    {
      Process(obj, inst, state, pid, exitCode, exitedAt, waitChanTx)
    }

    constructor (name: nat)
      ensures Value() == Fresh(name)
    {
      obj, inst := name, 0;
      state, pid, exitCode, exitedAt, waitChanTx := CREATED, 0, 0, None, [];
    }

    method SetExited(code: int, now: int)
      modifies this
      ensures Value() == Exited(old(Value()), code, now)
    {
      state := STOPPED;
      exitCode := code;
      exitedAt := Some(now);
      // Dropping the senders is what wakes the waiters.
      waitChanTx := [];
    }

    // Hands a waiter its channel. It is open exactly while the process holds the sender.
    method WaitChannel(waiter: nat) returns (open: bool)
      modifies this
      ensures Value() == Awaited(old(Value()), waiter)
      ensures open <==> old(state) != STOPPED
    {
      open := state != STOPPED;
      if open {
        waitChanTx := waitChanTx + [waiter];
      }
    }

    // The init process: the runtime has started what `create` left waiting, under the same pid.
    method InitStarted()
      modifies this
      ensures Value() == InState(old(Value()), RUNNING)
    {
      state := RUNNING;
    }

    // A pause before the runtime is asked ...
    method PauseBegins()
      modifies this
      ensures Value() == InState(old(Value()), PAUSING)
    {
      state := PAUSING;
    }

    // ... and when it has answered.
    method PauseEnds(runtimeOk: bool)
      modifies this
      ensures Value() == InState(old(Value()), if runtimeOk then PAUSED else RUNNING)
    {
      if !runtimeOk {
        state := RUNNING;
        return;
      }
      state := PAUSED;
    }

    // The runtime and the pid file have answered. Nothing here looks at the state the exec
    // is in.
    method ExecStarted(newPid: int, ghost newInst: nat)
      modifies this
      ensures Value() == InState(Launched(old(Value()), newPid, newInst), RUNNING)
    {
      pid := newPid;
      inst := newInst;
      state := RUNNING;
    }

    method Created(newPid: int, ghost newInst: nat)
      modifies this
      ensures Value() == Launched(old(Value()), newPid, newInst)
    {
      pid := newPid;
      inst := newInst;
    }
  }
}
