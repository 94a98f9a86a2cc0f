// The tasks that copy a process's stdio (crates/shim/src/asynchronous/io.rs) as an object, and
// how an exec replaces them when its start fails (crates/runc-shim/src/runc.rs). Each method
// is what its source does without waiting; the waits are in `IoShutdown`.
module IoTasks {
  import opened Wrappers
  import opened StdinHold
  import opened IoShutdown

  datatype OpenError = OpenFailed

  class IoTasks {
    var outputs: Tracker
    var inputs: Tracker
    var cancelled: bool
    var stdin: Hold
    var next: nat
    ghost var cut: set<nat>

    ghost function Value(): Tasks
      reads this
    {
      Tasks(outputs, inputs, cancelled, stdin, {}, next, cut)
    }

    constructor (hold: Hold := Pending)
      ensures Value() == NewTasks(hold)
    {
      outputs, inputs, cancelled, stdin, next := NEW_TRACKER, NEW_TRACKER, false, hold, 0;
      cut := {};
    }

    // The outcomes of the three opens are parameters. A copy that cannot be set up leaves
    // nothing behind, and a hold taken after CloseIO is dropped at once.
    method CopyFromFifo(bridgeOpens: bool, readerOpens: bool, holdOpens: bool) returns (r: Result<nat, OpenError>)
      modifies this
      ensures r.Ok? <==> bridgeOpens && readerOpens && holdOpens
      ensures r.Err? ==> Value() == old(Value())
      ensures r.Ok? ==> r.value == old(next) && Value() == InputSpawned(HeldForInput(old(Value())), r.value)
    {
      if !bridgeOpens || !readerOpens || !holdOpens {
        return Err(OpenFailed);
      }
      if stdin != Released {
        stdin := Open;
      }
      inputs := inputs.(running := inputs.running + {next});
      next := next + 1;
      return Ok(next - 1);
    }

    method CopyToFifo(readerOpens: bool, writerOpens: bool) returns (r: Result<nat, OpenError>)
      modifies this
      ensures r.Ok? <==> readerOpens && writerOpens
      ensures r.Err? ==> Value() == old(Value())
      ensures r.Ok? ==> r.value == old(next) && Value() == OutputSpawned(HeldForOutput(old(Value())), r.value)
    {
      if !readerOpens || !writerOpens {
        return Err(OpenFailed);
      }
      outputs := outputs.(running := outputs.running + {next});
      next := next + 1;
      return Ok(next - 1);
    }

    method CloseInput()
      modifies this`stdin
      ensures Value() == InputClosed(old(Value()))
    {
      stdin := Released;
    }

    // Fresh tasks that still count a CloseIO; these are left alone.
    method Renew() returns (renewed: IoTasks)
      ensures fresh(renewed) && renewed.Value() == NewTasks(Renewed(stdin))
    {
      var hold := if stdin == Released then Released else Pending;
      renewed := new IoTasks(hold);
    }

    // An abort up to where it waits: the four steps of a call that is to wait for both trackers.
    method AbortBegins()
      modifies this
      ensures Value() == InputsClosed(OutputsClosed(InputClosed(old(Value()).(cancelled := true))))
    {
      cancelled := true;
      CloseInput();
      outputs := outputs.(closed := true);
      inputs := inputs.(closed := true);
    }
  }

  // ---- an exec across its starts ----

  class ExecIo {
    var ioTasks: IoTasks

    constructor ()
      ensures fresh(ioTasks) && ioTasks.Value() == NewTasks(Pending)
    {
      ioTasks := new IoTasks();
    }

    method CloseIo()
      modifies ioTasks
      ensures ioTasks.Value() == old(ioTasks.Value()).(stdin := After(old(ioTasks.stdin), Closed))
    {
      ioTasks.CloseInput();
    }

    // A start that fails: the exec goes on with fresh tasks, and the old ones, which a
    // delete may have taken a handle of, are aborted.
    method StartFailed()
      modifies this, ioTasks
      ensures fresh(ioTasks) && ioTasks.Value() == NewTasks(After(old(ioTasks.stdin), HoldEvent.StartFailed))
      ensures old(ioTasks).Value() ==
              InputsClosed(OutputsClosed(InputClosed(old(ioTasks.Value()).(cancelled := true))))
    {
      var renewed := ioTasks.Renew();
      var failed := ioTasks;
      ioTasks := renewed;
      failed.AbortBegins();
    }

    // The part of a start that sets up stdin.
    method CopyStarts(opens: bool) returns (r: Result<nat, OpenError>)
      modifies ioTasks
      ensures r.Ok? <==> opens
      ensures ioTasks.stdin == if opens then After(old(ioTasks.stdin), CopyStarted) else old(ioTasks.stdin)
      ensures r.Ok? ==> ioTasks.inputs.running == old(ioTasks.inputs.running) + {r.value}
    {
      r := ioTasks.CopyFromFifo(opens, opens, opens);
    }
  }

  // What can happen to an exec's hold, whichever tasks have it.
  datatype HoldEvent = Closed | CopyStarted | StartFailed

  function After(h: Hold, e: HoldEvent): Hold {
    match e
    case Closed => Released
    case CopyStarted => Installed(h)
    case StartFailed => Renewed(h)
  }

  function AfterAll(h: Hold, events: seq<HoldEvent>): Hold
    decreases |events|
  {
    if events == [] then h else AfterAll(After(h, events[0]), events[1..])
  }

  // Through any number of starts and failures, the tasks in place are Released exactly if
  // there has been a CloseIO, and hold the fifo exactly if a copy has started since the last
  // failure and there has been none.
  lemma {:induction false} CloseIoIsKept(h: Hold, events: seq<HoldEvent>)
    ensures AfterAll(h, events) == Released <==> h == Released || Closed in events
    ensures AfterAll(h, events) == Open <==>
            h != Released && Closed !in events && (StartedSince(events) || (h == Open && StartFailed !in events))
    decreases |events|
  {
    if events != [] {
      CloseIoIsKept(After(h, events[0]), events[1..]);
      assert events == [events[0]] + events[1..];
      StartedFirst(events);
    }
  }

  lemma StartedFirst(events: seq<HoldEvent>)
    requires events != []
    ensures StartedSince(events) <==>
            StartedSince(events[1..]) || (events[0] == CopyStarted && StartFailed !in events[1..])
  {
    var rest := events[1..];
    if StartedSince(rest) {
      var i :| 0 <= i < |rest| && rest[i] == CopyStarted && StartFailed !in rest[i..];
      assert events[i + 1..] == rest[i..];
    }
    if StartedSince(events) {
      var i :| 0 <= i < |events| && events[i] == CopyStarted && StartFailed !in events[i..];
      if i > 0 {
        assert rest[i - 1..] == events[i..];
      } else {
        assert events[0..] == [events[0]] + rest;
      }
    }
    if events[0] == CopyStarted && StartFailed !in rest {
      assert events[0..] == [events[0]] + rest;
    }
  }

  // A copy has started since the last failed start.
  ghost predicate StartedSince(events: seq<HoldEvent>) {
    exists i :: 0 <= i < |events| && events[i] == CopyStarted && StartFailed !in events[i..]
  }

  // The other order: aborting the tasks, which releases their hold, before renewing them.
  function AbortedFirst(h: Hold, events: seq<HoldEvent>): Hold
    decreases |events|
  {
    if events == [] then h
    else
      var e := events[0];
      AbortedFirst(if e == StartFailed then Renewed(After(h, Closed)) else After(h, e), events[1..])
  }

  // It would make up a CloseIO for every failed start.
  lemma {:induction false} AbortFirstInvents(h: Hold, events: seq<HoldEvent>)
    ensures AbortedFirst(h, events) == Released <==> h == Released || Closed in events || StartFailed in events
    decreases |events|
  {
    if events != [] {
      var e := events[0];
      AbortFirstInvents(if e == StartFailed then Renewed(After(h, Closed)) else After(h, e), events[1..]);
      assert events == [e] + events[1..];
    }
  }
}
