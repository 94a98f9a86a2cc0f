// The copies of a process's stdin out of containerd's fifo (crates/shim/src/asynchronous/io.rs)
// as a protocol: `copy_from_fifo` and the copy it spawns, as often as the process is started
// (crates/runc-shim/src/runc.rs), containerd's writers, CloseIO, abort and failed starts, in
// any interleaving. All copies share the fifo and the tasks' hold on it. A reader of a fifo
// sees EOF exactly when the fifo is empty and nobody has it open for writing; a reader that
// was opened while there was no writer is not even told so before a first writer has come
// and gone.
module StdinCopy {
  import opened StdinHold

  type Byte = int

  datatype Ending = ByEof | Cancelled | CopyFailed | OpenFailed

  datatype Phase = Unopened | Bridged | Reading | Holding | Unbridged | Settled | Copying | Ended(how: Ending)

  // `bridge`, `reader` and `spare` are the descriptors of `copy_from_fifo`'s own. `arrived`
  // tells whether there was a writer when the reader opened; one that came later would do as
  // well. A copy is disowned when its start fails: its process has other tasks from then on.
  datatype Copy = Copy(
    phase: Phase,
    bridge: bool,
    reader: bool,
    spare: bool,
    arrived: bool,
    disowned: bool,
    eof: bool,
    inFlight: seq<Byte>,
    delivered: seq<Byte>)

  const NEW_COPY: Copy := Copy(Unopened, false, false, false, false, false, false, [], [])

  // A byte that has left the fifo: read by a copy, or lost with a fifo that nobody had open.
  datatype Passed = ReadBy(copy: nat, byte: Byte) | Lost(byte: Byte)

  // `clients` counts the descriptors through which containerd can write, which may be open
  // for reading too. The last three fields are history: CloseIO or an abort has come, the
  // bytes that have left the fifo, and all that were written to it.
  datatype State = State(
    copies: seq<Copy>,
    hold: Hold,
    cancelled: bool,
    clients: nat,
    buffer: seq<Byte>,
    closed: bool,
    passed: seq<Passed>,
    written: seq<Byte>)

  // New tasks may count a CloseIO already, and containerd may already use the fifo.
  ghost predicate Init(s: State) {
    && s.copies == [] && s.hold != Open && (s.closed <==> s.hold == Released) && !s.cancelled
    && s.passed == [] && s.written == s.buffer && (s.clients == 0 ==> s.buffer == [])
  }

  predicate Writes(c: Copy) {
    c.bridge || c.spare
  }

  predicate HasWriter(s: State) {
    s.clients > 0 || s.hold == Open || exists i | 0 <= i < |s.copies| :: Writes(s.copies[i])
  }

  predicate InUse(s: State) {
    HasWriter(s) || exists i | 0 <= i < |s.copies| :: s.copies[i].reader
  }

  datatype Act =
    | OpenBridge(ok: bool)
    | OpenReader(ok: bool)
    | OpenHold(ok: bool)
    | DropBridge
    | Install
    | Spawn
    | Read(n: nat)
    | Deliver(n: nat)
    | SeeEof
    | Finish
    | Fail
    | Cancel

  datatype Step =
    | NewCopy
    | Does(i: nat, act: Act)
    | CloseIo
    | Abort
    | StartFails
    | ClientOpens
    | ClientWrites(bytes: seq<Byte>)
    | ClientCloses

  predicate CanAct(s: State, c: Copy, act: Act) {
    match act
    case OpenBridge(_) => c.phase == Unopened
    case OpenReader(_) => c.phase == Bridged
    case OpenHold(_) => c.phase == Reading
    case DropBridge => c.phase == Holding
    case Install => c.phase == Unbridged
    case Spawn => c.phase == Settled
    case Read(n) => c.phase == Copying && !c.eof && 0 < n <= |s.buffer|
    case Deliver(n) => c.phase == Copying && 0 < n <= |c.inFlight|
    case SeeEof => c.phase == Copying && !c.eof && s.buffer == [] && !HasWriter(s) && c.arrived
    case Finish => c.phase == Copying && c.eof && c.inFlight == []
    case Fail => c.phase == Copying
    case Cancel => c.phase == Copying && (s.cancelled || c.disowned)
  }

  predicate IsSetUp(c: Copy) {
    c.phase == Copying || c.phase.Ended?
  }

  // A start sets up its copy and fails in one hold of the containers lock, so no copy is half
  // set up when a start fails.
  predicate Enabled(s: State, step: Step) {
    match step
    case Does(i, act) => i < |s.copies| && CanAct(s, s.copies[i], act)
    case StartFails => forall i | 0 <= i < |s.copies| :: IsSetUp(s.copies[i])
    case ClientWrites(_) => s.clients > 0
    case ClientCloses => s.clients > 0
    case _ => true
  }

  // All of the copy's own descriptors are dropped where it ends.
  function Closed(c: Copy, how: Ending): Copy {
    c.(phase := Ended(how), bridge := false, reader := false, spare := false)
  }

  function Acted(s: State, c: Copy, act: Act): Copy
    requires CanAct(s, c, act)
  {
    match act
    case OpenBridge(ok) => if ok then c.(phase := Bridged, bridge := true) else Closed(c, OpenFailed)
    case OpenReader(ok) =>
      if ok then c.(phase := Reading, reader := true, arrived := HasWriter(s)) else Closed(c, OpenFailed)
    case OpenHold(ok) => if ok then c.(phase := Holding, spare := true) else Closed(c, OpenFailed)
    case DropBridge => c.(phase := Unbridged, bridge := false)
    case Install => c.(phase := Settled, spare := false)
    case Spawn => c.(phase := Copying)
    case Read(n) => c.(inFlight := c.inFlight + s.buffer[..n])
    case Deliver(n) => c.(delivered := c.delivered + c.inFlight[..n], inFlight := c.inFlight[n..])
    case SeeEof => c.(eof := true)
    case Finish => Closed(c, ByEof)
    case Fail => Closed(c, CopyFailed)
    case Cancel => Closed(c, Cancelled)
  }

  function Taken(i: nat, bytes: seq<Byte>): seq<Passed> {
    seq(|bytes|, k requires 0 <= k < |bytes| => ReadBy(i, bytes[k]))
  }

  function Dropped(bytes: seq<Byte>): seq<Passed> {
    seq(|bytes|, k requires 0 <= k < |bytes| => Lost(bytes[k]))
  }

  // A fifo that nobody has open loses what is in it.
  function Kept(s: State): State {
    if InUse(s) then s else s.(passed := s.passed + Dropped(s.buffer), buffer := [])
  }

  // Under the mutex a new writer becomes the hold, unless CloseIO has come.
  function DoneBy(s: State, i: nat, act: Act): State
    requires i < |s.copies| && CanAct(s, s.copies[i], act)
  {
    var t := s.(copies := s.copies[i := Acted(s, s.copies[i], act)]);
    if act.Install? then t.(hold := Installed(s.hold))
    else if act.Read? then t.(buffer := s.buffer[act.n..], passed := s.passed + Taken(i, s.buffer[..act.n]))
    else t
  }

  function Disowned(copies: seq<Copy>): (r: seq<Copy>)
    ensures |r| == |copies|
  {
    seq(|copies|, i requires 0 <= i < |copies| => copies[i].(disowned := true))
  }

  function Changed(s: State, step: Step): State
    requires Enabled(s, step)
  {
    match step
    case NewCopy => s.(copies := s.copies + [NEW_COPY])
    case Does(i, act) => DoneBy(s, i, act)
    case CloseIo => s.(hold := Released, closed := true)
    case Abort => s.(hold := Released, closed := true, cancelled := true)
    // fresh tasks, and an abort of the old ones
    case StartFails => s.(hold := Renewed(s.hold), cancelled := false, copies := Disowned(s.copies))
    case ClientOpens => s.(clients := s.clients + 1)
    case ClientWrites(bytes) => s.(buffer := s.buffer + bytes, written := s.written + bytes)
    case ClientCloses => s.(clients := s.clients - 1)
  }

  function Apply(s: State, step: Step): State
    requires Enabled(s, step)
  {
    Kept(Changed(s, step))
  }

  // ---- what has left the fifo ----

  function Bytes(passed: seq<Passed>): seq<Byte> {
    if passed == [] then [] else [passed[0].byte] + Bytes(passed[1..])
  }

  // What one copy has read.
  function ReadOf(passed: seq<Passed>, i: nat): seq<Byte> {
    if passed == [] then []
    else (if passed[0] == ReadBy(i, passed[0].byte) then [passed[0].byte] else []) + ReadOf(passed[1..], i)
  }

  lemma {:induction false} PassedAppend(a: seq<Passed>, b: seq<Passed>, i: nat)
    ensures Bytes(a + b) == Bytes(a) + Bytes(b)
    ensures ReadOf(a + b, i) == ReadOf(a, i) + ReadOf(b, i)
  {
    if a == [] {
      assert a + b == b;
    } else {
      var head := [a[0]];
      assert a + b == head + (a[1..] + b) && a == head + a[1..];
      FirstPassed(a[0], a[1..] + b, i);
      FirstPassed(a[0], a[1..], i);
      PassedAppend(a[1..], b, i);
    }
  }

  lemma FirstPassed(p: Passed, rest: seq<Passed>, i: nat)
    ensures Bytes([p] + rest) == [p.byte] + Bytes(rest)
    ensures ReadOf([p] + rest, i) == (if Owns(p, i) then [p.byte] else []) + ReadOf(rest, i)
  {
    assert ([p] + rest)[1..] == rest;
  }

  lemma {:induction false} TakenBytes(i: nat, bytes: seq<Byte>, j: nat)
    ensures Bytes(Taken(i, bytes)) == bytes
    ensures ReadOf(Taken(i, bytes), j) == if i == j then bytes else []
  {
    if bytes != [] {
      assert Taken(i, bytes)[1..] == Taken(i, bytes[1..]);
      TakenBytes(i, bytes[1..], j);
    }
  }

  lemma {:induction false} DroppedBytes(bytes: seq<Byte>, j: nat)
    ensures Bytes(Dropped(bytes)) == bytes
    ensures ReadOf(Dropped(bytes), j) == []
  {
    if bytes != [] {
      assert Dropped(bytes)[1..] == Dropped(bytes[1..]);
      DroppedBytes(bytes[1..], j);
    }
  }

  predicate Owns(p: Passed, i: nat) {
    p.ReadBy? && p.copy == i
  }

  // A copy has read all there was exactly if nobody else took anything.
  lemma {:induction false} AllOwn(passed: seq<Passed>, i: nat)
    ensures |ReadOf(passed, i)| <= |Bytes(passed)| == |passed|
    ensures ReadOf(passed, i) == Bytes(passed) <==> forall p | p in passed :: Owns(p, i)
  {
    if passed != [] {
      var rest := passed[1..];
      AllOwn(rest, i);
      assert passed == [passed[0]] + rest;
      FirstPassed(passed[0], rest, i);
      Behind(passed[0].byte, ReadOf(rest, i), Bytes(rest));
    }
  }

  lemma Behind(b: Byte, x: seq<Byte>, y: seq<Byte>)
    ensures [b] + x == [b] + y <==> x == y
  {
    assert ([b] + x)[1..] == x && ([b] + y)[1..] == y;
  }

  // ---- the invariant ----

  // Which descriptors are open in which phase.
  ghost predicate Descriptors(c: Copy) {
    && (c.bridge <==> c.phase in {Bridged, Reading, Holding})
    && (c.reader <==> c.phase in {Reading, Holding, Unbridged, Settled, Copying})
    && (c.spare <==> c.phase in {Holding, Unbridged})
  }

  ghost predicate CopyOk(c: Copy, s: State) {
    && Descriptors(c)
    && (c.reader ==> c.arrived)
    && (c.disowned ==> IsSetUp(c))
    && (c.phase in {Settled, Copying} && !c.disowned ==> s.hold != Pending)
    && (!IsSetUp(c) ==> !c.eof && c.delivered == c.inFlight == [])
    && (c.eof ==> s.closed || c.disowned)
    && (c.phase == Ended(ByEof) ==> c.eof && c.inFlight == [])
    && (c.phase == Ended(Cancelled) ==> s.cancelled || c.disowned)
  }

  ghost predicate CopiesOk(s: State) {
    forall i | 0 <= i < |s.copies| :: CopyOk(s.copies[i], s)
  }

  // CloseIO is neither forgotten nor made up.
  ghost predicate Remembered(s: State) {
    s.hold == Released <==> s.closed
  }

  // Every byte is still in the fifo or has left it once, and a copy has what it read.
  ghost predicate Accounted(s: State) {
    && s.written == Bytes(s.passed) + s.buffer
    && (forall i | 0 <= i < |s.copies| :: ReadOf(s.passed, i) == s.copies[i].delivered + s.copies[i].inFlight)
    && (forall i: nat | i >= |s.copies| :: ReadOf(s.passed, i) == [])
  }

  ghost predicate Inv(s: State) {
    CopiesOk(s) && Remembered(s) && Accounted(s)
  }

  lemma InitInv(s: State)
    requires Init(s)
    ensures Inv(s)
  {
  }

  // A reader whose tasks are the process's own has a writer until CloseIO.
  lemma NeverWithoutWriter(s: State, i: nat)
    requires CopiesOk(s) && Remembered(s) && i < |s.copies|
    requires s.copies[i].reader && !s.copies[i].disowned && !s.closed
    ensures HasWriter(s)
  {
    var c := s.copies[i];
    assert CopyOk(c, s);
    assert Writes(c) || s.hold == Open;
  }

  lemma ActKeepsCopy(s: State, i: nat, act: Act)
    requires CopiesOk(s) && Remembered(s) && i < |s.copies| && CanAct(s, s.copies[i], act)
    ensures CopyOk(Acted(s, s.copies[i], act), DoneBy(s, i, act))
  {
    var c := s.copies[i];
    assert CopyOk(c, s);
    if act.OpenReader? {
      assert Writes(c);
    } else if act.SeeEof? && !c.disowned && !s.closed {
      NeverWithoutWriter(s, i);
    }
  }

  // What the others rely on is only ever strengthened.
  lemma OthersKept(c: Copy, s: State, t: State)
    requires CopyOk(c, s)
    requires (s.hold != Pending ==> t.hold != Pending) && (s.closed ==> t.closed) && (s.cancelled ==> t.cancelled)
    ensures CopyOk(c, t)
  {
  }

  lemma KeptCopies(s: State)
    requires CopiesOk(s) && Remembered(s)
    ensures CopiesOk(Kept(s)) && Remembered(Kept(s))
  {
    forall i | 0 <= i < |s.copies|
      ensures CopyOk(s.copies[i], Kept(s))
    {
      OthersKept(s.copies[i], s, Kept(s));
    }
  }

  lemma ActKeepsCopies(s: State, i: nat, act: Act)
    requires CopiesOk(s) && Remembered(s) && i < |s.copies| && CanAct(s, s.copies[i], act)
    ensures CopiesOk(DoneBy(s, i, act)) && Remembered(DoneBy(s, i, act))
  {
    var t := DoneBy(s, i, act);
    ActKeepsCopy(s, i, act);
    forall j | 0 <= j < |t.copies|
      ensures CopyOk(t.copies[j], t)
    {
      if j != i {
        OthersKept(s.copies[j], s, t);
      }
    }
  }

  lemma CopiesStep(s: State, step: Step)
    requires CopiesOk(s) && Remembered(s) && Enabled(s, step)
    ensures CopiesOk(Apply(s, step)) && Remembered(Apply(s, step))
  {
    var t := Changed(s, step);
    match step {
      case Does(i, act) =>
        ActKeepsCopies(s, i, act);
      case StartFails =>
        forall i | 0 <= i < |t.copies|
          ensures CopyOk(t.copies[i], t)
        {
          assert CopyOk(s.copies[i], s) && IsSetUp(s.copies[i]);
        }
      case _ =>
        forall i | 0 <= i < |s.copies|
          ensures CopyOk(s.copies[i], t)
        {
          OthersKept(s.copies[i], s, t);
        }
    }
    KeptCopies(t);
  }

  lemma KeptAccounted(s: State)
    requires Accounted(s)
    ensures Accounted(Kept(s))
  {
    PassedAppend(s.passed, Dropped(s.buffer), 0);
    DroppedBytes(s.buffer, 0);
    forall i: nat
      ensures ReadOf(s.passed + Dropped(s.buffer), i) == ReadOf(s.passed, i)
    {
      PassedAppend(s.passed, Dropped(s.buffer), i);
      DroppedBytes(s.buffer, i);
    }
  }

  lemma ReadPasses(passed: seq<Passed>, i: nat, bytes: seq<Byte>, j: nat)
    ensures Bytes(passed + Taken(i, bytes)) == Bytes(passed) + bytes
    ensures ReadOf(passed + Taken(i, bytes), j) == ReadOf(passed, j) + if i == j then bytes else []
  {
    PassedAppend(passed, Taken(i, bytes), j);
    TakenBytes(i, bytes, j);
  }

  lemma Regroup(a: seq<Byte>, b: seq<Byte>, n: nat)
    requires n <= |b|
    ensures a + b[..n] + b[n..] == a + b
  {
    assert b[..n] + b[n..] == b;
  }

  lemma ReadAccounted(s: State, i: nat, n: nat)
    requires Accounted(s) && i < |s.copies| && CanAct(s, s.copies[i], Read(n))
    ensures Accounted(DoneBy(s, i, Read(n)))
  {
    var t := DoneBy(s, i, Read(n));
    ReadPasses(s.passed, i, s.buffer[..n], i);
    Regroup(Bytes(s.passed), s.buffer, n);
    var c, d := s.copies[i], t.copies[i];
    assert c.delivered + (c.inFlight + s.buffer[..n]) == c.delivered + c.inFlight + s.buffer[..n];
    forall j: nat | j != i
      ensures ReadOf(t.passed, j) == ReadOf(s.passed, j)
    {
      ReadPasses(s.passed, i, s.buffer[..n], j);
      assert ReadOf(s.passed, j) + [] == ReadOf(s.passed, j);
    }
  }

  // Nothing but a read changes what a copy has.
  lemma ActKeepsBytes(s: State, c: Copy, act: Act)
    requires CanAct(s, c, act) && !act.Read?
    ensures Acted(s, c, act).delivered + Acted(s, c, act).inFlight == c.delivered + c.inFlight
  {
    if act.Deliver? {
      Regroup(c.delivered, c.inFlight, act.n);
    }
  }

  lemma ActAccounted(s: State, i: nat, act: Act)
    requires Accounted(s) && i < |s.copies| && CanAct(s, s.copies[i], act)
    ensures Accounted(DoneBy(s, i, act))
  {
    if act.Read? {
      ReadAccounted(s, i, act.n);
    } else {
      var t := DoneBy(s, i, act);
      ActKeepsBytes(s, s.copies[i], act);
      assert t.passed == s.passed && t.buffer == s.buffer && t.written == s.written;
      assert forall j | 0 <= j < |s.copies| && j != i :: t.copies[j] == s.copies[j];
    }
  }

  lemma AccountedStep(s: State, step: Step)
    requires Accounted(s) && Enabled(s, step)
    ensures Accounted(Apply(s, step))
  {
    if step.Does? {
      ActAccounted(s, step.i, step.act);
    }
    KeptAccounted(Changed(s, step));
  }

  lemma StepInv(s: State, step: Step)
    requires Inv(s) && Enabled(s, step)
    ensures Inv(Apply(s, step))
  {
    CopiesStep(s, step);
    AccountedStep(s, step);
  }

  ghost predicate Run(states: seq<State>, steps: seq<Step>) {
    && |states| == |steps| + 1 && Init(states[0])
    && (forall k | 0 <= k < |steps| :: Enabled(states[k], steps[k]) && states[k + 1] == Apply(states[k], steps[k]))
  }

  lemma {:induction false} RunInv(states: seq<State>, steps: seq<Step>, k: nat)
    requires Run(states, steps) && k < |states|
    ensures Inv(states[k])
  {
    if k == 0 {
      InitInv(states[0]);
    } else {
      RunInv(states, steps, k - 1);
      StepInv(states[k - 1], steps[k - 1]);
    }
  }

  // ---- what containerd is promised ----

  // EOF is exact: a copy of the process's own tasks sees it only after CloseIO, with no writer
  // left anywhere and the fifo empty, and by then everything written has been read or, at
  // times when nobody had the fifo open, lost.
  lemma EofIsExact(states: seq<State>, steps: seq<Step>, k: nat, i: nat)
    requires Run(states, steps) && k < |steps| && steps[k] == Does(i, SeeEof) && !states[k].copies[i].disowned
    ensures var s := states[k];
            && s.closed && s.clients == 0 && s.hold == Released
            && (forall j | 0 <= j < |s.copies| :: !s.copies[j].bridge && !s.copies[j].spare)
            && Bytes(s.passed) == s.written
  {
    RunInv(states, steps, k);
    var s := states[k];
    if !s.closed {
      NeverWithoutWriter(s, i);
    }
    assert forall j | 0 <= j < |s.copies| :: !Writes(s.copies[j]);
  }

  // Whatever containerd's writers do, and however often the process is started, nothing before
  // CloseIO ends the input, unless the start that it belongs to has failed.
  lemma NoEofBeforeCloseIo(states: seq<State>, steps: seq<Step>, k: nat, i: nat)
    requires Run(states, steps) && k < |states| && !states[k].closed
    requires i < |states[k].copies| && !states[k].copies[i].disowned
    ensures states[k].copies[i].reader ==> HasWriter(states[k])
    ensures !states[k].copies[i].eof && states[k].copies[i].phase != Ended(ByEof)
  {
    RunInv(states, steps, k);
    assert CopyOk(states[k].copies[i], states[k]);
    if states[k].copies[i].reader {
      NeverWithoutWriter(states[k], i);
    }
  }

  // No byte is given to two copies, made up, or reordered: what left the fifo is what was
  // written first, and each copy has delivered, in order, the first of what it read of that.
  lemma DeliveredInOrder(states: seq<State>, steps: seq<Step>, k: nat, i: nat)
    requires Run(states, steps) && k < |states| && i < |states[k].copies|
    ensures Bytes(states[k].passed) <= states[k].written
    ensures states[k].copies[i].delivered <= ReadOf(states[k].passed, i)
  {
    RunInv(states, steps, k);
  }

  // However a copy ends, its own descriptors are closed, and after CloseIO the shim has no
  // hold on the fifo either; a copy is cancelled only by an abort, of all tasks or of those
  // of a failed start.
  lemma LetsGo(states: seq<State>, steps: seq<Step>, k: nat, i: nat)
    requires Run(states, steps) && k < |states| && i < |states[k].copies| && states[k].copies[i].phase.Ended?
    ensures var s, c := states[k], states[k].copies[i];
            && !c.reader && !Writes(c) && (s.closed ==> s.hold != Open)
            && (c.phase.how == Cancelled ==> s.cancelled || c.disowned)
  {
    RunInv(states, steps, k);
    assert CopyOk(states[k].copies[i], states[k]);
  }

  ghost predicate Doomed(s: State, i: nat) {
    i < |s.copies| && (s.cancelled || s.copies[i].disowned)
  }

  lemma DoomedStep(s: State, step: Step, i: nat)
    requires Enabled(s, step) && i < |s.copies| && (Doomed(s, i) || step.Abort? || step.StartFails?)
    ensures Doomed(Apply(s, step), i)
  {
    if step.Does? {
      ActKeepsOwner(s, s.copies[step.i], step.act);
    }
  }

  lemma ActKeepsOwner(s: State, c: Copy, act: Act)
    requires CanAct(s, c, act)
    ensures Acted(s, c, act).disowned == c.disowned
  {
  }

  lemma {:induction false} DoomedAlong(states: seq<State>, steps: seq<Step>, m: nat, k: nat, i: nat)
    requires Run(states, steps) && m < k <= |steps| && i < |states[m].copies|
    requires steps[m].Abort? || steps[m].StartFails?
    ensures Doomed(states[k], i)
  {
    if k > m + 1 {
      DoomedAlong(states, steps, m, k - 1, i);
      DoomedStep(states[k - 1], steps[k - 1], i);
    } else {
      DoomedStep(states[m], steps[m], i);
    }
  }

  // A copy can be done with at any time after an abort, or a failed start, that finds it
  // there, whatever it is waiting for; and also by an error. Either way it lets go at once of
  // all it has open.
  lemma CanBeEnded(states: seq<State>, steps: seq<Step>, m: nat, k: nat, i: nat)
    requires Run(states, steps) && m < k <= |steps| && i < |states[m].copies| && i < |states[k].copies|
    requires (steps[m].Abort? || steps[m].StartFails?) && states[k].copies[i].phase == Copying
    ensures Enabled(states[k], Does(i, Cancel)) && Enabled(states[k], Does(i, Fail))
    ensures var c := Apply(states[k], Does(i, Cancel)).copies[i];
            c.phase == Ended(Cancelled) && !c.bridge && !c.reader && !c.spare
    ensures var c := Apply(states[k], Does(i, Fail)).copies[i];
            c.phase == Ended(CopyFailed) && !c.bridge && !c.reader && !c.spare
  {
    DoomedAlong(states, steps, m, k, i);
  }

  // A start may fail at any time when no copy is half set up. The process then has fresh
  // tasks: not cancelled, and without the fifo, but with a CloseIO that has come; and every
  // copy there was can be cancelled.
  lemma FailedStartRenews(states: seq<State>, steps: seq<Step>, k: nat)
    requires Run(states, steps) && k <= |steps|
    ensures var s := states[k];
            Enabled(s, StartFails) <==>
              forall i | 0 <= i < |s.copies| :: s.copies[i].phase == Copying || s.copies[i].phase.Ended?
    ensures Enabled(states[k], StartFails) ==>
              var s, t := states[k], Apply(states[k], StartFails);
              && !t.cancelled && t.closed == s.closed && t.hold == (if s.closed then Released else Pending)
              && |t.copies| == |s.copies|
              && forall i | 0 <= i < |t.copies| :: t.copies[i] == s.copies[i].(disowned := true)
  {
    RunInv(states, steps, k);
  }

  // A copy whose fifo cannot be opened, at whichever of the three opens, ends with nothing
  // open, and leaves the hold alone.
  lemma OpenFails(states: seq<State>, steps: seq<Step>, k: nat, i: nat, act: Act)
    requires Run(states, steps) && k <= |steps| && Enabled(states[k], Does(i, act))
    requires act in {OpenBridge(false), OpenReader(false), OpenHold(false)}
    ensures var s, t := states[k], Apply(states[k], Does(i, act));
            && t.copies[i].phase == Ended(Ending.OpenFailed) && !Writes(t.copies[i]) && !t.copies[i].reader
            && t.copies[i].delivered == t.copies[i].inFlight == [] && t.hold == s.hold
  {
    RunInv(states, steps, k);
    assert CopyOk(states[k].copies[i], states[k]);
  }

  // What nobody has open is empty.
  lemma UnusedIsEmpty(states: seq<State>, steps: seq<Step>, k: nat)
    requires Run(states, steps) && k <= |steps| && !InUse(states[k])
    ensures states[k].buffer == []
  {
    if k > 0 {
      UnusedAfter(states[k - 1], steps[k - 1]);
    }
  }

  lemma UnusedAfter(s: State, step: Step)
    requires Enabled(s, step) && !InUse(Apply(s, step))
    ensures Apply(s, step).buffer == []
  {
    var t := Changed(s, step);
    assert InUse(Kept(t)) <==> InUse(t);
  }

  // ---- exactly what a copy delivers ----

  // What containerd's writers put in, over some steps.
  function BytesOf(steps: seq<Step>): seq<Byte> {
    if steps == [] then []
    else BytesOf(steps[..|steps| - 1]) + BytesIn(steps[|steps| - 1])
  }

  function BytesIn(step: Step): seq<Byte> {
    if step.ClientWrites? then step.bytes else []
  }

  predicate WritesOn(s: State, step: Step, t: State) {
    t.written == s.written + BytesIn(step)
  }

  lemma WrittenSince(states: seq<State>, steps: seq<Step>, m: nat, k: nat)
    requires Run(states, steps) && m <= k <= |steps|
    ensures states[k].written == states[m].written + BytesOf(steps[m..k])
  {
    forall x | m <= x < k
      ensures WritesOn(states[x], steps[x], states[x + 1])
    {
      WrittenStep(states[x], steps[x]);
    }
    WrittenAlong(states, steps, m, k);
  }

  lemma {:induction false} WrittenAlong(states: seq<State>, steps: seq<Step>, m: nat, k: nat)
    requires |states| == |steps| + 1 && m <= k <= |steps|
    requires forall x | m <= x < k :: WritesOn(states[x], steps[x], states[x + 1])
    ensures states[k].written == states[m].written + BytesOf(steps[m..k])
  {
    if m < k {
      WrittenAlong(states, steps, m, k - 1);
      assert steps[m..k][..k - 1 - m] == steps[m..k - 1];
      assert WritesOn(states[k - 1], steps[k - 1], states[k - 1 + 1]);
    }
  }

  lemma WrittenStep(s: State, step: Step)
    requires Enabled(s, step)
    ensures Apply(s, step).written == s.written + BytesIn(step)
  {
  }

  lemma {:induction false} NothingWrittenIff(steps: seq<Step>)
    ensures BytesOf(steps) == [] <==> forall m | 0 <= m < |steps| :: BytesIn(steps[m]) == []
  {
    if steps != [] {
      var n := |steps| - 1;
      NothingWrittenIff(steps[..n]);
      assert forall m | 0 <= m < n :: steps[m] == steps[..n][m];
    }
  }

  predicate IsRead(step: Step) {
    step.Does? && step.act.Read?
  }

  // What a step takes out of a fifo that stays in use.
  function TakenIn(s: State, step: Step): seq<Passed>
    requires Enabled(s, step)
  {
    if IsRead(step) then Taken(step.i, s.buffer[..step.act.n]) else []
  }

  lemma PassedStep(s: State, step: Step)
    requires Enabled(s, step) && InUse(Apply(s, step))
    ensures Apply(s, step).passed == s.passed + TakenIn(s, step)
  {
  }

  predicate ReaderOpen(s: State, i: nat) {
    i < |s.copies| && s.copies[i].reader
  }

  predicate ReadsOnly(steps: seq<Step>, o: nat, e: nat, i: nat)
    requires e <= |steps|
  {
    forall m | o <= m < e && IsRead(steps[m]) :: steps[m].i == i
  }

  predicate TakesOn(s: State, step: Step, t: State) {
    Enabled(s, step) && t.passed == s.passed + TakenIn(s, step)
  }

  // While a copy has its reader open, what leaves the fifo is what the copies read.
  lemma PassedSince(states: seq<State>, steps: seq<Step>, o: nat, e: nat, i: nat)
    requires Run(states, steps) && o <= e <= |steps| && forall m | o < m <= e :: ReaderOpen(states[m], i)
    ensures states[o].passed <= states[e].passed
    ensures (forall p | p in states[e].passed[|states[o].passed|..] :: Owns(p, i)) <==> ReadsOnly(steps, o, e, i)
  {
    forall m | o <= m < e
      ensures TakesOn(states[m], steps[m], states[m + 1])
    {
      assert ReaderOpen(states[m + 1], i);
      PassedStep(states[m], steps[m]);
    }
    PassedAlong(states, steps, o, e, i);
  }

  lemma {:induction false} PassedAlong(states: seq<State>, steps: seq<Step>, o: nat, e: nat, i: nat)
    requires |states| == |steps| + 1 && o <= e <= |steps|
    requires forall m | o <= m < e :: TakesOn(states[m], steps[m], states[m + 1])
    ensures states[o].passed <= states[e].passed
    ensures (forall p | p in states[e].passed[|states[o].passed|..] :: Owns(p, i)) <==> ReadsOnly(steps, o, e, i)
  {
    if o < e {
      PassedAlong(states, steps, o, e - 1, i);
      assert TakesOn(states[e - 1], steps[e - 1], states[e - 1 + 1]);
      var taken := TakenIn(states[e - 1], steps[e - 1]);
      TakenOwned(states[e - 1], steps[e - 1], i);
      MorePassed(states[o].passed, states[e - 1].passed, taken, i);
      OneMoreRead(steps, o, e, i);
    }
  }

  lemma MorePassed(a: seq<Passed>, b: seq<Passed>, taken: seq<Passed>, i: nat)
    requires a <= b
    ensures a <= b + taken
    ensures (forall p | p in (b + taken)[|a|..] :: Owns(p, i)) <==>
              (forall p | p in b[|a|..] :: Owns(p, i)) && forall p | p in taken :: Owns(p, i)
  {
    assert (b + taken)[|a|..] == b[|a|..] + taken;
    assert forall p :: p in b[|a|..] + taken <==> p in b[|a|..] || p in taken;
  }

  lemma OneMoreRead(steps: seq<Step>, o: nat, e: nat, i: nat)
    requires o < e <= |steps|
    ensures ReadsOnly(steps, o, e, i) <==>
              ReadsOnly(steps, o, e - 1, i) && (IsRead(steps[e - 1]) ==> steps[e - 1].i == i)
  {
  }

  lemma TakenOwned(s: State, step: Step, i: nat)
    requires Enabled(s, step)
    ensures (forall p | p in TakenIn(s, step) :: Owns(p, i)) <==> (IsRead(step) ==> step.i == i)
  {
    if IsRead(step) {
      var taken := TakenIn(s, step);
      assert taken[0] in taken;
    }
  }

  lemma CopiesAfter(s: State, step: Step)
    requires Enabled(s, step)
    ensures Apply(s, step).copies ==
            match step
            case NewCopy => s.copies + [NEW_COPY]
            case Does(i, act) => s.copies[i := Acted(s, s.copies[i], act)]
            case StartFails => Disowned(s.copies)
            case _ => s.copies
  {
  }

  // What becomes of one copy in a step.
  lemma CopyAfter(s: State, step: Step, i: nat)
    requires Enabled(s, step) && i < |Apply(s, step).copies|
    ensures var d := Apply(s, step).copies[i];
            if i >= |s.copies| then d == NEW_COPY
            else if step.Does? && step.i == i then d == Acted(s, s.copies[i], step.act)
            else d == s.copies[i].(disowned := d.disowned)
  {
    CopiesAfter(s, step);
    var copies := Apply(s, step).copies;
    OneAfter(s, step, copies, i);
  }

  lemma OneAfter(s: State, step: Step, copies: seq<Copy>, i: nat)
    requires Enabled(s, step) && i < |copies|
    requires copies == match step
                       case NewCopy => s.copies + [NEW_COPY]
                       case Does(i, act) => s.copies[i := Acted(s, s.copies[i], act)]
                       case StartFails => Disowned(s.copies)
                       case _ => s.copies
    ensures if i >= |s.copies| then copies[i] == NEW_COPY
            else if step.Does? && step.i == i then copies[i] == Acted(s, s.copies[i], step.act)
            else copies[i] == s.copies[i].(disowned := copies[i].disowned)
  {
  }

  lemma ReaderOpens(s: State, step: Step, i: nat)
    requires Enabled(s, step) && ReaderOpen(Apply(s, step), i) && !ReaderOpen(s, i)
    ensures step == Does(i, OpenReader(true)) && i < |s.copies| && s.copies[i].phase == Bridged
  {
    CopyAfter(s, step, i);
    if i < |s.copies| && step.Does? && step.i == i {
      ActOpens(s, s.copies[i], step.act);
    }
  }

  lemma ActOpens(s: State, c: Copy, act: Act)
    requires CanAct(s, c, act)
    ensures Acted(s, c, act).reader && !c.reader ==> act == OpenReader(true) && c.phase == Bridged
  {
  }

  lemma NothingRead(s: State, i: nat)
    requires Inv(s) && i < |s.copies| && !IsSetUp(s.copies[i])
    ensures ReadOf(s.passed, i) == []
  {
    assert CopyOk(s.copies[i], s);
  }

  lemma OpenedBy(states: seq<State>, steps: seq<Step>, o: nat, i: nat)
    requires Run(states, steps) && o < |steps| && ReaderOpen(states[o + 1], i) && !ReaderOpen(states[o], i)
    ensures steps[o] == Does(i, OpenReader(true)) && ReadOf(states[o].passed, i) == []
  {
    RunInv(states, steps, o);
    ReaderOpens(states[o], steps[o], i);
    NothingRead(states[o], i);
  }

  lemma ReaderOpened(states: seq<State>, steps: seq<Step>, k: nat, i: nat) returns (o: nat)
    requires Run(states, steps) && k <= |steps| && ReaderOpen(states[k], i)
    ensures o < k && steps[o] == Does(i, OpenReader(true)) && ReadOf(states[o].passed, i) == []
    ensures forall m | o < m <= k :: ReaderOpen(states[m], i)
  {
    o := LastShut(states, k, i);
    OpenedBy(states, steps, o, i);
  }

  lemma {:induction false} LastShut(states: seq<State>, k: nat, i: nat) returns (o: nat)
    requires k < |states| && ReaderOpen(states[k], i) && !ReaderOpen(states[0], i)
    ensures o < k && !ReaderOpen(states[o], i)
    ensures forall m | o < m <= k :: ReaderOpen(states[m], i)
  {
    if ReaderOpen(states[k - 1], i) {
      o := LastShut(states, k - 1, i);
    } else {
      o := k - 1;
    }
  }

  predicate HasSeenEof(s: State, i: nat) {
    i < |s.copies| && s.copies[i].eof
  }

  // After EOF a copy only hands on what it has.
  lemma EofStays(s: State, step: Step, i: nat)
    requires Enabled(s, step) && HasSeenEof(Apply(s, step), i) && step != Does(i, SeeEof)
    ensures HasSeenEof(s, i)
    ensures var c, d := s.copies[i], Apply(s, step).copies[i]; d.delivered + d.inFlight == c.delivered + c.inFlight
  {
    CopyAfter(s, step, i);
    if step.Does? && step.i == i {
      ActAfterEof(s, s.copies[i], step.act);
    }
  }

  lemma ActAfterEof(s: State, c: Copy, act: Act)
    requires CanAct(s, c, act) && !act.SeeEof?
    ensures var d := Acted(s, c, act);
            d.eof == c.eof && (c.eof ==> d.delivered + d.inFlight == c.delivered + c.inFlight)
  {
    if !act.Read? {
      ActKeepsBytes(s, c, act);
    }
  }

  // What a copy has, with what it has still to hand on.
  function HasRead(s: State, i: nat): seq<Byte>
    requires i < |s.copies|
  {
    s.copies[i].delivered + s.copies[i].inFlight
  }

  lemma SeesEof(states: seq<State>, steps: seq<Step>, e: nat, i: nat)
    requires Run(states, steps) && e < |steps| && steps[e] == Does(i, SeeEof)
    ensures ReaderOpen(states[e], i) && states[e].buffer == [] && i < |states[e + 1].copies|
    ensures HasRead(states[e + 1], i) == ReadOf(states[e].passed, i)
  {
    RunInv(states, steps, e);
    assert CopyOk(states[e].copies[i], states[e]);
    CopyAfter(states[e], steps[e], i);
  }

  lemma {:induction false} EofSeen(states: seq<State>, steps: seq<Step>, k: nat, i: nat) returns (e: nat)
    requires Run(states, steps) && k <= |steps| && HasSeenEof(states[k], i)
    ensures e < k && steps[e] == Does(i, SeeEof) && ReaderOpen(states[e], i) && states[e].buffer == []
    ensures HasRead(states[k], i) == ReadOf(states[e].passed, i)
  {
    assert k > 0;
    if steps[k - 1] == Does(i, SeeEof) {
      e := k - 1;
      SeesEof(states, steps, e, i);
    } else {
      EofStays(states[k - 1], steps[k - 1], i);
      e := EofSeen(states, steps, k - 1, i);
    }
  }

  // From the time a copy opens its reader until it sees EOF it is given what was in the fifo
  // then and what has been written since, if and only if no other copy reads in between.
  lemma GivenExactly(states: seq<State>, steps: seq<Step>, o: nat, e: nat, i: nat)
    requires Run(states, steps) && o < e < |steps| && ReadOf(states[o].passed, i) == []
    requires (forall m | o < m <= e :: ReaderOpen(states[m], i)) && states[e].buffer == []
    ensures var given, all := ReadOf(states[e].passed, i), states[o].buffer + BytesOf(steps[o..e]);
            |given| <= |all| && (given == all <==> ReadsOnly(steps, o, e, i))
  {
    PassedSince(states, steps, o, e, i);
    var before := states[o].passed;
    var since := states[e].passed[|before|..];
    assert states[e].passed == before + since;
    PassedAppend(before, since, i);
    SinceBytes(states, steps, o, e, since);
    AllOwn(since, i);
    assert [] + ReadOf(since, i) == ReadOf(since, i);
  }

  lemma SinceBytes(states: seq<State>, steps: seq<Step>, o: nat, e: nat, since: seq<Passed>)
    requires Run(states, steps) && o <= e <= |steps| && states[e].buffer == []
    requires states[e].passed == states[o].passed + since
    ensures Bytes(since) == states[o].buffer + BytesOf(steps[o..e])
  {
    RunInv(states, steps, o);
    RunInv(states, steps, e);
    WrittenSince(states, steps, o, e);
    PassedAppend(states[o].passed, since, 0);
    Behead(Bytes(states[o].passed), Bytes(since), states[o].buffer, BytesOf(steps[o..e]));
  }

  lemma Behead(a: seq<Byte>, b: seq<Byte>, c: seq<Byte>, d: seq<Byte>)
    ensures a + b == a + c + d <==> b == c + d
  {
    assert a + c + d == a + (c + d);
    assert (a + b)[|a|..] == b && (a + (c + d))[|a|..] == c + d;
  }

  // A copy that has ended by EOF has given the process what it read until then. That is all
  // that was in the fifo when it opened its reader or was written later if and only if no
  // other copy of the fifo read anything in between, as that of an earlier start may, and no
  // client writes anything after the EOF, which is then left behind.
  lemma DeliveredExactly(states: seq<State>, steps: seq<Step>, k: nat, i: nat) returns (o: nat, e: nat)
    requires Run(states, steps) && k < |states| && i < |states[k].copies| && states[k].copies[i].phase == Ended(ByEof)
    ensures o < e < k && steps[o] == Does(i, OpenReader(true)) && steps[e] == Does(i, SeeEof)
    ensures states[k].copies[i].delivered == ReadOf(states[e].passed, i)
    ensures states[k].copies[i].delivered == states[o].buffer + BytesOf(steps[o..e]) <==> ReadsOnly(steps, o, e, i)
    ensures states[k].copies[i].delivered == states[o].buffer + BytesOf(steps[o..k]) <==>
              ReadsOnly(steps, o, e, i) && NoWrites(steps, e, k)
  {
    o, e := Lifetime(states, steps, k, i);
    GivenExactly(states, steps, o, e, i);
    LaterWrites(steps, o, e, k);
    LateIff(states[k].copies[i].delivered, states[o].buffer, BytesOf(steps[o..e]), BytesOf(steps[e..k]));
  }

  // From its reader's opening to the EOF it has seen.
  lemma Lifetime(states: seq<State>, steps: seq<Step>, k: nat, i: nat) returns (o: nat, e: nat)
    requires Run(states, steps) && k < |states| && i < |states[k].copies| && states[k].copies[i].phase == Ended(ByEof)
    ensures o < e < k && steps[o] == Does(i, OpenReader(true)) && steps[e] == Does(i, SeeEof)
    ensures ReadOf(states[o].passed, i) == [] && states[e].buffer == []
    ensures forall m | o < m <= e :: ReaderOpen(states[m], i)
    ensures states[k].copies[i].delivered == ReadOf(states[e].passed, i)
  {
    RunInv(states, steps, k);
    assert CopyOk(states[k].copies[i], states[k]);
    e := EofSeen(states, steps, k, i);
    o := ReaderOpened(states, steps, e, i);
    assert states[k].copies[i].delivered + [] == states[k].copies[i].delivered;
  }

  predicate NoWrites(steps: seq<Step>, e: nat, k: nat)
    requires k <= |steps|
  {
    forall m | e <= m < k && steps[m].ClientWrites? :: steps[m].bytes == []
  }

  lemma LateIff(given: seq<Byte>, before: seq<Byte>, until: seq<Byte>, late: seq<Byte>)
    requires |given| <= |before + until|
    ensures given == before + (until + late) <==> given == before + until && late == []
  {
    assert before + (until + late) == before + until + late;
    if given == before + until + late {
      assert |given| == |before + until| + |late|;
    }
    assert before + until + [] == before + until;
  }

  lemma LaterWrites(steps: seq<Step>, o: nat, e: nat, k: nat)
    requires o <= e <= k <= |steps|
    ensures BytesOf(steps[o..k]) == BytesOf(steps[o..e]) + BytesOf(steps[e..k])
    ensures BytesOf(steps[e..k]) == [] <==> NoWrites(steps, e, k)
  {
    assert steps[o..k] == steps[o..e] + steps[e..k];
    BytesAppend(steps[o..e], steps[e..k]);
    NothingWrittenIff(steps[e..k]);
    if forall m | 0 <= m < |steps[e..k]| :: BytesIn(steps[e..k][m]) == [] {
      forall m | e <= m < k && steps[m].ClientWrites?
        ensures steps[m].bytes == []
      {
        assert BytesIn(steps[e..k][m - e]) == [];
      }
    }
  }

  lemma {:induction false} BytesAppend(a: seq<Step>, b: seq<Step>)
    ensures BytesOf(a + b) == BytesOf(a) + BytesOf(b)
  {
    if b == [] {
      assert a + b == a;
    } else {
      var n := |b| - 1;
      assert (a + b)[..|a| + n] == a + b[..n];
      BytesAppend(a, b[..n]);
      assert BytesOf(a + b) == BytesOf(a + b[..n]) + BytesIn(b[n]);
    }
  }

  // ---- runs that fall short ----

  lemma Longer(states: seq<State>, steps: seq<Step>, step: Step) returns (more: seq<State>, moreSteps: seq<Step>)
    requires Run(states, steps) && Enabled(states[|steps|], step)
    ensures Run(more, moreSteps) && moreSteps == steps + [step] && more == states + [Apply(states[|steps|], step)]
  {
    more, moreSteps := states + [Apply(states[|steps|], step)], steps + [step];
  }

  // To a state in which the fifo has nothing to lose.
  lemma LongerTo(states: seq<State>, steps: seq<Step>, step: Step, t: State)
    returns (more: seq<State>, moreSteps: seq<Step>)
    requires Run(states, steps) && Enabled(states[|steps|], step)
    requires t == Changed(states[|steps|], step) && (t.hold == Open || t.clients > 0 || t.buffer == [])
    ensures Run(more, moreSteps) && moreSteps == steps + [step] && more == states + [t]
  {
    more, moreSteps := Longer(states, steps, step);
    assert t.passed + Dropped([]) == t.passed;
  }

  lemma LastActs(rest: seq<Copy>, c: Copy, d: Copy)
    ensures |rest + [c]| == |rest| + 1 && (rest + [c])[|rest|] == c && (rest + [c])[|rest| := d] == rest + [d]
  {
  }

  const RUNNING_COPY: Copy := NEW_COPY.(phase := Copying, reader := true, arrived := true)

  const READING_COPY: Copy := NEW_COPY.(phase := Reading, bridge := true, reader := true, arrived := true)

  lemma OpensReader(states: seq<State>, steps: seq<Step>) returns (more: seq<State>, moreSteps: seq<Step>)
    requires Run(states, steps) && states[|steps|].buffer == []
    ensures Run(more, moreSteps)
    ensures var s, i := states[|steps|], |states[|steps|].copies|;
            && moreSteps == steps + [NewCopy, Does(i, OpenBridge(true)), Does(i, OpenReader(true))]
            && more[|moreSteps|] == s.(copies := s.copies + [READING_COPY])
  {
    var s, rest := states[|steps|], states[|steps|].copies;
    var bridged := NEW_COPY.(phase := Bridged, bridge := true);
    LastActs(rest, NEW_COPY, bridged);
    LastActs(rest, bridged, READING_COPY);
    more, moreSteps := LongerTo(states, steps, NewCopy, s.(copies := rest + [NEW_COPY]));
    more, moreSteps := LongerTo(more, moreSteps, Does(|rest|, OpenBridge(true)), s.(copies := rest + [bridged]));
    var t := more[|moreSteps|];
    assert Writes(t.copies[|rest|]) && HasWriter(t);
    more, moreSteps := LongerTo(more, moreSteps, Does(|rest|, OpenReader(true)), s.(copies := rest + [READING_COPY]));
  }

  lemma OpenedCopies(states: seq<State>, steps: seq<Step>, rest: seq<Copy>)
    returns (more: seq<State>, moreSteps: seq<Step>)
    requires Run(states, steps) && states[|steps|].buffer == [] && states[|steps|].copies == rest + [READING_COPY]
    ensures Run(more, moreSteps)
    ensures moreSteps == steps +
              [Does(|rest|, OpenHold(true)), Does(|rest|, DropBridge), Does(|rest|, Install), Does(|rest|, Spawn)]
    ensures more[|moreSteps|] == states[|steps|].(copies := rest + [RUNNING_COPY],
              hold := Installed(states[|steps|].hold))
  {
    var s, i := states[|steps|], |rest|;
    var holding := READING_COPY.(phase := Holding, spare := true);
    var unbridged := holding.(phase := Unbridged, bridge := false);
    var settled := RUNNING_COPY.(phase := Settled);
    LastActs(rest, READING_COPY, holding);
    LastActs(rest, holding, unbridged);
    LastActs(rest, unbridged, settled);
    LastActs(rest, settled, RUNNING_COPY);
    var hold := Installed(s.hold);
    more, moreSteps := LongerTo(states, steps, Does(i, OpenHold(true)), s.(copies := rest + [holding]));
    more, moreSteps := LongerTo(more, moreSteps, Does(i, DropBridge), s.(copies := rest + [unbridged]));
    more, moreSteps := LongerTo(more, moreSteps, Does(i, Install), s.(copies := rest + [settled], hold := hold));
    more, moreSteps := LongerTo(more, moreSteps, Does(i, Spawn), s.(copies := rest + [RUNNING_COPY], hold := hold));
  }

  // A start's copy is set up, whatever copies there are from earlier ones.
  lemma Starts(states: seq<State>, steps: seq<Step>) returns (more: seq<State>, moreSteps: seq<Step>)
    requires Run(states, steps) && states[|steps|].buffer == []
    ensures Run(more, moreSteps) && steps <= moreSteps && |moreSteps| == |steps| + 7
    ensures moreSteps[|steps| + 2] == Does(|states[|steps|].copies|, OpenReader(true))
    ensures var s := states[|steps|];
            more[|moreSteps|] == s.(copies := s.copies + [RUNNING_COPY], hold := Installed(s.hold))
  {
    more, moreSteps := OpensReader(states, steps);
    more, moreSteps := OpenedCopies(more, moreSteps, states[|steps|].copies);
  }

  const NEW_STATE: State := State([], Pending, false, 0, [], false, [], [])

  // A client opens the fifo after the EOF, and its byte is lost.
  lemma LateByteLost() returns (states: seq<State>, steps: seq<Step>)
    ensures Run(states, steps) && |states[|steps|].copies| == 1
    ensures states[|steps|].copies[0].phase == Ended(ByEof)
    ensures states[|steps|].written == [7] && states[|steps|].copies[0].delivered == []
  {
    states, steps := Starts([NEW_STATE], []);
    assert states[|steps|].copies == [RUNNING_COPY];
    states, steps := EndsLate(states, steps);
  }

  lemma EndsLate(states: seq<State>, steps: seq<Step>) returns (more: seq<State>, moreSteps: seq<Step>)
    requires Run(states, steps) && states[|steps|] == NEW_STATE.(copies := [RUNNING_COPY], hold := Open)
    ensures Run(more, moreSteps)
    ensures moreSteps == steps + [CloseIo, Does(0, SeeEof), ClientOpens, ClientWrites([7]), Does(0, Finish)]
    ensures var t := more[|moreSteps|]; t.copies == [Closed(RUNNING_COPY.(eof := true), ByEof)] && t.written == [7]
  {
    var s := NEW_STATE.(copies := [RUNNING_COPY], hold := Released, closed := true);
    var t := s.(copies := [RUNNING_COPY.(eof := true)]);
    more, moreSteps := LongerTo(states, steps, CloseIo, s);
    more, moreSteps := LongerTo(more, moreSteps, Does(0, SeeEof), t);
    more, moreSteps := LongerTo(more, moreSteps, ClientOpens, t.(clients := 1));
    var u := t.(clients := 1, buffer := [7], written := [7]);
    more, moreSteps := LongerTo(more, moreSteps, ClientWrites([7]), u);
    var ended := [Closed(RUNNING_COPY.(eof := true), ByEof)];
    more, moreSteps := LongerTo(more, moreSteps, Does(0, Finish), u.(copies := ended));
  }

  // Two starts, and the copies of both run, as nothing ends the first one: a byte written then
  // is read by the first, and the second process is at its EOF without it.
  lemma ReadByEarlierCopy() returns (states: seq<State>, steps: seq<Step>)
    ensures Run(states, steps) && |states[|steps|].copies| == 2
    ensures states[|steps|].copies[1].phase == Ended(ByEof) && states[|steps|].copies[1].delivered == []
    ensures states[|steps|].written == [7] && states[|steps|].copies[0].delivered == [7]
    ensures |steps| > 15 && steps[9] == Does(1, OpenReader(true)) && steps[15] == ClientWrites([7])
  {
    states, steps := TwoStarts();
    states, steps := ByteToFirst(states, steps);
    states, steps := SecondEnds(states, steps);
  }

  lemma TwoStarts() returns (states: seq<State>, steps: seq<Step>)
    ensures Run(states, steps) && |steps| == 14 && steps[9] == Does(1, OpenReader(true))
    ensures states[|steps|] == NEW_STATE.(copies := [RUNNING_COPY, RUNNING_COPY], hold := Open)
  {
    states, steps := Starts([NEW_STATE], []);
    assert states[|steps|].copies == [RUNNING_COPY];
    states, steps := Starts(states, steps);
  }

  lemma ByteToFirst(states: seq<State>, steps: seq<Step>) returns (more: seq<State>, moreSteps: seq<Step>)
    requires Run(states, steps) && states[|steps|] == NEW_STATE.(copies := [RUNNING_COPY, RUNNING_COPY], hold := Open)
    ensures Run(more, moreSteps)
    ensures moreSteps == steps + [ClientOpens, ClientWrites([7]), Does(0, Read(1)), Does(0, Deliver(1)), ClientCloses]
    ensures more[|moreSteps|] ==
            NEW_STATE.(copies := [RUNNING_COPY.(delivered := [7]), RUNNING_COPY], hold := Open,
                       passed := [ReadBy(0, 7)], written := [7])
  {
    more, moreSteps := ByteRead(states, steps);
    var t := more[|moreSteps|].(copies := [RUNNING_COPY.(delivered := [7]), RUNNING_COPY]);
    assert [] + [7][..1] == [7] && [7][1..] == [];
    more, moreSteps := LongerTo(more, moreSteps, Does(0, Deliver(1)), t);
    more, moreSteps := LongerTo(more, moreSteps, ClientCloses, t.(clients := 0));
  }

  lemma ByteRead(states: seq<State>, steps: seq<Step>) returns (more: seq<State>, moreSteps: seq<Step>)
    requires Run(states, steps) && states[|steps|] == NEW_STATE.(copies := [RUNNING_COPY, RUNNING_COPY], hold := Open)
    ensures Run(more, moreSteps) && moreSteps == steps + [ClientOpens, ClientWrites([7]), Does(0, Read(1))]
    ensures var s, holding := states[|steps|].(clients := 1), RUNNING_COPY.(inFlight := [7]);
            more[|moreSteps|] == s.(copies := [holding, RUNNING_COPY], passed := [ReadBy(0, 7)], written := [7])
  {
    var s := states[|steps|].(clients := 1);
    more, moreSteps := LongerTo(states, steps, ClientOpens, s);
    more, moreSteps := LongerTo(more, moreSteps, ClientWrites([7]), s.(buffer := [7], written := [7]));
    assert [7][..1] == [7] && Taken(0, [7]) == [ReadBy(0, 7)];
    var t := s.(copies := [RUNNING_COPY.(inFlight := [7]), RUNNING_COPY], passed := [ReadBy(0, 7)], written := [7]);
    more, moreSteps := LongerTo(more, moreSteps, Does(0, Read(1)), t);
  }

  lemma SecondEnds(states: seq<State>, steps: seq<Step>) returns (more: seq<State>, moreSteps: seq<Step>)
    requires Run(states, steps) && |states[|steps|].copies| == 2
    requires var s := states[|steps|];
             s.copies[1] == RUNNING_COPY && !Writes(s.copies[0]) && s.buffer == [] && s.clients == 0
    ensures Run(more, moreSteps) && moreSteps == steps + [CloseIo, Does(1, SeeEof), Does(1, Finish)]
    ensures var s, t := states[|steps|], more[|moreSteps|];
            && |t.copies| == 2 && t.copies[0] == s.copies[0] && t.copies[1] == Closed(RUNNING_COPY.(eof := true), ByEof)
            && t.written == s.written
  {
    var s := states[|steps|].(hold := Released, closed := true);
    var over := RUNNING_COPY.(eof := true);
    more, moreSteps := LongerTo(states, steps, CloseIo, s);
    more, moreSteps := LongerTo(more, moreSteps, Does(1, SeeEof), s.(copies := s.copies[1 := over]));
    more, moreSteps := LongerTo(more, moreSteps, Does(1, Finish), s.(copies := s.copies[1 := Closed(over, ByEof)]));
  }

  // ---- progress ----

  // What a copy does if nothing goes wrong.
  predicate Willing(act: Act) {
    match act
    case OpenBridge(ok) => ok
    case OpenReader(ok) => ok
    case OpenHold(ok) => ok
    case Fail => false
    case Cancel => false
    case _ => true
  }

  function PhaseWork(phase: Phase): nat {
    match phase
    case Unopened => 7
    case Bridged => 6
    case Reading => 5
    case Holding => 4
    case Unbridged => 3
    case Settled => 2
    case Copying => 1
    case Ended(_) => 0
  }

  function CopyWork(c: Copy): nat {
    PhaseWork(c.phase) + |c.inFlight| + if c.eof then 0 else 1
  }

  function CopiesWork(copies: seq<Copy>): nat {
    if copies == [] then 0 else CopyWork(copies[0]) + CopiesWork(copies[1..])
  }

  function Work(s: State): nat {
    2 * |s.buffer| + CopiesWork(s.copies)
  }

  lemma {:induction false} CopiesWorkUpdate(copies: seq<Copy>, i: nat, c: Copy)
    requires i < |copies|
    ensures CopiesWork(copies[i := c]) + CopyWork(copies[i]) == CopiesWork(copies) + CopyWork(c)
  {
    if i == 0 {
      assert copies[i := c][1..] == copies[1..];
    } else {
      assert copies[i := c][1..] == copies[1..][i - 1 := c];
      CopiesWorkUpdate(copies[1..], i - 1, c);
    }
  }

  lemma ActWork(s: State, c: Copy, act: Act)
    requires CanAct(s, c, act) && Willing(act)
    ensures CopyWork(Acted(s, c, act)) <= CopyWork(c) + if act.Read? then act.n else -1
    ensures Acted(s, c, act).phase.Ended? ==> Acted(s, c, act).phase == Ended(ByEof)
  {
  }

  // Such steps run out, and end a copy by EOF only.
  lemma CopyStepsEnd(s: State, i: nat, act: Act)
    requires Enabled(s, Does(i, act)) && Willing(act)
    ensures var t := Apply(s, Does(i, act));
            && Work(t) < Work(s)
            && t.closed == s.closed && t.clients == s.clients
            && (t.copies[i].phase.Ended? ==> t.copies[i].phase == Ended(ByEof))
  {
    ActWork(s, s.copies[i], act);
    CopiesWorkUpdate(s.copies, i, Acted(s, s.copies[i], act));
  }

  // And after CloseIO, once containerd's writers are gone, some copy always has one to take
  // until all have ended: EOF does arrive, at every copy there is.
  lemma EofArrives(states: seq<State>, steps: seq<Step>, k: nat, i: nat)
    requires Run(states, steps) && k < |states| && i < |states[k].copies|
    requires states[k].closed && states[k].clients == 0 && !states[k].copies[i].phase.Ended?
    ensures exists j: nat, act :: Willing(act) && Enabled(states[k], Does(j, act))
  {
    RunInv(states, steps, k);
    var s := states[k];
    if j: nat :| j < |s.copies| && !IsSetUp(s.copies[j]) {
      var act := NextOpening(s.copies[j]);
      assert Enabled(s, Does(j, act));
    } else {
      var act := NextCopying(s, i);
      assert Enabled(s, Does(i, act));
    }
  }

  function NextOpening(c: Copy): (act: Act)
    requires !IsSetUp(c)
    ensures Willing(act) && forall s :: CanAct(s, c, act)
  {
    match c.phase
    case Unopened => OpenBridge(true)
    case Bridged => OpenReader(true)
    case Reading => OpenHold(true)
    case Holding => DropBridge
    case Unbridged => Install
    case Settled => Spawn
  }

  lemma NextCopying(s: State, i: nat) returns (act: Act)
    requires Inv(s) && s.closed && s.clients == 0 && i < |s.copies| && s.copies[i].phase == Copying
    requires forall j | 0 <= j < |s.copies| :: IsSetUp(s.copies[j])
    ensures Willing(act) && CanAct(s, s.copies[i], act)
  {
    var c := s.copies[i];
    assert CopyOk(c, s);
    if c.inFlight != [] {
      act := Deliver(|c.inFlight|);
    } else if c.eof {
      act := Finish;
    } else if s.buffer != [] {
      act := Read(|s.buffer|);
    } else {
      act := SeeEof;
      forall j | 0 <= j < |s.copies|
        ensures !Writes(s.copies[j])
      {
        assert CopyOk(s.copies[j], s);
      }
    }
  }
}
