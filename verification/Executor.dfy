// `ShimExecutor::execute` (crates/runc-shim/src/runc.rs): run a command and learn its exit
// code from the exit monitor. Any number of executions interleave with each other, with
// other users of the monitor, and with processes that come and go.
module Executor {
  import opened Wrappers
  import opened Kernel
  import opened Monitor

  // Where an execution is. `read` counts the events taken from its subscription; `inst`,
  // the kernel process that was spawned, is history.
  datatype Phase =
    | Subscribed(sid: int)
    | Waiting(sid: int, pid: int, inst: nat, read: nat)
    // the exit has been found; the receive loop has still to unsubscribe
    | Found(sid: int, inst: nat, code: int)
    // the caller unsubscribes again
    | Leaving(sid: int, inst: nat, code: int)
    | Done(inst: nat, code: int)
    // the command could not be spawned
    | Failing(sid: int)
    | Failed

  // An exit that the reaper has taken from the kernel and has yet to notify. It waits for the
  // monitor's lock in between, and others may have that first.
  datatype Reaped = Reaped(pid: int, inst: nat, code: int)

  // `others` are the live subscriptions of the monitor's other users; `exits` is history.
  datatype World = World(
    history: seq<Op>,
    nextSid: int,
    others: set<int>,
    kernel: Children,
    reaped: Option<Reaped>,
    exits: map<nat, int>,
    nextInst: nat,
    executions: seq<Phase>)

  ghost predicate Init(w: World) {
    w == World([], 0, {}, map[], None, map[], 0, [])
  }

  function InFlight(p: Phase): Option<int> {
    match p
    case Subscribed(sid) => Some(sid)
    case Waiting(sid, _, _, _) => Some(sid)
    case Found(sid, _, _) => Some(sid)
    case Leaving(sid, _, _) => Some(sid)
    case Failing(sid) => Some(sid)
    case _ => None
  }

  // Whether the execution still counts among the monitor's subscribers.
  predicate Holds(p: Phase) {
    InFlight(p).Some? && !p.Leaving?
  }

  ghost predicate HeardPid(heard: seq<ExitEvent>, pid: int) {
    exists i :: 0 <= i < |heard| && heard[i].subject == SubjectPid(pid)
  }

  // The assumption on the kernel: it hands out no pid that an unreaped child has, or whose
  // last exit has yet to be notified, or was since the subscription of an execution in flight
  // began.
  ghost predicate PidFree(w: World, pid: int) {
    && pid > 0
    && pid !in w.kernel
    && (w.reaped.Some? ==> w.reaped.value.pid != pid)
    && forall e | 0 <= e < |w.executions| && InFlight(w.executions[e]).Some? ::
         !HeardPid(Heard(w.history, InFlight(w.executions[e]).value), pid)
  }

  datatype Step =
    | Subscribe
    | Spawn(e: nat, pid: int)
    | SpawnFails(e: nat)
    | Receive(e: nat)
    // the receive loop's unsubscription, or the one after a failed spawn
    | Unsubscribe(e: nat)
    | UnsubscribeAgain(e: nat)
    // the surroundings
    | OtherSubscribes(topic: Topic)
    | OtherUnsubscribes(sid: int)
    | OtherNotifies(cid: string, exec: string, code: int)
    | OtherSpawns(pid: int)
    | Dies(pid: int, code: int)
    | Reap(pid: int)
    | Notify

  ghost predicate Enabled(w: World, a: Step) {
    match a
    case Subscribe => true
    case Spawn(e, pid) => e < |w.executions| && w.executions[e].Subscribed? && PidFree(w, pid)
    case SpawnFails(e) => e < |w.executions| && w.executions[e].Subscribed?
    case Receive(e) => CanReceive(w, e)
    case Unsubscribe(e) => e < |w.executions| && (w.executions[e].Found? || w.executions[e].Failing?)
    case UnsubscribeAgain(e) => e < |w.executions| && w.executions[e].Leaving?
    case OtherSubscribes(_) => true
    case OtherUnsubscribes(sid) => sid in w.others
    case OtherNotifies(_, _, _) => true
    case OtherSpawns(pid) => PidFree(w, pid)
    case Dies(pid, _) => pid in w.kernel && w.kernel[pid].state.Running?
    case Reap(pid) => w.reaped.None? && pid in w.kernel && w.kernel[pid].state.Zombie?
    case Notify => w.reaped.Some?
  }

  predicate CanReceive(w: World, e: nat) {
    e < |w.executions| && w.executions[e].Waiting? && w.executions[e].read < |Heard(w.history, w.executions[e].sid)|
  }

  function Received(p: Phase, heard: seq<ExitEvent>): Phase
    requires p.Waiting? && p.read < |heard|
  {
    if heard[p.read].subject == SubjectPid(p.pid)
    then Found(p.sid, p.inst, heard[p.read].exitCode)
    else p.(read := p.read + 1)
  }

  function Told(w: World, op: Op): World {
    w.(history := w.history + [op])
  }

  function At(w: World, e: nat, p: Phase): World
    requires e < |w.executions|
  {
    w.(executions := w.executions[e := p])
  }

  function Born(w: World, pid: int): World {
    w.(kernel := w.kernel[pid := Child(w.nextInst, Running)], nextInst := w.nextInst + 1)
  }

  function EventOf(r: Reaped): ExitEvent {
    ExitEvent(SubjectPid(r.pid), r.code)
  }

  function Apply(w: World, a: Step): World
    requires Enabled(w, a)
  {
    match a
    case Subscribe =>
      Told(w, Op.Subscribed(w.nextSid, TopicPid)).(
        nextSid := w.nextSid + 1,
        executions := w.executions + [Phase.Subscribed(w.nextSid)])
    case Spawn(e, pid) => At(Born(w, pid), e, Waiting(w.executions[e].sid, pid, w.nextInst, 0))
    case SpawnFails(e) => At(w, e, Failing(w.executions[e].sid))
    case Receive(e) => At(w, e, Received(w.executions[e], Heard(w.history, w.executions[e].sid)))
    case Unsubscribe(e) =>
      var p := w.executions[e];
      At(Told(w, Unsubscribed(p.sid)), e, if p.Found? then Leaving(p.sid, p.inst, p.code) else Failed)
    case UnsubscribeAgain(e) =>
      var p := w.executions[e];
      At(Told(w, Unsubscribed(p.sid)), e, Done(p.inst, p.code))
    case OtherSubscribes(topic) =>
      Told(w, Op.Subscribed(w.nextSid, topic)).(nextSid := w.nextSid + 1, others := w.others + {w.nextSid})
    case OtherUnsubscribes(sid) => Told(w, Unsubscribed(sid)).(others := w.others - {sid})
    case OtherNotifies(cid, exec, code) => Told(w, Notified(ExitEvent(SubjectExec(cid, exec), code)))
    case OtherSpawns(pid) => Born(w, pid)
    case Dies(pid, code) =>
      w.(kernel := w.kernel[pid := w.kernel[pid].(state := Zombie(code))],
         exits := w.exits[w.kernel[pid].inst := code])
    case Reap(pid) =>
      w.(kernel := w.kernel - {pid}, reaped := Some(Reaped(pid, w.kernel[pid].inst, w.kernel[pid].state.code)))
    case Notify => Told(w, Notified(EventOf(w.reaped.value))).(reaped := None)
  }

  // ---- what every step keeps ----

  // Every exit heard under the pid since the subscription began is that of the child.
  ghost predicate OwnExits(heard: seq<ExitEvent>, pid: int, inst: nat, exits: map<nat, int>) {
    forall i | 0 <= i < |heard| && heard[i].subject == SubjectPid(pid) ::
        inst in exits && exits[inst] == heard[i].exitCode
  }

  // The child is there, or with the reaper, or its exit is ahead of the receive loop.
  ghost predicate ChildOk(heard: seq<ExitEvent>, p: Phase, w: World)
    requires p.Waiting?
  {
    && p.read <= |heard|
    && p.inst < w.nextInst
    && OwnExits(heard, p.pid, p.inst, w.exits)
    && (if p.pid in w.kernel then w.kernel[p.pid].inst == p.inst && !HeardPid(heard, p.pid)
        else if WithReaper(w, p.pid) then w.reaped.value.inst == p.inst && !HeardPid(heard, p.pid)
        else HeardPid(heard[p.read..], p.pid))
  }

  predicate WithReaper(w: World, pid: int) {
    w.reaped.Some? && w.reaped.value.pid == pid
  }

  ghost predicate ReapedOk(w: World) {
    w.reaped.Some? ==>
      var r := w.reaped.value;
      r.pid > 0 && r.pid !in w.kernel && r.inst in w.exits && w.exits[r.inst] == r.code
      && forall p | p in w.kernel :: w.kernel[p].inst != r.inst
  }

  ghost predicate PhaseOk(w: World, p: Phase) {
    && (InFlight(p).Some? ==>
          var sid := InFlight(p).value;
          0 <= sid < w.nextSid && sid !in w.others && Live(w.history, sid) == if Holds(p) then Some(TopicPid) else None)
    && (p.Waiting? ==> ChildOk(Heard(w.history, p.sid), p, w))
    && (p.Found? || p.Leaving? || p.Done? ==> p.inst in w.exits && w.exits[p.inst] == p.code)
  }

  // Somebody in flight, or some other user, is behind every subscription.
  ghost predicate Subscriptions(w: World) {
    && (forall id | Live(w.history, id).Some? ::
          id in w.others || exists e :: 0 <= e < |w.executions| && Holds(w.executions[e]) && w.executions[e].sid == id)
    && (forall id | id in w.others :: 0 <= id < w.nextSid && Live(w.history, id).Some?)
    && (forall id | id >= w.nextSid :: Heard(w.history, id) == [])
  }

  ghost predicate SidsDistinct(w: World) {
    forall d, e | 0 <= d < e < |w.executions| && InFlight(w.executions[d]).Some? && InFlight(w.executions[e]).Some? ::
      InFlight(w.executions[d]) != InFlight(w.executions[e])
  }

  ghost predicate Inv(w: World) {
    && w.nextSid >= 0
    && KernelOk(w.kernel, w.exits, w.nextInst)
    && ReapedOk(w)
    && Subscriptions(w)
    && SidsDistinct(w)
    && forall e | 0 <= e < |w.executions| :: PhaseOk(w, w.executions[e])
  }

  // An operation that is not about a phase's own subscription, and is no exit of a pid,
  // leaves what the phase can see as it was.
  lemma ToldKeepsPhase(w: World, op: Op, v: World, p: Phase)
    requires PhaseOk(w, p)
    requires op.Notified? ==> op.event.subject.SubjectExec?
    requires !op.Notified? && InFlight(p).Some? ==> op.id != InFlight(p).value
    requires v.history == w.history + [op]
    requires v.kernel == w.kernel && v.reaped == w.reaped && v.exits == w.exits && v.nextInst == w.nextInst
    requires v.nextSid >= w.nextSid && (forall id | id in v.others :: id in w.others || id == w.nextSid)
    ensures PhaseOk(v, p)
  {
    if InFlight(p).Some? {
      HistoryGrows(w.history, op, InFlight(p).value);
    }
  }

  lemma SubscribeInv(w: World)
    requires Inv(w)
    ensures Inv(Apply(w, Subscribe))
  {
    var op := Op.Subscribed(w.nextSid, TopicPid);
    var v := Apply(w, Subscribe);
    var n := |w.executions|;
    forall e | 0 <= e < |v.executions|
      ensures PhaseOk(v, v.executions[e])
    {
      if e < n {
        ToldKeepsPhase(w, op, v, w.executions[e]);
      } else {
        HistoryGrows(w.history, op, w.nextSid);
      }
    }
    SubscriptionsAfter(w, op, v);
    HoldersAfter(w, op, v);
  }

  // Every subscription still has somebody behind it after an operation, if whoever the
  // operation is about accounts for it and all others are where they were.
  lemma HoldersAfter(w: World, op: Op, v: World)
    requires Subscriptions(w) && v.history == w.history + [op]
    requires |w.executions| <= |v.executions|
    requires forall e | 0 <= e < |w.executions| ::
               v.executions[e] == w.executions[e]
                   || (op.Unsubscribed? && Holds(w.executions[e]) ==> w.executions[e].sid == op.id)
    requires !op.Unsubscribed? ==> v.executions[..|w.executions|] == w.executions
    requires forall id | id in w.others :: id in v.others || (op.Unsubscribed? && op.id == id)
    requires op.Subscribed? && op.id !in v.others ==>
               |w.executions| < |v.executions| && Holds(v.executions[|w.executions|])
                   && v.executions[|w.executions|].sid == op.id
    ensures forall id | Live(v.history, id).Some? ::
              id in v.others || exists e ::
                  0 <= e < |v.executions| && Holds(v.executions[e]) && v.executions[e].sid == id
  {
    forall id | Live(v.history, id).Some? && id !in v.others
      ensures exists e :: 0 <= e < |v.executions| && Holds(v.executions[e]) && v.executions[e].sid == id
    {
      HistoryGrows(w.history, op, id);
      if op.Subscribed? && id == op.id {
        assert Holds(v.executions[|w.executions|]);
      } else {
        var e :| 0 <= e < |w.executions| && Holds(w.executions[e]) && w.executions[e].sid == id;
        assert !op.Unsubscribed? ==> v.executions[..|w.executions|][e] == w.executions[e];
        assert v.executions[e] == w.executions[e];
      }
    }
  }

  // The part of `Subscriptions` that is about other users and about ids still unused.
  lemma SubscriptionsAfter(w: World, op: Op, v: World)
    requires Inv(w) && v.history == w.history + [op]
    requires !op.Notified? ==> op.id < v.nextSid && (op.Unsubscribed? ==> op.id !in v.others)
    requires w.nextSid <= v.nextSid
    requires v.others <= w.others || (op.Subscribed? && v.others == w.others + {op.id} && 0 <= op.id)
    ensures forall id | id in v.others :: 0 <= id < v.nextSid && Live(v.history, id).Some?
    ensures forall id | id >= v.nextSid :: Heard(v.history, id) == []
  {
    forall id | id in v.others
      ensures 0 <= id < v.nextSid && Live(v.history, id).Some?
    {
      HistoryGrows(w.history, op, id);
    }
    forall id | id >= v.nextSid
      ensures Heard(v.history, id) == []
    {
      HistoryGrows(w.history, op, id);
      LiveIsOld(w, id);
    }
  }

  lemma LiveIsOld(w: World, id: int)
    requires Inv(w)
    ensures Live(w.history, id).Some? ==> id < w.nextSid
  {
    if Live(w.history, id).Some? && id !in w.others {
      var e :| 0 <= e < |w.executions| && Holds(w.executions[e]) && w.executions[e].sid == id;
      assert PhaseOk(w, w.executions[e]);
    }
  }

  // Whoever was behind a subscription still is, if the execution that moved on still holds
  // its own.
  lemma HoldersKept(w: World, v: World, e: nat)
    requires Subscriptions(w) && e < |w.executions| && |v.executions| == |w.executions|
    requires forall d | 0 <= d < |w.executions| && d != e :: v.executions[d] == w.executions[d]
    requires v.history == w.history && v.others == w.others
    requires Holds(w.executions[e]) && Holds(v.executions[e]) && v.executions[e].sid == w.executions[e].sid
    ensures forall id | Live(v.history, id).Some? ::
              id in v.others || exists d ::
                  0 <= d < |v.executions| && Holds(v.executions[d]) && v.executions[d].sid == id
  {
    forall id | Live(v.history, id).Some? && id !in v.others
      ensures exists d :: 0 <= d < |v.executions| && Holds(v.executions[d]) && v.executions[d].sid == id
    {
      var d :| 0 <= d < |w.executions| && Holds(w.executions[d]) && w.executions[d].sid == id;
      assert Holds(v.executions[d]) && v.executions[d].sid == id;
    }
  }

  // A new child under a free pid is nobody's that waits.
  lemma BornKeepsPhase(w: World, pid: int, p: Phase)
    requires KernelOk(w.kernel, w.exits, w.nextInst) && PhaseOk(w, p)
    requires pid > 0 && pid !in w.kernel && !WithReaper(w, pid)
    requires p.Waiting? ==> !HeardPid(Heard(w.history, p.sid), pid)
    ensures PhaseOk(Born(w, pid), p)
  {
    if p.Waiting? {
      HeardLater(Heard(w.history, p.sid), p.read, pid);
    }
  }

  lemma HeardLater(heard: seq<ExitEvent>, n: nat, pid: int)
    requires n <= |heard|
    ensures HeardPid(heard[n..], pid) ==> HeardPid(heard, pid)
  {
    if HeardPid(heard[n..], pid) {
      var i :| 0 <= i < |heard[n..]| && heard[n..][i].subject == SubjectPid(pid);
      assert heard[n + i].subject == SubjectPid(pid);
    }
  }

  lemma OtherSpawnsInv(w: World, pid: int)
    requires Inv(w) && PidFree(w, pid)
    ensures Inv(Born(w, pid))
  {
    var v := Born(w, pid);
    forall e | 0 <= e < |v.executions|
      ensures PhaseOk(v, v.executions[e])
    {
      BornKeepsPhase(w, pid, w.executions[e]);
    }
  }

  lemma MoveKeepsSids(w: World, e: nat, p: Phase)
    requires SidsDistinct(w) && e < |w.executions| && InFlight(p) == InFlight(w.executions[e])
    ensures SidsDistinct(At(w, e, p))
  {
    var v := At(w, e, p);
    assert forall d | 0 <= d < |v.executions| :: InFlight(v.executions[d]) == InFlight(w.executions[d]);
  }

  // One execution moves on while the monitor's history stays as it is.
  lemma MoveInv(w: World, e: nat, p: Phase)
    requires Inv(w) && e < |w.executions| && PhaseOk(w, p)
    requires Holds(w.executions[e]) && Holds(p) && p.sid == w.executions[e].sid
    ensures Inv(At(w, e, p))
  {
    var v := At(w, e, p);
    HoldersKept(w, v, e);
    MoveKeepsSids(w, e, p);
    MoveKeepsPhases(w, e, p);
    assert Subscriptions(v);
  }

  lemma MoveKeepsPhases(w: World, e: nat, p: Phase)
    requires forall d | 0 <= d < |w.executions| :: PhaseOk(w, w.executions[d])
    requires e < |w.executions| && PhaseOk(w, p)
    ensures var v := At(w, e, p); forall d | 0 <= d < |v.executions| :: PhaseOk(v, v.executions[d])
  {
    var v := At(w, e, p);
    forall d | 0 <= d < |v.executions|
      ensures PhaseOk(v, v.executions[d])
    {
      PhaseKept(w, v, if d == e then p else w.executions[d]);
    }
  }

  lemma PhaseKept(w: World, v: World, p: Phase)
    requires PhaseOk(w, p)
    requires v == w.(executions := v.executions)
    ensures PhaseOk(v, p)
  {
  }

  lemma SpawnInv(w: World, e: nat, pid: int)
    requires Inv(w) && Enabled(w, Spawn(e, pid))
    ensures Inv(Apply(w, Spawn(e, pid)))
  {
    SpawnedOk(w, e, pid);
    OtherSpawnsInv(w, pid);
    MoveInv(Born(w, pid), e, Waiting(w.executions[e].sid, pid, w.nextInst, 0));
  }

  lemma SpawnedOk(w: World, e: nat, pid: int)
    requires Inv(w) && Enabled(w, Spawn(e, pid))
    ensures PhaseOk(Born(w, pid), Waiting(w.executions[e].sid, pid, w.nextInst, 0))
  {
    assert PhaseOk(w, w.executions[e]);
    var heard := Heard(w.history, w.executions[e].sid);
    assert !HeardPid(heard, pid);
  }

  lemma SpawnFailsInv(w: World, e: nat)
    requires Inv(w) && Enabled(w, SpawnFails(e))
    ensures Inv(Apply(w, SpawnFails(e)))
  {
    MoveInv(w, e, Failing(w.executions[e].sid));
  }

  lemma ReceivedOk(w: World, p: Phase)
    requires PhaseOk(w, p) && p.Waiting? && p.read < |Heard(w.history, p.sid)|
    ensures PhaseOk(w, Received(p, Heard(w.history, p.sid)))
  {
    var heard := Heard(w.history, p.sid);
    assert heard[p.read..][0] == heard[p.read];
    assert heard[p.read + 1..] == heard[p.read..][1..];
    if HeardPid(heard[p.read..], p.pid) && heard[p.read].subject != SubjectPid(p.pid) {
      var i :| 0 <= i < |heard[p.read..]| && heard[p.read..][i].subject == SubjectPid(p.pid);
      assert heard[p.read + 1..][i - 1] == heard[p.read..][i];
    }
  }

  lemma ReceiveInv(w: World, e: nat)
    requires Inv(w) && CanReceive(w, e)
    ensures Inv(At(w, e, Received(w.executions[e], Heard(w.history, w.executions[e].sid))))
  {
    var p := w.executions[e];
    var q := Received(p, Heard(w.history, p.sid));
    assert PhaseOk(w, p);
    ReceivedOk(w, p);
    assert Holds(q) && q.sid == p.sid;
    MoveInv(w, e, q);
  }

  // Unsubscribing takes the execution out of the subscribers, the second time in vain.
  lemma LeaveInv(w: World, e: nat, q: Phase)
    requires Inv(w) && e < |w.executions| && InFlight(w.executions[e]).Some?
    requires !Holds(q) && !q.Waiting? && (q.Leaving? ==> InFlight(q) == InFlight(w.executions[e]))
    requires q.Leaving? || q.Done? ==> q.inst in w.exits && w.exits[q.inst] == q.code
    ensures Inv(At(Told(w, Unsubscribed(InFlight(w.executions[e]).value)), e, q))
  {
    var sid := InFlight(w.executions[e]).value;
    var op := Unsubscribed(sid);
    var v := At(Told(w, op), e, q);
    assert PhaseOk(w, w.executions[e]);
    forall d | 0 <= d < |v.executions|
      ensures PhaseOk(v, v.executions[d])
    {
      if d == e {
        HistoryGrows(w.history, op, sid);
      } else {
        assert PhaseOk(w, w.executions[d]);
        ToldKeepsPhase(w, op, v, w.executions[d]);
      }
    }
    SubscriptionsAfter(w, op, v);
    HoldersAfter(w, op, v);
  }

  lemma OtherSubscribesInv(w: World, topic: Topic)
    requires Inv(w)
    ensures Inv(Apply(w, OtherSubscribes(topic)))
  {
    var op := Op.Subscribed(w.nextSid, topic);
    var v := Apply(w, OtherSubscribes(topic));
    forall e | 0 <= e < |v.executions|
      ensures PhaseOk(v, v.executions[e])
    {
      ToldKeepsPhase(w, op, v, w.executions[e]);
    }
    SubscriptionsAfter(w, op, v);
    HoldersAfter(w, op, v);
  }

  lemma OtherUnsubscribesInv(w: World, sid: int)
    requires Inv(w) && sid in w.others
    ensures Inv(Apply(w, OtherUnsubscribes(sid)))
  {
    var op := Unsubscribed(sid);
    var v := Apply(w, OtherUnsubscribes(sid));
    forall e | 0 <= e < |v.executions|
      ensures PhaseOk(v, v.executions[e])
    {
      assert PhaseOk(w, w.executions[e]);
      ToldKeepsPhase(w, op, v, w.executions[e]);
    }
    SubscriptionsAfter(w, op, v);
    HoldersAfter(w, op, v);
  }

  lemma OtherNotifiesInv(w: World, cid: string, exec: string, code: int)
    requires Inv(w)
    ensures Inv(Apply(w, OtherNotifies(cid, exec, code)))
  {
    var op := Notified(ExitEvent(SubjectExec(cid, exec), code));
    var v := Apply(w, OtherNotifies(cid, exec, code));
    forall e | 0 <= e < |v.executions|
      ensures PhaseOk(v, v.executions[e])
    {
      ToldKeepsPhase(w, op, v, w.executions[e]);
    }
    SubscriptionsAfter(w, op, v);
    HoldersAfter(w, op, v);
  }

  lemma DiesInv(w: World, pid: int, code: int)
    requires Inv(w) && Enabled(w, Dies(pid, code))
    ensures Inv(Apply(w, Dies(pid, code)))
  {
    var v := Apply(w, Dies(pid, code));
    forall e | 0 <= e < |v.executions|
      ensures PhaseOk(v, v.executions[e])
    {
      assert PhaseOk(w, w.executions[e]);
    }
  }

  // The reaper takes the child from the kernel, and nobody hears of it yet.
  lemma ReapInv(w: World, pid: int)
    requires Inv(w) && Enabled(w, Reap(pid))
    ensures Inv(Apply(w, Reap(pid)))
  {
    var v := Apply(w, Reap(pid));
    forall e | 0 <= e < |v.executions|
      ensures PhaseOk(v, v.executions[e])
    {
      assert PhaseOk(w, w.executions[e]);
    }
  }

  // A notified exit reaches every execution's subscription; its own child's is recognised.
  lemma NotifyKeepsPhase(w: World, p: Phase)
    requires Inv(w) && w.reaped.Some? && PhaseOk(w, p)
    ensures PhaseOk(Apply(w, Notify), p)
  {
    var e := EventOf(w.reaped.value);
    if InFlight(p).Some? {
      HistoryGrows(w.history, Notified(e), InFlight(p).value);
    }
    if p.Waiting? {
      NotifyKeepsChild(w, Heard(w.history, p.sid), p);
    }
  }

  lemma NotifyKeepsChild(w: World, heard: seq<ExitEvent>, p: Phase)
    requires p.Waiting? && ChildOk(heard, p, w) && ReapedOk(w) && w.reaped.Some?
    ensures ChildOk(heard + [EventOf(w.reaped.value)], p, Apply(w, Notify))
  {
    var e := EventOf(w.reaped.value);
    var more := heard + [e];
    assert more[p.read..] == heard[p.read..] + [e];
    HeardAppend(heard, e, p.pid);
    HeardAppend(heard[p.read..], e, p.pid);
  }

  lemma HeardAppend(heard: seq<ExitEvent>, e: ExitEvent, pid: int)
    ensures HeardPid(heard + [e], pid) <==> HeardPid(heard, pid) || e.subject == SubjectPid(pid)
  {
    if HeardPid(heard, pid) {
      var i :| 0 <= i < |heard| && heard[i].subject == SubjectPid(pid);
      assert (heard + [e])[i].subject == SubjectPid(pid);
    }
    if e.subject == SubjectPid(pid) {
      assert (heard + [e])[|heard|].subject == SubjectPid(pid);
    }
  }

  lemma NotifyInv(w: World)
    requires Inv(w) && w.reaped.Some?
    ensures Inv(Apply(w, Notify))
  {
    var v := Apply(w, Notify);
    var op := Notified(EventOf(w.reaped.value));
    forall e | 0 <= e < |v.executions|
      ensures PhaseOk(v, v.executions[e])
    {
      NotifyKeepsPhase(w, w.executions[e]);
    }
    SubscriptionsAfter(w, op, v);
    HoldersAfter(w, op, v);
  }

  lemma StepInv(w: World, a: Step)
    requires Inv(w) && Enabled(w, a)
    ensures Inv(Apply(w, a))
  {
    match a
    case Subscribe => SubscribeInv(w);
    case Spawn(e, pid) => SpawnInv(w, e, pid);
    case SpawnFails(e) => SpawnFailsInv(w, e);
    case Receive(e) => ReceiveInv(w, e);
    case Unsubscribe(e) =>
      var p := w.executions[e];
      assert PhaseOk(w, p);
      LeaveInv(w, e, if p.Found? then Leaving(p.sid, p.inst, p.code) else Failed);
    case UnsubscribeAgain(e) =>
      var p := w.executions[e];
      assert PhaseOk(w, p);
      LeaveInv(w, e, Done(p.inst, p.code));
    case OtherSubscribes(topic) => OtherSubscribesInv(w, topic);
    case OtherUnsubscribes(sid) => OtherUnsubscribesInv(w, sid);
    case OtherNotifies(cid, exec, code) => OtherNotifiesInv(w, cid, exec, code);
    case OtherSpawns(pid) => OtherSpawnsInv(w, pid);
    case Dies(pid, code) => DiesInv(w, pid, code);
    case Reap(pid) => ReapInv(w, pid);
    case Notify => NotifyInv(w);
  }

  // ---- over whole runs ----

  ghost predicate Run(worlds: seq<World>, steps: seq<Step>) {
    && |worlds| == |steps| + 1
    && Init(worlds[0])
    && forall i | 0 <= i < |steps| :: Enabled(worlds[i], steps[i]) && worlds[i + 1] == Apply(worlds[i], steps[i])
  }

  lemma {:induction false} RunInv(worlds: seq<World>, steps: seq<Step>, i: nat)
    requires Run(worlds, steps) && i <= |steps|
    ensures Inv(worlds[i])
  {
    if i > 0 {
      RunInv(worlds, steps, i - 1);
      StepInv(worlds[i - 1], steps[i - 1]);
    }
  }

  // An execution that returns returns the exit code of the very process it spawned.
  lemma ReturnsOwnCode(worlds: seq<World>, steps: seq<Step>, i: nat, e: nat)
    requires Run(worlds, steps) && i <= |steps| && e < |worlds[i].executions| && worlds[i].executions[e].Done?
    ensures var p := worlds[i].executions[e]; p.inst in worlds[i].exits && worlds[i].exits[p.inst] == p.code
  {
    RunInv(worlds, steps, i);
    assert PhaseOk(worlds[i], worlds[i].executions[e]);
  }

  // The receive loop never waits on a closed channel, nor in vain: its subscription is
  // live, and its child is there, or with the reaper, which has it next to notify; from then
  // on the child's exit is in the subscription, ahead of the loop.
  lemma NeverWaitsInVain(worlds: seq<World>, steps: seq<Step>, i: nat, e: nat)
    requires Run(worlds, steps) && i <= |steps| && e < |worlds[i].executions| && worlds[i].executions[e].Waiting?
    ensures var w, p := worlds[i], worlds[i].executions[e];
            && Live(w.history, p.sid) == Some(TopicPid)
            && (|| (p.pid in w.kernel && w.kernel[p.pid].inst == p.inst)
                || (w.reaped.Some? && w.reaped.value.inst == p.inst)
                || CanReceive(w, e))
  {
    RunInv(worlds, steps, i);
    assert PhaseOk(worlds[i], worlds[i].executions[e]);
  }

  // The executions leave nothing behind in the monitor: its subscribers are its other users
  // and the executions that are still to unsubscribe. When all have returned or failed, in
  // whichever way and order, it is the other users alone.
  lemma SubscribersAsBefore(worlds: seq<World>, steps: seq<Step>, i: nat, id: int)
    requires Run(worlds, steps) && i <= |steps|
    ensures var w := worlds[i];
            Live(w.history, id).Some? <==>
              id in w.others || exists e ::
                  0 <= e < |w.executions| && Holds(w.executions[e]) && w.executions[e].sid == id
    ensures var w := worlds[i];
            (forall e | 0 <= e < |w.executions| :: w.executions[e].Done? || w.executions[e].Failed?) ==>
              (Live(w.history, id).Some? <==> id in w.others)
  {
    RunInv(worlds, steps, i);
    Behind(worlds[i], id);
  }

  lemma Behind(w: World, id: int)
    requires Inv(w)
    ensures Live(w.history, id).Some? <==>
              id in w.others || exists e ::
                  0 <= e < |w.executions| && Holds(w.executions[e]) && w.executions[e].sid == id
  {
    if e :| 0 <= e < |w.executions| && Holds(w.executions[e]) && w.executions[e].sid == id {
      assert PhaseOk(w, w.executions[e]);
    }
  }

  // ---- and that every execution ends ----

  // The steps that come by themselves: those of the executions that have spawned, or failed
  // to, and those of the reaper.
  predicate Own(a: Step) {
    a.Receive? || a.Unsubscribe? || a.UnsubscribeAgain? || a.Reap? || a.Notify?
  }

  ghost predicate Quiet(w: World) {
    forall a | Own(a) :: !Enabled(w, a)
  }

  lemma Cannot(w: World, a: Step)
    requires Quiet(w) && Own(a)
    ensures !Enabled(w, a)
  {
  }

  // With nothing left to happen by itself, an execution is over, or has yet to spawn, or its
  // command is running.
  lemma QuietIsDone(worlds: seq<World>, steps: seq<Step>, i: nat, e: nat)
    requires Run(worlds, steps) && i <= |steps| && Quiet(worlds[i]) && e < |worlds[i].executions|
    ensures var w, p := worlds[i], worlds[i].executions[e];
            || p.Done? || p.Failed? || p.Subscribed?
            || (p.Waiting? && p.pid in w.kernel && w.kernel[p.pid] == Child(p.inst, Running))
  {
    RunInv(worlds, steps, i);
    var w := worlds[i];
    assert PhaseOk(w, w.executions[e]);
    Cannot(w, Receive(e));
    Cannot(w, Unsubscribe(e));
    Cannot(w, UnsubscribeAgain(e));
    Cannot(w, Notify);
    if w.executions[e].Waiting? {
      var p := w.executions[e];
      Cannot(w, Reap(p.pid));
    }
  }

  // How far an execution has still to go, and all of them.
  function PhaseWork(history: seq<Op>, p: Phase): nat {
    match p
    case Waiting(sid, _, _, read) => 3 + (if read <= |Heard(history, sid)| then |Heard(history, sid)| - read else 0)
    case Found(_, _, _) => 2
    case Leaving(_, _, _) => 1
    case Failing(_) => 1
    case _ => 0
  }

  function PhasesWork(history: seq<Op>, phases: seq<Phase>): nat {
    if phases == [] then 0 else PhaseWork(history, phases[0]) + PhasesWork(history, phases[1..])
  }

  lemma {:induction false} PhasesWorkUpdate(history: seq<Op>, phases: seq<Phase>, e: nat, p: Phase)
    requires e < |phases|
    ensures PhasesWork(history, phases[e := p]) + PhaseWork(history, phases[e]) ==
            PhasesWork(history, phases) + PhaseWork(history, p)
  {
    if e == 0 {
      assert phases[e := p][1..] == phases[1..];
    } else {
      assert phases[e := p][1..] == phases[1..][e - 1 := p];
      PhasesWorkUpdate(history, phases[1..], e - 1, p);
    }
  }

  // A further operation is at most one more event to look at for each; none if it is an
  // unsubscription.
  lemma {:induction false} PhasesWorkTold(history: seq<Op>, op: Op, phases: seq<Phase>)
    ensures PhasesWork(history + [op], phases) <= PhasesWork(history, phases) + if op.Notified? then |phases| else 0
  {
    if phases != [] {
      PhasesWorkTold(history, op, phases[1..]);
      if phases[0].Waiting? {
        HistoryGrows(history, op, phases[0].sid);
      }
    }
  }

  ghost function Zombies(kernel: Children): set<int> {
    set p | p in kernel && kernel[p].state.Zombie?
  }

  // The exits that are to be notified, each of which is then to be looked at by everybody.
  ghost function ExitsWork(w: World): nat {
    2 * |Zombies(w.kernel)| + if w.reaped.Some? then 1 else 0
  }

  ghost function Work(w: World): nat {
    ExitsWork(w) * (|w.executions| + 1) + PhasesWork(w.history, w.executions)
  }

  lemma ExitsWorkLess(w: World, a: Step)
    requires Enabled(w, a) && (a.Reap? || a.Notify?)
    ensures ExitsWork(Apply(w, a)) + 1 == ExitsWork(w)
  {
    if a.Reap? {
      assert Zombies(w.kernel - {a.pid}) == Zombies(w.kernel) - {a.pid};
    }
  }

  lemma LessTimes(a: nat, b: nat, n: nat)
    requires a + 1 == b
    ensures a * n + n == b * n
  {
  }

  lemma ReaperWork(w: World, a: Step)
    requires Enabled(w, a) && (a.Reap? || a.Notify?)
    ensures Work(Apply(w, a)) < Work(w)
  {
    var v := Apply(w, a);
    ExitsWorkLess(w, a);
    LessTimes(ExitsWork(v), ExitsWork(w), |w.executions| + 1);
    if a.Notify? {
      PhasesWorkTold(w.history, Notified(EventOf(w.reaped.value)), w.executions);
    }
  }

  // There are only so many such steps, however they are interleaved.
  lemma WorkDecreases(w: World, a: Step)
    requires Enabled(w, a) && Own(a)
    ensures Work(Apply(w, a)) < Work(w)
  {
    if a.Reap? || a.Notify? {
      ReaperWork(w, a);
    } else {
      ExecutionWork(w, a);
      ExitsStay(w, a);
    }
  }

  lemma ExitsStay(w: World, a: Step)
    requires Enabled(w, a) && (a.Receive? || a.Unsubscribe? || a.UnsubscribeAgain?)
    ensures ExitsWork(Apply(w, a)) == ExitsWork(w) && |Apply(w, a).executions| == |w.executions|
  {
  }

  lemma ExecutionWork(w: World, a: Step)
    requires Enabled(w, a) && (a.Receive? || a.Unsubscribe? || a.UnsubscribeAgain?)
    ensures PhasesWork(Apply(w, a).history, Apply(w, a).executions) < PhasesWork(w.history, w.executions)
  {
    var v := Apply(w, a);
    var p := w.executions[a.e];
    PhasesWorkUpdate(w.history, w.executions, a.e, v.executions[a.e]);
    if !a.Receive? {
      PhasesWorkTold(w.history, Unsubscribed(p.sid), v.executions);
    }
  }

  lemma OwnStepsEnd(worlds: seq<World>, steps: seq<Step>, i: nat, j: nat)
    requires Run(worlds, steps) && i <= j <= |steps| && forall k | i <= k < j :: Own(steps[k])
    ensures j - i + Work(worlds[j]) <= Work(worlds[i])
  {
    forall k | i <= k < j
      ensures LessWork(worlds[k], worlds[k + 1])
    {
      WorkDecreases(worlds[k], steps[k]);
    }
    LessAlong(worlds, i, j);
  }

  ghost predicate LessWork(w: World, v: World) {
    Work(v) < Work(w)
  }

  lemma {:induction false} LessAlong(worlds: seq<World>, i: nat, j: nat)
    requires i <= j < |worlds| && forall k | i <= k < j :: LessWork(worlds[k], worlds[k + 1])
    ensures j - i + Work(worlds[j]) <= Work(worlds[i])
    decreases j - i
  {
    if i < j {
      LessAlong(worlds, i, j - 1);
      assert LessWork(worlds[j - 1], worlds[j - 1 + 1]);
    }
  }

  // ---- runs ----

  lemma Longer(worlds: seq<World>, steps: seq<Step>, a: Step) returns (more: seq<World>, moreSteps: seq<Step>)
    requires Run(worlds, steps) && Enabled(worlds[|steps|], a)
    ensures Run(more, moreSteps) && more == worlds + [Apply(worlds[|steps|], a)] && moreSteps == steps + [a]
  {
    more, moreSteps := worlds + [Apply(worlds[|steps|], a)], steps + [a];
  }

  lemma Spawned(pid: int) returns (worlds: seq<World>, steps: seq<Step>)
    requires pid > 0
    ensures Run(worlds, steps) && steps == [Subscribe, Spawn(0, pid)]
    ensures worlds[|steps|] ==
            World([Op.Subscribed(0, TopicPid)], 1, {}, map[pid := Child(0, Running)], None, map[], 1,
                  [Waiting(0, pid, 0, 0)])
  {
    worlds, steps := Longer([World([], 0, {}, map[], None, map[], 0, [])], [], Subscribe);
    HistoryGrows([], Op.Subscribed(0, TopicPid), 0);
    assert [] + [Op.Subscribed(0, TopicPid)] == [Op.Subscribed(0, TopicPid)];
    worlds, steps := Longer(worlds, steps, Spawn(0, pid));
  }

  lemma Reapable(pid: int, code: int) returns (worlds: seq<World>, steps: seq<Step>)
    requires pid > 0
    ensures Run(worlds, steps) && steps == [Subscribe, Spawn(0, pid), Dies(pid, code), Reap(pid)]
    ensures worlds[|steps|] ==
            World([Op.Subscribed(0, TopicPid)], 1, {}, map[], Some(Reaped(pid, 0, code)), map[0 := code], 1,
                  [Waiting(0, pid, 0, 0)])
  {
    worlds, steps := Spawned(pid);
    worlds, steps := Longer(worlds, steps, Dies(pid, code));
    worlds, steps := Longer(worlds, steps, Reap(pid));
  }

  // A command is spawned, exits, and its exit is notified.
  lemma CommandNotified(pid: int, code: int) returns (worlds: seq<World>, steps: seq<Step>)
    requires pid > 0
    ensures Run(worlds, steps)
    ensures steps == [Subscribe, Spawn(0, pid), Dies(pid, code), Reap(pid), Notify]
    ensures var w := worlds[|steps|];
            w.executions == [Waiting(0, pid, 0, 0)] && Heard(w.history, 0) == [ExitEvent(SubjectPid(pid), code)]
  {
    worlds, steps := Reapable(pid, code);
    HeardOnce(ExitEvent(SubjectPid(pid), code));
    worlds, steps := Longer(worlds, steps, Notify);
  }

  lemma HeardOnce(e: ExitEvent)
    requires e.subject.SubjectPid?
    ensures Heard([Op.Subscribed(0, TopicPid)] + [Notified(e)], 0) == [e]
  {
    var history := [Op.Subscribed(0, TopicPid)];
    HistoryGrows([], history[0], 0);
    assert [] + history == history;
    HistoryGrows(history, Notified(e), 0);
  }

  // And its execution returns with its code.
  lemma CommandReturns(pid: int, code: int) returns (worlds: seq<World>, steps: seq<Step>)
    requires pid > 0
    ensures Run(worlds, steps) && worlds[|steps|].executions == [Done(0, code)]
  {
    worlds, steps := CommandNotified(pid, code);
    worlds, steps := Longer(worlds, steps, Receive(0));
    worlds, steps := Longer(worlds, steps, Unsubscribe(0));
    worlds, steps := Longer(worlds, steps, UnsubscribeAgain(0));
  }

  // Or it cannot be spawned, and the execution fails.
  lemma SpawnFailsRun() returns (worlds: seq<World>, steps: seq<Step>)
    ensures Run(worlds, steps) && steps == [Subscribe, SpawnFails(0), Unsubscribe(0)]
    ensures worlds[|steps|].executions == [Failed]
  {
    var start := World([], 0, {}, map[], None, map[], 0, []);
    worlds, steps := Longer([start], [], Subscribe);
    worlds, steps := Longer(worlds, steps, SpawnFails(0));
    worlds, steps := Longer(worlds, steps, Unsubscribe(0));
  }
}
