// Publishing events to containerd with bounded retries
// (crates/shim/src/asynchronous/publisher.rs): a bounded queue, one task that forwards what
// it receives from it, and a task per failed event that puts it back after a while.
module Publisher {
  import opened Wrappers
  import opened Sequences

  const QUEUE_SIZE: nat := 1024
  const MAX_REQUEUE: nat := 5

  // `id` stands for the envelope and names the publish call it came from.
  datatype Item = Item(id: nat, count: nat)

  datatype Forwarding = Delivered | Closed | Failed

  // The last fields are history: the ids accepted into the queue, delivered and given up,
  // every attempt to forward, and the first attempts in order.
  datatype State = State(
    queue: seq<Item>,
    hand: Option<Item>,
    waiting: seq<Item>,
    client: nat,
    accepted: seq<nat>,
    delivered: seq<nat>,
    dropped: multiset<nat>,
    attempts: multiset<nat>,
    tried: seq<nat>)

  const EMPTY: State := State([], None, [], 0, [], [], multiset{}, multiset{}, [])

  datatype Step =
    | Publish
    | Receive
    | Forward(result: Forwarding, reconnected: bool)
    | Requeue(i: nat)
    | GiveUp(i: nat)

  predicate Enabled(s: State, step: Step) {
    match step
    case Publish => |s.queue| < QUEUE_SIZE
    case Receive => s.hand.None? && s.queue != []
    case Forward(_, _) => s.hand.Some?
    case Requeue(i) => i < |s.waiting| && |s.queue| < QUEUE_SIZE
    case GiveUp(i) => i < |s.waiting|
  }

  function Published(s: State): State {
    s.(queue := s.queue + [Item(|s.accepted|, 0)], accepted := s.accepted + [|s.accepted|])
  }

  function Received(s: State): State
    requires Enabled(s, Receive)
  {
    var item := s.queue[0];
    if item.count > MAX_REQUEUE
    then s.(queue := s.queue[1..], dropped := s.dropped + multiset{item.id})
    else s.(queue := s.queue[1..], hand := Some(item))
  }

  function Forwarded(s: State, result: Forwarding, reconnected: bool): State
    requires s.hand.Some?
  {
    var item := s.hand.value;
    s.(hand := None,
       attempts := s.attempts + multiset{item.id},
       tried := if item.count == 0 then s.tried + [item.id] else s.tried,
       delivered := if result.Delivered? then s.delivered + [item.id] else s.delivered,
       waiting := if result.Delivered? then s.waiting else s.waiting + [Item(item.id, item.count + 1)],
       client := if result.Closed? && reconnected then s.client + 1 else s.client)
  }

  function Requeued(s: State, i: nat): State
    requires i < |s.waiting|
  {
    s.(queue := s.queue + [s.waiting[i]], waiting := Without(s.waiting, i))
  }

  function GivenUp(s: State, i: nat): State
    requires i < |s.waiting|
  {
    s.(waiting := Without(s.waiting, i), dropped := s.dropped + multiset{s.waiting[i].id})
  }

  function Apply(s: State, step: Step): State
    requires Enabled(s, step)
  {
    match step
    case Publish => Published(s)
    case Receive => Received(s)
    case Forward(result, reconnected) => Forwarded(s, result, reconnected)
    case Requeue(i) => Requeued(s, i)
    case GiveUp(i) => GivenUp(s, i)
  }

  // ---- the code ----

  class RemotePublisher {
    var queue: seq<Item>
    var hand: Option<Item>
    var waiting: seq<Item>
    var client: nat
    var published: nat
    ghost var accepted: seq<nat>
    ghost var delivered: seq<nat>
    ghost var dropped: multiset<nat>
    ghost var attempts: multiset<nat>
    ghost var tried: seq<nat>

    ghost function Value(): State
      reads this
    {
      State(queue, hand, waiting, client, accepted, delivered, dropped, attempts, tried)
    }

    ghost predicate Valid()
      reads this
    {
      published == |accepted| && |queue| <= QUEUE_SIZE
    }

    constructor ()
      ensures Valid() && Value() == EMPTY
    {
      queue, hand, waiting, client, published := [], None, [], 0, 0;
      accepted, delivered, dropped, attempts, tried := [], [], multiset{}, multiset{}, [];
    }

    // The caller is told whether the event was accepted: no room in time is an error.
    method Publish() returns (sent: bool)
      requires Valid()
      modifies this
      ensures Valid()
      ensures sent <==> Enabled(old(Value()), Step.Publish)
      ensures Value() == if sent then Published(old(Value())) else old(Value())
    {
      sent := |queue| < QUEUE_SIZE;
      if sent {
        queue := queue + [Item(published, 0)];
        accepted := accepted + [published];
        published := published + 1;
      }
    }

    // The receiving half of an iteration; an event tried too often ends here.
    method ReceiveNext()
      requires Valid() && Enabled(Value(), Receive)
      modifies this
      ensures Valid() && Value() == Received(old(Value()))
    {
      var item := queue[0];
      queue := queue[1..];
      if item.count > MAX_REQUEUE {
        dropped := dropped + multiset{item.id};
        return;
      }
      hand := Some(item);
    }

    // The forwarding half.
    method ForwardHeld(result: Forwarding, reconnected: bool)
      requires Valid() && hand.Some?
      modifies this
      ensures Valid() && Value() == Forwarded(old(Value()), result, reconnected)
    {
      var item := hand.value;
      var again := Item(item.id, item.count + 1);
      attempts := attempts + multiset{item.id};
      tried := if item.count == 0 then tried + [item.id] else tried;
      hand := None;
      if result.Delivered? {
        delivered := delivered + [item.id];
        return;
      }
      if result.Closed? && reconnected {
        client := client + 1;
      }
      waiting := waiting + [again];
    }

    // One of the waiting tasks, after its pause: it puts its event back, or lets go of it
    // when there is no room in time.
    method Resend(i: nat) returns (sent: bool)
      requires Valid() && i < |waiting|
      modifies this
      ensures Valid()
      ensures sent <==> Enabled(old(Value()), Requeue(i))
      ensures Value() == if sent then Requeued(old(Value()), i) else GivenUp(old(Value()), i)
    {
      var item := waiting[i];
      waiting := waiting[..i] + waiting[i + 1..];
      sent := |queue| < QUEUE_SIZE;
      if sent {
        queue := queue + [item];
      } else {
        dropped := dropped + multiset{item.id};
      }
    }
  }

  // ---- what every run keeps ----

  function Held(hand: Option<Item>): seq<Item> {
    if hand.Some? then [hand.value] else []
  }

  function Copies(items: seq<Item>, id: nat): nat {
    if items == [] then 0 else (if items[0].id == id then 1 else 0) + Copies(items[1..], id)
  }

  // The copies of an event on their way.
  function Live(s: State, id: nat): nat {
    (if s.hand.Some? && s.hand.value.id == id then 1 else 0) + Copies(s.queue, id) + Copies(s.waiting, id)
  }

  // The events that have not been tried at all, oldest first.
  function Untried(items: seq<Item>): seq<nat> {
    if items == [] then [] else (if items[0].count == 0 then [items[0].id] else []) + Untried(items[1..])
  }

  ghost predicate ConservedAt(s: State, id: nat) {
    multiset(s.accepted)[id] == multiset(s.delivered)[id] + s.dropped[id] + Live(s, id)
  }

  // Every event accepted is in exactly one place.
  ghost predicate Conserved(s: State) {
    forall id: nat :: ConservedAt(s, id)
  }

  ghost predicate Numbered(s: State) {
    forall k | 0 <= k < |s.accepted| :: s.accepted[k] == k
  }

  ghost predicate Counted(s: State, item: Item) {
    item.count == s.attempts[item.id] <= MAX_REQUEUE + 1
  }

  // An item carries the number of attempts made with it.
  ghost predicate Counts(s: State) {
    && (forall item | item in s.queue :: Counted(s, item))
    && (forall item | item in s.waiting :: Counted(s, item) && item.count > 0)
    && (s.hand.Some? ==> Counted(s, s.hand.value) && s.hand.value.count <= MAX_REQUEUE)
    && (forall id: nat :: s.attempts[id] <= MAX_REQUEUE + 1)
    && (forall id: nat | id >= |s.accepted| :: s.attempts[id] == 0)
  }

  ghost predicate InOrder(s: State) {
    s.accepted == s.tried + Untried(Held(s.hand) + s.queue)
  }

  ghost predicate Inv(s: State) {
    Conserved(s) && Numbered(s) && Counts(s) && InOrder(s)
  }

  lemma {:induction false} CopiesAppend(a: seq<Item>, b: seq<Item>, id: nat)
    ensures Copies(a + b, id) == Copies(a, id) + Copies(b, id)
  {
    if a == [] {
      assert a + b == b;
    } else {
      CopiesAppend(a[1..], b, id);
      assert (a + b)[1..] == a[1..] + b;
    }
  }

  lemma CopiesWithout(items: seq<Item>, i: nat, id: nat)
    requires i < |items|
    ensures Copies(items, id) == Copies(Without(items, i), id) + if items[i].id == id then 1 else 0
  {
    assert items == items[..i] + items[i..] && items[i..][1..] == items[i + 1..];
    CopiesAppend(items[..i], items[i..], id);
    CopiesAppend(items[..i], items[i + 1..], id);
  }

  lemma {:induction false} CopiesIn(items: seq<Item>, item: Item)
    ensures item in items ==> Copies(items, item.id) > 0
  {
    if items != [] {
      CopiesIn(items[1..], item);
      assert item in items ==> item == items[0] || item in items[1..];
    }
  }

  lemma ConservedPublish(s: State, id: nat)
    requires ConservedAt(s, id)
    ensures ConservedAt(Published(s), id)
  {
    CopiesAppend(s.queue, [Item(|s.accepted|, 0)], id);
  }

  lemma ConservedReceive(s: State, id: nat)
    requires Enabled(s, Receive) && ConservedAt(s, id)
    ensures ConservedAt(Received(s), id)
  {
  }

  lemma ConservedForward(s: State, result: Forwarding, reconnected: bool, id: nat)
    requires s.hand.Some? && ConservedAt(s, id)
    ensures ConservedAt(Forwarded(s, result, reconnected), id)
  {
    CopiesAppend(s.waiting, [Item(s.hand.value.id, s.hand.value.count + 1)], id);
  }

  lemma ConservedRequeue(s: State, i: nat, id: nat)
    requires i < |s.waiting| && ConservedAt(s, id)
    ensures ConservedAt(Requeued(s, i), id)
  {
    CopiesWithout(s.waiting, i, id);
    CopiesAppend(s.queue, [s.waiting[i]], id);
  }

  lemma ConservedGiveUp(s: State, i: nat, id: nat)
    requires i < |s.waiting| && ConservedAt(s, id)
    ensures ConservedAt(GivenUp(s, i), id)
  {
    CopiesWithout(s.waiting, i, id);
  }

  lemma ConservedStep(s: State, step: Step, id: nat)
    requires Enabled(s, step) && ConservedAt(s, id)
    ensures ConservedAt(Apply(s, step), id)
  {
    match step {
      case Publish => ConservedPublish(s, id);
      case Receive => ConservedReceive(s, id);
      case Forward(result, reconnected) => ConservedForward(s, result, reconnected, id);
      case Requeue(i) => ConservedRequeue(s, i, id);
      case GiveUp(i) => ConservedGiveUp(s, i, id);
    }
  }

  lemma {:induction false} NumberedOnce(ids: seq<nat>, id: nat)
    requires forall k | 0 <= k < |ids| :: ids[k] == k
    ensures multiset(ids)[id] == if id < |ids| then 1 else 0
  {
    if ids != [] {
      var n := |ids| - 1;
      assert ids == ids[..n] + [n];
      NumberedOnce(ids[..n], id);
    }
  }

  // The item in hand has been accepted, and is the only live one with its id.
  lemma HandAlone(s: State, item: Item)
    requires Conserved(s) && Numbered(s) && s.hand.Some?
    ensures s.hand.value.id < |s.accepted|
    ensures item in s.queue || item in s.waiting ==> item.id != s.hand.value.id
  {
    var id := s.hand.value.id;
    NumberedOnce(s.accepted, id);
    CopiesIn(s.queue, item);
    CopiesIn(s.waiting, item);
    assert ConservedAt(s, id);
  }

  lemma CountsStep(s: State, step: Step)
    requires Enabled(s, step) && Conserved(s) && Numbered(s) && Counts(s)
    ensures Counts(Apply(s, step))
  {
    match step {
      case Publish =>
      case Receive =>
        CountsReceive(s);
      case Forward(result, reconnected) =>
        CountsForward(s, result, reconnected);
      case Requeue(i) =>
        assert s.waiting[i] in s.waiting;
      case GiveUp(_) =>
    }
  }

  lemma CountsReceive(s: State)
    requires Enabled(s, Receive) && Counts(s)
    ensures Counts(Received(s))
  {
    var t := Received(s);
    assert s.queue[0] in s.queue;
    forall item | item in t.queue
      ensures Counted(t, item)
    {
      assert item in s.queue;
    }
  }

  lemma CountsForward(s: State, result: Forwarding, reconnected: bool)
    requires s.hand.Some? && Conserved(s) && Numbered(s) && Counts(s)
    ensures Counts(Forwarded(s, result, reconnected))
  {
    var t := Forwarded(s, result, reconnected);
    var item := s.hand.value;
    HandAlone(s, item);
    forall other | other in s.queue || other in s.waiting
      ensures Counted(t, other)
    {
      HandAlone(s, other);
    }
    forall id: nat
      ensures t.attempts[id] == s.attempts[id] + if id == item.id then 1 else 0
    {
    }
  }

  lemma {:induction false} UntriedAppend(a: seq<Item>, b: seq<Item>)
    ensures Untried(a + b) == Untried(a) + Untried(b)
  {
    if a == [] {
      assert a + b == b;
    } else {
      var head := if a[0].count == 0 then [a[0].id] else [];
      UntriedAppend(a[1..], b);
      assert (a + b)[0] == a[0] && (a + b)[1..] == a[1..] + b;
      assert Untried(a + b) == head + (Untried(a[1..]) + Untried(b));
      assert Untried(a) == head + Untried(a[1..]);
    }
  }

  // What joins the queue comes behind everything untried.
  lemma UntriedJoins(s: State, item: Item)
    ensures Untried(Held(s.hand) + (s.queue + [item])) ==
            Untried(Held(s.hand) + s.queue) + if item.count == 0 then [item.id] else []
  {
    assert Held(s.hand) + (s.queue + [item]) == Held(s.hand) + s.queue + [item];
    UntriedAppend(Held(s.hand) + s.queue, [item]);
    assert [item][1..] == [];
  }

  lemma UntriedReceive(s: State)
    requires Enabled(s, Receive) && (forall item | item in s.queue :: Counted(s, item))
    ensures var t := Received(s); Untried(Held(t.hand) + t.queue) == Untried(Held(s.hand) + s.queue)
  {
    assert Held(s.hand) + s.queue == s.queue;
    assert [s.queue[0]] + s.queue[1..] == s.queue;
    assert Held(None) + s.queue[1..] == s.queue[1..];
  }

  lemma UntriedForward(s: State, result: Forwarding, reconnected: bool)
    requires s.hand.Some?
    ensures var t := Forwarded(s, result, reconnected);
            t.tried + Untried(Held(t.hand) + t.queue) == s.tried + Untried(Held(s.hand) + s.queue)
  {
    assert (Held(s.hand) + s.queue)[1..] == s.queue == Held(None) + s.queue;
  }

  lemma InOrderStep(s: State, step: Step)
    requires Enabled(s, step) && Numbered(s) && Counts(s) && InOrder(s)
    ensures InOrder(Apply(s, step))
  {
    match step {
      case Publish =>
        UntriedJoins(s, Item(|s.accepted|, 0));
      case Receive =>
        UntriedReceive(s);
      case Forward(result, reconnected) =>
        UntriedForward(s, result, reconnected);
      case Requeue(i) =>
        assert s.waiting[i] in s.waiting;
        UntriedJoins(s, s.waiting[i]);
      case GiveUp(_) =>
    }
  }

  // ---- runs ----

  ghost predicate Run(states: seq<State>, steps: seq<Step>) {
    && |states| == |steps| + 1
    && (forall k | 0 <= k < |steps| :: Enabled(states[k], steps[k]) && states[k + 1] == Apply(states[k], steps[k]))
  }

  lemma StepInv(s: State, step: Step)
    requires Enabled(s, step) && Inv(s)
    ensures Inv(Apply(s, step))
  {
    forall id: nat
      ensures ConservedAt(Apply(s, step), id)
    {
      assert ConservedAt(s, id);
      ConservedStep(s, step, id);
    }
    CountsStep(s, step);
    InOrderStep(s, step);
  }

  lemma {:induction false} RunInv(states: seq<State>, steps: seq<Step>, k: nat)
    requires Run(states, steps) && states[0] == EMPTY && k < |states|
    ensures Inv(states[k])
  {
    if k > 0 {
      RunInv(states, steps, k - 1);
      StepInv(states[k - 1], steps[k - 1]);
    }
  }

  // In every state of every run each accepted event is delivered once, or given up, or alive
  // in exactly one copy, and it has been forwarded at most six times.
  lemma NothingLostOrDoubled(states: seq<State>, steps: seq<Step>, k: nat, id: nat)
    requires Run(states, steps) && states[0] == EMPTY && k < |states|
    ensures var s := states[k];
            && multiset(s.delivered)[id] + s.dropped[id] + Live(s, id) == (if id < |s.accepted| then 1 else 0)
            && s.attempts[id] <= MAX_REQUEUE + 1
  {
    RunInv(states, steps, k);
    NumberedOnce(states[k].accepted, id);
    assert ConservedAt(states[k], id);
  }

  // First attempts are made in the order of publishing, whatever fails.
  lemma FirstAttemptsInOrder(states: seq<State>, steps: seq<Step>, k: nat)
    requires Run(states, steps) && states[0] == EMPTY && k < |states|
    ensures states[k].tried <= states[k].accepted
  {
    RunInv(states, steps, k);
  }

  predicate Fails(step: Step) {
    step.Forward? && !step.result.Delivered?
  }

  // So without failures delivery is in the order of publishing.
  lemma {:induction false} DeliveryInOrder(states: seq<State>, steps: seq<Step>, k: nat)
    requires Run(states, steps) && states[0] == EMPTY && k < |states|
    requires forall j | 0 <= j < k :: !Fails(steps[j])
    ensures states[k].waiting == [] && states[k].dropped == multiset{}
    ensures states[k].delivered == states[k].tried <= states[k].accepted
    ensures forall item | item in Held(states[k].hand) + states[k].queue :: item.count == 0
  {
    FirstAttemptsInOrder(states, steps, k);
    if k > 0 {
      DeliveryInOrder(states, steps, k - 1);
      assert !Fails(steps[k - 1]);
      OrderStep(states[k - 1], steps[k - 1]);
    }
  }

  lemma OrderStep(s: State, step: Step)
    requires Enabled(s, step) && !Fails(step)
    requires s.waiting == [] && s.dropped == multiset{} && s.delivered == s.tried
    requires forall item | item in Held(s.hand) + s.queue :: item.count == 0
    ensures var t := Apply(s, step);
            && t.waiting == [] && t.dropped == multiset{} && t.delivered == t.tried
            && (forall item | item in Held(t.hand) + t.queue :: item.count == 0)
  {
    forall item | item in Held(s.hand) || item in s.queue
      ensures item.count == 0
    {
      assert item in Held(s.hand) + s.queue;
    }
  }

  // The queue never holds more than it has room for, and publishing is refused exactly when
  // it is full.
  lemma QueueBounded(states: seq<State>, steps: seq<Step>, k: nat)
    requires Run(states, steps) && states[0] == EMPTY && k < |states|
    ensures |states[k].queue| <= 1024 && (Enabled(states[k], Publish) <==> |states[k].queue| < 1024)
  {
    if k > 0 {
      QueueBounded(states, steps, k - 1);
      RoomAfter(states[k - 1], steps[k - 1]);
    }
  }

  lemma RoomAfter(s: State, step: Step)
    requires Enabled(s, step) && |s.queue| <= QUEUE_SIZE
    ensures |Apply(s, step).queue| <= QUEUE_SIZE
  {
  }

  // ---- the connection ----

  predicate Reconnects(step: Step) {
    step == Forward(Closed, true)
  }

  function Reconnections(steps: seq<Step>): nat {
    if steps == [] then 0
    else Reconnections(steps[..|steps| - 1]) + if Reconnects(steps[|steps| - 1]) then 1 else 0
  }

  // The connection is replaced exactly when forwarding finds it closed and another can be
  // had: it is the one after as many replacements as there were such steps.
  lemma {:induction false} ClientCounts(states: seq<State>, steps: seq<Step>, k: nat)
    requires Run(states, steps) && states[0] == EMPTY && k < |states|
    ensures states[k].client == Reconnections(steps[..k])
  {
    if k > 0 {
      ClientCounts(states, steps, k - 1);
      assert steps[..k][..k - 1] == steps[..k - 1];
      ClientStep(states[k - 1], steps[k - 1]);
    }
  }

  lemma ClientStep(s: State, step: Step)
    requires Enabled(s, step)
    ensures Apply(s, step).client == s.client + if Reconnects(step) then 1 else 0
  {
  }

  // ---- termination ----

  // The steps an item can still take from the queue.
  function Left(item: Item): nat {
    if item.count <= MAX_REQUEUE then 3 * (MAX_REQUEUE + 1 - item.count) + 1 else 1
  }

  function Sum(items: seq<Item>): nat {
    if items == [] then 0 else Left(items[0]) + Sum(items[1..])
  }

  function Rank(s: State): nat
    requires s.hand.Some? ==> s.hand.value.count <= MAX_REQUEUE
  {
    Sum(s.queue) + Sum(s.waiting) + |s.waiting| + (if s.hand.Some? then Left(s.hand.value) - 1 else 0)
  }

  lemma {:induction false} SumAppend(a: seq<Item>, b: seq<Item>)
    ensures Sum(a + b) == Sum(a) + Sum(b)
  {
    if a == [] {
      assert a + b == b;
    } else {
      SumAppend(a[1..], b);
      assert (a + b)[1..] == a[1..] + b;
    }
  }

  lemma SumWithout(items: seq<Item>, i: nat)
    requires i < |items|
    ensures Sum(items) == Sum(Without(items, i)) + Left(items[i])
  {
    assert items == items[..i] + items[i..] && items[i..][1..] == items[i + 1..];
    SumAppend(items[..i], items[i..]);
    SumAppend(items[..i], items[i + 1..]);
  }

  lemma RankDecreases(s: State, step: Step)
    requires Enabled(s, step) && Counts(s)
    requires Counts(Apply(s, step))
    ensures if step.Publish? then Rank(Apply(s, step)) == Rank(s) + 19 else Rank(Apply(s, step)) < Rank(s)
  {
    match step {
      case Publish =>
        SumAppend(s.queue, [Item(|s.accepted|, 0)]);
      case Receive =>
        ReceiveRank(s);
      case Forward(result, reconnected) =>
        ForwardRank(s, result, reconnected);
      case Requeue(i) =>
        SumWithout(s.waiting, i);
        SumAppend(s.queue, [s.waiting[i]]);
      case GiveUp(i) =>
        SumWithout(s.waiting, i);
    }
  }

  lemma ReceiveRank(s: State)
    requires Enabled(s, Receive)
    ensures Rank(Received(s)) < Rank(s)
  {
    SumWithout(s.queue, 0);
    assert Without(s.queue, 0) == s.queue[1..];
  }

  lemma ForwardRank(s: State, result: Forwarding, reconnected: bool)
    requires s.hand.Some? && s.hand.value.count <= MAX_REQUEUE
    ensures Rank(Forwarded(s, result, reconnected)) < Rank(s)
  {
    SumAppend(s.waiting, [Item(s.hand.value.id, s.hand.value.count + 1)]);
  }

  // A run has at most nineteen other steps for each event accepted, ...
  lemma {:induction false} EveryRunEnds(states: seq<State>, steps: seq<Step>, k: nat)
    requires Run(states, steps) && states[0] == EMPTY && k < |states|
    ensures Counts(states[k])
    ensures k + Rank(states[k]) <= 20 * |states[k].accepted|
  {
    RunInv(states, steps, k);
    if k > 0 {
      EveryRunEnds(states, steps, k - 1);
      RankDecreases(states[k - 1], steps[k - 1]);
      AcceptedGrows(states[k - 1], steps[k - 1]);
    }
  }

  lemma AcceptedGrows(s: State, step: Step)
    requires Enabled(s, step)
    ensures |Apply(s, step).accepted| == |s.accepted| + if step.Publish? then 1 else 0
  {
  }

  // ... and it is stuck only when nothing is alive any more.
  lemma StuckIsDone(s: State)
    ensures (forall step | Enabled(s, step) :: step.Publish?) <==> s.hand.None? && s.queue == [] && s.waiting == []
  {
    assert s.hand.Some? ==> Enabled(s, Forward(Failed, false));
    assert s.hand.None? && s.queue != [] ==> Enabled(s, Receive);
    assert s.waiting != [] ==> Enabled(s, GiveUp(0));
  }

  // ---- the number of attempts ----

  // After `n` failures the event is back in the queue.
  function After(n: nat): State {
    State([Item(0, n)], None, [], 0, [0], [], multiset{}, multiset{}[0 := n], if n > 0 then [0] else [])
  }

  lemma OneRound(n: nat)
    requires n <= MAX_REQUEUE
    ensures var a, b := Received(After(n)), Forwarded(Received(After(n)), Failed, false);
            a.hand.Some? && b.waiting == [Item(0, n + 1)] && Requeued(b, 0) == After(n + 1)
  {
  }

  lemma {:induction false} FailingRun(n: nat) returns (states: seq<State>, steps: seq<Step>)
    requires n <= MAX_REQUEUE + 1
    ensures Run(states, steps) && states[0] == EMPTY && states[|steps|] == After(n)
  {
    if n == 0 {
      states, steps := [EMPTY, Published(EMPTY)], [Publish];
    } else {
      states, steps := FailingRun(n - 1);
      OneRound(n - 1);
      var a := Received(After(n - 1));
      var b := Forwarded(a, Failed, false);
      states, steps := Extended(states, steps, Receive, a);
      states, steps := Extended(states, steps, Forward(Failed, false), b);
      states, steps := Extended(states, steps, Requeue(0), After(n));
    }
  }

  lemma Extended(states: seq<State>, steps: seq<Step>, step: Step, s: State)
    returns (moreStates: seq<State>, moreSteps: seq<Step>)
    requires Run(states, steps) && Enabled(states[|steps|], step) && s == Apply(states[|steps|], step)
    ensures Run(moreStates, moreSteps) && moreStates[0] == states[0] && moreStates[|moreSteps|] == s
  {
    moreStates, moreSteps := states + [s], steps + [step];
  }

  // The bound is reached: an event containerd never takes is forwarded six times before it
  // is dropped, although the comment on the publisher says five.
  lemma SixAttempts() returns (states: seq<State>, steps: seq<Step>)
    ensures Run(states, steps) && states[0] == EMPTY
    ensures var s := states[|steps|]; s.attempts[0] == 6 && s.dropped == multiset{0} && Live(s, 0) == 0
  {
    states, steps := FailingRun(6);
    states, steps := Extended(states, steps, Receive, Received(After(6)));
  }
}
