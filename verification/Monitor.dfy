// The pub/sub of process exits (crates/shim/src/asynchronous/monitor.rs). The class keeps
// the source's two maps; `Heard` says from the history alone what a subscription must have
// received, and the class is proved to deliver exactly that.
module Monitor {
  import opened Wrappers

  datatype Topic = TopicPid | TopicExec | TopicAll

  datatype Subject = SubjectPid(pid: int) | SubjectExec(cid: string, exec: string)

  datatype ExitEvent = ExitEvent(subject: Subject, exitCode: int)

  // ---- what is promised ----

  datatype Op = Subscribed(id: int, topic: Topic) | Unsubscribed(id: int) | Notified(event: ExitEvent)

  predicate Concerns(topic: Topic, event: ExitEvent) {
    topic == TopicAll || (topic == TopicPid <==> event.subject.SubjectPid?)
  }

  // The topic an id is subscribed to after a history, if it is.
  function Live(history: seq<Op>, id: int): Option<Topic> {
    if history == [] then None
    else
      var before := Live(history[..|history| - 1], id);
      match history[|history| - 1]
      case Subscribed(i, topic) => if i == id then Some(topic) else before
      case Unsubscribed(i) => if i == id then None else before
      case Notified(_) => before
  }

  // The notifications made while the id was subscribed, of the kind its topic asks for.
  function Heard(history: seq<Op>, id: int): seq<ExitEvent> {
    if history == [] then []
    else
      var past := history[..|history| - 1];
      match history[|history| - 1]
      case Notified(e) =>
        if Live(past, id).Some? && Concerns(Live(past, id).value, e)
        then Heard(past, id) + [e]
        else Heard(past, id)
      case _ => Heard(past, id)
  }

  // One more operation, on top of what a history already says of an id.
  function LiveNext(live: Option<Topic>, op: Op, id: int): Option<Topic> {
    match op
    case Subscribed(i, topic) => if i == id then Some(topic) else live
    case Unsubscribed(i) => if i == id then None else live
    case Notified(_) => live
  }

  function HeardNext(heard: seq<ExitEvent>, live: Option<Topic>, op: Op): seq<ExitEvent> {
    if op.Notified? && live.Some? && Concerns(live.value, op.event) then heard + [op.event] else heard
  }

  lemma HistoryGrows(history: seq<Op>, op: Op, id: int)
    ensures Live(history + [op], id) == LiveNext(Live(history, id), op, id)
    ensures Heard(history + [op], id) == HeardNext(Heard(history, id), Live(history, id), op)
  {
    assert (history + [op])[..|history|] == history;
  }

  // ---- the two maps ----

  predicate Increasing(ids: seq<int>) {
    forall i, j | 0 <= i < j < |ids| :: ids[i] < ids[j]
  }

  lemma IncreasingAppend(ids: seq<int>, id: int)
    requires Increasing(ids) && forall x | x in ids :: x < id
    ensures Increasing(ids + [id])
    ensures forall x :: x in ids + [id] <==> x in ids || x == id
  {
    forall i, j | 0 <= i < j < |ids| + 1
      ensures (ids + [id])[i] < (ids + [id])[j]
    {
      assert ids[i] in ids;
    }
  }

  lemma IncreasingRemove(ids: seq<int>, i: nat)
    requires Increasing(ids) && i < |ids|
    ensures var rest := ids[..i] + ids[i + 1..];
            Increasing(rest) && forall x :: x in rest <==> x in ids && x != ids[i]
  {
    var rest := ids[..i] + ids[i + 1..];
    forall x
      ensures x in rest <==> x in ids && x != ids[i]
    {
      if x in ids && x != ids[i] {
        var j :| 0 <= j < |ids| && ids[j] == x;
        assert x == if j < i then rest[j] else rest[j - 1];
      }
    }
  }

  // `topicSubs` lists, for each topic, exactly the live ids subscribed to it, each once.
  ghost predicate IndexOk(subscribers: map<int, Topic>, topicSubs: map<Topic, seq<int>>, seqId: int) {
    && (forall id | id in subscribers :: 0 <= id < seqId)
    && (forall t | t in topicSubs :: Increasing(topicSubs[t]))
    && (forall t, id | t in topicSubs && id in topicSubs[t] :: id in subscribers && subscribers[id] == t)
    && (forall id | id in subscribers :: subscribers[id] in topicSubs && id in topicSubs[subscribers[id]])
  }

  function LiveIn(subscribers: map<int, Topic>, id: int): Option<Topic> {
    if id in subscribers then Some(subscribers[id]) else None
  }

  // What the maps and channels hold for one id is what the history says.
  ghost predicate IdOk(history: seq<Op>, subscribers: map<int, Topic>, channels: map<int, seq<ExitEvent>>, id: int) {
    && Live(history, id) == LiveIn(subscribers, id)
    && Heard(history, id) == if id in channels then channels[id] else []
  }

  lemma SubscribedOk(
    history: seq<Op>, subscribers: map<int, Topic>, channels: map<int, seq<ExitEvent>>, id: int, topic: Topic, i: int)
    requires IdOk(history, subscribers, channels, i) && id !in channels
    ensures IdOk(history + [Subscribed(id, topic)], subscribers[id := topic], channels[id := []], i)
  {
    HistoryGrows(history, Subscribed(id, topic), i);
  }

  lemma IndexAppend(subscribers: map<int, Topic>, topicSubs: map<Topic, seq<int>>, id: int, topic: Topic)
    requires IndexOk(subscribers, topicSubs, id) && id >= 0
    ensures var ids := if topic in topicSubs then topicSubs[topic] else [];
            IndexOk(subscribers[id := topic], topicSubs[topic := ids + [id]], id + 1)
  {
    var ids := if topic in topicSubs then topicSubs[topic] else [];
    forall x | x in ids
      ensures x < id
    {
      assert x in subscribers;
    }
    IncreasingAppend(ids, id);
    assert id !in subscribers;
  }

  lemma IndexRemove(subscribers: map<int, Topic>, topicSubs: map<Topic, seq<int>>, seqId: int, id: int, i: nat)
    requires IndexOk(subscribers, topicSubs, seqId) && id in subscribers
    requires i < |topicSubs[subscribers[id]]| && topicSubs[subscribers[id]][i] == id
    ensures var topic := subscribers[id];
            var ids := topicSubs[topic];
            IndexOk(subscribers - {id}, topicSubs[topic := ids[..i] + ids[i + 1..]], seqId)
  {
    IncreasingRemove(topicSubs[subscribers[id]], i);
  }

  // What two rounds of notifying do to one subscription's channel, and to all.
  lemma NotifiedOk(
    history: seq<Op>, subscribers: map<int, Topic>, before: map<int, seq<ExitEvent>>, after: map<int, seq<ExitEvent>>,
    topic: Topic, event: ExitEvent, i: int)
    requires topic == if event.subject.SubjectPid? then TopicPid else TopicExec
    requires IdOk(history, subscribers, before, i) && (i in subscribers ==> i in before)
    requires i in after <==> i in before
    requires i in before ==>
               after[i] == if LiveIn(subscribers, i) in {Some(topic), Some(TopicAll)}
                   then before[i] + [event] else before[i]
    ensures IdOk(history + [Notified(event)], subscribers, after, i)
  {
    HistoryGrows(history, Notified(event), i);
  }

  lemma AllNotified(
    history: seq<Op>, subscribers: map<int, Topic>, before: map<int, seq<ExitEvent>>, after: map<int, seq<ExitEvent>>,
    topic: Topic, event: ExitEvent)
    requires topic == if event.subject.SubjectPid? then TopicPid else TopicExec
    requires forall i :: IdOk(history, subscribers, before, i)
    requires forall i | i in subscribers :: i in before
    requires after.Keys == before.Keys
    requires forall i | i in before ::
               after[i] == if LiveIn(subscribers, i) in {Some(topic), Some(TopicAll)}
                   then before[i] + [event] else before[i]
    ensures forall i :: IdOk(history + [Notified(event)], subscribers, after, i)
  {
    forall i
      ensures IdOk(history + [Notified(event)], subscribers, after, i)
    {
      assert i in after.Keys <==> i in before.Keys;
      NotifiedOk(history, subscribers, before, after, topic, event, i);
    }
  }

  // `channels` holds all that was ever sent to each subscription; its receiver may be
  // behind, and survives the unsubscription.
  class Monitor {
    var seqId: int
    var subscribers: map<int, Topic>
    var topicSubs: map<Topic, seq<int>>
    var channels: map<int, seq<ExitEvent>>
    ghost var history: seq<Op>

    ghost predicate Valid()
      reads this
    {
      && seqId >= 0
      && IndexOk(subscribers, topicSubs, seqId)
      && (forall id :: id in channels <==> 0 <= id < seqId)
      && (forall id :: IdOk(history, subscribers, channels, id))
    }

    constructor ()
      ensures Valid() && history == [] && subscribers == map[] && seqId == 0
    {
      seqId, subscribers, topicSubs, channels := 0, map[], map[], map[];
      history := [];
    }

    method Subscribe(topic: Topic) returns (id: int)
      requires Valid()
      modifies this
      ensures Valid()
      ensures history == old(history) + [Subscribed(id, topic)]
      ensures id == old(seqId) && seqId == id + 1
      ensures id !in old(subscribers) && id !in old(channels)
      ensures subscribers == old(subscribers)[id := topic]
      ensures channels == old(channels)[id := []]
    {
      id := seqId;
      seqId := seqId + 1;
      var ids := if topic in topicSubs then topicSubs[topic] else [];
      IndexAppend(subscribers, topicSubs, id, topic);
      subscribers := subscribers[id := topic];
      topicSubs := topicSubs[topic := ids + [id]];
      channels := channels[id := []];
      history := history + [Subscribed(id, topic)];
      forall i
        ensures IdOk(history, subscribers, channels, i)
      {
        SubscribedOk(old(history), old(subscribers), old(channels), id, topic, i);
      }
    }

    method Unsubscribe(id: int)
      requires Valid()
      modifies this
      ensures Valid()
      ensures history == old(history) + [Unsubscribed(id)]
      ensures subscribers == old(subscribers) - {id}
      ensures channels == old(channels) && seqId == old(seqId)
    {
      if id in subscribers {
        var topic := subscribers[id];
        var ids := topicSubs[topic];
        var i := Position(ids, id);
        IndexRemove(subscribers, topicSubs, seqId, id, i);
        subscribers := subscribers - {id};
        topicSubs := topicSubs[topic := ids[..i] + ids[i + 1..]];
      }
      history := history + [Unsubscribed(id)];
      assert subscribers == old(subscribers) - {id};
      forall i
        ensures IdOk(history, subscribers, channels, i)
      {
        assert IdOk(old(history), old(subscribers), old(channels), i);
        HistoryGrows(old(history), Unsubscribed(id), i);
      }
    }

    // Sends the event to every subscriber of one topic.
    method NotifyTopic(topic: Topic, event: ExitEvent)
      requires IndexOk(subscribers, topicSubs, seqId) && forall id | id in subscribers :: id in channels
      modifies this`channels
      ensures channels.Keys == old(channels).Keys
      ensures forall id | id in channels ::
                channels[id] == if LiveIn(subscribers, id) == Some(topic)
                                then old(channels)[id] + [event]
                                else old(channels)[id]
    {
      if topic in topicSubs {
        var ids := topicSubs[topic];
        var i := 0;
        while i < |ids|
          invariant 0 <= i <= |ids|
          invariant channels.Keys == old(channels).Keys
          invariant forall id | id in channels ::
              channels[id] == if id in ids[..i] then old(channels)[id] + [event] else old(channels)[id]
        {
          var id := ids[i];
          assert id !in ids[..i];
          channels := channels[id := channels[id] + [event]];
          i := i + 1;
        }
        assert ids[..i] == ids;
      }
    }

    method NotifyByPid(pid: int, exitCode: int)
      requires Valid()
      modifies this
      ensures Valid()
      ensures history == old(history) + [Notified(ExitEvent(SubjectPid(pid), exitCode))]
      ensures subscribers == old(subscribers) && seqId == old(seqId)
    {
      Notify(TopicPid, ExitEvent(SubjectPid(pid), exitCode));
    }

    method NotifyByExec(cid: string, exec: string, exitCode: int)
      requires Valid()
      modifies this
      ensures Valid()
      ensures history == old(history) + [Notified(ExitEvent(SubjectExec(cid, exec), exitCode))]
      ensures subscribers == old(subscribers) && seqId == old(seqId)
    {
      Notify(TopicExec, ExitEvent(SubjectExec(cid, exec), exitCode));
    }

    // First the subscribers of the event's own kind, then those of everything.
    method Notify(topic: Topic, event: ExitEvent)
      requires Valid()
      requires topic == if event.subject.SubjectPid? then TopicPid else TopicExec
      modifies this
      ensures Valid()
      ensures history == old(history) + [Notified(event)]
      ensures subscribers == old(subscribers) && seqId == old(seqId)
    {
      NotifyTopic(topic, event);
      NotifyTopic(TopicAll, event);
      AllNotified(history, subscribers, old(channels), channels, topic, event);
      history := history + [Notified(event)];
    }
  }

  method Position(ids: seq<int>, id: int) returns (i: nat)
    requires id in ids
    ensures i < |ids| && ids[i] == id
  {
    i := 0;
    while ids[i] != id
      invariant i < |ids| && id in ids[i..]
      decreases |ids| - i
    {
      i := i + 1;
    }
  }

  // ---- what the promise amounts to ----

  // A subscription that begins at one point of the history and does not end before another
  // has heard exactly the notifications in between that concern its topic, in their order.
  function Between(span: seq<Op>, topic: Topic): seq<ExitEvent> {
    if span == [] then []
    else
      var rest := Between(span[..|span| - 1], topic);
      var last := span[|span| - 1];
      if last.Notified? && Concerns(topic, last.event) then rest + [last.event] else rest
  }

  lemma {:induction false} HeardIsBetween(before: seq<Op>, id: int, topic: Topic, span: seq<Op>)
    requires Heard(before, id) == []
    requires forall op | op in span :: op.Notified? || op.id != id
    ensures Heard(before + [Subscribed(id, topic)] + span, id) == Between(span, topic)
    ensures Live(before + [Subscribed(id, topic)] + span, id) == Some(topic)
  {
    var all := before + [Subscribed(id, topic)] + span;
    if span == [] {
      assert all[..|all| - 1] == before;
    } else {
      var shorter := span[..|span| - 1];
      assert all[..|all| - 1] == before + [Subscribed(id, topic)] + shorter;
      HeardIsBetween(before, id, topic, shorter);
    }
  }

  // Nothing is heard after unsubscribing; a second unsubscription changes nothing.
  lemma {:induction false} SilentAfter(before: seq<Op>, id: int, span: seq<Op>)
    requires forall op | op in span :: op.Subscribed? ==> op.id != id
    ensures Heard(before + [Unsubscribed(id)] + span, id) == Heard(before, id)
    ensures Live(before + [Unsubscribed(id)] + span, id) == None
  {
    var all := before + [Unsubscribed(id)] + span;
    if span == [] {
      assert all[..|all| - 1] == before;
    } else {
      var shorter := span[..|span| - 1];
      assert all[..|all| - 1] == before + [Unsubscribed(id)] + shorter;
      SilentAfter(before, id, shorter);
    }
  }
}
