// The SIGCHLD reaper (crates/shim/src/asynchronous/mod.rs). Signals of one kind coalesce, so
// one SIGCHLD may stand for many dead children, and children are born and die while it is
// handled: the handler reaps until nothing is left.
module Reaper {
  import opened Wrappers
  import opened Monitor

  datatype Death = ByExit(status: int) | BySignal(signal: int)

  // The children that have not been reaped, with how they died if they did.
  type Table = map<int, Option<Death>>

  // A death that has happened; the same pid can die again once it has been reaped.
  datatype Fate = Fate(pid: int, death: Death)

  datatype Happening = Born(pid: int) | Dies(pid: int, death: Death)

  // What happens before one call of waitpid, and whether that call then says nothing of use,
  // such as that it was interrupted.
  datatype Turn = Turn(happenings: seq<Happening>, odd: bool)

  // What a non-blocking waitpid for any child says.
  datatype WaitStatus =
    | Exited(pid: int, status: int)
    | Signaled(pid: int, signal: int)
    | StillAlive
    | NoChild
    | Odd

  function ExitCode(death: Death): int {
    match death
    case ByExit(status) => status
    case BySignal(signal) => 128 + signal
  }

  predicate Possible(children: Table, h: Happening) {
    match h
    case Born(pid) => pid !in children
    case Dies(pid, _) => pid in children && children[pid].None?
  }

  function After(children: Table, h: Happening): Table
    requires Possible(children, h)
  {
    match h
    case Born(pid) => children[pid := None]
    case Dies(pid, death) => children[pid := Some(death)]
  }

  function DeathsIn(h: Happening): multiset<Fate> {
    if h.Dies? then multiset{Fate(h.pid, h.death)} else multiset{}
  }

  ghost predicate NoneDead(children: Table) {
    forall pid | pid in children :: children[pid].None?
  }

  function Waiting(children: Table, x: Fate): nat {
    if x.pid in children && children[x.pid] == Some(x.death) then 1 else 0
  }

  // Every death that has happened has been reaped or is there to be.
  ghost predicate Balanced(children: Table, died: multiset<Fate>, reaped: seq<Fate>) {
    forall x: Fate :: died[x] == multiset(reaped)[x] + Waiting(children, x)
  }

  lemma BalancedAfter(children: Table, died: multiset<Fate>, reaped: seq<Fate>, h: Happening)
    requires Balanced(children, died, reaped) && Possible(children, h)
    ensures Balanced(After(children, h), died + DeathsIn(h), reaped)
  {
    forall x: Fate
      ensures (died + DeathsIn(h))[x] == multiset(reaped)[x] + Waiting(After(children, h), x)
    {
      assert died[x] == multiset(reaped)[x] + Waiting(children, x);
    }
  }

  lemma BalancedReaped(children: Table, died: multiset<Fate>, reaped: seq<Fate>, pid: int)
    requires Balanced(children, died, reaped) && pid in children && children[pid].Some?
    ensures Balanced(children - {pid}, died, reaped + [Fate(pid, children[pid].value)])
  {
    var y := Fate(pid, children[pid].value);
    forall x: Fate
      ensures died[x] == multiset(reaped + [y])[x] + Waiting(children - {pid}, x)
    {
      assert died[x] == multiset(reaped)[x] + Waiting(children, x);
      assert multiset(reaped + [y]) == multiset(reaped) + multiset{y};
    }
  }

  function Note(x: Fate): Op {
    Notified(ExitEvent(SubjectPid(x.pid), ExitCode(x.death)))
  }

  function Notes(fates: seq<Fate>): (ops: seq<Op>)
    ensures |ops| == |fates|
  {
    seq(|fates|, i requires 0 <= i < |fates| => Note(fates[i]))
  }

  lemma NotesGrow(fates: seq<Fate>, x: Fate)
    ensures Notes(fates + [x]) == Notes(fates) + [Note(x)]
  {
  }

  class Reaper {
    var children: Table
    var turns: seq<Turn>
    const monitor: Monitor
    ghost var died: multiset<Fate>
    ghost var reaped: seq<Fate>

    ghost predicate Valid()
      reads this, monitor
    {
      monitor.Valid() && Balanced(children, died, reaped)
    }

    constructor (to: seq<Turn>, m: Monitor)
      requires m.Valid()
      ensures Valid() && children == map[] && turns == to && monitor == m && died == multiset{} && reaped == []
    {
      children, turns, monitor := map[], to, m;
      died, reaped := multiset{}, [];
    }

    // The surroundings; what is not possible does not happen.
    method Happens(happenings: seq<Happening>)
      requires Balanced(children, died, reaped)
      modifies this`children, this`died
      ensures Balanced(children, died, reaped) && old(died) <= died
    {
      for i := 0 to |happenings|
        invariant Balanced(children, died, reaped) && old(died) <= died
      {
        var h := happenings[i];
        if Possible(children, h) {
          BalancedAfter(children, died, reaped, h);
          children := After(children, h);
          died := died + DeathsIn(h);
        }
      }
    }

    // The kernel's side, which takes the child it names out of its table.
    method Waitpid() returns (w: WaitStatus)
      requires Balanced(children, died, reaped)
      modifies this`children, this`turns, this`died, this`reaped
      ensures Balanced(children, died, reaped) && old(died) <= died
      ensures w.Exited? ==> reaped == old(reaped) + [Fate(w.pid, ByExit(w.status))]
      ensures w.Signaled? ==> reaped == old(reaped) + [Fate(w.pid, BySignal(w.signal))]
      ensures !w.Exited? && !w.Signaled? ==> reaped == old(reaped)
      ensures w.StillAlive? || w.NoChild? ==> NoneDead(children)
      ensures |turns| < |old(turns)|
                || (turns == [] && !w.Odd? && (w.Exited? || w.Signaled? ==> |children| < |old(children)|))
    {
      var odd := TimePasses();
      if odd {
        return Odd;
      }
      w := Reaps();
    }

    method TimePasses() returns (odd: bool)
      requires Balanced(children, died, reaped)
      modifies this`children, this`turns, this`died
      ensures Balanced(children, died, reaped) && old(died) <= died
      ensures if old(turns) == [] then turns == [] && children == old(children) && !odd else |turns| < |old(turns)|
    {
      odd := false;
      if turns != [] {
        Happens(turns[0].happenings);
        odd := turns[0].odd;
        turns := turns[1..];
      }
    }

    method Reaps() returns (w: WaitStatus)
      requires Balanced(children, died, reaped)
      modifies this`children, this`reaped
      ensures Balanced(children, died, reaped) && !w.Odd?
      ensures w.Exited? ==> reaped == old(reaped) + [Fate(w.pid, ByExit(w.status))]
      ensures w.Signaled? ==> reaped == old(reaped) + [Fate(w.pid, BySignal(w.signal))]
      ensures !w.Exited? && !w.Signaled? ==> reaped == old(reaped) && NoneDead(children)
      ensures w.Exited? || w.Signaled? ==> |children| < |old(children)|
    {
      if children == map[] {
        return NoChild;
      }
      if pid :| pid in children && children[pid].Some? {
        var death := children[pid].value;
        BalancedReaped(children, died, reaped, pid);
        children := children - {pid};
        reaped := reaped + [Fate(pid, death)];
        return match death
          case ByExit(status) => Exited(pid, status)
          case BySignal(signal) => Signaled(pid, signal);
      }
      return StillAlive;
    }

    // One round of the handler's loop.
    method Round() returns (over: bool, ghost news: seq<Fate>)
      requires Valid()
      modifies this`children, this`turns, this`died, this`reaped, monitor
      ensures Valid() && old(died) <= died && reaped == old(reaped) + news
      ensures monitor.history == old(monitor.history) + Notes(news)
      ensures monitor.subscribers == old(monitor.subscribers)
      ensures over ==> NoneDead(children)
      ensures !over ==> |turns| < |old(turns)| || (turns == [] && |children| < |old(children)|)
    {
      var w := Waitpid();
      news := [];
      assert Notes([]) == [];
      match w {
        case Exited(pid, status) =>
          monitor.NotifyByPid(pid, status);
          news := [Fate(pid, ByExit(status))];
        case Signaled(pid, signal) =>
          var exitCode := 128 + signal;
          monitor.NotifyByPid(pid, exitCode);
          news := [Fate(pid, BySignal(signal))];
        case _ =>
      }
      over := w.StillAlive? || w.NoChild?;
    }

    // One SIGCHLD. When it has been handled no child is dead, so every death there has been,
    // before it or while it was handled, has been reaped; and each one reaped here has been
    // notified, once, with its own exit code.
    method HandleSigchld() returns (ghost news: seq<Fate>)
      requires Valid()
      modifies this`children, this`turns, this`died, this`reaped, monitor
      ensures Valid() && NoneDead(children) && old(died) <= died
      ensures reaped == old(reaped) + news && forall x: Fate :: died[x] == multiset(reaped)[x]
      ensures monitor.history == old(monitor.history) + Notes(news)
      ensures monitor.subscribers == old(monitor.subscribers)
    {
      news := [];
      var over := false;
      while !over
        invariant Valid() && old(died) <= died && reaped == old(reaped) + news
        invariant monitor.subscribers == old(monitor.subscribers)
        invariant monitor.history == old(monitor.history) + Notes(news)
        invariant over ==> NoneDead(children)
        decreases !over, |turns|, |children|
      {
        ghost var more;
        over, more := Round();
        NotedOn(old(monitor.history), news, more);
        news := news + more;
      }
      AllReaped(children, died, reaped);
    }
  }

  lemma AllReaped(children: Table, died: multiset<Fate>, reaped: seq<Fate>)
    requires Balanced(children, died, reaped) && NoneDead(children)
    ensures forall x: Fate :: died[x] == multiset(reaped)[x]
  {
  }

  lemma NotedOn(history: seq<Op>, a: seq<Fate>, b: seq<Fate>)
    ensures history + Notes(a) + Notes(b) == history + Notes(a + b)
  {
    assert Notes(a + b) == Notes(a) + Notes(b);
  }

  // So a subscription to pids that is live before the signal hears of every child reaped, in
  // that order, once, and with its own exit code.
  lemma {:induction false} SubscribersHear(history: seq<Op>, fates: seq<Fate>, id: int)
    requires Live(history, id) in {Some(TopicPid), Some(TopicAll)}
    ensures Heard(history + Notes(fates), id) == Heard(history, id) + Exits(fates)
    ensures Live(history + Notes(fates), id) == Live(history, id)
  {
    if fates == [] {
      assert history + Notes(fates) == history;
    } else {
      var n := |fates| - 1;
      var fewer, x := fates[..n], fates[n];
      SubscribersHear(history, fewer, id);
      assert fates == fewer + [x];
      NotesGrow(fewer, x);
      ExitsGrow(fewer, x);
      HeardOneMore(history + Notes(fewer), x, id);
      assert history + Notes(fates) == history + Notes(fewer) + [Note(x)];
    }
  }

  function Exits(fates: seq<Fate>): seq<ExitEvent> {
    seq(|fates|, i requires 0 <= i < |fates| => Note(fates[i]).event)
  }

  lemma ExitsGrow(fates: seq<Fate>, x: Fate)
    ensures Exits(fates + [x]) == Exits(fates) + [Note(x).event]
  {
  }

  lemma HeardOneMore(history: seq<Op>, x: Fate, id: int)
    requires Live(history, id) in {Some(TopicPid), Some(TopicAll)}
    ensures Heard(history + [Note(x)], id) == Heard(history, id) + [Note(x).event]
    ensures Live(history + [Note(x)], id) == Live(history, id)
  {
    HistoryGrows(history, Note(x), id);
  }

  // In numbers: what a live subscription hears next is, for each child in turn, its pid with
  // the status it exited with, or with 128 and the signal that killed it.
  lemma HeardCodes(history: seq<Op>, fates: seq<Fate>, id: int)
    requires Live(history, id) in {Some(TopicPid), Some(TopicAll)}
    ensures var n := |Heard(history, id)|;
            var all := Heard(history + Notes(fates), id);
            && |all| == n + |fates|
            && (forall k | 0 <= k < n :: all[k] == Heard(history, id)[k])
            && (forall k, status | 0 <= k < |fates| && fates[k].death == ByExit(status) ::
                  all[n + k] == ExitEvent(SubjectPid(fates[k].pid), status))
            && (forall k, signal | 0 <= k < |fates| && fates[k].death == BySignal(signal) ::
                  all[n + k] == ExitEvent(SubjectPid(fates[k].pid), 128 + signal))
  {
    SubscribersHear(history, fates, id);
    assert forall k | 0 <= k < |fates| :: Exits(fates)[k] == Note(fates[k]).event;
  }

  // So no signal is taken for a normal exit: those end below 128.
  lemma SignalsApart(history: seq<Op>, fates: seq<Fate>, id: int, j: nat, k: nat)
    requires Live(history, id) in {Some(TopicPid), Some(TopicAll)} && j < |fates| && k < |fates|
    requires fates[j].death.BySignal? && fates[j].death.signal > 0
    requires fates[k].death.ByExit? && fates[k].death.status <= 128
    ensures var n, all := |Heard(history, id)|, Heard(history + Notes(fates), id);
            n + j < |all| && n + k < |all| && all[n + j].exitCode != all[n + k].exitCode
  {
    HeardCodes(history, fates, id);
  }
}
