// The shim never gets stuck: its own steps come to an end, and when none is left to take,
// the containers lock is free or its holder waits for a runtime command that still runs,
// every exit has been acted on, and nobody waits for a process that is over.
module LifecycleProgress {
  import opened Wrappers
  import opened Processes
  import opened Registry
  import opened Kernel
  import opened Lifecycle
  import opened LifecycleInvariant
  import opened LifecycleTheorems

  // The steps the shim takes by itself, as against new requests and what processes do.
  predicate Internal(a: Step) {
    match a
    case Request(_, _) => false
    case Launch(_) => false
    case Orphan(_) => false
    case Dies(_, _) => false
    case DeleteExec(_, _) => false
    case AddExec(_, _) => false
    case WaitCalled(_) => false
    case _ => true
  }

  // ---- its own steps come to an end ----

  ghost function Zombies(kernel: Children): set<int> {
    set p | p in kernel && kernel[p].state.Zombie?
  }

  function WaitWork(call: WaitCall): nat {
    match call
    case Blocked(_, _) => 2
    case Woken(_, _) => 1
    case _ => 0
  }

  function WaitsWork(waits: seq<WaitCall>): nat {
    if waits == [] then 0 else WaitWork(waits[0]) + WaitsWork(waits[1..])
  }

  // How much work is under way at the lock, with the event that the pump has in hand.
  function LockWork(lock: Lock, hand: Option<Exit>): nat {
    (match lock
     case Free => 0
     case Handler(_, r, _) => 4 + |r.mail|
     case PumpKill(_, r) => |r.mail|
     case PumpSend(_) => 2)
    + (if hand.None? then 0 else if lock.PumpKill? then 3 else 4)
  }

  // An upper bound on the number of steps the shim can still take by itself: each of the
  // places a piece of work can be in weighs more than the places it goes to from there.
  ghost function Work(s: Sys): nat {
    8 * |Zombies(s.kernel)| + (if s.reaped.Some? then 7 else 0) + (if s.sigchld then 2 else 0)
    + (if s.draining then 1 else 0)
    + 5 * |s.queue| + LockWork(s.lock, s.hand)
    + |s.channel| + 2 * |s.sends| + 3 * |s.deletions| + WaitsWork(s.waits)
  }

  lemma {:induction false} WaitsWorkUpdate(waits: seq<WaitCall>, w: nat, call: WaitCall)
    requires w < |waits|
    ensures WaitsWork(waits[w := call]) + WaitWork(waits[w]) == WaitsWork(waits) + WaitWork(call)
  {
    if w == 0 {
      assert waits[w := call][1..] == waits[1..];
    } else {
      assert waits[w := call][1..] == waits[1..][w - 1 := call];
      WaitsWorkUpdate(waits[1..], w - 1, call);
    }
  }

  lemma ReapShrinksZombies(kernel: Children, pid: int)
    requires pid in kernel && kernel[pid].state.Zombie?
    ensures |Zombies(kernel - {pid})| + 1 == |Zombies(kernel)|
  {
    assert Zombies(kernel - {pid}) == Zombies(kernel) - {pid};
  }

  lemma SpawnKeepsZombies(kernel: Children, pid: int, inst: nat)
    requires pid !in kernel
    ensures Zombies(kernel[pid := Child(inst, Running)]) == Zombies(kernel)
  {
  }

  lemma WorkDecreases(s: Sys, a: Step)
    requires Enabled(s, a) && CallHeld(s.lock, s.containers) && Internal(a)
    ensures Work(Apply(s, a)) < Work(s)
  {
    if a.Reap? || a.Notify? || a.ReaperWakes? || a.ReaperSleeps? {
      ReaperWork(s, a);
    } else if a.PumpReceive? || a.PumpMiss? || a.PumpKills? || a.PumpMarks? || a.PumpSends? {
      PumpWork(s, a);
    } else {
      HandlerWork(s, a);
    }
  }

  lemma ReaperWork(s: Sys, a: Step)
    requires Enabled(s, a) && CallHeld(s.lock, s.containers)
    requires a.Reap? || a.Notify? || a.ReaperWakes? || a.ReaperSleeps?
    ensures Work(Apply(s, a)) < Work(s)
  {
    if a.Reap? {
      ReapShrinksZombies(s.kernel, a.pid);
    }
  }

  lemma PumpWork(s: Sys, a: Step)
    requires Enabled(s, a) && CallHeld(s.lock, s.containers)
    requires a.PumpReceive? || a.PumpMiss? || a.PumpKills? || a.PumpMarks? || a.PumpSends?
    ensures Work(Apply(s, a)) < Work(s)
  {
    if a.PumpKills? {
      SpawnKeepsZombies(s.kernel, a.rpid, s.nextInst);
    }
  }

  lemma HandlerWork(s: Sys, a: Step)
    requires Enabled(s, a) && CallHeld(s.lock, s.containers)
    requires a.RuncReceive? || a.Finish? || a.Remove? || a.Send? || a.Forward? || a.WaitWakes? || a.WaitReplies?
    ensures Work(Apply(s, a)) < Work(s)
  {
    if a.WaitWakes? || a.WaitReplies? {
      WaitWorkDecreases(s, a);
    } else if a.Finish? {
      FinishWork(s, a.ok);
    }
  }

  lemma WaitWorkDecreases(s: Sys, a: Step)
    requires Enabled(s, a) && CallHeld(s.lock, s.containers) && (a.WaitWakes? || a.WaitReplies?)
    ensures Work(Apply(s, a)) < Work(s)
  {
    WaitsWorkUpdate(s.waits, a.w, Apply(s, a).waits[a.w]);
  }

  // A handler leaves at most one event to send or one container to remove.
  lemma FinishWork(s: Sys, ok: bool)
    requires CanFinish(s, ok) && CallHeld(s.lock, s.containers)
    ensures Work(FinishedBy(s, ok)) < Work(s)
  {
  }

  // However the shim's own steps are interleaved, at most Work many follow each other.
  lemma {:induction false} OwnStepsEnd(states: seq<Sys>, steps: seq<Step>)
    requires Run(states, steps) && forall i | 0 <= i < |steps| :: Internal(steps[i])
    ensures |steps| + Work(states[|steps|]) <= Work(states[0])
    decreases |steps|
  {
    var n := |steps|;
    if n > 0 {
      assert Next(states[n - 1], steps[n - 1], states[n - 1 + 1]);
      WorkDecreases(states[n - 1], steps[n - 1]);
      RunPrefix(states, steps);
      OwnStepsEnd(states[..n], steps[..n - 1]);
    }
  }

  lemma RunPrefix(states: seq<Sys>, steps: seq<Step>)
    requires Run(states, steps) && |steps| > 0
    ensures Run(states[..|steps|], steps[..|steps| - 1])
  {
    forall i | 0 <= i < |steps| - 1
      ensures Next(states[..|steps|][i], steps[..|steps| - 1][i], states[..|steps|][i + 1])
    {
      assert Next(states[i], steps[i], states[i + 1]);
    }
  }

  // ---- and what is left then is in order ----

  ghost predicate Quiet(s: Sys) {
    forall a | Internal(a) :: !Enabled(s, a)
  }

  // The lock's holder, if there is one, waits for a runtime command that is running.
  ghost predicate LockSettled(s: Sys) {
    match InFlight(s.lock)
    case None => s.lock.Free?
    case Some(r) => r.pid in s.kernel && s.kernel[r.pid] == Child(r.inst, Running)
  }

  ghost predicate ProcessSettled(p: Process, s: Sys) {
    if p.state == STOPPED
    then p.inst in s.exits && p.exitCode == s.exits[p.inst] && p.waiters == []
    else p.pid > 0 ==> p.pid in s.kernel && s.kernel[p.pid] == Child(p.inst, Running)
  }

  ghost predicate Settled(s: Sys) {
    && LockSettled(s)
    && NoZombies(s) && s.reaped.None? && s.channel == [] && s.sends == []
    && (s.lock.Free? ==>
          && s.queue == [] && s.hand.None? && s.deletions == []
          && (forall k | Has(s.containers, k) :: ProcessSettled(Get(s.containers, k), s))
          && (forall w | 0 <= w < |s.waits| && s.waits[w].Blocked? ::
                exists k :: Has(s.containers, k) && Get(s.containers, k).state != STOPPED
                    && w in Get(s.containers, k).waiters)
          && (forall w | 0 <= w < |s.waits| :: !s.waits[w].Woken?))
  }

  lemma Cannot(s: Sys, a: Step)
    requires Quiet(s) && Internal(a)
    ensures !Enabled(s, a)
  {
  }

  lemma QuietKernel(s: Sys)
    requires ReaperOk(s.kernel, s.sigchld, s.draining) && Quiet(s)
    ensures NoZombies(s) && s.reaped.None?
  {
    Cannot(s, Notify);
    forall p | p in s.kernel
      ensures s.kernel[p].state.Running?
    {
      Cannot(s, ReaperWakes);
      Cannot(s, Reap(p));
    }
  }

  lemma QuietChannel(s: Sys)
    requires Quiet(s)
    ensures s.channel == [] && s.sends == [] && !s.lock.PumpSend?
  {
    Cannot(s, Forward);
    Cannot(s, Send(0));
    Cannot(s, PumpSends);
  }

  lemma QuietLock(s: Sys)
    requires LockInv(s) && Quiet(s) && NoZombies(s) && s.reaped.None?
    ensures LockSettled(s)
  {
    QuietChannel(s);
    Cannot(s, RuncReceive);
    Cannot(s, Finish(true));
    Cannot(s, Finish(false));
    if s.lock.PumpKill? {
      Cannot(s, PumpMarks(s.lock.key, 0));
    }
  }

  lemma QuietPump(s: Sys)
    requires Quiet(s) && s.lock.Free?
    ensures s.queue == [] && s.hand.None? && s.deletions == []
  {
    Cannot(s, Remove(0));
    Cannot(s, PumpReceive);
    forall k
      ensures s.hand.Some? ==> !Matches(s.containers, k, s.hand.value.pid)
    {
      Cannot(s, PumpMarks(k, 0));
    }
    Cannot(s, PumpMiss);
  }

  lemma QuietProcess(s: Sys, p: Process)
    requires ProcessOk(p, s.kernel, Pending(s), s.exits)
    requires NoZombies(s) && s.queue == [] && s.hand.None? && s.reaped.None?
    ensures ProcessSettled(p, s)
  {
    assert Pending(s) == [];
  }

  // No waiter sleeps forever: whoever is still blocked waits for a process that is not over.
  lemma QuietWait(s: Sys, w: nat)
    requires Inv(s) && Quiet(s) && s.lock.Free? && w < |s.waits|
    ensures !s.waits[w].Woken?
    ensures s.waits[w].Blocked? ==>
              exists k :: Has(s.containers, k) && Get(s.containers, k).state != STOPPED
                  && w in Get(s.containers, k).waiters
  {
    Cannot(s, WaitReplies(w));
    Cannot(s, WaitWakes(w));
    forall k | Has(s.containers, k)
      ensures w in Get(s.containers, k).waiters ==> Get(s.containers, k).state != STOPPED
    {
      assert ProcessOk(Get(s.containers, k), s.kernel, Pending(s), s.exits);
    }
  }

  lemma QuietIsSettled(s: Sys)
    requires Reachable(s) && Quiet(s)
    ensures Settled(s)
  {
    ReachableInv(s);
    QuietKernel(s);
    QuietChannel(s);
    QuietLock(s);
    if s.lock.Free? {
      QuietPump(s);
      forall k | Has(s.containers, k)
        ensures ProcessSettled(Get(s.containers, k), s)
      {
        QuietProcess(s, Get(s.containers, k));
      }
      forall w: nat | w < |s.waits|
        ensures !s.waits[w].Woken?
        ensures s.waits[w].Blocked? ==>
                  exists k :: Has(s.containers, k) && Get(s.containers, k).state != STOPPED
                      && w in Get(s.containers, k).waiters
      {
        QuietWait(s, w);
      }
    }
  }

  // From every reachable state, some sequence of the shim's own steps ends in order.
  lemma {:induction false} AlwaysSettles(s: Sys) returns (states: seq<Sys>, steps: seq<Step>)
    requires Reachable(s)
    ensures Run(states, steps) && states[0] == s
    ensures forall i | 0 <= i < |steps| :: Internal(steps[i])
    ensures |steps| <= Work(s)
    ensures Quiet(states[|steps|]) && Settled(states[|steps|])
    decreases Work(s)
  {
    if Quiet(s) {
      QuietIsSettled(s);
      states, steps := [s], [];
    } else {
      var a :| Internal(a) && Enabled(s, a);
      var t := ReachableNext(s, a);
      WorkDecreases(s, a);
      var rest, after := AlwaysSettles(t);
      states, steps := Prepend(s, a, rest, after);
    }
  }

  lemma Prepend(s: Sys, a: Step, rest: seq<Sys>, after: seq<Step>) returns (states: seq<Sys>, steps: seq<Step>)
    requires Run(rest, after) && Next(s, a, rest[0])
    ensures Run(states, steps) && states == [s] + rest && steps == [a] + after
  {
    states, steps := [s] + rest, [a] + after;
    forall i | 0 <= i < |steps|
      ensures Next(states[i], steps[i], states[i + 1])
    {
      if i > 0 {
        assert Next(rest[i - 1], after[i - 1], rest[i - 1 + 1]);
      }
    }
  }

  lemma ReachableNext(s: Sys, a: Step) returns (t: Sys)
    requires Reachable(s) && Enabled(s, a)
    ensures CallHeld(s.lock, s.containers) && t == Apply(s, a) && Reachable(t)
  {
    ReachableInv(s);
    assert CallHeld(s.lock, s.containers);
    t := Apply(s, a);
    var states, steps :| Run(states, steps) && Init(states[0]) && states[|steps|] == s;
    Extend(states, steps, a, t);
  }

  lemma Extend(states: seq<Sys>, steps: seq<Step>, a: Step, t: Sys)
    requires Run(states, steps) && Init(states[0]) && Next(states[|steps|], a, t)
    ensures Reachable(t)
  {
    var longer, more := states + [t], steps + [a];
    forall i | 0 <= i < |more|
      ensures Next(longer[i], more[i], longer[i + 1])
    {
      if i < |steps| {
        assert Next(states[i], steps[i], states[i + 1]);
      }
    }
    assert Run(longer, more) && Init(longer[0]) && longer[|more|] == t;
  }
}
