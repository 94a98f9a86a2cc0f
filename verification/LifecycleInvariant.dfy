// What every step of the protocol keeps. Each predicate reads only the parts of the state
// that it is about, so that a step which leaves those alone keeps it for free.
module LifecycleInvariant {
  import opened Wrappers
  import opened Processes
  import opened Registry
  import opened Kernel
  import opened Lifecycle

  ghost predicate Alive(kernel: Children, pid: int, inst: nat) {
    pid in kernel && kernel[pid].inst == inst
  }

  ghost predicate Delivered(pend: seq<Exit>, pid: int, inst: nat) {
    exists i :: 0 <= i < |pend| && pend[i].pid == pid && pend[i].inst == inst
  }

  // The process is unreaped, or its exit is where the pump will find it.
  ghost predicate Tracked(kernel: Children, pend: seq<Exit>, pid: int, inst: nat) {
    Alive(kernel, pid, inst) || Delivered(pend, pid, inst)
  }

  ghost predicate Truthful(e: Exit, exits: map<nat, int>) {
    e.inst in exits && exits[e.inst] == e.code
  }

  // No zombie goes unnoticed, although any number of exits share one pending signal.
  ghost predicate ReaperOk(kernel: Children, sigchld: bool, draining: bool) {
    forall p | p in kernel && kernel[p].state.Zombie? :: sigchld || draining
  }

  ghost predicate PendingOk(pend: seq<Exit>, kernel: Children, exits: map<nat, int>) {
    && (forall i | 0 <= i < |pend| :: pend[i].pid > 0 && pend[i].pid !in kernel && Truthful(pend[i], exits))
    && (forall i, p | 0 <= i < |pend| && p in kernel :: kernel[p].inst != pend[i].inst)
    && (forall i, j | 0 <= i < j < |pend| :: pend[i].pid != pend[j].pid && pend[i].inst != pend[j].inst)
  }

  ghost predicate ProcessOk(p: Process, kernel: Children, pend: seq<Exit>, exits: map<nat, int>) {
    && p.pid >= 0
    && (p.state != CREATED ==> p.pid > 0)
    && (p.state != STOPPED && p.pid > 0 ==> Tracked(kernel, pend, p.pid, p.inst))
    && (p.state == STOPPED ==>
          && p.pid !in kernel
          && !PidPending(pend, p.pid)
          && p.inst in exits && exits[p.inst] == p.exitCode
          && p.exitedAt.Some?
          && p.waiters == [])
  }

  ghost predicate ProcessesOk(c: Containers, kernel: Children, pend: seq<Exit>, exits: map<nat, int>) {
    && (forall k | Has(c, k) :: ProcessOk(Get(c, k), kernel, pend, exits))
    && (forall cid | cid in c :: c[cid].init.pid > 0)
  }

  ghost predicate PidsDistinct(c: Containers) {
    forall j, k | Has(c, j) && Has(c, k) && j != k && Get(c, j).pid > 0 :: Get(c, j).pid != Get(c, k).pid
  }

  ghost predicate Registered(c: Containers, obj: nat) {
    exists k :: Has(c, k) && Get(c, k).obj == obj
  }

  ghost predicate ObjsOk(c: Containers, nextObj: nat) {
    && (forall k | Has(c, k) :: Get(c, k).obj < nextObj)
    && (forall j, k | Has(c, j) && Has(c, k) && j != k :: Get(c, j).obj != Get(c, k).obj)
  }

  // A runtime command in flight is found by its waiter: its exit is still to come, or is on
  // its way, or sits in the subscription, and no exit there is another process's under the same pid.
  ghost predicate RuncOk(
    lock: Lock, kernel: Children, pend: seq<Exit>, reaped: Option<Exit>, exits: map<nat, int>) {
    InFlight(lock).Some? ==>
      var r := InFlight(lock).value;
      && Tracked(kernel, pend, r.pid, r.inst)
      && (forall i | 0 <= i < |r.mail| ::
            Truthful(r.mail[i], exits) && (r.mail[i].pid == r.pid ==> r.mail[i].inst == r.inst))
      && (r.code.None? ==>
            || Alive(kernel, r.pid, r.inst)
            || (reaped.Some? && reaped.value.pid == r.pid)
            || PidPending(r.mail, r.pid))
      && (r.code.Some? ==> r.inst in exits && exits[r.inst] == r.code.value)
  }

  ghost predicate CallHeld(lock: Lock, c: Containers) {
    lock.Handler? ==> CallOk(c, lock.call)
  }

  // A process left behind for adoption is tracked, and nobody carries its pid yet.
  ghost predicate LaunchOk(lock: Lock, c: Containers, kernel: Children, pend: seq<Exit>) {
    lock.Handler? && lock.launched.Some? ==>
      var l := lock.launched.value;
      l.pid > 0 && Tracked(kernel, pend, l.pid, l.inst) && forall k :: !Matches(c, k, l.pid)
  }

  ghost predicate PumpOk(lock: Lock, c: Containers, hand: Option<Exit>, exits: map<nat, int>) {
    && (lock.PumpKill? ==> hand.Some? && Matches(c, lock.key, hand.value.pid))
    && (lock.PumpSend? ==>
          var e := lock.event;
          && hand.None?
          && e.TaskExit?
          && Has(c, e.key)
          && Get(c, e.key).obj == e.obj
          && e.inst in exits && exits[e.inst] == e.code)
  }

  // PAUSING is only ever seen by the handler that set it, and only an init is paused.
  ghost predicate PausingHidden(c: Containers, lock: Lock) {
    && (forall k | Has(c, k) && Get(c, k).state == PAUSING ::
          k.exec.None? && lock.Handler? && lock.call == Pause(k.cid))
    && (forall k | Has(c, k) && Get(c, k).state == PAUSED :: k.exec.None?)
  }

  // The kernel process is over and its exit has been acted on.
  ghost predicate Spent(inst: nat, kernel: Children, pend: seq<Exit>, exits: map<nat, int>) {
    && inst in exits
    && (forall p | p in kernel :: kernel[p].inst != inst)
    && (forall i | 0 <= i < |pend| :: pend[i].inst != inst)
  }

  ghost predicate ExitsSpent(log: seq<Event>, lock: Lock, kernel: Children, pend: seq<Exit>, exits: map<nat, int>) {
    && (forall i | 0 <= i < |log| && log[i].TaskExit? :: Spent(log[i].inst, kernel, pend, exits))
    && (lock.PumpSend? && lock.event.TaskExit? ==> Spent(lock.event.inst, kernel, pend, exits))
  }

  ghost predicate ExitsOnce(log: seq<Event>, lock: Lock) {
    && (forall i, j | 0 <= i < j < |log| && log[i].TaskExit? && log[j].TaskExit? :: log[i].inst != log[j].inst)
    && (forall i | 0 <= i < |log| && lock.PumpSend? && lock.event.TaskExit? && log[i].TaskExit? ::
          log[i].inst != lock.event.inst)
  }

  ghost predicate ExitsTruthful(log: seq<Event>, exits: map<nat, int>) {
    forall i | 0 <= i < |log| && log[i].TaskExit? :: log[i].inst in exits && exits[log[i].inst] == log[i].code
  }

  ghost predicate SendsOk(sends: seq<Event>, c: Containers, nextObj: nat) {
    forall i | 0 <= i < |sends| ::
      && !sends[i].TaskExit?
      && (sends[i].TaskDelete? ==> sends[i].obj < nextObj && !Registered(c, sends[i].obj))
  }

  ghost predicate DeletesOk(log: seq<Event>, c: Containers, nextObj: nat) {
    forall i | 0 <= i < |log| && log[i].TaskDelete? :: log[i].obj < nextObj && !Registered(c, log[i].obj)
  }

  // In the channel a process's TaskExit never follows its TaskDelete.
  ghost predicate ExitBeforeDelete(log: seq<Event>) {
    forall i, j | 0 <= i < j < |log| && log[i].TaskDelete? && log[j].TaskExit? :: log[i].obj != log[j].obj
  }

  // Between its two sections a delete's process is at the init place of that id or gone.
  ghost predicate DeletionsOk(deletions: seq<Deletion>, c: Containers, nextObj: nat) {
    forall i | 0 <= i < |deletions| ::
      && deletions[i].obj < nextObj
      && forall k | Has(c, k) && Get(c, k).obj == deletions[i].obj :: k == Key(deletions[i].cid, None)
  }

  ghost predicate WaitOk(w: nat, call: WaitCall, c: Containers, nextObj: nat) {
    match call
    case Blocked(key, obj) =>
      obj < nextObj && forall k | Has(c, k) && Get(c, k).obj == obj ::
          k == key && (w in Get(c, k).waiters || Get(c, k).exitedAt.Some?)
    case Woken(key, obj) =>
      obj < nextObj && forall k | Has(c, k) && Get(c, k).obj == obj :: k == key && Get(c, k).exitedAt.Some?
    case _ => true
  }

  ghost predicate WaitsOk(waits: seq<WaitCall>, c: Containers, nextObj: nat) {
    && (forall w | 0 <= w < |waits| :: WaitOk(w, waits[w], c, nextObj))
    && (forall k | Has(c, k) :: WaitersOk(k, Get(c, k), waits))
  }

  ghost predicate WaitersOk(k: Key, p: Process, waits: seq<WaitCall>) {
    forall w | w in p.waiters :: w < |waits| && waits[w] == Blocked(k, p.obj)
  }

  // Of the kernel, the queues and the history of exits
  ghost predicate ExitsInv(s: Sys) {
    && KernelOk(s.kernel, s.exits, s.nextInst)
    && ReaperOk(s.kernel, s.sigchld, s.draining)
    && PendingOk(Pending(s), s.kernel, s.exits)
    && ExitsSpent(s.log, s.lock, s.kernel, Pending(s), s.exits)
  }

  // Of the registered processes and whoever holds the lock
  ghost predicate ProcessInv(s: Sys) {
    && ProcessesOk(s.containers, s.kernel, Pending(s), s.exits)
    && PidsDistinct(s.containers)
    && ObjsOk(s.containers, s.nextObj)
    && PausingHidden(s.containers, s.lock)
  }

  ghost predicate LockInv(s: Sys) {
    && RuncOk(s.lock, s.kernel, Pending(s), s.reaped, s.exits)
    && CallHeld(s.lock, s.containers)
    && LaunchOk(s.lock, s.containers, s.kernel, Pending(s))
    && PumpOk(s.lock, s.containers, s.hand, s.exits)
  }

  // Of the events and the wait calls
  ghost predicate ReportInv(s: Sys) {
    && ExitsOnce(s.log, s.lock)
    && ExitsTruthful(s.log, s.exits)
    && SendsOk(s.sends, s.containers, s.nextObj)
    && DeletesOk(s.log, s.containers, s.nextObj)
    && ExitBeforeDelete(s.log)
    && DeletionsOk(s.deletions, s.containers, s.nextObj)
    && WaitsOk(s.waits, s.containers, s.nextObj)
  }

  ghost predicate Inv(s: Sys) {
    ExitsInv(s) && ProcessInv(s) && LockInv(s) && ReportInv(s)
  }

  lemma InitInv(s: Sys)
    requires Init(s)
    ensures Inv(s)
  {
  }

  // ---- changes of the containers ----

  ghost predicate Shrunk(c: Containers, d: Containers) {
    forall k | Has(d, k) :: Has(c, k) && Get(d, k) == Get(c, k)
  }

  ghost predicate Updated(c: Containers, d: Containers, key: Key, p: Process) {
    && Has(d, key)
    && Get(d, key) == p
    && forall k | Has(d, k) && k != key :: Has(c, k) && Get(d, k) == Get(c, k)
  }

  lemma ShrinkKeepsProcesses(s: Sys, d: Containers)
    requires ProcessInv(s) && Shrunk(s.containers, d)
    ensures ProcessInv(s.(containers := d))
  {
    assert Pending(s.(containers := d)) == Pending(s);
    forall cid | cid in d
      ensures d[cid].init.pid > 0
    {
      assert Has(d, Key(cid, None));
    }
  }

  lemma ShrinkKeepsReports(s: Sys, d: Containers)
    requires ReportInv(s) && Shrunk(s.containers, d)
    ensures ReportInv(s.(containers := d))
  {
    forall obj | Registered(d, obj)
      ensures Registered(s.containers, obj)
    {
      var k :| Has(d, k) && Get(d, k).obj == obj;
      assert Has(s.containers, k);
    }
    ShrinkKeepsWaits(s.waits, s.containers, d, s.nextObj);
  }

  lemma ShrinkKeepsWaits(waits: seq<WaitCall>, c: Containers, d: Containers, nextObj: nat)
    requires WaitsOk(waits, c, nextObj) && Shrunk(c, d)
    ensures WaitsOk(waits, d, nextObj)
  {
    forall w | 0 <= w < |waits|
      ensures WaitOk(w, waits[w], d, nextObj)
    {
    }
  }

  // A process is put where there was none, or in the place of another value; the holder of
  // the lock may change at the same time.
  lemma UpdateKeepsProcesses(s: Sys, d: Containers, key: Key, p: Process, lock: Lock)
    requires ProcessInv(s) && Updated(s.containers, d, key, p)
    requires ProcessOk(p, s.kernel, Pending(s), s.exits)
    requires key.exec.None? ==> p.pid > 0
    requires p.pid > 0 ==> forall k | Matches(s.containers, k, p.pid) :: k == key
    requires (Has(s.containers, key) && Get(s.containers, key).obj == p.obj) || p.obj == s.nextObj
    requires forall k | Has(s.containers, k) && k != key :: Get(s.containers, k).state != PAUSING
    requires p.state == PAUSING ==> key.exec.None? && lock.Handler? && lock.call == Pause(key.cid)
    requires p.state == PAUSED ==> key.exec.None?
    ensures ProcessInv(s.(containers := d, nextObj := s.nextObj + 1, lock := lock))
    ensures p.obj < s.nextObj ==> ProcessInv(s.(containers := d, lock := lock))
  {
    var t := s.(containers := d, nextObj := s.nextObj + 1, lock := lock);
    assert Pending(t) == Pending(s);
    assert Pending(s.(containers := d, lock := lock)) == Pending(s);
    forall k | Has(d, k)
      ensures ProcessOk(Get(d, k), s.kernel, Pending(s), s.exits)
      ensures Get(d, k).obj <= s.nextObj && (p.obj < s.nextObj ==> Get(d, k).obj < s.nextObj)
      ensures k != key ==> Has(s.containers, k) && Get(d, k) == Get(s.containers, k)
    {
    }
    forall cid | cid in d
      ensures d[cid].init.pid > 0
    {
      assert Has(d, Key(cid, None));
    }
    UpdateKeepsDistinct(s.containers, d, key, p);
    assert ObjsOk(d, s.nextObj + 1);
  }

  lemma UpdateKeepsDistinct(c: Containers, d: Containers, key: Key, p: Process)
    requires PidsDistinct(c) && Updated(c, d, key, p)
    requires p.pid > 0 ==> forall k | Matches(c, k, p.pid) :: k == key
    ensures PidsDistinct(d)
  {
    forall j, k | Has(d, j) && Has(d, k) && j != k && Get(d, j).pid > 0
      ensures Get(d, j).pid != Get(d, k).pid
    {
      assert j != key ==> Has(c, j) && (p.pid > 0 ==> !Matches(c, j, p.pid));
      assert k != key ==> Has(c, k) && (p.pid > 0 ==> !Matches(c, k, p.pid));
    }
  }

  // Changing a value in place registers nobody new.
  lemma UpdateKeepsObjects(s: Sys, d: Containers, key: Key, p: Process)
    requires SendsOk(s.sends, s.containers, s.nextObj)
    requires DeletesOk(s.log, s.containers, s.nextObj)
    requires DeletionsOk(s.deletions, s.containers, s.nextObj)
    requires Updated(s.containers, d, key, p)
    requires Has(s.containers, key) && Get(s.containers, key).obj == p.obj
    ensures SendsOk(s.sends, d, s.nextObj)
    ensures DeletesOk(s.log, d, s.nextObj)
    ensures DeletionsOk(s.deletions, d, s.nextObj)
  {
    forall obj | Registered(d, obj)
      ensures Registered(s.containers, obj)
    {
      var k :| Has(d, k) && Get(d, k).obj == obj;
      assert Has(s.containers, k) && Get(s.containers, k).obj == obj;
    }
  }

  lemma UpdateKeepsWaits(waits: seq<WaitCall>, c: Containers, d: Containers, key: Key, p: Process, nextObj: nat)
    requires WaitsOk(waits, c, nextObj) && Updated(c, d, key, p)
    requires Has(c, key) && p.obj == Get(c, key).obj
    requires || (p.waiters == Get(c, key).waiters && p.exitedAt == Get(c, key).exitedAt)
             || (p.waiters == [] && p.exitedAt.Some?)
    ensures WaitsOk(waits, d, nextObj)
  {
    forall w | 0 <= w < |waits|
      ensures WaitOk(w, waits[w], d, nextObj)
    {
      assert WaitOk(w, waits[w], c, nextObj);
    }
  }

  // The value stays the same one: only its state or its place in the kernel changed.
  lemma UpdateKeepsReports(s: Sys, d: Containers, key: Key, p: Process)
    requires ReportInv(s) && Updated(s.containers, d, key, p)
    requires Has(s.containers, key)
    requires var q := Get(s.containers, key); p.obj == q.obj && p.waiters == q.waiters && p.exitedAt == q.exitedAt
    ensures ReportInv(s.(containers := d))
  {
    UpdateKeepsObjects(s, d, key, p);
    UpdateKeepsWaits(s.waits, s.containers, d, key, p, s.nextObj);
  }

  lemma InsertKeepsReports(s: Sys, d: Containers, key: Key, p: Process)
    requires ReportInv(s) && Updated(s.containers, d, key, p)
    requires p.obj == s.nextObj && p.waiters == []
    ensures ReportInv(s.(containers := d, nextObj := s.nextObj + 1))
  {
    forall obj | Registered(d, obj) && obj != p.obj
      ensures Registered(s.containers, obj)
    {
      var k :| Has(d, k) && Get(d, k).obj == obj;
      assert Has(s.containers, k) && Get(s.containers, k).obj == obj;
    }
    forall w | 0 <= w < |s.waits|
      ensures WaitOk(w, s.waits[w], d, s.nextObj + 1)
    {
      assert WaitOk(w, s.waits[w], s.containers, s.nextObj);
    }
  }

  // ---- the kernel's steps ----

  // A new child under a free pid.
  lemma SpawnKeepsExits(s: Sys, pid: int)
    requires ExitsInv(s) && PidFree(s, pid)
    ensures ExitsInv(Spawn(s, pid))
  {
    assert Pending(Spawn(s, pid)) == Pending(s);
  }

  lemma SpawnKeeps(s: Sys, pid: int)
    requires ExitsInv(s) && PidFree(s, pid)
    ensures ExitsInv(Spawn(s, pid))
    ensures ProcessesOk(s.containers, s.kernel, Pending(s), s.exits) ==>
              ProcessesOk(s.containers, Spawn(s, pid).kernel, Pending(s), s.exits)
    ensures RuncOk(s.lock, s.kernel, Pending(s), s.reaped, s.exits) ==>
              RuncOk(s.lock, Spawn(s, pid).kernel, Pending(s), s.reaped, s.exits)
    ensures LaunchOk(s.lock, s.containers, s.kernel, Pending(s)) ==>
              LaunchOk(s.lock, s.containers, Spawn(s, pid).kernel, Pending(s))
  {
    SpawnKeepsExits(s, pid);
    var kernel := Spawn(s, pid).kernel;
    forall k | Has(s.containers, k) && ProcessOk(Get(s.containers, k), s.kernel, Pending(s), s.exits)
      ensures ProcessOk(Get(s.containers, k), kernel, Pending(s), s.exits)
    {
      assert !Matches(s.containers, k, pid);
    }
  }

  lemma OrphanInv(s: Sys, pid: int)
    requires Inv(s) && PidFree(s, pid)
    ensures Inv(Spawn(s, pid))
  {
    SpawnKeeps(s, pid);
  }

  lemma LaunchInv(s: Sys, pid: int)
    requires Inv(s) && CanLaunch(s, pid)
    ensures Inv(LaunchedBy(s, pid))
  {
    SpawnKeeps(s, pid);
  }

  lemma PumpKillsInv(s: Sys, cid: Id, rpid: int)
    requires Inv(s) && CanPumpKill(s, cid, rpid)
    ensures Inv(PumpKilling(s, cid, rpid))
  {
    SpawnKeeps(s, rpid);
  }

  lemma DiesKeepsExits(s: Sys, pid: int, code: int)
    requires ExitsInv(s) && CanDie(s, pid)
    ensures ExitsInv(Dead(s, pid, code))
  {
    assert Pending(Dead(s, pid, code)) == Pending(s);
  }

  // A process's exit code is settled once; nothing known about another exit changes.
  lemma DiesKeepsProcess(p: Process, s: Sys, pid: int, code: int)
    requires ExitsInv(s) && CanDie(s, pid)
    requires ProcessOk(p, s.kernel, Pending(s), s.exits)
    ensures var t := Dead(s, pid, code); ProcessOk(p, t.kernel, Pending(s), t.exits)
  {
  }

  lemma DiesKeepsLock(s: Sys, pid: int, code: int)
    requires ExitsInv(s) && LockInv(s) && CanDie(s, pid)
    ensures LockInv(Dead(s, pid, code))
  {
    assert Pending(Dead(s, pid, code)) == Pending(s);
  }

  lemma DiesInv(s: Sys, pid: int, code: int)
    requires Inv(s) && CanDie(s, pid)
    ensures Inv(Dead(s, pid, code))
  {
    var t := Dead(s, pid, code);
    assert Pending(t) == Pending(s);
    DiesKeepsExits(s, pid, code);
    forall k | Has(s.containers, k)
      ensures ProcessOk(Get(s.containers, k), t.kernel, Pending(s), t.exits)
    {
      DiesKeepsProcess(Get(s.containers, k), s, pid, code);
    }
    assert ProcessInv(t);
    DiesKeepsLock(s, pid, code);
    assert ReportInv(t);
  }

  lemma Appended(pend: seq<Exit>, e: Exit)
    ensures forall pid, inst :: Delivered(pend + [e], pid, inst) <==>
              Delivered(pend, pid, inst) || (pid == e.pid && inst == e.inst)
    ensures forall pid :: PidPending(pend + [e], pid) <==> PidPending(pend, pid) || pid == e.pid
  {
    var q := pend + [e];
    assert q[|pend|] == e;
    forall pid, inst | Delivered(pend, pid, inst)
      ensures Delivered(q, pid, inst)
    {
      var i :| 0 <= i < |pend| && pend[i].pid == pid && pend[i].inst == inst;
      assert q[i] == pend[i];
    }
    forall pid | PidPending(pend, pid)
      ensures PidPending(q, pid)
    {
      var i :| 0 <= i < |pend| && pend[i].pid == pid;
      assert q[i] == pend[i];
    }
  }

  lemma ReapKeepsExits(s: Sys, pid: int)
    requires ExitsInv(s) && CanReap(s, pid)
    ensures ExitsInv(Reaped(s, pid))
  {
    var e := Exit(pid, s.kernel[pid].inst, s.kernel[pid].state.code);
    assert Pending(Reaped(s, pid)) == Pending(s) + [e];
  }

  // Whatever the kernel gave up is on its way to the pump now.
  lemma ReapKeepsTracked(s: Sys, pid: int, p: int, inst: nat)
    requires CanReap(s, pid) && Tracked(s.kernel, Pending(s), p, inst)
    ensures Tracked(Reaped(s, pid).kernel, Pending(Reaped(s, pid)), p, inst)
  {
    var e := Exit(pid, s.kernel[pid].inst, s.kernel[pid].state.code);
    assert Pending(Reaped(s, pid)) == Pending(s) + [e];
    Appended(Pending(s), e);
  }

  lemma ReapKeepsProcess(p: Process, s: Sys, pid: int)
    requires CanReap(s, pid) && ProcessOk(p, s.kernel, Pending(s), s.exits)
    ensures var t := Reaped(s, pid); ProcessOk(p, t.kernel, Pending(t), s.exits)
  {
    var e := Exit(pid, s.kernel[pid].inst, s.kernel[pid].state.code);
    assert Pending(Reaped(s, pid)) == Pending(s) + [e];
    Appended(Pending(s), e);
  }

  lemma ReapKeepsLock(s: Sys, pid: int)
    requires ExitsInv(s) && LockInv(s) && CanReap(s, pid)
    ensures LockInv(Reaped(s, pid))
  {
    var r := InFlight(s.lock);
    if r.Some? {
      ReapKeepsTracked(s, pid, r.value.pid, r.value.inst);
    }
    if s.lock.Handler? && s.lock.launched.Some? {
      ReapKeepsTracked(s, pid, s.lock.launched.value.pid, s.lock.launched.value.inst);
    }
  }

  lemma ReapInv(s: Sys, pid: int)
    requires Inv(s) && CanReap(s, pid)
    ensures Inv(Reaped(s, pid))
  {
    var t := Reaped(s, pid);
    ReapKeepsExits(s, pid);
    forall k | Has(s.containers, k)
      ensures ProcessOk(Get(s.containers, k), t.kernel, Pending(t), s.exits)
    {
      ReapKeepsProcess(Get(s.containers, k), s, pid);
    }
    assert ProcessInv(t);
    ReapKeepsLock(s, pid);
    assert ReportInv(t);
  }

  // The command in flight, if its exit this is, finds it in its subscription.
  lemma NotifyKeepsLock(s: Sys)
    requires ExitsInv(s) && LockInv(s) && s.reaped.Some?
    ensures LockInv(NotifiedBy(s))
  {
    var t := NotifiedBy(s);
    var e := s.reaped.value;
    var r := InFlight(s.lock);
    assert Pending(t) == Pending(s);
    assert Pending(s)[|Pending(s)| - 1] == e;
    if r.Some? {
      Appended(r.value.mail, e);
      assert InFlight(t.lock) == Some(r.value.(mail := r.value.mail + [e]));
    }
  }

  lemma NotifyInv(s: Sys)
    requires Inv(s) && s.reaped.Some?
    ensures Inv(NotifiedBy(s))
  {
    var t := NotifiedBy(s);
    assert Pending(t) == Pending(s);
    NotifyKeepsLock(s);
    assert ExitsInv(t);
    assert ProcessInv(t);
    assert ReportInv(t);
  }

  lemma ReaperWakesInv(s: Sys)
    requires Inv(s) && s.sigchld && !s.draining
    ensures Inv(s.(sigchld := false, draining := true))
  {
  }

  lemma ReaperSleepsInv(s: Sys)
    requires Inv(s) && s.draining && s.reaped.None? && NoZombies(s)
    ensures Inv(s.(draining := false))
  {
  }

  // ---- the pump ----

  // Acting on the oldest exit forgets it, and nothing else.
  lemma Popped(pend: seq<Exit>)
    requires pend != []
    ensures forall pid, inst :: Delivered(pend, pid, inst) ==>
              Delivered(pend[1..], pid, inst) || (pid == pend[0].pid && inst == pend[0].inst)
    ensures forall pid :: PidPending(pend[1..], pid) ==> PidPending(pend, pid)
  {
    var q := pend[1..];
    forall pid, inst | Delivered(pend, pid, inst) && !(pid == pend[0].pid && inst == pend[0].inst)
      ensures Delivered(q, pid, inst)
    {
      var i :| 0 <= i < |pend| && pend[i].pid == pid && pend[i].inst == inst;
      assert q[i - 1] == pend[i];
    }
    forall pid | PidPending(q, pid)
      ensures PidPending(pend, pid)
    {
      var i :| 0 <= i < |q| && q[i].pid == pid;
      assert pend[i + 1] == q[i];
    }
  }

  lemma PumpReceiveInv(s: Sys)
    requires Inv(s) && CanPumpReceive(s)
    ensures Inv(InHand(s))
  {
    assert Pending(InHand(s)) == Pending(s);
  }

  lemma PopKeepsExits(pend: seq<Exit>, kernel: Children, exits: map<nat, int>)
    requires pend != [] && PendingOk(pend, kernel, exits)
    ensures PendingOk(pend[1..], kernel, exits)
    ensures Spent(pend[0].inst, kernel, pend[1..], exits)
    ensures forall inst | Spent(inst, kernel, pend, exits) ::
              Spent(inst, kernel, pend[1..], exits) && inst != pend[0].inst
    ensures !PidPending(pend[1..], pend[0].pid)
  {
    var q := pend[1..];
    assert forall i | 0 <= i < |q| :: q[i] == pend[i + 1];
  }

  // Only the process that the oldest exit is about loses its place in the queue.
  lemma PopKeepsProcess(p: Process, kernel: Children, pend: seq<Exit>, exits: map<nat, int>)
    requires pend != [] && ProcessOk(p, kernel, pend, exits)
    requires p.pid != pend[0].pid
    ensures ProcessOk(p, kernel, pend[1..], exits)
  {
    Popped(pend);
  }

  // An exit that no registered process carries the pid of is nobody's.
  lemma PumpMissInv(s: Sys)
    requires Inv(s) && CanMiss(s)
    ensures Inv(s.(hand := None))
  {
    var t := s.(hand := None);
    var pend := Pending(s);
    assert Pending(t) == pend[1..] && pend[0] == s.hand.value;
    PopKeepsExits(pend, s.kernel, s.exits);
    assert ExitsInv(t);
    forall k | Has(s.containers, k)
      ensures ProcessOk(Get(s.containers, k), s.kernel, pend[1..], s.exits)
    {
      assert !Matches(s.containers, k, pend[0].pid);
      PopKeepsProcess(Get(s.containers, k), s.kernel, pend, s.exits);
    }
    assert ProcessInv(t);
    assert LockInv(t);
  }

  // The process that carries the pid of a pending exit is the one that exited.
  lemma Identified(s: Sys, key: Key)
    requires Inv(s) && s.hand.Some? && Matches(s.containers, key, s.hand.value.pid)
    ensures Get(s.containers, key).inst == s.hand.value.inst
    ensures Get(s.containers, key).state != STOPPED
  {
    var p := Get(s.containers, key);
    var pend := Pending(s);
    assert pend[0] == s.hand.value;
    assert PidPending(pend, p.pid);
    assert Delivered(pend, p.pid, p.inst);
  }

  lemma PumpMarksInv(s: Sys, key: Key, now: int)
    requires Inv(s) && CanMark(s, key)
    ensures Inv(Marked(s, key, now))
  {
    var t := Marked(s, key, now);
    var pend := Pending(s);
    assert Pending(t) == pend[1..] && pend[0] == s.hand.value;
    Identified(s, key);
    PopKeepsExits(pend, s.kernel, s.exits);
    assert ExitsInv(t);
    MarkKeepsProcesses(s, key, now);
    assert ProcessInv(t);
    PutGet(s.containers, key, Get(t.containers, key));
    assert LockInv(t);
    MarkKeepsReports(s, key, now);
    assert ReportInv(t);
  }

  lemma MarkKeepsProcesses(s: Sys, key: Key, now: int)
    requires Inv(s) && CanMark(s, key)
    ensures ProcessInv(Marked(s, key, now))
  {
    var t := Marked(s, key, now);
    var q := Get(s.containers, key);
    var p := Exited(q, s.hand.value.code, now);
    var pend := Pending(s);
    assert Pending(t) == pend[1..] && pend[0] == s.hand.value;
    Identified(s, key);
    PopKeepsExits(pend, s.kernel, s.exits);
    PutGet(s.containers, key, p);
    assert Truthful(pend[0], s.exits);
    assert ProcessOk(p, s.kernel, pend[1..], s.exits);
    forall k | Has(t.containers, k)
      ensures ProcessOk(Get(t.containers, k), s.kernel, pend[1..], s.exits)
    {
      if k != key {
        PopKeepsProcess(Get(s.containers, k), s.kernel, pend, s.exits);
      }
    }
    UpdateKeepsDistinct(s.containers, t.containers, key, p);
    assert PausingHidden(t.containers, t.lock);
  }

  // Marking a process is what lets its waiters go.
  lemma MarkKeepsReports(s: Sys, key: Key, now: int)
    requires Inv(s) && CanMark(s, key)
    ensures ReportInv(Marked(s, key, now))
  {
    var t := Marked(s, key, now);
    var p := Get(t.containers, key);
    Identified(s, key);
    PutGet(s.containers, key, p);
    UpdateKeepsObjects(s, t.containers, key, p);
    UpdateKeepsWaits(s.waits, s.containers, t.containers, key, p, s.nextObj);
    PopKeepsExits(Pending(s), s.kernel, s.exits);
    assert Pending(s)[0] == s.hand.value;
    assert ExitsOnce(t.log, t.lock);
  }

  lemma PumpSendsInv(s: Sys)
    requires Inv(s) && CanPumpSend(s)
    ensures Inv(PumpSent(s))
  {
  }

  // ---- the channel ----

  lemma SendInv(s: Sys, i: nat)
    requires Inv(s) && CanSend(s, i)
    ensures Inv(Sent(s, i))
  {
    var t := Sent(s, i);
    var e := s.sends[i];
    assert Pending(t) == Pending(s);
    assert forall j | 0 <= j < |t.log| :: t.log[j] == if j < |s.log| then s.log[j] else e;
    assert ExitsInv(t);
    assert ProcessInv(t);
    assert LockInv(t);
    assert forall j | 0 <= j < |t.sends| :: t.sends[j] == if j < i then s.sends[j] else s.sends[j + 1];
    assert SendsOk(t.sends, t.containers, t.nextObj);
  }

  lemma ForwardInv(s: Sys)
    requires Inv(s) && s.channel != []
    ensures Inv(s.(channel := s.channel[1..]))
  {
  }

  // ---- wait calls ----

  lemma WaitCalledInv(s: Sys, key: Key)
    requires Inv(s) && s.lock.Free? && Has(s.containers, key)
    ensures Inv(Waiting(s, key))
  {
    var reported := ReportedStatus(s.containers, key);
    if reported == RUNNING || reported == CREATED {
      RegisterInv(s, key);
    } else {
      AnswerInv(s, key);
    }
  }

  lemma AnswerInv(s: Sys, key: Key)
    requires Inv(s) && Has(s.containers, key)
    ensures Inv(s.(waits := s.waits + [Answer(s.containers, key)]))
  {
    var t := s.(waits := s.waits + [Answer(s.containers, key)]);
    assert Pending(t) == Pending(s);
    forall w | 0 <= w < |t.waits|
      ensures WaitOk(w, t.waits[w], s.containers, s.nextObj)
    {
      assert w < |s.waits| ==> WaitOk(w, s.waits[w], s.containers, s.nextObj);
    }
    assert WaitsOk(t.waits, t.containers, t.nextObj);
  }

  lemma RegisterInv(s: Sys, key: Key)
    requires Inv(s) && s.lock.Free? && Has(s.containers, key) && Get(s.containers, key).state != STOPPED
    ensures var p := Get(s.containers, key);
            Inv(s.(containers := Put(s.containers, key, Awaited(p, |s.waits|)),
                waits := s.waits + [Blocked(key, p.obj)]))
  {
    var q := Get(s.containers, key);
    var p := Awaited(q, |s.waits|);
    var d := Put(s.containers, key, p);
    PutGet(s.containers, key, p);
    var t := s.(containers := d, waits := s.waits + [Blocked(key, p.obj)]);
    assert Pending(t) == Pending(s);
    UpdateKeepsProcesses(s, d, key, p, Free);
    assert ProcessInv(t);
    forall obj | Registered(d, obj)
      ensures Registered(s.containers, obj)
    {
      var k :| Has(d, k) && Get(d, k).obj == obj;
      assert Has(s.containers, k) && Get(s.containers, k).obj == obj;
    }
    RegisterKeepsWaits(s, key);
  }

  lemma RegisterKeepsWaits(s: Sys, key: Key)
    requires WaitsOk(s.waits, s.containers, s.nextObj) && ObjsOk(s.containers, s.nextObj)
    requires Has(s.containers, key) && Get(s.containers, key).state != STOPPED
    ensures var p := Get(s.containers, key);
            WaitsOk(s.waits + [Blocked(key, p.obj)], Put(s.containers, key, Awaited(p, |s.waits|)), s.nextObj)
  {
    var q := Get(s.containers, key);
    var p := Awaited(q, |s.waits|);
    var d := Put(s.containers, key, p);
    var waits := s.waits + [Blocked(key, p.obj)];
    PutGet(s.containers, key, p);
    forall w | 0 <= w < |waits|
      ensures WaitOk(w, waits[w], d, s.nextObj)
    {
      assert w < |s.waits| ==> WaitOk(w, s.waits[w], s.containers, s.nextObj);
    }
    forall k | Has(d, k)
      ensures WaitersOk(k, Get(d, k), waits)
    {
      assert WaitersOk(k, Get(s.containers, k), s.waits);
    }
  }

  lemma WaitWakesInv(s: Sys, w: nat)
    requires Inv(s) && CanWake(s, w)
    ensures Inv(Awake(s, w))
  {
  }

  lemma WaitRepliesInv(s: Sys, w: nat)
    requires Inv(s) && CanReply(s, w)
    ensures Inv(Replied(s, w))
  {
  }

  // ---- handlers ----

  lemma RuncReceiveInv(s: Sys)
    requires Inv(s) && CanReceive(s)
    ensures Inv(Received(s))
  {
    var r := InFlight(s.lock).value;
    var t := Received(s);
    assert InFlight(t.lock).value.mail == r.mail[1..];
    Popped(r.mail);
    if r.mail[0].pid != r.pid && PidPending(r.mail, r.pid) {
      var i :| 0 <= i < |r.mail| && r.mail[i].pid == r.pid;
      assert r.mail[1..][i - 1] == r.mail[i];
    }
  }

  lemma RequestInv(s: Sys, call: Call, rpid: int)
    requires Inv(s) && CanRequest(s, call, rpid)
    ensures Inv(RequestedBy(s, call, rpid))
  {
    SpawnKeeps(s, rpid);
    var t := RequestedBy(s, call, rpid);
    assert Pending(t) == Pending(s);
    assert ExitsInv(t);
    if call.Pause? {
      PauseRequested(s, call.cid, rpid);
    } else {
      assert ProcessInv(t);
      assert ReportInv(t);
    }
    RequestedLock(s, call, rpid);
  }

  lemma RequestedLock(s: Sys, call: Call, rpid: int)
    requires LockInv(s) && CanRequest(s, call, rpid) && Tracked(Spawn(s, rpid).kernel, Pending(s), rpid, s.nextInst)
    ensures LockInv(RequestedBy(s, call, rpid))
  {
    assert Pending(RequestedBy(s, call, rpid)) == Pending(s);
  }

  lemma PauseRequested(s: Sys, cid: Id, rpid: int)
    requires ProcessInv(s) && ReportInv(s) && CanRequest(s, Pause(cid), rpid)
    requires ProcessesOk(s.containers, Spawn(s, rpid).kernel, Pending(s), s.exits)
    ensures ProcessInv(RequestedBy(s, Pause(cid), rpid)) && ReportInv(RequestedBy(s, Pause(cid), rpid))
  {
    var t := RequestedBy(s, Pause(cid), rpid);
    assert Pending(t) == Pending(s);
    var key := Key(cid, None);
    var p := InState(s.containers[cid].init, PAUSING);
    PutGet(s.containers, key, p);
    UpdateKeepsReports(s, t.containers, key, p);
    PauseKeepsProcesses(s, t, key);
  }

  lemma PauseKeepsProcesses(s: Sys, t: Sys, key: Key)
    requires ProcessInv(s)
    requires Has(s.containers, key) && key.exec.None? && s.lock.Free?
    requires Updated(s.containers, t.containers, key, InState(Get(s.containers, key), PAUSING))
    requires Get(s.containers, key).state == RUNNING
    requires ProcessesOk(s.containers, t.kernel, Pending(t), t.exits)
    requires t.lock.Handler? && t.lock.call == Pause(key.cid) && t.nextObj == s.nextObj
    ensures ProcessInv(t)
  {
    var u := s.(kernel := t.kernel, reaped := t.reaped, queue := t.queue, hand := t.hand, exits := t.exits);
    assert Pending(u) == Pending(t);
    UpdateKeepsProcesses(u, t.containers, key, InState(Get(s.containers, key), PAUSING), t.lock);
  }

  lemma RemoveInv(s: Sys, i: nat)
    requires Inv(s) && s.lock.Free? && i < |s.deletions|
    ensures Inv(Removed(s, i))
  {
    var t := Removed(s, i);
    var d := s.deletions[i];
    assert Shrunk(s.containers, t.containers);
    ShrinkKeepsProcesses(s, t.containers);
    ShrinkKeepsReports(s, t.containers);
    assert !Registered(t.containers, d.obj);
    assert Pending(t) == Pending(s);
    assert ProcessInv(t);
    assert forall j | 0 <= j < |t.deletions| :: t.deletions[j] == if j < i then s.deletions[j] else s.deletions[j + 1];
    assert ReportInv(t);
  }

  lemma DeleteExecInv(s: Sys, cid: Id, exec: Id)
    requires Inv(s) && s.lock.Free? && Has(s.containers, Key(cid, Some(exec)))
    ensures Inv(ExecDeleted(s, cid, exec))
  {
    var t := ExecDeleted(s, cid, exec);
    assert Shrunk(s.containers, t.containers);
    ShrinkKeepsProcesses(s, t.containers);
    ShrinkKeepsReports(s, t.containers);
    assert !Registered(t.containers, Get(s.containers, Key(cid, Some(exec))).obj);
    assert Pending(t) == Pending(s);
    assert ProcessInv(t);
    assert ReportInv(t);
  }

  lemma AddExecInv(s: Sys, cid: Id, exec: Id)
    requires Inv(s) && s.lock.Free? && cid in s.containers
    ensures Inv(ExecAdded(s, cid, exec))
  {
    var t := ExecAdded(s, cid, exec);
    var key := Key(cid, Some(exec));
    PutGet(s.containers, key, Fresh(s.nextObj));
    UpdateKeepsProcesses(s, t.containers, key, Fresh(s.nextObj), Free);
    InsertKeepsReports(s, t.containers, key, Fresh(s.nextObj));
    assert Pending(t) == Pending(s);
    assert ProcessInv(t);
    assert ReportInv(t);
  }

  // What the handler's verdict does to the containers, on the way to letting go of the lock.
  ghost predicate FinishKept(s: Sys, d: Containers) {
    var t := s.(containers := d, nextObj := s.nextObj + 1, lock := Free);
    ProcessInv(t) && ReportInv(t)
  }

  lemma FinishNothing(s: Sys)
    requires Inv(s) && s.lock.Handler? && !s.lock.call.Pause?
    ensures FinishKept(s, s.containers)
  {
    var t := s.(nextObj := s.nextObj + 1, lock := Free);
    assert Pending(t) == Pending(s);
    forall w | 0 <= w < |s.waits|
      ensures WaitOk(w, s.waits[w], s.containers, s.nextObj + 1)
    {
      assert WaitOk(w, s.waits[w], s.containers, s.nextObj);
    }
  }

  lemma DropContainer(c: Containers, cid: Id)
    ensures Shrunk(c, c - {cid})
    ensures forall k, pid :: Matches(c - {cid}, k, pid) ==> Matches(c, k, pid)
  {
  }

  // A new container takes the place of whatever was under its id.
  lemma FinishCreate(s: Sys)
    requires Inv(s) && s.lock.Handler? && s.lock.call.Create? && s.lock.launched.Some?
    ensures FinishKept(s, Finished(s.containers, s.lock.call, s.lock.launched, true, s.nextObj))
  {
    var cid, l := s.lock.call.cid, s.lock.launched.value;
    var rest := s.containers - {cid};
    DropContainer(s.containers, cid);
    CreateOver(s, rest, cid, l);
    var created := Container(Launched(Fresh(s.nextObj), l.pid, l.inst), map[]);
    assert rest[cid := created] == s.containers[cid := created];
  }

  lemma CreateOver(s: Sys, rest: Containers, cid: Id, l: Adopted)
    requires ProcessInv(s) && ReportInv(s) && s.lock.Handler? && s.lock.call.Create?
    requires l.pid > 0 && Tracked(s.kernel, Pending(s), l.pid, l.inst)
    requires Shrunk(s.containers, rest) && cid !in rest
    requires forall k :: !Matches(rest, k, l.pid)
    ensures FinishKept(s, rest[cid := Container(Launched(Fresh(s.nextObj), l.pid, l.inst), map[])])
  {
    var u := s.(containers := rest);
    assert Pending(u) == Pending(s);
    ShrinkKeepsProcesses(s, rest);
    ShrinkKeepsReports(s, rest);
    InsertCreated(u, cid, l);
  }

  lemma InsertCreated(s: Sys, cid: Id, l: Adopted)
    requires ProcessInv(s) && ReportInv(s) && s.lock.Handler? && s.lock.call.Create? && cid !in s.containers
    requires l.pid > 0 && Tracked(s.kernel, Pending(s), l.pid, l.inst)
    requires forall k :: !Matches(s.containers, k, l.pid)
    ensures FinishKept(s, s.containers[cid := Container(Launched(Fresh(s.nextObj), l.pid, l.inst), map[])])
  {
    var key, p := Key(cid, None), Launched(Fresh(s.nextObj), l.pid, l.inst);
    var d := s.containers[cid := Container(p, map[])];
    assert Updated(s.containers, d, key, p);
    UpdateKeepsProcesses(s, d, key, p, Free);
    InsertKeepsReports(s, d, key, p);
    assert ReportInv(s.(containers := d, nextObj := s.nextObj + 1, lock := Free));
  }

  // Start, pause and resume change one process in place.
  lemma FinishInPlace(s: Sys, key: Key, p: Process)
    requires Inv(s) && s.lock.Handler? && Has(s.containers, key)
    requires p.state != PAUSING && ProcessOk(p, s.kernel, Pending(s), s.exits)
    requires p.state == PAUSED ==> key.exec.None?
    requires key.exec.None? ==> p.pid > 0
    requires p.pid > 0 ==> forall k | Matches(s.containers, k, p.pid) :: k == key
    requires var q := Get(s.containers, key); p.obj == q.obj && p.waiters == q.waiters && p.exitedAt == q.exitedAt
    requires s.lock.call.Pause? ==> key == Key(s.lock.call.cid, None)
    ensures FinishKept(s, Put(s.containers, key, p))
  {
    var d := Put(s.containers, key, p);
    PutGet(s.containers, key, p);
    assert Updated(s.containers, d, key, p);
    UpdateKeepsProcesses(s, d, key, p, Free);
    UpdateKeepsReports(s, d, key, p);
    var u := s.(containers := d, nextObj := s.nextObj + 1, lock := Free);
    assert Pending(u) == Pending(s);
    forall w | 0 <= w < |s.waits|
      ensures WaitOk(w, s.waits[w], d, s.nextObj + 1)
    {
      assert WaitOk(w, s.waits[w], d, s.nextObj);
    }
    assert ReportInv(u);
  }

  lemma FinishKeeps(s: Sys, ok: bool)
    requires Inv(s) && CanFinish(s, ok)
    ensures FinishKept(s, Finished(s.containers, s.lock.call, s.lock.launched, ok, s.nextObj))
  {
    var c := s.containers;
    var call := s.lock.call;
    match call {
      case Create(_) =>
        if ok {
          FinishCreate(s);
        } else {
          FinishNothing(s);
        }
      case Start(cid, exec) =>
        if ok {
          var q := Get(c, Key(cid, exec));
          var l := s.lock.launched;
          var p := InState(if exec.Some? then Launched(q, l.value.pid, l.value.inst) else q, RUNNING);
          FinishInPlace(s, Key(cid, exec), p);
        } else {
          FinishNothing(s);
        }
      case Pause(cid) =>
        FinishInPlace(s, Key(cid, None), InState(c[cid].init, if ok then PAUSED else RUNNING));
      case Resume(cid) =>
        if ok {
          FinishInPlace(s, Key(cid, None), InState(c[cid].init, RUNNING));
        } else {
          FinishNothing(s);
        }
      case _ =>
        FinishNothing(s);
    }
  }

  // What a finished delete remembers is the init it looked at.
  lemma FinishDeletions(s: Sys, ok: bool)
    requires Inv(s) && CanFinish(s, ok)
    requires FinishKept(s, Finished(s.containers, s.lock.call, s.lock.launched, ok, s.nextObj))
    ensures var t := FinishedBy(s, ok); DeletionsOk(t.deletions, t.containers, t.nextObj)
  {
    var t := FinishedBy(s, ok);
    var d := ToDelete(s.containers, s.lock.call, ok);
    assert DeletionsOk(s.deletions, t.containers, t.nextObj);
    if d != [] {
      var key := Key(s.lock.call.cid, None);
      assert Has(s.containers, key) && Get(s.containers, key).obj == d[0].obj;
      assert DeletionsOk(d, t.containers, t.nextObj);
    }
  }

  lemma FinishInv(s: Sys, ok: bool)
    requires Inv(s) && CanFinish(s, ok)
    ensures Inv(FinishedBy(s, ok))
  {
    var t := FinishedBy(s, ok);
    FinishKeeps(s, ok);
    FinishDeletions(s, ok);
    assert Pending(t) == Pending(s);
    assert ReportInv(t);
  }
}
