// The shim as a concurrent protocol: the Task handlers (crates/runc-shim/src/task.rs), the
// exit pump (crates/runc-shim/src/service.rs), the SIGCHLD reaper
// (crates/shim/src/asynchronous/mod.rs), the kernel's process table and the bounded event
// channel. One step is what happens between two points where a task can be preempted: a
// section under the containers lock, a part of one that ends in waiting for the OCI
// runtime or for room in the channel, or one queue operation.
//
// The monitor's own mutex is never held across a wait, so putting an exit into every live
// subscription is one step; reaping the process, before that, is another.
module Lifecycle {
  import opened Wrappers
  import opened Processes
  import opened Registry
  import opened Kernel
  import opened Sequences

  const CHANNEL_SIZE: nat := 128

  // A reaped exit as a subscription receives it; `inst` is history.
  datatype Exit = Exit(pid: int, inst: nat, code: int)

  // ---- the containers lock ----

  datatype Call =
    | Create(cid: Id)
    | Start(cid: Id, exec: Option<Id>)
    | Delete(cid: Id)
    | Pause(cid: Id)
    | Resume(cid: Id)
    | Kill(cid: Id)

  // An OCI runtime command that the lock's holder waits for: its pid, the exits its
  // subscription has received and not looked at, and its own exit code once found there.
  datatype Runc = Runc(pid: int, inst: nat, mail: seq<Exit>, code: Option<int>)

  // The container process that a runtime command left behind for the shim to adopt.
  datatype Adopted = Adopted(pid: int, inst: nat)

  datatype Lock =
    | Free
    | Handler(call: Call, runc: Runc, launched: Option<Adopted>)
    | PumpKill(key: Key, runc: Runc)
    | PumpSend(event: Event)

  // ---- what the shim tells containerd ----

  // `obj` and `inst` are history.
  datatype Event =
    | TaskCreate(cid: Id)
    | TaskStart(cid: Id)
    | TaskExecAdded(cid: Id, exec: Id)
    | TaskExecStarted(cid: Id, exec: Id)
    | TaskPaused(cid: Id)
    | TaskResumed(cid: Id)
    | TaskExit(key: Key, obj: nat, inst: nat, pid: int, code: int, at: Option<int>)
    | TaskDelete(cid: Id, obj: nat, pid: int, code: int, at: Option<int>)

  // An init delete between its two lock sections, with what the first one read.
  datatype Deletion = Deletion(cid: Id, obj: nat, pid: int, code: int, at: Option<int>)

  datatype WaitCall =
    | Blocked(key: Key, obj: nat)
    | Woken(key: Key, obj: nat)
    | Answered(key: Key, obj: nat, code: int, at: Option<int>)
    | NotFound

  // `reaped` is the exit that the reaper has taken from the kernel and told nobody of yet.
  // `log` (all events ever put into the channel) and `exits` (the code each kernel process
  // exited with) are history.
  datatype Sys = Sys(
    containers: Containers,
    lock: Lock,
    kernel: Children,
    sigchld: bool,
    draining: bool,
    reaped: Option<Exit>,
    queue: seq<Exit>,
    hand: Option<Exit>,
    channel: seq<Event>,
    sends: seq<Event>,
    deletions: seq<Deletion>,
    waits: seq<WaitCall>,
    log: seq<Event>,
    exits: map<nat, int>,
    nextInst: nat,
    nextObj: nat)

  ghost predicate Init(s: Sys) {
    s == Sys(map[], Free, map[], false, false, None, [], None, [], [], [], [], [], map[], 1, 0)
  }

  // The exits the pump has still to act on, oldest first, with the one on its way to it.
  function Pending(s: Sys): seq<Exit> {
    One(s.hand) + s.queue + One(s.reaped)
  }

  function One(e: Option<Exit>): seq<Exit> {
    if e.Some? then [e.value] else []
  }

  ghost predicate PidPending(pend: seq<Exit>, pid: int) {
    exists i :: 0 <= i < |pend| && pend[i].pid == pid
  }

  // The assumption on the kernel: it does not hand out a pid that an unreaped child has,
  // that a registered process still carries, or whose last exit the pump has yet to act on.
  ghost predicate PidFree(s: Sys, pid: int) {
    && pid > 0
    && pid !in s.kernel
    && !PidPending(Pending(s), pid)
    && forall k :: !Matches(s.containers, k, pid)
  }

  function InFlight(lock: Lock): Option<Runc> {
    match lock
    case Handler(_, r, _) => Some(r)
    case PumpKill(_, r) => Some(r)
    case _ => None
  }

  function WithRunc(lock: Lock, r: Runc): Lock
    requires InFlight(lock).Some?
  {
    match lock
    case Handler(call, _, launched) => Handler(call, r, launched)
    case PumpKill(key, _) => PumpKill(key, r)
  }

  // ---- steps ----

  datatype Step =
    // a handler takes the lock and starts its runtime command
    | Request(call: Call, rpid: int)
    // that command leaves a container process behind
    | Launch(pid: int)
    // some other descendant is reparented to the shim
    | Orphan(pid: int)
    | Dies(pid: int, code: int)
    | ReaperWakes
    | Reap(pid: int)
    // the reaped exit is put into the subscriptions there are by now
    | Notify
    | ReaperSleeps
    // the holder of the lock looks at the next exit in its subscription
    | RuncReceive
    // the handler's command is over; it acts on the result and lets go of the lock
    | Finish(ok: bool)
    // the second lock section of an init delete
    | Remove(i: nat)
    | DeleteExec(cid: Id, exec: Id)
    | AddExec(cid: Id, exec: Id)
    | PumpReceive
    // the pump has the lock: nothing matches
    | PumpMiss
    // an init matches and its other processes are killed through the runtime first
    | PumpKills(cid: Id, rpid: int)
    | PumpMarks(key: Key, now: int)
    | PumpSends
    | Send(i: nat)
    | Forward
    | WaitCalled(key: Key)
    | WaitWakes(w: nat)
    | WaitReplies(w: nat)

  predicate Admissible(c: Containers, call: Call) {
    match call
    case Create(_) => true
    case Start(cid, exec) => cid in c && c[cid].init.state != STOPPED && Has(c, Key(cid, exec))
    case Delete(cid) => cid in c
    case Pause(cid) => cid in c && c[cid].init.state == RUNNING
    case Resume(cid) => cid in c && c[cid].init.state == PAUSED
    case Kill(cid) => cid in c
  }

  // What a handler may conclude from its command. A runtime that succeeded can still be
  // followed by a failure to get at the console or the pid file, or to unmount; deleting
  // what the runtime does not know counts as success.
  predicate Verdict(call: Call, code: int, launched: Option<Adopted>, ok: bool) {
    match call
    case Create(_) => ok ==> code == 0 && launched.Some?
    case Start(_, exec) => if exec.Some? then ok ==> code == 0 && launched.Some? else ok <==> code == 0
    case Delete(_) => true
    case Pause(_) => ok <==> code == 0
    case Resume(_) => ok <==> code == 0
    case Kill(_) => ok <==> code == 0
  }

  // ---- the kernel and the reaper ----

  // A new child process: the kernel names it with the next free instance.
  function Spawn(s: Sys, pid: int): Sys {
    s.(kernel := s.kernel[pid := Child(s.nextInst, Running)], nextInst := s.nextInst + 1)
  }

  // A container process that the command in flight starts is left to the shim.
  ghost predicate CanLaunch(s: Sys, pid: int) {
    && s.lock.Handler?
    && (s.lock.call.Create? || (s.lock.call.Start? && s.lock.call.exec.Some?))
    && s.lock.launched.None?
    && s.lock.runc.code.None?
    && PidFree(s, pid)
  }

  function LaunchedBy(s: Sys, pid: int): Sys
    requires s.lock.Handler?
  {
    Spawn(s, pid).(lock := s.lock.(launched := Some(Adopted(pid, s.nextInst))))
  }

  predicate CanDie(s: Sys, pid: int) {
    pid in s.kernel && s.kernel[pid].state.Running?
  }

  function Dead(s: Sys, pid: int, code: int): Sys
    requires CanDie(s, pid)
  {
    s.(kernel := s.kernel[pid := s.kernel[pid].(state := Zombie(code))],
       exits := s.exits[s.kernel[pid].inst := code],
       sigchld := true)
  }

  predicate CanReap(s: Sys, pid: int) {
    s.draining && s.reaped.None? && pid in s.kernel && s.kernel[pid].state.Zombie?
  }

  function Reaped(s: Sys, pid: int): Sys
    requires CanReap(s, pid)
  {
    s.(kernel := s.kernel - {pid}, reaped := Some(Exit(pid, s.kernel[pid].inst, s.kernel[pid].state.code)))
  }

  // The exit goes into the pump's queue and into the subscription of the runtime command in
  // flight, if there is one by then.
  function NotifiedBy(s: Sys): Sys
    requires s.reaped.Some?
  {
    var e := s.reaped.value;
    var r := InFlight(s.lock);
    s.(reaped := None,
       queue := s.queue + [e],
       lock := if r.Some? then WithRunc(s.lock, r.value.(mail := r.value.mail + [e])) else s.lock)
  }

  ghost predicate NoZombies(s: Sys) {
    forall p | p in s.kernel :: s.kernel[p].state.Running?
  }

  // ---- handlers ----

  ghost predicate CanRequest(s: Sys, call: Call, rpid: int) {
    s.lock.Free? && Admissible(s.containers, call) && PidFree(s, rpid)
  }

  function Requested(c: Containers, call: Call): Containers
    requires Admissible(c, call)
  {
    if call.Pause?
    then Put(c, Key(call.cid, None), InState(c[call.cid].init, PAUSING))
    else c
  }

  function RequestedBy(s: Sys, call: Call, rpid: int): Sys
    requires Admissible(s.containers, call)
  {
    Spawn(s, rpid).(
      containers := Requested(s.containers, call),
      lock := Handler(call, Runc(rpid, s.nextInst, [], None), None))
  }

  predicate CanReceive(s: Sys) {
    var r := InFlight(s.lock);
    r.Some? && r.value.code.None? && r.value.mail != []
  }

  function Received(s: Sys): Sys
    requires CanReceive(s)
  {
    var r := InFlight(s.lock).value;
    var e := r.mail[0];
    s.(lock := WithRunc(s.lock, r.(mail := r.mail[1..], code := if e.pid == r.pid then Some(e.code) else None)))
  }

  predicate CanFinish(s: Sys, ok: bool) {
    s.lock.Handler? && s.lock.runc.code.Some? && Verdict(s.lock.call, s.lock.runc.code.value, s.lock.launched, ok)
  }

  // What every call relies on while it holds the lock.
  predicate CallOk(c: Containers, call: Call) {
    match call
    case Create(_) => true
    case Start(cid, exec) => cid in c && c[cid].init.state != STOPPED && Has(c, Key(cid, exec))
    case Delete(cid) => cid in c
    case Pause(cid) => cid in c && c[cid].init.state == PAUSING
    case Resume(cid) => cid in c && c[cid].init.state == PAUSED
    case Kill(cid) => cid in c
  }

  // The containers after a handler's command.
  function Finished(c: Containers, call: Call, launched: Option<Adopted>, ok: bool, obj: nat): Containers
    requires CallOk(c, call)
    requires ok && (call.Create? || (call.Start? && call.exec.Some?)) ==> launched.Some?
  {
    match call
    case Create(cid) =>
      if ok then c[cid := Container(Launched(Fresh(obj), launched.value.pid, launched.value.inst), map[])] else c
    case Start(cid, exec) =>
      var k := Key(cid, exec);
      if !ok then c
      else if exec.Some?
      then Put(c, k, InState(Launched(Get(c, k), launched.value.pid, launched.value.inst), RUNNING))
      else Put(c, k, InState(Get(c, k), RUNNING))
    case Pause(cid) => Put(c, Key(cid, None), InState(c[cid].init, if ok then PAUSED else RUNNING))
    case Resume(cid) => if ok then Put(c, Key(cid, None), InState(c[cid].init, RUNNING)) else c
    case Delete(_) => c
    case Kill(_) => c
  }

  function Announced(call: Call, ok: bool): seq<Event> {
    if !ok then []
    else match call
         case Create(cid) => [TaskCreate(cid)]
         case Start(cid, exec) => if exec.Some? then [TaskExecStarted(cid, exec.value)] else [TaskStart(cid)]
         case Pause(cid) => [TaskPaused(cid)]
         case Resume(cid) => [TaskResumed(cid)]
         case Delete(_) => []
         case Kill(_) => []
  }

  function ToDelete(c: Containers, call: Call, ok: bool): seq<Deletion>
    requires call.Delete? ==> call.cid in c
  {
    if ok && call.Delete?
    then
      var init := c[call.cid].init;
      [Deletion(call.cid, init.obj, init.pid, init.exitCode, init.exitedAt)]
    else []
  }

  function FinishedBy(s: Sys, ok: bool): Sys
    requires CanFinish(s, ok) && CallOk(s.containers, s.lock.call)
  {
    s.(containers := Finished(s.containers, s.lock.call, s.lock.launched, ok, s.nextObj),
       nextObj := s.nextObj + 1,
       lock := Free,
       sends := s.sends + Announced(s.lock.call, ok),
       deletions := s.deletions + ToDelete(s.containers, s.lock.call, ok))
  }

  // The second section of an init delete takes whatever is under the id by then.
  function Removed(s: Sys, i: nat): Sys
    requires i < |s.deletions|
  {
    var d := s.deletions[i];
    s.(containers := s.containers - {d.cid},
       deletions := Without(s.deletions, i),
       sends := s.sends + [TaskDelete(d.cid, d.obj, d.pid, d.code, d.at)])
  }

  function ExecDeleted(s: Sys, cid: Id, exec: Id): Sys
    requires Has(s.containers, Key(cid, Some(exec)))
  {
    var k := Key(cid, Some(exec));
    var p := Get(s.containers, k);
    s.(containers := Drop(s.containers, k),
       sends := s.sends + [TaskDelete(cid, p.obj, p.pid, p.exitCode, p.exitedAt)])
  }

  function ExecAdded(s: Sys, cid: Id, exec: Id): Sys
    requires cid in s.containers
  {
    s.(containers := Put(s.containers, Key(cid, Some(exec)), Fresh(s.nextObj)),
       nextObj := s.nextObj + 1,
       sends := s.sends + [TaskExecAdded(cid, exec)])
  }

  // ---- the pump ----

  predicate CanPumpReceive(s: Sys) {
    s.hand.None? && !s.lock.PumpSend? && s.queue != []
  }

  function InHand(s: Sys): Sys
    requires CanPumpReceive(s)
  {
    s.(hand := Some(s.queue[0]), queue := s.queue[1..])
  }

  ghost predicate CanMiss(s: Sys) {
    s.lock.Free? && s.hand.Some? && forall k :: !Matches(s.containers, k, s.hand.value.pid)
  }

  ghost predicate CanPumpKill(s: Sys, cid: Id, rpid: int) {
    && s.lock.Free? && s.hand.Some?
    && Matches(s.containers, Key(cid, None), s.hand.value.pid)
    && PidFree(s, rpid)
  }

  function PumpKilling(s: Sys, cid: Id, rpid: int): Sys {
    Spawn(s, rpid).(lock := PumpKill(Key(cid, None), Runc(rpid, s.nextInst, [], None)))
  }

  // The pump has found its process, and has seen to the process's children if it had to.
  ghost predicate CanMark(s: Sys, key: Key) {
    && s.hand.Some?
    && Matches(s.containers, key, s.hand.value.pid)
    && (s.lock.Free? || (s.lock.PumpKill? && s.lock.key == key && s.lock.runc.code.Some?))
  }

  function Marked(s: Sys, key: Key, now: int): Sys
    requires s.hand.Some? && Has(s.containers, key)
  {
    var p := Exited(Get(s.containers, key), s.hand.value.code, now);
    s.(containers := Put(s.containers, key, p),
       hand := None,
       lock := PumpSend(TaskExit(key, p.obj, p.inst, p.pid, p.exitCode, p.exitedAt)))
  }

  predicate CanPumpSend(s: Sys) {
    s.lock.PumpSend? && |s.channel| < CHANNEL_SIZE
  }

  function PumpSent(s: Sys): Sys
    requires CanPumpSend(s)
  {
    s.(channel := s.channel + [s.lock.event], log := s.log + [s.lock.event], lock := Free)
  }

  // ---- the channel ----

  predicate CanSend(s: Sys, i: nat) {
    i < |s.sends| && |s.channel| < CHANNEL_SIZE
  }

  function Sent(s: Sys, i: nat): Sys
    requires CanSend(s, i)
  {
    s.(channel := s.channel + [s.sends[i]], log := s.log + [s.sends[i]], sends := Without(s.sends, i))
  }

  // ---- wait calls ----

  function Answer(c: Containers, key: Key): WaitCall
    requires Has(c, key)
  {
    var p := Get(c, key);
    Answered(key, p.obj, p.exitCode, p.exitedAt)
  }

  function Waiting(s: Sys, key: Key): Sys
    requires Has(s.containers, key)
  {
    var p := Get(s.containers, key);
    var reported := ReportedStatus(s.containers, key);
    if reported != RUNNING && reported != CREATED
    then s.(waits := s.waits + [Answer(s.containers, key)])
    else s.(containers := Put(s.containers, key, Awaited(p, |s.waits|)), waits := s.waits + [Blocked(key, p.obj)])
  }

  // A blocked call wakes when nobody holds its sender any more.
  ghost predicate CanWake(s: Sys, w: nat) {
    w < |s.waits| && s.waits[w].Blocked? && forall k | Has(s.containers, k) :: w !in Get(s.containers, k).waiters
  }

  function Awake(s: Sys, w: nat): Sys
    requires w < |s.waits| && s.waits[w].Blocked?
  {
    s.(waits := s.waits[w := Woken(s.waits[w].key, s.waits[w].obj)])
  }

  predicate CanReply(s: Sys, w: nat) {
    s.lock.Free? && w < |s.waits| && s.waits[w].Woken?
  }

  function Replied(s: Sys, w: nat): Sys
    requires CanReply(s, w)
  {
    var key := s.waits[w].key;
    s.(waits := s.waits[w := if Has(s.containers, key) then Answer(s.containers, key) else NotFound])
  }

  // ---- all of them ----

  ghost predicate Enabled(s: Sys, a: Step) {
    match a
    case Request(call, rpid) => CanRequest(s, call, rpid)
    case Launch(pid) => CanLaunch(s, pid)
    case Orphan(pid) => PidFree(s, pid)
    case Dies(pid, _) => CanDie(s, pid)
    case ReaperWakes => s.sigchld && !s.draining
    case Reap(pid) => CanReap(s, pid)
    case Notify => s.reaped.Some?
    case ReaperSleeps => s.draining && s.reaped.None? && NoZombies(s)
    case RuncReceive => CanReceive(s)
    case Finish(ok) => CanFinish(s, ok)
    case Remove(i) => s.lock.Free? && i < |s.deletions|
    case DeleteExec(cid, exec) => s.lock.Free? && Has(s.containers, Key(cid, Some(exec)))
    case AddExec(cid, exec) => s.lock.Free? && cid in s.containers
    case PumpReceive => CanPumpReceive(s)
    case PumpMiss => CanMiss(s)
    case PumpKills(cid, rpid) => CanPumpKill(s, cid, rpid)
    case PumpMarks(key, _) => CanMark(s, key)
    case PumpSends => CanPumpSend(s)
    case Send(i) => CanSend(s, i)
    case Forward => s.channel != []
    case WaitCalled(key) => s.lock.Free? && Has(s.containers, key)
    case WaitWakes(w) => CanWake(s, w)
    case WaitReplies(w) => CanReply(s, w)
  }

  function Apply(s: Sys, a: Step): Sys
    requires Enabled(s, a)
    requires s.lock.Handler? ==> CallOk(s.containers, s.lock.call)
  {
    match a
    case Request(call, rpid) => RequestedBy(s, call, rpid)
    case Launch(pid) => LaunchedBy(s, pid)
    case Orphan(pid) => Spawn(s, pid)
    case Dies(pid, code) => Dead(s, pid, code)
    case ReaperWakes => s.(sigchld := false, draining := true)
    case Reap(pid) => Reaped(s, pid)
    case Notify => NotifiedBy(s)
    case ReaperSleeps => s.(draining := false)
    case RuncReceive => Received(s)
    case Finish(ok) => FinishedBy(s, ok)
    case Remove(i) => Removed(s, i)
    case DeleteExec(cid, exec) => ExecDeleted(s, cid, exec)
    case AddExec(cid, exec) => ExecAdded(s, cid, exec)
    case PumpReceive => InHand(s)
    case PumpMiss => s.(hand := None)
    case PumpKills(cid, rpid) => PumpKilling(s, cid, rpid)
    case PumpMarks(key, now) => Marked(s, key, now)
    case PumpSends => PumpSent(s)
    case Send(i) => Sent(s, i)
    case Forward => s.(channel := s.channel[1..])
    case WaitCalled(key) => Waiting(s, key)
    case WaitWakes(w) => Awake(s, w)
    case WaitReplies(w) => Replied(s, w)
  }
}
