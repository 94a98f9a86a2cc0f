// The containers map of the task service (crates/runc-shim/src/task.rs), with each
// container's init process and execs (crates/runc-shim/src/container.rs), and the lookup
// by pid that the exit pump does in it (crates/runc-shim/src/service.rs).
module Registry {
  import opened Wrappers
  import opened Processes

  type Id = string

  datatype Container = Container(init: Process, processes: map<Id, Process>)

  type Containers = map<Id, Container>

  // A process as requests name it: no exec id means the container's init process.
  datatype Key = Key(cid: Id, exec: Option<Id>)

  predicate Has(c: Containers, k: Key) {
    k.cid in c && (k.exec.Some? ==> k.exec.value in c[k.cid].processes)
  }

  function Get(c: Containers, k: Key): Process
    requires Has(c, k)
  {
    if k.exec.None? then c[k.cid].init else c[k.cid].processes[k.exec.value]
  }

  function Put(c: Containers, k: Key, p: Process): Containers
    requires k.cid in c
  {
    if k.exec.None?
    then c[k.cid := c[k.cid].(init := p)]
    else c[k.cid := c[k.cid].(processes := c[k.cid].processes[k.exec.value := p])]
  }

  function Drop(c: Containers, k: Key): Containers
    requires Has(c, k)
  {
    if k.exec.None?
    then c - {k.cid}
    else c[k.cid := c[k.cid].(processes := c[k.cid].processes - {k.exec.value})]
  }

  // The status that State and Wait report: a pausing or paused init hides its execs' own.
  function ReportedStatus(c: Containers, k: Key): Status
    requires Has(c, k)
  {
    var init := c[k.cid].init.state;
    if init == PAUSING || init == PAUSED then init else Get(c, k).state
  }

  ghost predicate Matches(c: Containers, k: Key, pid: int) {
    Has(c, k) && Get(c, k).pid == pid
  }

  lemma PutGet(c: Containers, k: Key, p: Process)
    requires k.cid in c
    ensures Has(Put(c, k, p), k) && Get(Put(c, k, p), k) == p
    ensures forall j | j != k :: Has(Put(c, k, p), j) <==> Has(c, j)
    ensures forall j | j != k && Has(c, j) :: Get(Put(c, k, p), j) == Get(c, j)
  {
  }
}
