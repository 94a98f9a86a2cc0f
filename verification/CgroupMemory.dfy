// Changing a cgroup's memory and swap limits (crates/shim/src/cgroup.rs). The kernel's side
// of both cgroup versions is part of the model: what a write to each file does, and when it
// is refused.
module CgroupMemory {
  import opened Wrappers

  const I64_MAX: int := 0x7fff_ffff_ffff_ffff
  const I64_MIN: int := -0x8000_0000_0000_0000

  type I64 = x: int | I64_MIN <= x <= I64_MAX

  datatype SwapError = NoMemoryLimit | InvalidLimit | BelowLimit

  // The request counts memory plus swap; cgroup v2 counts swap alone. None: write nothing.
  // What is converted is the rest of the request beside the memory limit, and that exists
  // exactly if the memory limit is positive and fits into the request.
  function SwapForV2(swap: I64, limit: Option<I64>): (r: Result<Option<I64>, SwapError>)
    ensures swap !in {0, -1} && limit != Some(-1) ==> (r.Ok? <==> limit.Some? && 0 < limit.value <= swap)
    ensures swap !in {0, -1} && limit != Some(-1) && r.Ok? ==>
              r.value.Some? && 0 <= r.value.value && limit.value + r.value.value == swap
    ensures swap !in {0, -1} && limit == Some(-1) ==> r == Ok(Some(swap))
    ensures swap == 0 ==> r == Ok(if limit == Some(-1) then Some(-1) else None)
    ensures swap == -1 ==> r == Ok(Some(-1))
  {
    var l := if limit.Some? then limit.value else 0;
    if swap == 0 then Ok(if l == -1 then Some(-1) else None)
    else if swap == -1 || l == -1 then Ok(Some(swap))
    else if l == 0 then Err(NoMemoryLimit)
    else if l < 0 then Err(InvalidLimit)
    else if swap < l then Err(BelowLimit)
    else Ok(Some(swap - l))
  }

  // ---- the kernel ----

  const PAGE: int := 4096
  const TOP: int := I64_MAX / PAGE

  // Version 1 counts in pages, with TOP for no limit; `used` and `usedSw` are what reclaim
  // cannot free of memory, and of memory and swap. Version 2 keeps the bytes written, -1 for
  // "max"; without swap accounting there is no memory.swap.max.
  datatype Memory =
    | V1(limit: int, memsw: int, used: int, usedSw: int)
    | V2(max: int, swapMax: Option<int>)

  predicate Legal(m: Memory) {
    match m
    case V1(limit, memsw, used, usedSw) => 0 <= limit <= memsw <= TOP && 0 <= used <= usedSw
    case V2(max, swapMax) => -1 <= max <= I64_MAX && (swapMax.Some? ==> -1 <= swapMax.value <= I64_MAX)
  }

  datatype Errno = EINVAL | EBUSY | ENOENT

  function Pages(v: I64): int {
    if v == -1 then TOP else v / PAGE
  }

  // memory.limit_in_bytes, or memory.max
  function LimitWritten(m: Memory, v: I64): Result<Memory, Errno> {
    if v < -1 then Err(EINVAL)
    else match m
         case V1(_, memsw, used, _) =>
           if Pages(v) > memsw then Err(EINVAL)
           else if Pages(v) < used then Err(EBUSY)
           else Ok(m.(limit := Pages(v)))
         case V2(_, _) => Ok(m.(max := v))
  }

  // memory.memsw.limit_in_bytes, or memory.swap.max
  function SwapWritten(m: Memory, v: I64): Result<Memory, Errno> {
    match m
    case V1(limit, _, _, usedSw) =>
      if v < -1 || Pages(v) < limit then Err(EINVAL)
      else if Pages(v) < usedSw then Err(EBUSY)
      else Ok(m.(memsw := Pages(v)))
    case V2(_, swapMax) =>
      if swapMax.None? then Err(ENOENT)
      else if v < -1 then Err(EINVAL)
      else Ok(m.(swapMax := Some(v)))
  }

  // `max` is what reading memory.max as a number gives when it holds no number.
  function LimitInBytes(m: Memory, max: I64): I64
    requires Legal(m)
  {
    match m
    case V1(limit, _, _, _) => limit * PAGE
    case V2(l, _) => if l == -1 then max else l
  }

  // ---- the order on version 1 ----

  // Both writes in one of the two orders, and where they leave the cgroup.
  function BothWritten(m: Memory, limit: I64, swap: I64, swapFirst: bool): Result<Memory, Errno> {
    var first := if swapFirst then SwapWritten(m, swap) else LimitWritten(m, limit);
    if first.Err? then first
    else if swapFirst then LimitWritten(first.value, limit) else SwapWritten(first.value, swap)
  }

  predicate SwapFirst(m: Memory, limit: Option<I64>, swap: Option<I64>, max: I64)
    requires Legal(m)
  {
    m.V2? || (limit.Some? && swap.Some? && (swap.value == -1 || LimitInBytes(m, max) < swap.value))
  }

  // A request that makes sense: no limit is negative, and memory fits into memory and swap.
  predicate Sensible(limit: I64, swap: I64) {
    limit >= -1 && swap >= -1 && Pages(limit) <= Pages(swap)
  }

  // The chosen order never trips over the kernel's rule: from every legal state it carries
  // out exactly the sensible requests that memory in use allows.
  lemma ChosenOrder(m: Memory, limit: I64, swap: I64, max: I64)
    requires Legal(m) && m.V1?
    ensures var r := BothWritten(m, limit, swap, SwapFirst(m, Some(limit), Some(swap), max));
            && (r.Ok? <==> Sensible(limit, swap) && m.used <= Pages(limit) && m.usedSw <= Pages(swap))
            && (r.Ok? ==> r.value == m.(limit := Pages(limit), memsw := Pages(swap)))
            && (r == Err(EINVAL) ==> !Sensible(limit, swap))
  {
    var current := LimitInBytes(m, max);
    assert swap > current ==> Pages(swap) >= m.limit;
    assert 0 <= swap <= current ==> Pages(swap) <= m.limit;
  }

  // No request is lost by choosing: what either order could do, the chosen one does.
  lemma ChosenOrderIsBest(m: Memory, limit: I64, swap: I64, max: I64, swapFirst: bool)
    requires Legal(m) && m.V1?
    requires BothWritten(m, limit, swap, swapFirst).Ok?
    ensures BothWritten(m, limit, swap, SwapFirst(m, Some(limit), Some(swap), max)) ==
            BothWritten(m, limit, swap, swapFirst)
  {
    ChosenOrder(m, limit, swap, max);
  }

  // Neither order would do for every request: unless the limit in place can go no further,
  // some sensible request has the first write cross it.
  lemma EachFixedOrderFails(m: Memory, swapFirst: bool)
    requires Legal(m) && m.V1?
    ensures (exists limit: I64, swap: I64 ::
               Sensible(limit, swap) && BothWritten(m, limit, swap, swapFirst) == Err(EINVAL))
            <==> if swapFirst then m.limit > 0 else m.memsw < TOP
  {
    if swapFirst && m.limit > 0 {
      var limit: I64, swap: I64 := 0, 0;
      assert Sensible(limit, swap) && BothWritten(m, limit, swap, swapFirst) == Err(EINVAL);
    } else if !swapFirst && m.memsw < TOP {
      var limit: I64, swap: I64 := -1, -1;
      assert Sensible(limit, swap) && BothWritten(m, limit, swap, swapFirst) == Err(EINVAL);
    }
  }

  // ---- the update ----

  datatype UpdateError = Refused(reason: SwapError) | LimitNotSet(errno: Errno) | SwapNotSet(errno: Errno)

  // What is to be written: zero means unset, and version 2 converts the swap limit, against
  // the memory limit in place when the request has none.
  function Requested(limit: Option<I64>): Option<I64> {
    if limit == Some(0) then None else limit
  }

  function Effective(m: Memory, limit: Option<I64>, swap: I64, max: I64): Option<I64>
    requires Legal(m)
  {
    if Requested(limit).None? && swap > 0 then Some(LimitInBytes(m, max)) else Requested(limit)
  }

  // Where a write leaves the cgroup, and what the update makes of it.
  datatype Written = Written(memory: Memory, result: Result<(), UpdateError>)

  function LimitSet(m: Memory, limit: Option<I64>): Written {
    if limit.None? then Written(m, Ok(()))
    else
      match LimitWritten(m, limit.value)
      case Ok(after) => Written(after, Ok(()))
      case Err(e) => Written(m, Err(LimitNotSet(e)))
  }

  // A missing file is no obstacle to no swap or unlimited swap.
  function SwapSet(m: Memory, swap: Option<I64>): Written {
    if swap.None? then Written(m, Ok(()))
    else
      match SwapWritten(m, swap.value)
      case Ok(after) => Written(after, Ok(()))
      case Err(e) => Written(m, if e == ENOENT && swap.value in {0, -1} then Ok(()) else Err(SwapNotSet(e)))
  }

  // Both writes, in an order; the first that fails is the last.
  function Ordered(m: Memory, limit: Option<I64>, swap: Option<I64>, swapFirst: bool): Written {
    var first := if swapFirst then SwapSet(m, swap) else LimitSet(m, limit);
    if first.result.Err? then first
    else if swapFirst then LimitSet(first.memory, limit) else SwapSet(first.memory, swap)
  }

  lemma OrderedV1(m: Memory, limit: Option<I64>, swap: Option<I64>, max: I64)
    requires Legal(m)
    ensures var w := Ordered(m, limit, swap, SwapFirst(m, limit, swap, max));
            m.V1? ==> w.memory.V1? && Legal(w.memory) && UpdatedV1(m, limit, swap, w.memory, w.result)
  {
    if m.V1? && limit.Some? && swap.Some? {
      ChosenOrder(m, limit.value, swap.value, max);
    }
  }

  lemma OrderedV2(m: Memory, limit: Option<I64>, swap: Option<I64>, max: I64)
    requires Legal(m)
    ensures var w := Ordered(m, limit, swap, SwapFirst(m, limit, swap, max));
            m.V2? ==> Legal(w.memory) && WrittenV2(m, limit, swap, w.memory, w.result)
  {
  }

  // ---- zero means unset ----

  // The update as a function of what is in place.
  function Updated(m: Memory, limit: Option<I64>, swap: Option<I64>, max: I64): Written
    requires Legal(m)
  {
    var wanted := Requested(limit);
    if m.V1? then Ordered(m, wanted, Requested(swap), SwapFirst(m, wanted, Requested(swap), max))
    else
      var s := if swap.Some? then swap.value else 0;
      match SwapForV2(s, Effective(m, limit, s, max))
      case Err(e) => Written(m, Err(Refused(e)))
      case Ok(converted) => Ordered(m, wanted, converted, SwapFirst(m, wanted, converted, max))
  }

  // A zero is as good as no limit at all, for memory as for swap.
  lemma ZeroIsUnset(m: Memory, limit: Option<I64>, swap: Option<I64>, max: I64)
    requires Legal(m)
    ensures Updated(m, Some(0), swap, max) == Updated(m, None, swap, max)
    ensures Updated(m, limit, Some(0), max) == Updated(m, limit, None, max)
  {
  }

  // And no limit leaves the one in place.
  lemma ZeroLeavesLimit(m: Memory, limit: Option<I64>, swap: Option<I64>, max: I64)
    requires Legal(m)
    ensures var after := Updated(m, Some(0), swap, max).memory;
            && (m.V1? ==> after.V1? && after.limit == m.limit)
            && (m.V2? ==> after.V2? && after.max == m.max)
    ensures var after := Updated(m, limit, Some(0), max).memory; m.V1? ==> after.V1? && after.memsw == m.memsw
  {
    OrderedV1(m, None, Requested(swap), max);
    OrderedV1(m, Requested(limit), None, max);
    ZeroIsUnset(m, limit, swap, max);
    UnsetV2(m, swap, max);
  }

  lemma UnsetV2(m: Memory, swap: Option<I64>, max: I64)
    requires Legal(m)
    ensures m.V2? ==> var after := Updated(m, None, swap, max).memory; after.V2? && after.max == m.max
  {
    if m.V2? {
      var s := if swap.Some? then swap.value else 0;
      var converted := SwapForV2(s, Effective(m, None, s, max));
      if converted.Ok? {
        OrderedV2(m, None, converted.value, max);
      }
    }
  }

  // A swap limit with a zero, or no, memory limit is on version 2 converted against the one
  // in place: there is then room for the rest of it, or the request is refused.
  lemma SwapAgainstInPlace(m: Memory, swap: I64, max: I64)
    requires Legal(m) && m.V2? && m.swapMax.Some? && swap > 0
    ensures var w := Updated(m, Some(0), Some(swap), max);
            var inPlace := if m.max == -1 then max else m.max;
            && (w.result.Ok? <==> inPlace == -1 || 0 < inPlace <= swap)
            && w.memory == if w.result.Err? then m
                           else V2(m.max, Some(if inPlace == -1 then swap else swap - inPlace))
  {
  }

  class Cgroup {
    var memory: Memory
    const maxReadsAs: I64

    constructor (m: Memory, max: I64)
      requires Legal(m)
      ensures memory == m && maxReadsAs == max
    {
      memory, maxReadsAs := m, max;
    }

    method SetLimit(limit: Option<I64>) returns (r: Result<(), UpdateError>)
      requires Legal(memory)
      modifies this
      ensures Legal(memory) && Written(memory, r) == LimitSet(old(memory), limit)
    {
      if limit.Some? {
        var written := LimitWritten(memory, limit.value);
        if written.Err? {
          return Err(LimitNotSet(written.error));
        }
        memory := written.value;
      }
      return Ok(());
    }

    method SetSwap(swap: Option<I64>) returns (r: Result<(), UpdateError>)
      requires Legal(memory)
      modifies this
      ensures Legal(memory) && Written(memory, r) == SwapSet(old(memory), swap)
    {
      if swap.Some? {
        var written := SwapWritten(memory, swap.value);
        if memory.V2? && swap.value in {0, -1} && written == Err(ENOENT) {
          return Ok(());
        }
        if written.Err? {
          return Err(SwapNotSet(written.error));
        }
        memory := written.value;
      }
      return Ok(());
    }

    method UpdateMemory(limit: Option<I64>, swap: Option<I64>) returns (r: Result<(), UpdateError>)
      requires Legal(memory)
      modifies this
      ensures Legal(memory) && (memory.V1? <==> old(memory).V1?)
      ensures Written(memory, r) == Updated(old(memory), limit, swap, maxReadsAs)
      ensures old(memory).V1? ==>
                var l, s := if limit == Some(0) then None else limit, if swap == Some(0) then None else swap;
                UpdatedV1(old(memory), l, s, memory, r)
      ensures old(memory).V2? ==> UpdatedV2(old(memory), limit, swap, maxReadsAs, memory, r)
    {
      var wanted := Requested(limit);
      var wantedSwap := Requested(swap);
      if memory.V2? {
        var s := if swap.Some? then swap.value else 0;
        var base := if wanted.None? && s > 0 then Some(LimitInBytes(memory, maxReadsAs)) else wanted;
        var converted := SwapForV2(s, base);
        if converted.Err? {
          return Err(Refused(converted.error));
        }
        wantedSwap := converted.value;
      }
      r := WriteLimits(wanted, wantedSwap);
    }

    method WriteLimits(limit: Option<I64>, swap: Option<I64>) returns (r: Result<(), UpdateError>)
      requires Legal(memory)
      modifies this
      ensures Legal(memory) && (memory.V1? <==> old(memory).V1?)
      ensures Written(memory, r) == Ordered(old(memory), limit, swap, SwapFirst(old(memory), limit, swap, maxReadsAs))
      ensures old(memory).V1? ==> UpdatedV1(old(memory), limit, swap, memory, r)
      ensures old(memory).V2? ==> WrittenV2(old(memory), limit, swap, memory, r)
    {
      OrderedV1(memory, limit, swap, maxReadsAs);
      OrderedV2(memory, limit, swap, maxReadsAs);
      if SwapFirst(memory, limit, swap, maxReadsAs) {
        r := SetSwap(swap);
        if r.Ok? {
          r := SetLimit(limit);
        }
      } else {
        r := SetLimit(limit);
        if r.Ok? {
          r := SetSwap(swap);
        }
      }
    }
  }

  // What an update on version 1 comes to, by which of the limits it gives.
  ghost predicate UpdatedV1(
    m: Memory, limit: Option<I64>, swap: Option<I64>, after: Memory, r: Result<(), UpdateError>)
    requires m.V1?
  {
    match (limit, swap)
    case (None, None) => r.Ok? && after == m
    case (Some(l), None) =>
      && (r.Ok? <==> l >= -1 && m.used <= Pages(l) <= m.memsw)
      && after == if r.Ok? then m.(limit := Pages(l)) else m
    case (None, Some(s)) =>
      && (r.Ok? <==> s >= -1 && m.limit <= Pages(s) && m.usedSw <= Pages(s))
      && after == if r.Ok? then m.(memsw := Pages(s)) else m
    case (Some(l), Some(s)) =>
      && (r.Ok? <==> Sensible(l, s) && m.used <= Pages(l) && m.usedSw <= Pages(s))
      && (r.Ok? ==> after == m.(limit := Pages(l), memsw := Pages(s)))
      && (r in {Err(LimitNotSet(EINVAL)), Err(SwapNotSet(EINVAL))} ==> !Sensible(l, s))
  }

  // Swap goes first on version 2; a host without swap accounting is no obstacle to a request
  // for no swap or unlimited swap.
  ghost predicate WrittenV2(
    m: Memory, limit: Option<I64>, swap: Option<I64>, after: Memory, r: Result<(), UpdateError>)
    requires m.V2?
  {
    var badSwap := swap.Some? && (swap.value < -1 || (m.swapMax.None? && swap.value > 0));
    && after.V2?
    && (r.Ok? <==> !badSwap && (limit.Some? ==> limit.value >= -1))
    && (r.Err? ==> (r.error.SwapNotSet? <==> badSwap) && (r.error.LimitNotSet? <==> !badSwap))
    && after.max == (if r.Ok? && limit.Some? then limit.value else m.max)
    && after.swapMax == if !badSwap && swap.Some? && m.swapMax.Some? then Some(swap.value) else m.swapMax
  }

  // What an update on version 2 amounts to.
  ghost predicate UpdatedV2(
    before: Memory, limit: Option<I64>, swap: Option<I64>, max: I64, after: Memory, r: Result<(), UpdateError>)
    requires Legal(before) && before.V2?
  {
    var l := if limit == Some(0) then None else limit;
    var s := if swap.Some? then swap.value else 0;
    var inPlace := if before.max == -1 then max else before.max;
    var e := if l.None? && s > 0 then Some(inPlace) else l;
    && after.V2?
    // A limit is set as asked, or not touched.
    && (r.Ok? ==> after.max == if l.Some? then l.value else before.max)
    && (r.Err? ==> after.max == before.max)
    // Memory and swap together come to what was asked.
    && (r.Ok? && s > 0 && e.Some? && e.value > 0 ==>
          if after.swapMax.Some? then e.value + after.swapMax.value == s else e.value == s)
    // Lifting one limit lifts the other; an omitted swap limit alone changes nothing.
    && (r.Ok? && (s == -1 || (s == 0 && l == Some(-1))) ==>
          after.swapMax == if before.swapMax.Some? then Some(-1) else None)
    && (r.Ok? && s == 0 && l != Some(-1) ==> after.swapMax == before.swapMax)
    // A request refused is one that cannot be converted, or that needs a file there is not,
    // or that names a negative limit.
    && (r.Err? && r.error.Refused? ==> after == before)
    && (r.Err? && r.error.Refused? <==> s !in {0, -1} && e != Some(-1) && !(e.Some? && 0 < e.value <= s))
    && (r.Err? && r.error.SwapNotSet? && s >= -1 ==> before.swapMax.None? && after == before && s > 0 && e != Some(s))
    && (r.Err? && r.error.LimitNotSet? ==> l.Some? && l.value < -1)
  }
}
