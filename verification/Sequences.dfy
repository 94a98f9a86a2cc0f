// Lists as the shim's queues use them.
module Sequences {
  function Without<T>(xs: seq<T>, i: nat): (rest: seq<T>)
    requires i < |xs|
    ensures |rest| == |xs| - 1
  {
    xs[..i] + xs[i + 1..]
  }
}
