/** Backends, their live counters and the snapshot a decision is made from. */
module Backends {
  import opened Machine
  import opened Cost

  datatype Option<+T> = None | Some(value: T)

  class Backend {
    const caps: Caps
    var inflight: uint32
    var kvProjected: int64

    constructor (caps: Caps)
      ensures this.caps == caps && inflight == 0 && kvProjected == 0
    {
      this.caps := caps;
      inflight, kvProjected := 0, 0;
    }

    function Reading(): Load
      reads this
    {
      Load(caps, inflight, kvProjected)
    }
  }

  datatype Snapshot = Snapshot(backends: seq<Backend>, healthy: seq<nat>) {
    ghost predicate Valid() {
      forall i | 0 <= i < |healthy| :: healthy[i] < |backends|
    }

    function Loads(): (loads: seq<Load>)
      reads backends
      ensures |loads| == |backends|
      ensures forall i | 0 <= i < |loads| :: loads[i] == backends[i].Reading()
    {
      seq(|backends|, i requires 0 <= i < |backends| reads backends => backends[i].Reading())
    }
  }

  /** Every healthy id names a backend. */
  ghost predicate ValidIds(ids: seq<nat>, loads: seq<Load>) {
    forall i | 0 <= i < |ids| :: ids[i] < |loads|
  }

  // ----- the counter updates a lease makes

  /** `fetch_add` and `fetch_sub` wrap around in every build profile. */
  function AddInflight(l: Load, d: int): Load {
    l.(inflight := WrapU32(l.inflight + d))
  }

  function AddKv(l: Load, d: int): Load {
    l.(kvProjected := WrapI64(l.kvProjected + d))
  }
}
