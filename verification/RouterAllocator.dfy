/** The router allocator as the source writes it, with its list of connected workers. */
module RouterAllocators {
  import opened Common
  import opened RoundRobin
  import opened TransportAllocators

  /** What `allocate` answers at once: the router the space already has, an error, or a request to a worker. */
  datatype Allocation = Existing(router: int) | NoWorkers | Requested(router: int, worker: int)

  function Without(ids: seq<int>, id: int): (rest: seq<int>)
  {
    if ids == [] then []
    else
      var rest := Without(ids[..|ids| - 1], id);
      if ids[|ids| - 1] == id then rest else rest + [ids[|ids| - 1]]
  }

  /** `at` lists, in ascending order, every position of `ids` that holds another id, and `rest` is what stands there. */
  ghost predicate PicksOthers(ids: seq<int>, id: int, rest: seq<int>, at: seq<nat>) {
    && |at| == |rest| && (forall k :: 0 <= k < |at| ==> at[k] < |ids| && ids[at[k]] == rest[k] != id)
    && (forall j, k :: 0 <= j < k < |at| ==> at[j] < at[k])
    && (forall i: nat :: i < |ids| && ids[i] != id ==> Lists(at, i))
  }

  ghost predicate Lists(at: seq<nat>, i: nat) {
    i in at
  }

  /** The others keep their order, each as often as it was listed. */
  lemma {:induction false} OthersKeepTheirOrder(ids: seq<int>, id: int) returns (at: seq<nat>)
    ensures PicksOthers(ids, id, Without(ids, id), at)
    decreases |ids|
  {
    if ids == [] {
      at := [];
    } else {
      var n := |ids| - 1;
      var before := OthersKeepTheirOrder(ids[..n], id);
      at := if ids[n] == id then before else before + [n];
      OneMorePosition(ids, id, Without(ids[..n], id), before);
    }
  }

  lemma {:induction false} OneMorePosition(ids: seq<int>, id: int, rest: seq<int>, at: seq<nat>)
    requires ids != [] && PicksOthers(ids[..|ids| - 1], id, rest, at)
    ensures var last := ids[|ids| - 1];
            if last == id then PicksOthers(ids, id, rest, at) else PicksOthers(ids, id, rest + [last], at + [|ids| - 1])
  {
    var n := |ids| - 1;
    var more := if ids[n] == id then at else at + [n];
    forall i: nat | i < |ids| && ids[i] != id ensures Lists(more, i) {
      if i < n {
        assert ids[..n][i] == ids[i];
        assert Lists(at, i);
      } else {
        assert more[|at|] == n;
      }
    }
  }

  lemma {:induction false} OthersKeepTheirNumber(ids: seq<int>, id: int, x: int)
    ensures multiset(Without(ids, id))[x] == if x == id then 0 else multiset(ids)[x]
    decreases |ids|
  {
    if ids != [] {
      var n := |ids| - 1;
      OthersKeepTheirNumber(ids[..n], id, x);
      assert ids == ids[..n] + [ids[n]];
    }
  }

  class RouterAllocator {
    const records: Records
    const transportAllocator: TransportAllocator
    const strategy: RoundRobinStrategy
    var workerIds: seq<int>
    var routers: set<int>
    var nextId: nat // the id generator, inside its window

    constructor (records: Records, transportAllocator: TransportAllocator, strategy: RoundRobinStrategy)
      ensures this.records == records && this.transportAllocator == transportAllocator && this.strategy == strategy
      ensures routers == {} && workerIds == [] && nextId == 0
    {
      this.records, this.transportAllocator, this.strategy := records, transportAllocator, strategy;
      workerIds, routers, nextId := [], {}, 0;
    }

    method OnMediaWorkerConnected(workerId: int)
      modifies this`workerIds
      ensures workerIds == old(workerIds) + [workerId]
    {
      workerIds := workerIds + [workerId];
    }

    /** Every occurrence of the worker goes; the others keep their order. */
    method OnMediaWorkerDisconnected(workerId: int)
      modifies this`workerIds
      ensures workerIds == Without(old(workerIds), workerId)
    {
      var kept := [];
      for i := 0 to |workerIds|
        invariant kept == Without(workerIds[..i], workerId)
      {
        assert workerIds[..i + 1][..i] == workerIds[..i];
        if workerIds[i] != workerId { kept := kept + [workerIds[i]]; }
      }
      assert workerIds[..|workerIds|] == workerIds;
      workerIds := kept;
    }

    /** `allocate` up to its await. */
    method Allocate(primaryRouter: Option<int>) returns (r: Allocation)
      modifies this`routers, this`nextId, strategy, records`routers
      ensures primaryRouter.Some? ==> r == Existing(primaryRouter.value)
      ensures primaryRouter.None? && workerIds == [] ==> r == NoWorkers
      ensures primaryRouter.Some? || workerIds == [] ==>
                routers == old(routers) && nextId == old(nextId) && strategy.counter == old(strategy.counter)
                && records.routers == old(records.routers)
      ensures primaryRouter.None? && workerIds != [] ==>
                && r == Requested(old(nextId), Choice(old(strategy.counter), workerIds)) && r.worker in workerIds
                && routers == old(routers) + {old(nextId)} && nextId == old(nextId) + 1
                && strategy.counter == old(strategy.counter) + 1
                && records.routers == old(records.routers)[old(nextId) := {}]
    {
      if primaryRouter.Some? { return Existing(primaryRouter.value); }
      if |workerIds| == 0 { return NoWorkers; }
      var worker := strategy.Pick(workerIds);
      var id := nextId;
      nextId := nextId + 1;
      records.routers := records.routers[id := {}];
      routers := routers + {id};
      r := Requested(id, worker.value);
    }

    /** `remove`: the router's transport records go with it. */
    method Remove(id: int)
      requires id in routers ==> id in records.routers
      modifies this`routers, transportAllocator`transports
      ensures routers == old(routers) - {id}
      ensures transportAllocator.transports ==
              if id in old(routers) then old(transportAllocator.transports) - records.routers[id]
                  else old(transportAllocator.transports)
    {
      if id !in routers { return; }
      transportAllocator.RemoveAll(records.routers[id]);
      routers := routers - {id};
    }
  }
}
