/** The transport allocator as the source writes it.

    A transport, member or router object is its entry in `Records`, under its id; holding the object is holding the
    id. */
module TransportAllocators {
  import opened Common
  import opened Mesh

  class Records {
    var transports: map<int, Transport>
    var routers: map<int, set<int>> // the transports of each router
    var members: map<int, Member>

    constructor ()
      ensures transports == map[] && routers == map[] && members == map[]
    {
      transports, routers, members := map[], map[], map[];
    }
  }

  class TransportAllocator {
    const records: Records
    var transports: set<int>
    var nextId: nat        // the id generator, inside its window
    var requested: set<int> // promises not settled yet
    var nacked: set<int>

    constructor (records: Records)
      ensures this.records == records && transports == {} && nextId == 0 && requested == {} && nacked == {}
    {
      this.records, transports, nextId, requested, nacked := records, {}, 0, {}, {};
    }

    /** Up to the await; not `ok` is the error for an unknown source. */
    method Allocate(router: int, member: int, source: Option<int>) returns (ok: bool, id: int)
      requires router in records.routers && member in records.members
      modifies this`transports, this`nextId, this`requested, records
      ensures ok == !(source.Some? && source.value !in old(transports))
      ensures !ok ==> unchanged(this) && unchanged(records)
      ensures ok ==>
                && id == old(nextId) && nextId == id + 1
                && transports == old(transports) + {id} && requested == old(requested) + {id}
                && records.transports == old(records.transports)[id := Transport(member, router, source, Unallocated)]
                && records.routers == old(records.routers)[router := old(records.routers)[router] + {id}]
                && records.members == (if source.Some? then old(records.members)
                                       else old(records.members)[member :=
                                           old(records.members)[member].(producer := Some(id))])
    {
      id := nextId;
      if source.Some? && source.value !in transports { return false, id; }
      nextId := nextId + 1;
      records.transports := records.transports[id := Transport(member, router, source, Unallocated)];
      transports := transports + {id};
      records.routers := records.routers[router := records.routers[router] + {id}];
      if source.None? {
        records.members := records.members[member := records.members[member].(producer := Some(id))];
      }
      requested := requested + {id};
      ok := true;
    }

    method Remove(id: int)
      modifies this`transports
      ensures transports == old(transports) - {id}
    {
      transports := transports - {id};
    }

    /** The loops that remove every transport of a member or of a router. */
    method RemoveAll(ids: set<int>)
      modifies this`transports
      ensures transports == old(transports) - ids
    {
      var rest := ids;
      while rest != {}
        invariant rest <= ids && transports == old(transports) - (ids - rest)
      {
        var id := Pick(rest);
        ghost var removed := ids - rest;
        rest := rest - {id};
        Remove(id);
        assert ids - rest == removed + {id};
      }
    }
  }
}
