/** The coordinator's members, transports and routers, and the allocations that build a full consumer mesh.

    Transport, member and router objects are named by their ids and stay in their stores when an index forgets them:
    closures keep using them.  `transports` and `members` are the keys of the allocator's and the service's maps.
    Ids are taken in order, which the wrapping generators do inside their window.  A step is one synchronous run:
    a request handler, the answer to a transport request, or the continuation after a producer transport resolved. */
module Mesh {
  import opened Common

  datatype Status = Unallocated | Allocated | Connected

  datatype Transport = Transport(owner: int, router: int, source: Option<int>, status: Status)

  datatype Member = Member(space: string, producer: Option<int>, consumers: map<int, int>)

  datatype Coordinator = Coordinator(
    transportObjects: map<int, Transport>,
    transports: set<int>,
    routerObjects: map<int, set<int>>, // the transports of each router
    routers: set<int>,
    memberObjects: map<int, Member>,
    members: set<int>,
    spaces: map<string, set<int>>,     // the members of each space
    routerOf: map<string, int>,        // the primary router of each space
    nextTransport: nat,
    nextMember: nat,
    requested: set<int>,               // transport requests not answered yet
    meshDue: set<int>,                 // members whose producer transport resolved and whose mesh loop has not run
    nacked: set<int>)                  // transports whose request was nacked, be it after an acknowledgement

  ghost function Empty(): Coordinator {
    Coordinator(map[], {}, map[], {}, map[], {}, map[], map[], 0, 0, {}, {}, {})
  }

  /** `TransportAllocator.allocate` up to its await; `None` when the source transport is unknown, which it reports by
      throwing. */
  ghost function Allocate(s: Coordinator, router: int, member: int, source: Option<int>): (s': Option<Coordinator>)
    requires router in s.routerObjects && member in s.memberObjects
  {
    if source.Some? && source.value !in s.transports then None
    else
      var id := s.nextTransport;
      Some(s.(
        transportObjects := s.transportObjects[id := Transport(member, router, source, Unallocated)],
        transports := s.transports + {id},
        routerObjects := s.routerObjects[router := s.routerObjects[router] + {id}],
        memberObjects := if source.None?
                         then s.memberObjects[member := s.memberObjects[member].(producer := Some(id))]
                         else s.memberObjects,
        nextTransport := id + 1,
        requested := s.requested + {id}))
  }

  /** An allocation whose rejection is only logged. */
  ghost function TryAllocate(s: Coordinator, router: int, member: int, source: int): (s': Coordinator)
    requires router in s.routerObjects && member in s.memberObjects
    ensures s'.memberObjects == s.memberObjects && s'.routerObjects.Keys == s.routerObjects.Keys
  {
    match Allocate(s, router, member, Some(source))
    case Some(s') => s'
    case None => s
  }

  /** A member joins a space that has a router: it is recorded and its producer transport is requested. */
  ghost function Joined(s: Coordinator, space: string): Coordinator
    requires space in s.spaces && space in s.routerOf && s.routerOf[space] in s.routerObjects
  {
    var id := s.nextMember;
    Allocate(s.(
      memberObjects := s.memberObjects[id := Member(space, None, map[])],
      members := s.members + {id},
      spaces := s.spaces[space := s.spaces[space] + {id}],
      nextMember := id + 1), s.routerOf[space], id, None).value
  }

  /** One turn of the mesh loop: `other` consumes from the new member, and the new member from `other`. */
  ghost function Linked(s: Coordinator, router: int, member: int, producer: int, other: int): (s': Coordinator)
    requires router in s.routerObjects && member in s.memberObjects && other in s.memberObjects
    ensures s'.memberObjects == s.memberObjects && s'.routerObjects.Keys == s.routerObjects.Keys
  {
    if other == member then s
    else
      var s1 := TryAllocate(s, router, other, producer);
      match s.memberObjects[other].producer
      case Some(p) => TryAllocate(s1, router, member, p)
      case None => s1
  }

  ghost function LinkedAll(s: Coordinator, router: int, member: int, producer: int, others: seq<int>): (s': Coordinator)
    requires router in s.routerObjects && member in s.memberObjects
    requires forall i :: 0 <= i < |others| ==> others[i] in s.memberObjects
    ensures s'.memberObjects == s.memberObjects && s'.routerObjects.Keys == s.routerObjects.Keys
    decreases |others|
  {
    if others == [] then s
    else Linked(LinkedAll(s, router, member, producer, others[..|others| - 1]), router, member, producer,
        others[|others| - 1])
  }

  /** The continuation after `member`'s producer transport resolved: the mesh loop over the space's members. */
  ghost function Meshed(s: Coordinator, member: int, others: seq<int>): Coordinator
    requires member in s.memberObjects && s.memberObjects[member].producer.Some?
    requires s.memberObjects[member].producer.value in s.transportObjects
    requires s.transportObjects[s.memberObjects[member].producer.value].router in s.routerObjects
    requires forall i :: 0 <= i < |others| ==> others[i] in s.memberObjects
  {
    var p := s.memberObjects[member].producer.value;
    LinkedAll(s, s.transportObjects[p].router, member, p, others).(meshDue := s.meshDue - {member})
  }

  ghost function WithStatus(s: Coordinator, t: int, status: Status): Coordinator
    requires t in s.transportObjects
  {
    s.(transportObjects := s.transportObjects[t := s.transportObjects[t].(status := status)])
  }

  /** The worker acknowledges the request for `t`.  When `t`'s source is gone by then, storing the consumer throws: the
      status has changed but the consumer is not recorded, and the worker nacks the request it just acknowledged. */
  ghost function Acked(s: Coordinator, t: int): Coordinator
    requires t in s.transportObjects && s.transportObjects[t].owner in s.memberObjects
    requires s.transportObjects[t].source.Some? ==> s.transportObjects[t].source.value in s.transportObjects
  {
    var s1 := WithStatus(s, t, Allocated).(requested := s.requested - {t});
    var owner := s.transportObjects[t].owner;
    match s.transportObjects[t].source
    case None => s1.(meshDue := s.meshDue + {owner})
    case Some(source) =>
      if source !in s.transports then s1.(nacked := s.nacked + {t})
      else
        var consumers := s.memberObjects[owner].consumers[s.transportObjects[source].owner := t];
        s1.(memberObjects := s.memberObjects[owner := s.memberObjects[owner].(consumers := consumers)])
  }

  ghost function Nacked(s: Coordinator, t: int): Coordinator {
    s.(requested := s.requested - {t}, nacked := s.nacked + {t})
  }

  /** `onRemoveMemberRequest`, up to telling the lifecycle policy. */
  ghost function Left(s: Coordinator, member: int): Coordinator
    requires member in s.memberObjects && s.memberObjects[member].space in s.spaces
  {
    var m := s.memberObjects[member];
    var own := (match m.producer case Some(p) => {p} case None => {}) + m.consumers.Values;
    s.(transports := s.transports - own,
       members := s.members - {member},
       spaces := s.spaces[m.space := s.spaces[m.space] - {member}])
  }

  /** `RouterAllocator.remove`. */
  ghost function RouterRemoved(s: Coordinator, router: int): Coordinator
    requires router in s.routerObjects
  {
    if router !in s.routers then s
    else s.(transports := s.transports - s.routerObjects[router], routers := s.routers - {router})
  }

  ghost function SpaceOpened(s: Coordinator, space: string, router: int): Coordinator {
    s.(spaces := s.spaces[space := {}], routerOf := s.routerOf[space := router],
       routerObjects := s.routerObjects[router := {}], routers := s.routers + {router})
  }

  // ----- Runs -----

  datatype Step =
    | OpenSpace(space: string, router: int)
    | Join(space: string)
    | Answer(t: int, ok: bool)
    | MeshLoop(member: int, others: seq<int>)
    | Leave(member: int)
    | RemoveRouter(router: int)
    | Connect(t: int)

  /** `others` lists a set, each element once. */
  ghost predicate Enumerates(others: seq<int>, ids: set<int>) {
    && (forall i :: 0 <= i < |others| ==> others[i] in ids)
    && (forall id :: id in ids ==> id in others)
    && (forall i, j :: 0 <= i < j < |others| ==> others[i] != others[j])
  }

  ghost predicate Possible(s: Coordinator, step: Step) {
    match step
    case OpenSpace(space, router) => space !in s.spaces && router !in s.routerObjects
    case Join(space) => space in s.spaces
    case Answer(t, _) => t in s.requested
    case MeshLoop(member, others) =>
      && member in s.meshDue && member in s.memberObjects && s.memberObjects[member].space in s.spaces
      && Enumerates(others, s.spaces[s.memberObjects[member].space])
    case Leave(member) => member in s.members
    case RemoveRouter(router) => router in s.routerObjects
    case Connect(t) => t in s.transportObjects && s.transportObjects[t].status != Unallocated
  }

  // ----- The invariant -----

  ghost predicate TransportOk(s: Coordinator, t: int)
    requires t in s.transportObjects
  {
    var tr := s.transportObjects[t];
    && 0 <= t < s.nextTransport
    && tr.router in s.routerObjects && t in s.routerObjects[tr.router]
    && tr.owner in s.memberObjects
    && (tr.owner in s.members && tr.router in s.routers ==> t in s.transports)
    && (t in s.nacked && tr.status != Unallocated ==> tr.source.Some? && tr.source.value !in s.transports)
    && (match tr.source
        case None => s.memberObjects[tr.owner].producer == Some(t)
        case Some(p) => p in s.transportObjects && s.transportObjects[p].source == None
                        && s.transportObjects[p].router == tr.router
                        && (tr.status == Unallocated && p in s.transports ==> t in s.transports))
  }

  ghost predicate MemberOk(s: Coordinator, m: int)
    requires m in s.memberObjects
  {
    var member := s.memberObjects[m];
    && 0 <= m < s.nextMember
    && member.space in s.spaces && member.space in s.routerOf
    && member.producer.Some?
    && var p := member.producer.value;
    && p in s.transportObjects && s.transportObjects[p].owner == m && s.transportObjects[p].source == None
    && s.transportObjects[p].router == s.routerOf[member.space]
    && (m in s.members <==> m in s.spaces[member.space])
    && (m in s.meshDue ==> s.transportObjects[p].status != Unallocated)
    && (forall y :: y in member.consumers ==> ConsumerOk(s, m, y, member.consumers[y]))
  }

  /** Transport `t` is owned by `x` and consumes from the producer transport of member `y`. */
  ghost predicate Links(s: Coordinator, t: int, x: int, y: int) {
    && t in s.transportObjects && y in s.memberObjects && s.memberObjects[y].producer.Some?
    && s.transportObjects[t].owner == x && s.transportObjects[t].source == s.memberObjects[y].producer
  }

  ghost predicate ConsumerOk(s: Coordinator, x: int, y: int, t: int) {
    Links(s, t, x, y) && s.transportObjects[t].status != Unallocated
  }

  ghost predicate IndicesOk(s: Coordinator) {
    && s.transports <= s.transportObjects.Keys
    && s.requested <= s.transportObjects.Keys && s.nacked <= s.transportObjects.Keys
    && (forall t :: t in s.requested ==> s.transportObjects[t].status == Unallocated && t !in s.nacked)
    && s.members <= s.memberObjects.Keys && s.meshDue <= s.memberObjects.Keys
    && s.routers <= s.routerObjects.Keys
    && (forall space :: space in s.spaces ==> s.spaces[space] <= s.members)
    && (forall space, m :: space in s.spaces && m in s.spaces[space] ==>
          m in s.memberObjects && s.memberObjects[m].space == space)
    && s.spaces.Keys == s.routerOf.Keys
    && (forall space :: space in s.routerOf ==> s.routerOf[space] in s.routerObjects)
    && (forall r, t :: r in s.routerObjects && t in s.routerObjects[r] ==>
          t in s.transportObjects && s.transportObjects[t].router == r)
  }

  ghost predicate TransportsOk(s: Coordinator) {
    forall t :: t in s.transportObjects ==> TransportOk(s, t)
  }

  ghost predicate MembersOk(s: Coordinator) {
    forall m :: m in s.memberObjects ==> MemberOk(s, m)
  }

  ghost predicate PairsOk(s: Coordinator) {
    forall x, y :: Pair(s, x, y) ==> PairOk(s, x, y)
  }

  ghost predicate Inv(s: Coordinator) {
    IndicesOk(s) && TransportsOk(s) && MembersOk(s) && PairsOk(s)
  }

  /** Two distinct present members of one running space. */
  ghost predicate Pair(s: Coordinator, x: int, y: int) {
    && x != y && x in s.members && y in s.members && x in s.memberObjects && y in s.memberObjects
    && s.memberObjects[x].space == s.memberObjects[y].space
    && s.memberObjects[x].space in s.routerOf && s.routerOf[s.memberObjects[x].space] in s.routers
  }

  /** `x.memberToConsumerMap[y]` is an allocated transport consuming from `y`'s producer transport. */
  ghost predicate Covered(s: Coordinator, x: int, y: int) {
    x in s.memberObjects && y in s.memberObjects[x].consumers && ConsumerOk(s, x, y, s.memberObjects[x].consumers[y])
  }

  ghost predicate Outstanding(s: Coordinator, x: int, y: int) {
    exists t :: t in s.requested && Links(s, t, x, y)
  }

  /** The mesh loop of `z` is still to come. */
  ghost predicate Due(s: Coordinator, z: int) {
    z in s.memberObjects
        && (z in s.meshDue || (s.memberObjects[z].producer.Some? && s.memberObjects[z].producer.value in s.requested))
  }

  ghost predicate ProducerFailed(s: Coordinator, z: int) {
    z in s.memberObjects && s.memberObjects[z].producer.Some? && s.memberObjects[z].producer.value in s.nacked
  }

  /** A request for such a transport was nacked, and not only after an acknowledgement. */
  ghost predicate LinkFailed(s: Coordinator, x: int, y: int) {
    exists t :: t in s.nacked && LinksUnallocated(s, t, x, y)
  }

  ghost predicate LinksUnallocated(s: Coordinator, t: int, x: int, y: int) {
    Links(s, t, x, y) && s.transportObjects[t].status == Unallocated
  }

  ghost predicate PairOk(s: Coordinator, x: int, y: int) {
    Covered(s, x, y) || Outstanding(s, x, y) || Due(s, x) || Due(s, y)
    || ProducerFailed(s, x) || ProducerFailed(s, y) || LinkFailed(s, x, y)
  }
}
