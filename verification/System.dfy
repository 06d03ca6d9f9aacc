/** The coordinator with one signaling server, over every run of joins and leaves that complete one at a time: each is
    the chain of bus requests the source makes, every request acknowledged or nacked before the next request of a
    client. */
module System {
  import opened Common
  import R = Replica
  import opened Mirror
  import L = Lifecycle
  import Profiles

  const SERVER: int := 0

  datatype System = System(server: Server<nat, nat>, coordinator: L.State)

  datatype Request =
    | Create(space: string)
    | Join(space: string, spaceData: string, data: string, state: R.MemberState, outcome: L.Outcome,
           listed: seq<R.ClientMember>, newRef: nat)
    | Update(member: int, patch: R.Patch)
    | Leave(member: int)

  ghost function Initial(): System {
    System(Server(map[], map[], map[], map[], map[]), L.Initial())
  }

  /** The space and router ids are new, and a subscription lists the members the coordinator has. */
  ghost predicate Possible(y: System, r: Request) {
    match r
    case Create(space) => L.Possible(y.coordinator, L.Create(space))
    case Join(space, _, _, _, outcome, listed, newRef) =>
      && L.NewRouter(y.coordinator, outcome) && newRef !in y.server.objects
      && (space in y.coordinator.spaces ==> Listed(listed).Keys == y.coordinator.spaces[space].members)
    case Update(_, _) => true
    case Leave(_) => true
  }

  /** `prepareSpace`: not `ok` when the subscription is nacked. */
  ghost function Prepared(y: System, space: string, spaceData: string, outcome: L.Outcome, listed: seq<R.ClientMember>,
                          newRef: nat)
    : (System, bool)
  {
    if space in y.server.spaces then (y, true)
    else
      var (c, reply) := L.Subscribed(y.coordinator, SERVER, space, outcome);
      if reply == L.Nack then (y.(coordinator := c), false)
      else (System(SpaceMirrored(y.server, space, spaceData, listed, newRef), c), true)
  }

  /** `prepareMember`. */
  ghost function Entered(y: System, space: string, data: string, state: R.MemberState, outcome: L.Outcome): (System,
                         bool)
    requires Consistent(y.server)
  {
    if space !in y.server.spaces then (y, false)
    else
      var (c, reply) := L.MemberAdded(y.coordinator, SERVER, space, outcome);
      if reply == L.Nack then (y.(coordinator := c), false)
      else (System(MemberAdded(y.server, space, y.coordinator.nextMember, data, state), c), true)
  }

  ghost function Joined(y: System, r: Request): (System, bool)
    requires Consistent(y.server) && r.Join? && Possible(y, r)
  {
    var (y1, ok) := Prepared(y, r.space, r.spaceData, r.outcome, r.listed, r.newRef);
    if !ok then (y1, false) else Entered(y1, r.space, r.data, r.state, r.outcome)
  }

  /** `deleteMember`, and `deleteSpace` when the space is empty then. */
  ghost function Left(y: System, member: int): System
    requires Consistent(y.server)
  {
    if member !in y.server.members then y
    else
      var (c, reply) := L.MemberRemoved(y.coordinator, member);
      if reply == L.Nack then y.(coordinator := c)
      else
        var srv := MemberRemoved(y.server, member);
        match Emptied(y.server, member)
        case None => System(srv, c)
        case Some(space) =>
          var (c1, reply1) := L.Unsubscribed(c, SERVER, space);
          if reply1 == L.Nack then System(srv, c1) else System(SpaceDropped(srv, space), c1)
  }

  ghost function Completed(y: System, r: Request): System
    requires Consistent(y.server) && Possible(y, r)
  {
    match r
    case Create(space) => y.(coordinator := L.Created(y.coordinator, space))
    case Join(_, _, _, _, _, _, _) => Joined(y, r).0
    case Update(member, patch) =>
      (match MemberUpdated(y.server, member, patch)
       case Some(srv) => y.(server := srv)
       case None => y)
    case Leave(member) => Left(y, member)
  }

  // ----- The agreement -----

  /** A space is mirrored iff the server is subscribed iff the space is running. */
  ghost predicate SpacesAgree(index: map<string, nat>, pairs: set<(int, string)>, spaces: map<string, L.Space>) {
    && (forall pair :: pair in pairs ==> pair.0 == SERVER)
    && (forall space: string :: space in index <==> (SERVER, space) in pairs)
    && (forall space: string :: space in index <==> space in spaces && spaces[space].status == L.Running)
  }

  /** Both sides hold the same member ids, and a mirrored space outside `except` has some. */
  ghost predicate MembersAgree(objects: map<nat, Space>, index: map<string, nat>, spaces: map<string, L.Space>,
                               except: set<string>) {
    forall space :: space in index ==>
      && space in spaces && index[space] in objects
      && objects[index[space]].members.Keys == spaces[space].members
      && (space !in except ==> spaces[space].members != {})
  }

  /** A mirrored member's owning object is the mirrored space the coordinator put the member in. */
  ghost predicate OwnersAgree(members: map<int, nat>, index: map<string, nat>, ownerOf: map<int, string>) {
    forall id :: id in members ==> id in ownerOf && ownerOf[id] in index && index[ownerOf[id]] == members[id]
  }

  /** The agreement, when the spaces in `except` may be mirrored without members. */
  ghost predicate AgreementBut(y: System, except: set<string>) {
    var srv, c := y.server, y.coordinator;
    && L.Inv(c) && IndicesAgree(srv)
    && SpacesAgree(srv.spaces, c.pairs, c.spaces)
    && MembersAgree(srv.objects, srv.spaces, c.spaces, except)
    && OwnersAgree(srv.members, srv.spaces, c.ownerOf)
  }

  ghost predicate Agreement(y: System) {
    AgreementBut(y, {})
  }

  // ----- How each change keeps one part of the agreement -----

  lemma {:induction false} SpacesAfterStart(index: map<string, nat>, pairs: set<(int, string)>, spaces: map<string,
                                            L.Space>,
                                            space: string, v: L.Space, newRef: nat)
    requires SpacesAgree(index, pairs, spaces) && v.status == L.Running
    ensures SpacesAgree(index[space := newRef], pairs + {(SERVER, space)}, spaces[space := v])
  {}

  lemma {:induction false} SpacesAfterDrop(index: map<string, nat>, pairs: set<(int, string)>, spaces: map<string,
                                           L.Space>,
                                           space: string, v: L.Space)
    requires SpacesAgree(index, pairs, spaces) && v.status != L.Running
    ensures SpacesAgree(index - {space}, pairs - {(SERVER, space)}, spaces[space := v])
  {}

  lemma {:induction false} SpacesAfterChange(index: map<string, nat>, pairs: set<(int, string)>, spaces: map<string,
                                             L.Space>,
                                             space: string, v: L.Space)
    requires SpacesAgree(index, pairs, spaces) && space in spaces && v.status == spaces[space].status
    ensures SpacesAgree(index, pairs, spaces[space := v])
  {}

  lemma {:induction false} MembersAfterStart(objects: map<nat, Space>, index: map<string, nat>, spaces: map<string,
                                             L.Space>,
                                             space: string, o: Space, v: L.Space, newRef: nat)
    requires MembersAgree(objects, index, spaces, {}) && newRef !in objects && o.members.Keys == v.members
    ensures MembersAgree(objects[newRef := o], index[space := newRef], spaces[space := v], {space})
  {}

  lemma {:induction false} MembersAfterDrop(objects: map<nat, Space>, index: map<string, nat>, spaces: map<string,
                                            L.Space>,
                                            space: string, v: L.Space)
    requires MembersAgree(objects, index, spaces, {space})
    ensures MembersAgree(objects, index - {space}, spaces[space := v], {})
  {}

  /** The object of one mirrored space changes with the coordinator's space; the other spaces have other objects. */
  lemma {:induction false} MembersAfterChange(objects: map<nat, Space>, index: map<string, nat>, spaces: map<string,
                                              L.Space>,
                                              space: string, o: Space, v: L.Space)
    requires MembersAgree(objects, index, spaces, {space}) && space in index && o.members.Keys == v.members
    requires forall k :: k in index && k != space ==> index[k] != index[space]
    ensures MembersAgree(objects[index[space] := o], index, spaces[space := v], if v.members == {} then {space} else {})
  {}

  lemma {:induction false} OthersHaveOtherObjects(srv: Server<nat, nat>, space: string)
    requires Consistent(srv) && space in srv.spaces
    ensures forall k :: k in srv.spaces && k != space ==> srv.spaces[k] != srv.spaces[space]
  {}

  // ----- Joining -----

  ghost predicate Joinable(c: L.State, space: string, outcome: L.Outcome) {
    && space in c.spaces
    && (c.spaces[space].status == L.Running || (c.spaces[space].status == L.Initialized && outcome.Allocated?))
  }

  lemma {:induction false} PreparingAgrees(y: System, r: Request)
    requires Agreement(y) && r.Join? && Possible(y, r)
    ensures var (y1, ok) := Prepared(y, r.space, r.spaceData, r.outcome, r.listed, r.newRef);
            && ok == Joinable(y.coordinator, r.space, r.outcome)
            && (if ok then AgreementBut(y1, {r.space}) && r.space in y1.server.spaces
                  && y1.coordinator.nextMember == y.coordinator.nextMember
                else Agreement(y1) && y1.server == y.server)
  {
    var c, space := y.coordinator, r.space;
    if space in y.server.spaces { return; }
    L.SubscribingKeepsInv(c, SERVER, space, r.outcome);
    if space !in c.spaces { return; }
    assert L.SpaceOk(c, space);
    if c.spaces[space].status == L.Initialized {
      if r.outcome.Allocated? { FirstJoinPrepares(y, r); } else { RefusedAs(c, space, r.outcome); }
    }
  }

  /** Without an acknowledged router the coordinator's spaces and subscriptions stay as they are. */
  lemma {:induction false} RefusedAs(c: L.State, space: string, outcome: L.Outcome)
    requires space in c.spaces && c.spaces[space].status == L.Initialized && c.spaces[space].primaryRouter == None
             && !outcome.Allocated?
    ensures L.Subscribed(c, SERVER, space, outcome)
            == (if outcome.NackedAfter? then c.(routers := c.routers + {outcome.router}) else c, L.Nack)
  {}

  ghost function WithEmptySpace(srv: Server<nat, nat>, space: string, data: string, newRef: nat): Server<nat, nat> {
    srv.(objects := srv.objects[newRef := Space(space, data, map[])], spaces := srv.spaces[space := newRef])
  }

  lemma {:induction false} MirroringNobody(srv: Server<nat, nat>, space: string, data: string,
                                           listed: seq<R.ClientMember>, newRef: nat)
    requires space !in srv.spaces && Listed(listed).Keys == {}
    ensures SpaceMirrored(srv, space, data, listed, newRef) == WithEmptySpace(srv, space, data, newRef)
  {
    assert Listed(listed) == map[];
    assert Owners(srv.members, {}, newRef) == srv.members;
  }

  lemma {:induction false} FirstJoinPrepares(y: System, r: Request)
    requires Agreement(y) && r.Join? && Possible(y, r) && r.space !in y.server.spaces
    requires r.space in y.coordinator.spaces && y.coordinator.spaces[r.space].status == L.Initialized
             && r.outcome.Allocated?
    ensures var (y1, ok) := Prepared(y, r.space, r.spaceData, r.outcome, r.listed, r.newRef);
            ok && AgreementBut(y1, {r.space}) && r.space in y1.server.spaces
                && y1.coordinator.nextMember == y.coordinator.nextMember
  {
    var c, space := y.coordinator, r.space;
    assert L.SpaceOk(c, space);
    L.FirstSubscriberKeepsInv(c, SERVER, space, r.outcome.router);
    PreparedAs(y, r);
    StartedAgrees(y, space, r.spaceData, r.outcome.router, r.newRef);
  }

  /** The coordinator starts the space and the server mirrors it without members. */
  lemma {:induction false} PreparedAs(y: System, r: Request)
    requires r.Join? && Possible(y, r) && r.space !in y.server.spaces && r.space in y.coordinator.spaces
             && r.outcome.Allocated?
    requires L.Subscribed(y.coordinator, SERVER, r.space, r.outcome)
             == (L.Started(y.coordinator, SERVER, r.space, r.outcome.router), L.Ack)
    requires y.coordinator.spaces[r.space].members == {}
    ensures Prepared(y, r.space, r.spaceData, r.outcome, r.listed, r.newRef)
            == (System(WithEmptySpace(y.server, r.space, r.spaceData, r.newRef),
                       L.Started(y.coordinator, SERVER, r.space, r.outcome.router)), true)
  {
    MirroringNobody(y.server, r.space, r.spaceData, r.listed, r.newRef);
  }

  lemma {:induction false} StartedIndices(srv: Server<nat, nat>, space: string, data: string, newRef: nat)
    requires IndicesAgree(srv) && newRef !in srv.objects && space !in srv.spaces
    ensures IndicesAgree(WithEmptySpace(srv, space, data, newRef))
  {}

  lemma {:induction false} StartedAgrees(y: System, space: string, data: string, router: int, newRef: nat)
    requires Agreement(y) && space !in y.server.spaces && newRef !in y.server.objects
    requires space in y.coordinator.spaces && y.coordinator.spaces[space].members == {}
    requires L.Inv(L.Started(y.coordinator, SERVER, space, router))
    ensures AgreementBut(System(WithEmptySpace(y.server, space, data, newRef),
            L.Started(y.coordinator, SERVER, space, router)), {space})
  {
    var srv, c := WithEmptySpace(y.server, space, data, newRef), L.Started(y.coordinator, SERVER, space, router);
    SpacesAfterStart(y.server.spaces, y.coordinator.pairs, y.coordinator.spaces, space, c.spaces[space], newRef);
    MembersAfterStart(y.server.objects, y.server.spaces, y.coordinator.spaces, space, Space(space, data, map[]),
        c.spaces[space], newRef);
    StartedIndices(y.server, space, data, newRef);
  }

  lemma {:induction false} EnteredAs(y: System, space: string, data: string, state: R.MemberState, outcome: L.Outcome)
    requires L.SpacesOk(y.coordinator) && Consistent(y.server) && (SERVER, space) in y.coordinator.pairs
             && space in y.server.spaces
    ensures space in y.coordinator.spaces && y.coordinator.spaces[space].status == L.Running
    ensures Entered(y, space, data, state, outcome)
            == (System(MemberAdded(y.server, space, y.coordinator.nextMember, data, state),
                L.Entered(y.coordinator, space)), true)
  {
    L.AddedAs(y.coordinator, SERVER, space, outcome);
  }

  /** What the server's indices are after it mirrored one more member. */
  lemma {:induction false} MirroredOneMore(srv: Server<nat, nat>, space: string, id: int, data: string,
                                           state: R.MemberState)
    requires Consistent(srv) && space in srv.spaces && id !in srv.members
    ensures var srv', o := MemberAdded(srv, space, id, data, state), srv.objects[srv.spaces[space]];
            && srv'.objects == srv.objects[srv.spaces[space] := o.(members := o.members[id := R.Profile(data, state)])]
            && srv'.spaces == srv.spaces && srv'.members == srv.members[id := srv.spaces[space]]
  {}

  lemma {:induction false} OwnersAfterEntering(members: map<int, nat>, index: map<string, nat>, ownerOf: map<int,
                                               string>, id: int, space: string)
    requires OwnersAgree(members, index, ownerOf) && space in index && id !in members
    ensures OwnersAgree(members[id := index[space]], index, ownerOf[id := space])
  {}

  lemma {:induction false} EnteringAgrees(y: System, space: string, data: string, state: R.MemberState,
                                          outcome: L.Outcome)
    requires AgreementBut(y, {space}) && space in y.server.spaces
    ensures var (y1, ok) := Entered(y, space, data, state, outcome); ok && Agreement(y1)
  {
    var c, srv, id := y.coordinator, y.server, y.coordinator.nextMember;
    EnteredAs(y, space, data, state, outcome);
    assert id !in srv.members by { assert id in srv.members ==> id in c.ownerOf; }
    L.EnteringKeepsSpaces(c, space);
    L.EnteringKeepsRouters(c, space);
    AddingKeepsIndices(srv, space, id, data, state);
    MirroredOneMore(srv, space, id, data, state);
    OwnersAfterEntering(srv.members, srv.spaces, c.ownerOf, id, space);
    BothSidesEnter(y, space, data, state);
  }

  lemma {:induction false} BothSidesEnter(y: System, space: string, data: string, state: R.MemberState)
    requires AgreementBut(y, {space}) && space in y.server.spaces
    ensures var id, o, v :=
            y.coordinator.nextMember, y.server.objects[y.server.spaces[space]], y.coordinator.spaces[space];
            var objects :=
                y.server.objects[y.server.spaces[space] := o.(members := o.members[id := R.Profile(data, state)])];
            var spaces := y.coordinator.spaces[space := v.(members := v.members + {id})];
            && MembersAgree(objects, y.server.spaces, spaces, {})
            && SpacesAgree(y.server.spaces, y.coordinator.pairs, spaces)
  {
    var srv, c, id := y.server, y.coordinator, y.coordinator.nextMember;
    OthersHaveOtherObjects(srv, space);
    var o, v := srv.objects[srv.spaces[space]], c.spaces[space];
    MembersAfterChange(srv.objects, srv.spaces, c.spaces, space,
                       o.(members := o.members[id := R.Profile(data, state)]), v.(members := v.members + {id}));
    SpacesAfterChange(srv.spaces, c.pairs, c.spaces, space, v.(members := v.members + {id}));
  }

  /** A join is acknowledged exactly when its space is running, or is initialized and a worker provides the router. */
  lemma {:induction false} JoinSucceedsExactlyWhenJoinable(y: System, r: Request)
    requires Agreement(y) && r.Join? && Possible(y, r)
    ensures Joined(y, r).1 == Joinable(y.coordinator, r.space, r.outcome)
    ensures Agreement(Joined(y, r).0)
  {
    PreparingAgrees(y, r);
    var (y1, ok) := Prepared(y, r.space, r.spaceData, r.outcome, r.listed, r.newRef);
    if ok { EnteringAgrees(y1, r.space, r.data, r.state, r.outcome); }
  }

  /** A join that is acknowledged mirrors its member, under the coordinator's next id, in the space it asked for, with
      the data and state it came with. */
  lemma {:induction false} AcknowledgedJoinIsMirrored(y: System, r: Request)
    requires Agreement(y) && r.Join? && Possible(y, r) && Joinable(y.coordinator, r.space, r.outcome)
    ensures var srv, id := Joined(y, r).0.server, y.coordinator.nextMember;
            && Consistent(srv) && id in srv.members
            && Profiles.ProfileAt(srv, id) == R.Profile(r.data, r.state) && Profiles.UuidAt(srv, id) == r.space
            && Joined(y, r).0.coordinator.ownerOf == y.coordinator.ownerOf[id := r.space]
  {
    JoinSucceedsExactlyWhenJoinable(y, r);
    PreparingAgrees(y, r);
    var y1 := Prepared(y, r.space, r.spaceData, r.outcome, r.listed, r.newRef).0;
    PreparingAddsNobody(y, r);
    EnteredAs(y1, r.space, r.data, r.state, r.outcome);
    assert y1.coordinator.nextMember !in y1.server.members by {
      assert y1.coordinator.nextMember in y1.server.members ==> y1.coordinator.nextMember in y1.coordinator.ownerOf;
    }
    Profiles.AddedMembers(y1.server, r.space, y1.coordinator.nextMember, r.data, r.state);
  }

  /** Preparing a space adds no member on the coordinator's side. */
  lemma {:induction false} PreparingAddsNobody(y: System, r: Request)
    requires L.Inv(y.coordinator) && r.Join? && Possible(y, r)
    ensures var c' := Prepared(y, r.space, r.spaceData, r.outcome, r.listed, r.newRef).0.coordinator;
            c'.nextMember == y.coordinator.nextMember && c'.ownerOf == y.coordinator.ownerOf
  {}

  /** An update of a mirrored member sets the fields it names and no other. */
  lemma {:induction false} UpdateIsMirrored(y: System, member: int, patch: R.Patch)
    requires Agreement(y) && member in y.server.members
    ensures var srv, srv' := y.server, Completed(y, Update(member, patch)).server;
            && Consistent(srv') && srv'.members == srv.members
            && StateOf(srv', member).isMuted
               == (if patch.isMuted.Some? then patch.isMuted.value else StateOf(srv, member).isMuted)
            && StateOf(srv', member).transportIsConnected
               == (if patch.transportIsConnected.Some? then patch.transportIsConnected.value
                   else StateOf(srv, member).transportIsConnected)
            && OnlyStateChanged(srv, srv', member)
  {
    PatchedFieldByField(y.server, member, patch);
  }

  // ----- Leaving -----

  /** The member is gone on both sides; whether its space is to be unsubscribed. */
  lemma {:induction false} RemovalAgrees(y: System, member: int)
    requires Agreement(y) && member in y.server.members
    ensures var c, srv := y.coordinator, y.server;
            && L.Present(c, member)
            && var space := c.ownerOf[member];
            && L.MemberRemoved(c, member)
               == (c.(spaces := c.spaces[space := c.spaces[space].(members := c.spaces[space].members - {member})]),
                   L.Ack)
            && AgreementBut(System(MemberRemoved(srv, member), L.MemberRemoved(c, member).0), {space})
            && space in srv.spaces
            && Emptied(srv, member) == (if c.spaces[space].members == {member} then Some(space) else None)
  {
    var c, srv := y.coordinator, y.server;
    var space := c.ownerOf[member];
    assert SERVER in L.Subscribers(c.pairs, space) by { assert (SERVER, space) in c.pairs; }
    L.RemovedWhileSubscribed(c, member);
    L.RemovingKeepsInv(c, member);
    RemovingKeepsIndices(srv, member);
    UnmirroredOne(srv, member);
    OwnersAfterLeaving(srv.members, srv.spaces, c.ownerOf, member);
    BothSidesLeave(y, member);
    EmptiedWhenLast(srv, member, space);
  }

  /** What the server's indices are after a member is gone. */
  lemma {:induction false} UnmirroredOne(srv: Server<nat, nat>, member: int)
    requires Consistent(srv) && member in srv.members
    ensures var srv', o := MemberRemoved(srv, member), srv.objects[srv.members[member]];
            && srv'.objects == srv.objects[srv.members[member] := o.(members := o.members - {member})]
            && srv'.spaces == srv.spaces && srv'.members == srv.members - {member}
  {}

  lemma {:induction false} OwnersAfterLeaving(members: map<int, nat>, index: map<string, nat>, ownerOf: map<int,
                                              string>, member: int)
    requires OwnersAgree(members, index, ownerOf)
    ensures OwnersAgree(members - {member}, index, ownerOf)
  {}

  lemma {:induction false} BothSidesLeave(y: System, member: int)
    requires Agreement(y) && member in y.server.members && L.Present(y.coordinator, member)
    ensures var space := y.coordinator.ownerOf[member];
            && space in y.server.spaces && y.server.spaces[space] == y.server.members[member]
            && var o, v := y.server.objects[y.server.members[member]], y.coordinator.spaces[space];
            && var objects := y.server.objects[y.server.members[member] := o.(members := o.members - {member})];
            && var spaces := y.coordinator.spaces[space := v.(members := v.members - {member})];
            && MembersAgree(objects, y.server.spaces, spaces, {space})
            && SpacesAgree(y.server.spaces, y.coordinator.pairs, spaces)
  {
    var srv, c := y.server, y.coordinator;
    var space := c.ownerOf[member];
    OthersHaveOtherObjects(srv, space);
    var o, v := srv.objects[srv.spaces[space]], c.spaces[space];
    MembersAfterChange(srv.objects, srv.spaces, c.spaces, space, o.(members := o.members - {member}),
        v.(members := v.members - {member}));
    SpacesAfterChange(srv.spaces, c.pairs, c.spaces, space, v.(members := v.members - {member}));
  }

  lemma {:induction false} EmptiedWhenLast(srv: Server<nat, nat>, member: int, space: string)
    requires Consistent(srv) && member in srv.members && space in srv.spaces && srv.spaces[space] == srv.members[member]
    ensures Emptied(srv, member)
            == (if srv.objects[srv.members[member]].members.Keys == {member} then Some(space) else None)
  {
    var ms := srv.objects[srv.members[member]].members;
    assert ms - {member} == map[] <==> (ms - {member}).Keys == {};
    assert ms.Keys == (ms - {member}).Keys + {member};
  }

  lemma {:induction false} DropAgrees(y: System, space: string)
    requires AgreementBut(y, {space}) && space in y.server.spaces && y.coordinator.spaces[space].members == {}
    ensures y.coordinator.spaces[space].primaryRouter.Some?
    ensures L.Unsubscribed(y.coordinator, SERVER, space)
            == (y.coordinator.(pairs := y.coordinator.pairs - {(SERVER, space)},
                               routers := y.coordinator.routers - {y.coordinator.spaces[space].primaryRouter.value},
                               spaces := y.coordinator.spaces[space := L.Space(L.Ended, None, {})]), L.Ack)
    ensures Agreement(System(SpaceDropped(y.server, space), L.Unsubscribed(y.coordinator, SERVER, space).0))
  {
    var c := y.coordinator;
    assert L.SpaceOk(c, space);
    forall x: int ensures x in L.Subscribers(c.pairs, space) <==> x == SERVER {
      assert x in L.Subscribers(c.pairs, space) <==> (x, space) in c.pairs;
    }
    L.LastServerLeaves(c, SERVER, space);
    L.UnsubscribingKeepsInv(c, SERVER, space);
    SpacesAfterDrop(y.server.spaces, c.pairs, c.spaces, space, L.Space(L.Ended, None, {}));
    MembersAfterDrop(y.server.objects, y.server.spaces, c.spaces, space, L.Space(L.Ended, None, {}));
    DroppedIndices(y.server, space);
    NobodyIsLeft(y.server, c.ownerOf, space);
  }

  lemma {:induction false} DroppedIndices(srv: Server<nat, nat>, space: string)
    requires IndicesAgree(srv)
    ensures IndicesAgree(SpaceDropped(srv, space))
  {}

  lemma {:induction false} NobodyIsLeft(srv: Server<nat, nat>, ownerOf: map<int, string>, space: string)
    requires Consistent(srv) && OwnersAgree(srv.members, srv.spaces, ownerOf)
    requires space in srv.spaces && srv.spaces[space] in srv.objects
             && srv.objects[srv.spaces[space]].members.Keys == {}
    ensures OwnersAgree(srv.members, srv.spaces - {space}, ownerOf)
  {
    forall id | id in srv.members ensures ownerOf[id] != space {
      assert id in srv.objects[srv.members[id]].members.Keys;
    }
  }

  /** The last leave drives unsubscribe, end and router removal in one chain; an earlier one leaves the space
      running. */
  lemma {:induction false} LeaveEndsExactlyWhenLast(y: System, member: int)
    requires Agreement(y) && member in y.server.members
    ensures L.Present(y.coordinator, member)
    ensures var space := y.coordinator.ownerOf[member];
            var before, y1 := y.coordinator.spaces[space], Left(y, member);
            && Agreement(y1) && space in y1.coordinator.spaces
            && (if before.members == {member} then
                  && y1.coordinator.spaces[space] == L.Space(L.Ended, None, {})
                  && (SERVER, space) !in y1.coordinator.pairs && space !in y1.server.spaces
                  && before.primaryRouter.Some?
                  && y1.coordinator.routers == y.coordinator.routers - {before.primaryRouter.value}
                else
                  && y1.coordinator.spaces[space] == before.(members := before.members - {member})
                  && space in y1.server.spaces && y1.coordinator.routers == y.coordinator.routers)
  {
    RemovalAgrees(y, member);
    var c := y.coordinator;
    var space := c.ownerOf[member];
    var removed := System(MemberRemoved(y.server, member), L.MemberRemoved(c, member).0);
    if c.spaces[space].members == {member} {
      DropAgrees(removed, space);
    }
  }

  // ----- Every run -----

  lemma {:induction false} RequestKeepsAgreement(y: System, r: Request)
    requires Agreement(y) && Possible(y, r)
    ensures Agreement(Completed(y, r))
  {
    match r
    case Create(space) => L.CreatingKeepsInv(y.coordinator, space);
    case Join(_, _, _, _, _, _, _) => JoinSucceedsExactlyWhenJoinable(y, r);
    case Update(member, patch) => UpdatingAgrees(y, member, patch);
    case Leave(member) => if member in y.server.members { LeaveEndsExactlyWhenLast(y, member); }
  }

  lemma {:induction false} UpdatingAgrees(y: System, member: int, patch: R.Patch)
    requires Agreement(y)
    ensures Agreement(Completed(y, Update(member, patch)))
  {
    if member in y.server.members {
      UpdatingKeepsIndices(y.server, member, patch);
    }
  }

  ghost function Run(requests: seq<Request>): (y: Option<System>)
    ensures y.Some? ==> Agreement(y.value)
    decreases |requests|
  {
    if requests == [] then Some(Initial())
    else
      match Run(requests[..|requests| - 1])
      case None => None
      case Some(y) =>
        var r := requests[|requests| - 1];
        if !Possible(y, r) then None else RequestKeepsAgreement(y, r); Some(Completed(y, r))
  }

  /** In every run the two sides agree: a space is mirrored iff the server is subscribed to it iff it is running, with
      the same member ids, and then it has at least one. */
  lemma {:induction false} BothSidesAgree(requests: seq<Request>, space: string)
    ensures match Run(requests)
            case None => true
            case Some(y) =>
              var srv, c := y.server, y.coordinator;
              && (space in srv.spaces <==> (SERVER, space) in c.pairs)
              && (space in srv.spaces <==> space in c.spaces && c.spaces[space].status == L.Running)
              && (space in srv.spaces ==>
                    && srv.spaces[space] in srv.objects
                    && srv.objects[srv.spaces[space]].members.Keys == c.spaces[space].members != {})
              && (forall id :: id in srv.members <==> L.Present(c, id))
  {
    var run := Run(requests);
    if run.Some? { SameMembers(run.value); }
  }

  lemma {:induction false} SameMembers(y: System)
    requires Agreement(y)
    ensures forall id :: id in y.server.members <==> L.Present(y.coordinator, id)
  {
    forall id ensures id in y.server.members <==> L.Present(y.coordinator, id) {
      if L.Present(y.coordinator, id) { assert L.SpaceOk(y.coordinator, y.coordinator.ownerOf[id]); }
    }
  }
}
