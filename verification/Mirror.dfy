/** The signaling server's local mirror: spaces, members and registered channels, and what each bus answer or client
    message does to them in one synchronous step.

    A space object is shared by reference: the index `spaces` names it by uuid, each mirrored member names its owning
    space object, and the two can part (a space dropped from the index keeps its members).  So objects live in a store
    indexed by a reference type `S`; the member object `id` of a space is its entry in that space's `members`.
    Channels are references of type `C`, each with an append-only log of what was emitted on it. */
module Mirror {
  import opened Common
  import opened Replica

  datatype Space = Space(uuid: string, data: string, members: map<int, Profile>)

  datatype Server<S, C> = Server(
    objects: map<S, Space>,
    spaces: map<string, S>,
    members: map<int, S>,  // the owning space object of each mirrored member
    channels: map<int, C>, // memberIdToChannel
    logs: map<C, seq<Event>>)

  /** Every reference held points at an object, and a mirrored member is in its owning space. */
  ghost predicate Consistent<S, C>(srv: Server<S, C>) {
    && (forall u :: u in srv.spaces ==> srv.spaces[u] in srv.objects && srv.objects[srv.spaces[u]].uuid == u)
    && (forall id :: id in srv.members ==> srv.members[id] in srv.objects && id in srv.objects[srv.members[id]].members)
    && (forall id :: id in srv.channels ==> srv.channels[id] in srv.logs)
  }

  /** The global index and the per-space indices describe the same members, each in exactly its owning space. */
  ghost predicate IndicesAgree<S, C>(srv: Server<S, C>) {
    && Consistent(srv)
    && (forall s, id :: s in srv.objects && id in srv.objects[s].members ==> id in srv.members && srv.members[id] == s)
  }

  ghost predicate Reaches<C>(channels: map<int, C>, to: set<int>, c: C) {
    exists id :: id in to && id in channels && channels[id] == c
  }

  /** Emits one event on the channel of every listed member that has one. */
  ghost function Emit<S, C>(srv: Server<S, C>, to: set<int>, e: Event): Server<S, C> {
    srv.(logs := map c | c in srv.logs :: if Reaches(srv.channels, to, c) then srv.logs[c] + [e] else srv.logs[c])
  }

  ghost function WithMembers<S, C>(srv: Server<S, C>, s: S, ms: map<int, Profile>): Server<S, C>
    requires s in srv.objects
  {
    srv.(objects := srv.objects[s := srv.objects[s].(members := ms)])
  }

  /** The per-space index a member list builds; a repeated id keeps its last entry. */
  ghost function Listed(members: seq<ClientMember>): map<int, Profile>
    decreases |members|
  {
    if members == [] then map[]
    else
      var m := members[|members| - 1];
      Listed(members[..|members| - 1])[m.id := Profile(m.data, m.state)]
  }

  /** `_addMember`: the member enters its space and the global index. */
  ghost function Added<S, C>(srv: Server<S, C>, s: S, m: ClientMember): Server<S, C>
    requires s in srv.objects
  {
    WithMembers(srv, s, srv.objects[s].members[m.id := Profile(m.data, m.state)]).(members := srv.members[m.id := s])
  }

  ghost function Owners<S>(members: map<int, S>, ids: set<int>, s: S): map<int, S> {
    members + map id | id in ids :: s
  }

  /** The subscribe request is acknowledged: mirror the space and its members, unless it is mirrored already. */
  ghost function SpaceMirrored<S, C>(srv: Server<S, C>, uuid: string, data: string, listed: seq<ClientMember>,
                                     s: S): (srv': Server<S, C>)
    ensures Consistent(srv) && s !in srv.objects ==> Consistent(srv')
  {
    if uuid in srv.spaces then srv
    else Enrolled(srv.(objects := srv.objects[s := Space(uuid, data, map[])], spaces := srv.spaces[uuid := s]), s,
        listed)
  }

  /** A space without members receives a member list. */
  ghost function Enrolled<S, C>(srv: Server<S, C>, s: S, listed: seq<ClientMember>): Server<S, C>
    requires s in srv.objects
  {
    WithMembers(srv, s, Listed(listed)).(members := Owners(srv.members, Listed(listed).Keys, s))
  }

  lemma {:induction false} EnrolledOneMore<S, C>(srv: Server<S, C>, s: S, listed: seq<ClientMember>, m: ClientMember)
    requires s in srv.objects
    ensures Enrolled(srv, s, listed + [m]) == Added(Enrolled(srv, s, listed), s, m)
  {
    assert (listed + [m])[..|listed|] == listed;
    OwnersOneMore(srv.members, Listed(listed).Keys, m.id, s);
    assert Listed(listed + [m]).Keys == Listed(listed).Keys + {m.id};
    OverwriteTwice(srv.objects, s, srv.objects[s].(members := Listed(listed)),
        srv.objects[s].(members := Listed(listed + [m])));
  }

  lemma {:induction false} OwnersOneMore<S>(members: map<int, S>, ids: set<int>, id: int, s: S)
    ensures Owners(members, ids + {id}, s) == Owners(members, ids, s)[id := s]
  {}

  lemma {:induction false} OverwriteTwice<S>(objects: map<S, Space>, s: S, a: Space, b: Space)
    ensures objects[s := a][s := b] == objects[s := b]
  {}

  /** The add-member request is acknowledged: mirror the member and tell the other channels of the space. */
  ghost function MemberAdded<S, C>(srv: Server<S, C>, uuid: string, id: int, data: string,
                                   state: MemberState): (srv': Server<S, C>)
    requires Consistent(srv)
    ensures Consistent(srv') && srv'.logs.Keys == srv.logs.Keys
  {
    if id in srv.members || uuid !in srv.spaces then srv
    else
      var s := srv.spaces[uuid];
      var ms := srv.objects[s].members[id := Profile(data, state)];
      Emit(WithMembers(srv, s, ms).(members := srv.members[id := s]), ms.Keys - {id},
          MemberJoin(ClientMember(id, data, state)))
  }

  /** `updateMember`: `None` when the member is unknown, which the source reports by throwing. */
  ghost function MemberUpdated<S, C>(srv: Server<S, C>, id: int, patch: Patch): (srv': Option<Server<S, C>>)
    requires Consistent(srv)
    ensures srv'.Some? ==> Consistent(srv'.value) && srv'.value.logs.Keys == srv.logs.Keys
  {
    if id !in srv.members then None
    else
      var s := srv.members[id];
      var ms := srv.objects[s].members;
      var st := Merge(ms[id].state, patch);
      Some(Emit(WithMembers(srv, s, ms[id := ms[id].(state := st)]), ms.Keys, MemberStateUpdate(id, st)))
  }

  /** The remove-member request is acknowledged. */
  ghost function MemberRemoved<S, C>(srv: Server<S, C>, id: int): (srv': Server<S, C>)
    requires Consistent(srv)
    ensures Consistent(srv') && srv'.logs.Keys == srv.logs.Keys
  {
    if id !in srv.members then srv
    else
      var s := srv.members[id];
      var ms := srv.objects[s].members - {id};
      Emit(WithMembers(srv, s, ms).(members := srv.members - {id}), ms.Keys, MemberLeave(id))
  }

  /** The space to unsubscribe from when `id` leaves: its space, if that is empty then and still the mirrored one,
      or an empty one under the same uuid. */
  ghost function Emptied<S, C>(srv: Server<S, C>, id: int): Option<string>
    requires Consistent(srv)
  {
    if id !in srv.members then None
    else
      var srv' := MemberRemoved(srv, id);
      var space := srv'.objects[srv.members[id]];
      if space.members == map[] && space.uuid in srv'.spaces && srv'.objects[srv'.spaces[space.uuid]].members == map[]
      then Some(space.uuid) else None
  }

  /** The last step of the join handshake: `spaceInit` is emitted on the channel, then the channel is registered. */
  ghost function Registered<S, C>(srv: Server<S, C>, uuid: string, id: int, c: C,
                                  members: seq<ClientMember>): Server<S, C>
    requires uuid in srv.spaces && srv.spaces[uuid] in srv.objects && c in srv.logs
  {
    var init := SpaceInit(id, uuid, srv.objects[srv.spaces[uuid]].data, members);
    srv.(logs := srv.logs[c := srv.logs[c] + [init]], channels := srv.channels[id := c])
  }

  ghost function Unregistered<S, C>(srv: Server<S, C>, id: int): Server<S, C> {
    srv.(channels := srv.channels - {id})
  }

  ghost function SpaceDropped<S, C>(srv: Server<S, C>, uuid: string): Server<S, C> {
    srv.(spaces := srv.spaces - {uuid})
  }

  datatype CoordinatorUpdate =
    | TransportParamsEvent(memberId: int, consumesFrom: Option<int>)
    | ProducerConnectedEvent(memberId: int)
    | UnknownEvent
    | FromServer // the "S:" direction, not addressed to servers

  datatype Verdict = Acked | Nacked | Ignored

  /** `onSpaceUpdate`. */
  ghost function SpaceUpdated<S, C>(srv: Server<S, C>, uuid: string,
                                    update: CoordinatorUpdate): (r: (Server<S, C>, Verdict))
    requires Consistent(srv)
    ensures Consistent(r.0) && r.0.logs.Keys == srv.logs.Keys
  {
    if update.FromServer? then (srv, Ignored)
    else if uuid !in srv.spaces then (srv, Nacked)
    else match update
      case TransportParamsEvent(id, from) =>
        if id !in srv.channels then (srv, Acked)
        else (Emit(srv, {id}, TransportParams(from.GetOr(id))), Acked)
      case ProducerConnectedEvent(id) =>
        if id !in srv.channels then (srv, Acked)
        else
          (match MemberUpdated(srv, id, Patch(None, Some(true)))
           case Some(srv') => (srv', Acked)
           case None => (srv, Nacked))
      case UnknownEvent => (srv, Nacked)
  }

  // ----- Every operation keeps the indices in agreement -----

  /** Mirroring a space keeps the indices in agreement exactly when it lists no id the server already mirrors. */
  lemma {:induction false} MirroringKeepsIndices<S, C>(srv: Server<S, C>, uuid: string, data: string,
                                                       listed: seq<ClientMember>, s: S)
    requires IndicesAgree(srv) && s !in srv.objects && uuid !in srv.spaces
    ensures IndicesAgree(SpaceMirrored(srv, uuid, data, listed, s)) <==> Listed(listed).Keys !! srv.members.Keys
  {
    var srv' := SpaceMirrored(srv, uuid, data, listed, s);
    if exists id :: id in Listed(listed) && id in srv.members {
      var id :| id in Listed(listed) && id in srv.members;
      assert srv'.members[id] == s && id in srv'.objects[srv.members[id]].members;
    }
  }

  lemma {:induction false} AddingKeepsIndices<S, C>(srv: Server<S, C>, uuid: string, id: int, data: string,
                                                    state: MemberState)
    requires IndicesAgree(srv)
    ensures IndicesAgree(MemberAdded(srv, uuid, id, data, state))
  {}

  lemma {:induction false} UpdatingKeepsIndices<S, C>(srv: Server<S, C>, id: int, patch: Patch)
    requires IndicesAgree(srv)
    ensures MemberUpdated(srv, id, patch).Some? ==> IndicesAgree(MemberUpdated(srv, id, patch).value)
  {}

  lemma {:induction false} RemovingKeepsIndices<S, C>(srv: Server<S, C>, id: int)
    requires IndicesAgree(srv)
    ensures IndicesAgree(MemberRemoved(srv, id))
  {}

  // ----- What the operations store and emit, field by field -----

  ghost function StateOf<S, C>(srv: Server<S, C>, id: int): MemberState
    requires Consistent(srv) && id in srv.members
  {
    srv.objects[srv.members[id]].members[id].state
  }

  /** A patch sets the fields it names and no other, of one member and no other, and the result is what every channel of
      the space is told. */
  lemma {:induction false} PatchedFieldByField<S, C>(srv: Server<S, C>, id: int, patch: Patch)
    requires Consistent(srv)
    ensures MemberUpdated(srv, id, patch).Some? <==> id in srv.members
    ensures id in srv.members ==>
              var srv' := MemberUpdated(srv, id, patch).value;
              && srv'.members == srv.members
              && StateOf(srv', id).isMuted
                 == (if patch.isMuted.Some? then patch.isMuted.value else StateOf(srv, id).isMuted)
              && StateOf(srv', id).transportIsConnected
                 == (if patch.transportIsConnected.Some? then patch.transportIsConnected.value
                     else StateOf(srv, id).transportIsConnected)
              && OnlyStateChanged(srv, srv', id)
              && (forall c :: c in srv.logs ==>
                    srv'.logs[c] == if Reaches(srv.channels, srv.objects[srv.members[id]].members.Keys, c)
                                    then srv.logs[c] + [MemberStateUpdate(id, StateOf(srv', id))] else srv.logs[c])
  {}

  /** Nothing about the spaces differs but the state of member `id`. */
  ghost predicate OnlyStateChanged<S, C>(srv: Server<S, C>, srv': Server<S, C>, id: int)
    requires Consistent(srv) && id in srv.members
  {
    && srv'.spaces == srv.spaces && srv'.channels == srv.channels && srv'.objects.Keys == srv.objects.Keys
    && srv'.logs.Keys == srv.logs.Keys
    && forall s :: s in srv.objects ==>
         && srv'.objects[s].uuid == srv.objects[s].uuid && srv'.objects[s].data == srv.objects[s].data
         && srv'.objects[s].members.Keys == srv.objects[s].members.Keys
         && forall k :: k in srv.objects[s].members ==>
              && srv'.objects[s].members[k].data == srv.objects[s].members[k].data
              && (!(s == srv.members[id] && k == id) ==> srv'.objects[s].members[k] == srv.objects[s].members[k])
  }
}
