/** The signaling server as the source writes it: a class whose handlers update its indices and its space objects in
    place and emit on channel objects.  A member record is the entry of its owning space object's map.

    The ghost field `model` is the state of `Mirror` the server is in, and `Coupled` ties it to the real fields. */
module SignalingServers {
  import opened Common
  import opened Replica
  import M = Mirror

  class Channel {
    var log: seq<Event>

    constructor ()
      ensures log == []
    {
      log := [];
    }

    method Emit(e: Event)
      modifies this
      ensures log == old(log) + [e]
    {
      log := log + [e];
    }
  }

  class Space {
    const uuid: string
    const data: string
    var members: map<int, Profile>

    constructor (uuid: string, data: string)
      ensures Record() == M.Space(uuid, data, map[])
    {
      this.uuid, this.data, members := uuid, data, map[];
    }

    ghost function Record(): M.Space
      reads this
    {
      M.Space(uuid, data, members)
    }
  }

  class SignalingServer {
    var spaces: map<string, Space>
    var members: map<int, Space> // member id to owning space
    var memberIdToChannel: map<int, Channel>

    ghost var objects: set<Space>
    ghost var channels: set<Channel>
    ghost var model: M.Server<Space, Channel>

    constructor ()
      ensures Valid() && objects == {} && channels == {}
      ensures model == M.Server(map[], map[], map[], map[], map[])
    {
      spaces, members, memberIdToChannel := map[], map[], map[];
      objects, channels := {}, {};
      model := M.Server(map[], map[], map[], map[], map[]);
    }

    ghost predicate Coupled()
      reads this, objects, channels
    {
      && model == M.Server(model.objects, spaces, members, memberIdToChannel, model.logs)
      && model.objects.Keys == objects && model.logs.Keys == channels
      && (forall s :: s in objects ==> model.objects[s] == s.Record())
      && (forall c :: c in channels ==> model.logs[c] == c.log)
      && (forall i, j ::
            i in memberIdToChannel && j in memberIdToChannel && memberIdToChannel[i] == memberIdToChannel[j] ==> i == j)
    }

    ghost predicate Valid()
      reads this, objects, channels
    {
      Coupled() && M.Consistent(model)
    }

    /** A channel this server has not seen is accepted: its log starts empty. */
    method Accept(channel: Channel)
      requires Valid() && channel !in channels && channel.log == []
      modifies this`channels, this`model
      ensures Valid() && channels == old(channels) + {channel}
      ensures model == old(model).(logs := old(model).logs[channel := []])
    {
      channels := channels + {channel};
      model := model.(logs := model.logs[channel := []]);
    }

    /** The `forEach` that emits one event on the channel of every listed member that has one. */
    method Broadcast(to: set<int>, e: Event)
      requires Coupled() && forall id :: id in memberIdToChannel ==> memberIdToChannel[id] in channels
      modifies this`model, channels
      ensures Coupled() && model == M.Emit(old(model), to, e)
    {
      var rest := to;
      while rest != {}
        invariant rest <= to && model == old(model)
        invariant forall c :: c in channels ==>
                    c.log == if M.Reaches(memberIdToChannel, to - rest, c) then old(c.log) + [e] else old(c.log)
      {
        var id := Pick(rest);
        ghost var before := to - rest;
        rest := rest - {id};
        assert to - rest == before + {id};
        if id in memberIdToChannel {
          var channel := memberIdToChannel[id];
          assert !M.Reaches(memberIdToChannel, before, channel);
          channel.Emit(e);
          forall c | c in channels
            ensures M.Reaches(memberIdToChannel, to - rest, c) <==>
                    M.Reaches(memberIdToChannel, before, c) || c == channel
          {
            if c == channel { assert id in to - rest; }
          }
        } else {
          forall c | c in channels
            ensures M.Reaches(memberIdToChannel, to - rest, c) <==> M.Reaches(memberIdToChannel, before, c) {}
        }
      }
      model := M.Emit(model, to, e);
    }

    /** `_addMember`. */
    method AddMember(space: Space, m: ClientMember)
      requires Coupled() && space in objects
      modifies this`members, this`model, space
      ensures Coupled() && model == M.Added(old(model), space, m)
    {
      members := members[m.id := space];
      space.members := space.members[m.id := Profile(m.data, m.state)];
      model := M.Added(model, space, m);
    }

    /** The acknowledgement of `subscribeToSpaceRequest`. */
    method OnSpaceMirrored(uuid: string, data: string, listed: seq<ClientMember>) returns (created: Space?)
      requires Valid()
      modifies this
      ensures Valid() && channels == old(channels)
      ensures created == null <==> uuid in old(spaces)
      ensures created == null ==> model == old(model) && objects == old(objects)
      ensures created != null ==> fresh(created) && created !in old(objects) && objects == old(objects) + {created}
                                  && model == M.SpaceMirrored(old(model), uuid, data, listed, created)
    {
      if uuid in spaces { return null; }
      var space := AddSpace(uuid, data);
      MirrorAll(space, listed);
      assert model == M.SpaceMirrored(old(model), uuid, data, listed, space);
      created := space;
    }

    /** `_addSpace`. */
    method AddSpace(uuid: string, data: string) returns (space: Space)
      requires Coupled()
      modifies this`spaces, this`objects, this`model
      ensures Coupled() && fresh(space) && space !in old(objects) && objects == old(objects) + {space}
      ensures space.members == map[]
      ensures model == old(model).(objects := old(model).objects[space := M.Space(uuid, data, map[])],
                                   spaces := old(model).spaces[uuid := space])
    {
      space := new Space(uuid, data);
      spaces := spaces[uuid := space];
      objects := objects + {space};
      model := model.(objects := model.objects[space := space.Record()], spaces := spaces);
    }

    method MirrorAll(space: Space, listed: seq<ClientMember>)
      requires Coupled() && space in objects && space.members == map[]
      modifies this`members, this`model, space
      ensures Coupled() && model == M.Enrolled(old(model), space, listed)
    {
      assert model.objects == model.objects[space := model.objects[space].(members := map[])];
      assert M.Owners(members, {}, space) == members;
      for i := 0 to |listed|
        invariant Coupled() && model == M.Enrolled(old(model), space, listed[..i])
      {
        assert listed[..i + 1] == listed[..i] + [listed[i]];
        M.EnrolledOneMore(old(model), space, listed[..i], listed[i]);
        AddMember(space, listed[i]);
      }
      assert listed[..|listed|] == listed;
    }

    /** The acknowledgement of `addMemberRequest`. */
    method OnMemberAdded(uuid: string, id: int, data: string, state: MemberState)
      requires Valid()
      modifies this, objects, channels
      ensures Valid() && objects == old(objects) && channels == old(channels)
      ensures model == M.MemberAdded(old(model), uuid, id, data, state)
    {
      if id in members || uuid !in spaces { return; }
      ghost var after := M.MemberAdded(model, uuid, id, data, state);
      var space := spaces[uuid];
      AddMember(space, ClientMember(id, data, state));
      Broadcast(space.members.Keys - {id}, MemberJoin(ClientMember(id, data, state)));
      assert model == after;
    }

    method UpdateMember(memberId: int, update: Patch) returns (found: bool)
      requires Valid()
      modifies this, objects, channels
      ensures Valid() && objects == old(objects) && channels == old(channels)
      ensures found == M.MemberUpdated(old(model), memberId, update).Some?
      ensures model == if found then M.MemberUpdated(old(model), memberId, update).value else old(model)
      ensures found == (memberId in old(members)) && members == old(members)
      ensures found ==>
                var before, after := old(members[memberId].members[memberId]), members[memberId].members[memberId];
                && after.data == before.data
                && after.state.isMuted
                   == (if update.isMuted.Some? then update.isMuted.value else before.state.isMuted)
                && after.state.transportIsConnected
                   == (if update.transportIsConnected.Some? then update.transportIsConnected.value
                       else before.state.transportIsConnected)
    {
      if memberId !in members { return false; }
      ghost var after := M.MemberUpdated(model, memberId, update).value;
      var space := members[memberId];
      var profile := space.members[memberId];
      var newState := Merge(profile.state, update);
      ghost var everyone := space.members.Keys;
      space.members := space.members[memberId := profile.(state := newState)];
      model := M.WithMembers(model, space, space.members);
      assert space.members.Keys == everyone;
      Broadcast(space.members.Keys, MemberStateUpdate(memberId, newState));
      assert model == after;
      found := true;
    }

    /** `_removeMember`: the space it was in has lost it too. */
    method RemoveMember(memberId: int) returns (space: Space)
      requires Valid() && memberId in members
      modifies this`members, this`model, members[memberId]
      ensures Coupled() && space == old(members[memberId])
      ensures space.members == old(model).objects[space].members - {memberId}
      ensures model == M.WithMembers(old(model), space, space.members).(members := old(members) - {memberId})
    {
      space := members[memberId];
      space.members := space.members - {memberId};
      members := members - {memberId};
      model := M.WithMembers(model, space, space.members).(members := members);
    }

    /** The acknowledgement of `removeMemberRequest`: `emptied` is the space to unsubscribe from, when it lost its
        last member. */
    method OnMemberRemoved(memberId: int) returns (emptied: Option<string>)
      requires Valid()
      modifies this, objects, channels
      ensures Valid() && objects == old(objects) && channels == old(channels)
      ensures model == M.MemberRemoved(old(model), memberId)
      ensures emptied == M.Emptied(old(model), memberId)
    {
      if memberId !in members { return None; }
      ghost var after := M.MemberRemoved(model, memberId);
      var space := RemoveMember(memberId);
      Broadcast(space.members.Keys, MemberLeave(memberId));
      assert model == after;
      if |space.members| != 0 { return None; }
      // deleteSpace
      if space.uuid !in spaces || |spaces[space.uuid].members| > 0 { return None; }
      emptied := Some(space.uuid);
    }

    /** `getClientSideSpace`: the members of a space, each once, in some order. */
    method GetClientSideMembers(space: Space) returns (list: seq<ClientMember>)
      ensures Lists(list, space.members)
    {
      list := [];
      var rest := space.members.Keys;
      while rest != {}
        invariant rest <= space.members.Keys && Ids(list) == space.members.Keys - rest
        invariant EntriesFrom(list, space.members)
        invariant forall i, j :: 0 <= i < j < |list| ==> list[i].id != list[j].id
      {
        var id := Pick(rest);
        var m := ClientMember(id, space.members[id].data, space.members[id].state);
        assert forall i :: 0 <= i < |list| ==> list[i].id in Ids(list);
        list := list + [m];
        IdsSplit(list);
        rest := rest - {id};
      }
    }

    method EmitOn(channel: Channel, e: Event)
      requires Valid() && channel in channels
      modifies this`model, channel
      ensures Valid() && model == old(model).(logs := old(model).logs[channel := old(model).logs[channel] + [e]])
    {
      channel.Emit(e);
      model := model.(logs := model.logs[channel := channel.log]);
    }

    method RegisterChannel(memberId: int, channel: Channel)
      requires Valid() && channel in channels
      requires forall id :: id in memberIdToChannel ==> memberIdToChannel[id] != channel
      modifies this`memberIdToChannel, this`model
      ensures Valid() && model == old(model).(channels := old(model).channels[memberId := channel])
    {
      memberIdToChannel := memberIdToChannel[memberId := channel];
      model := model.(channels := memberIdToChannel);
    }

    method UnregisterChannel(memberId: int)
      requires Valid()
      modifies this`memberIdToChannel, this`model
      ensures Valid() && model == M.Unregistered(old(model), memberId)
    {
      memberIdToChannel := memberIdToChannel - {memberId};
      model := M.Unregistered(model, memberId);
    }

    method RemoveSpace(uuid: string)
      requires Valid()
      modifies this`spaces, this`model
      ensures Valid() && model == M.SpaceDropped(old(model), uuid)
    {
      spaces := spaces - {uuid};
      model := M.SpaceDropped(model, uuid);
    }

    method OnSpaceUpdate(uuid: string, update: M.CoordinatorUpdate) returns (verdict: M.Verdict)
      requires Valid()
      modifies this, objects, channels
      ensures Valid() && objects == old(objects) && channels == old(channels)
      ensures (model, verdict) == M.SpaceUpdated(old(model), uuid, update)
    {
      if update.FromServer? { return M.Ignored; }
      if uuid !in spaces { return M.Nacked; }
      match update
      case TransportParamsEvent(id, from) =>
        if id !in memberIdToChannel { return M.Acked; }
        Broadcast({id}, TransportParams(from.GetOr(id)));
        return M.Acked;
      case ProducerConnectedEvent(id) =>
        if id !in memberIdToChannel { return M.Acked; }
        var found := UpdateMember(id, Patch(None, Some(true)));
        return if found then M.Acked else M.Nacked;
      case UnknownEvent => return M.Nacked;
    }
  }

  /** One client connection: its `start` runs up to an await, and goes on when the awaited request is answered. */
  class MemberSession {
    const channel: Channel
    const server: SignalingServer
    const uuid: string
    var memberId: Option<int>

    constructor (channel: Channel, server: SignalingServer, uuid: string)
      ensures this.channel == channel && this.server == server && this.uuid == uuid && memberId == None
    {
      this.channel, this.server, this.uuid, memberId := channel, server, uuid, None;
    }

    /** The rest of `start` once the member is prepared: the snapshot goes out before the channel is registered, and a
        space that is gone by then fails the connection. */
    method OnMemberPrepared(id: int) returns (started: bool, ghost snapshot: seq<ClientMember>)
      requires server.Valid() && channel in server.channels
      requires forall k :: k in server.memberIdToChannel ==> server.memberIdToChannel[k] != channel
      modifies this, server, channel
      ensures server.Valid() && started == (uuid in old(server.spaces))
      ensures !started ==> memberId == old(memberId) && server.model == old(server.model)
      ensures started ==> memberId == Some(id)
                          && Lists(snapshot, old(server.model).objects[old(server.spaces)[uuid]].members)
                          && server.model == M.Registered(old(server.model), uuid, id, channel, snapshot)
    {
      snapshot := [];
      if uuid !in server.spaces { return false, snapshot; }
      snapshot := SendInit(id);
      memberId := Some(id);
      server.RegisterChannel(id, channel);
      started := true;
    }

    /** The snapshot goes out on the session's own channel. */
    method SendInit(id: int) returns (ghost snapshot: seq<ClientMember>)
      requires server.Valid() && channel in server.channels && uuid in server.spaces
      modifies server`model, channel
      ensures server.Valid()
      ensures Lists(snapshot, old(server.model).objects[server.spaces[uuid]].members)
      ensures var srv := old(server.model);
              server.model == srv.(logs := srv.logs[channel := srv.logs[channel]
                                                     + [SpaceInit(id, uuid, srv.objects[server.spaces[uuid]].data,
                                                         snapshot)]])
    {
      var space := server.spaces[uuid];
      var members := server.GetClientSideMembers(space);
      snapshot := members;
      server.EmitOn(channel, SpaceInit(id, uuid, space.data, members));
    }

    /** The close handler: `removal` is the member to ask the coordinator to remove. */
    method OnClose() returns (removal: Option<int>)
      requires server.Valid()
      modifies server
      ensures server.Valid()
      ensures memberId == None ==> removal == None && server.model == old(server.model)
      ensures memberId.Some? ==> server.model == M.Unregistered(old(server.model), memberId.value)
                                 && removal == if memberId.value in old(server.members) then memberId else None
    {
      if memberId == None { return None; }
      server.UnregisterChannel(memberId.value);
      removal := if memberId.value in server.members then memberId else None;
    }
  }
}
