/** The browser's space object: member objects updated in place, and a snapshot object cached until the next change.

    `Replica` says what each event does to the members; this class adds the cache and object identity.  User handlers
    are left out, except snapshot subscribers, each of which reads the snapshot when it is notified. */
module ClientSpace {
  import opened Common
  import opened Replica

  class Member {
    var data: string
    var state: MemberState

    constructor (data: string, state: MemberState)
      ensures View() == Profile(data, state)
    {
      this.data, this.state := data, state;
    }

    ghost function View(): Profile
      reads this
    {
      Profile(data, state)
    }

    method UpdateState(newState: Patch)
      modifies this`state
      ensures state == Merge(old(state), newState)
      ensures state.isMuted == if newState.isMuted.Some? then newState.isMuted.value else old(state).isMuted
      ensures state.transportIsConnected
              == if newState.transportIsConnected.Some? then newState.transportIsConnected.value
                 else old(state).transportIsConnected
    {
      state := Merge(state, newState);
    }
  }

  /** What a snapshot shows: it never changes once built. */
  datatype Content = Content(
    uuid: Option<string>,
    spaceData: Option<string>,
    producerId: Option<int>,
    producer: Profile,
    consumers: map<int, Profile>)

  class Snapshot {
    const content: Content

    constructor (content: Content)
      ensures this.content == content
    {
      this.content := content;
    }
  }

  /** The snapshot a reader would build from this client. */
  function Rebuilt(c: Client): Content {
    Content(c.uuid, c.spaceData, c.producerId, c.producer, c.consumers)
  }

  /** A client in step with the mirror reads exactly the mirror: everybody else as mirrored, and itself apart from its
      own mute flag, which it has from itself. */
  lemma {:induction false} SnapshotShowsTheMirror(c: Client, ms: map<int, Profile>, id: int)
    requires Mirrors(c, ms, id)
    ensures var content := Rebuilt(c);
            && id in ms && content.producerId == Some(id)
            && content.consumers.Keys == ms.Keys - {id}
            && (forall k :: k in ms && k != id ==> content.consumers[k] == ms[k])
            && content.producer == Profile(ms[id].data,
                                           MemberState(c.producer.state.isMuted, ms[id].state.transportIsConnected))
            && content.uuid == c.uuid && content.spaceData == c.spaceData
  {
    assert c.consumers == ms - {id};
  }

  function Repeated<T>(n: nat, x: T): (xs: seq<T>)
    ensures |xs| == n && forall i :: 0 <= i < n ==> xs[i] == x
  {
    if n == 0 then [] else Repeated(n - 1, x) + [x]
  }

  class Space {
    var uuid: Option<string>
    var data: Option<string>
    const producerMember: Member
    var producerMemberId: Option<int>
    var consumerMembers: map<int, Member>
    var spaceInitReceived: bool
    var cachedSnapshot: Snapshot?
    var snapshotCacheValid: bool
    var subscribers: nat
    var seen: seq<Option<Content>> // what the subscribers read when they were called
    var outbox: seq<Patch> // member state updates sent to the server
    var warnings: nat
    var unknownParams: nat

    ghost var objects: set<Member>
    ghost var model: Client

    constructor (producerData: string, isMuted: bool)
      ensures Valid() && fresh(objects) && model == NewClient(producerData, isMuted)
      ensures !snapshotCacheValid && outbox == [] && seen == [] && subscribers == 0
    {
      var own := new Member(producerData, MemberState(isMuted, false));
      producerMember := own;
      uuid, data, producerMemberId, consumerMembers, spaceInitReceived := None, None, None, map[], false;
      cachedSnapshot, snapshotCacheValid, subscribers, outbox := null, false, 0, [];
      seen, warnings, unknownParams := [], 0, 0;
      objects := {own};
      model := NewClient(producerData, isMuted);
    }

    ghost predicate Coupled()
      reads this, objects
    {
      && model == Client(spaceInitReceived, uuid, data, producerMemberId, model.producer, model.consumers, warnings,
                         unknownParams)
      && producerMember in objects && model.producer == producerMember.View()
      && model.consumers.Keys == consumerMembers.Keys
      && (forall id :: id in consumerMembers ==>
            && consumerMembers[id] in objects && consumerMembers[id] != producerMember
            && model.consumers[id] == consumerMembers[id].View())
      && (forall i, j :: i in consumerMembers && j in consumerMembers && i != j ==>
            consumerMembers[i] != consumerMembers[j])
    }

    /** The cache invariant: a cache marked valid holds exactly what a rebuild would give. */
    ghost predicate CacheAgrees()
      reads this, cachedSnapshot
    {
      snapshotCacheValid ==> cachedSnapshot != null && cachedSnapshot.content == Rebuilt(model)
    }

    ghost predicate Valid()
      reads this, objects, cachedSnapshot
    {
      Coupled() && CacheAgrees()
    }

    /** The content is what the fields hold now: every consumer member with its data and state, the own member, and the
        space. */
    ghost predicate Shows(content: Content)
      reads this, producerMember, consumerMembers.Values
    {
      && content.uuid == uuid && content.spaceData == data && content.producerId == producerMemberId
      && content.producer.data == producerMember.data && content.producer.state == producerMember.state
      && content.consumers.Keys == consumerMembers.Keys
      && forall id :: id in consumerMembers ==>
           && content.consumers[id].data == consumerMembers[id].data
           && content.consumers[id].state == consumerMembers[id].state
    }

    method GetSnapshot() returns (snapshot: Snapshot?)
      requires Valid()
      modifies this`cachedSnapshot, this`snapshotCacheValid
      ensures Valid() && (snapshot == null <==> !spaceInitReceived)
      ensures snapshot != null ==> Shows(snapshot.content)
      ensures snapshot != null ==>
              snapshot.content == Rebuilt(model) && snapshotCacheValid && cachedSnapshot == snapshot
      ensures spaceInitReceived && old(snapshotCacheValid) ==> snapshot == old(cachedSnapshot)
      ensures spaceInitReceived && !old(snapshotCacheValid) ==> fresh(snapshot)
    {
      if !spaceInitReceived {
        if snapshotCacheValid {
          cachedSnapshot, snapshotCacheValid := null, false;
        }
        return null;
      }
      if !snapshotCacheValid {
        var consumers := CollectConsumers();
        cachedSnapshot := new Snapshot(Content(uuid, data, producerMemberId,
                                               Profile(producerMember.data, producerMember.state), consumers));
        snapshotCacheValid := true;
      }
      snapshot := cachedSnapshot;
    }

    /** `Array.from(this._consumerMembers.entries()).map(...)`. */
    method CollectConsumers() returns (consumers: map<int, Profile>)
      requires Coupled()
      ensures consumers == model.consumers
    {
      consumers := map[];
      var rest := consumerMembers.Keys;
      while rest != {}
        invariant rest <= consumerMembers.Keys && consumers == model.consumers - rest
      {
        var id := Pick(rest);
        consumers := consumers[id := Profile(consumerMembers[id].data, consumerMembers[id].state)];
        assert model.consumers[id] == consumerMembers[id].View();
        rest := rest - {id};
      }
    }

    /** What a read gives now. */
    ghost function Reading(): Option<Content>
      reads this
    {
      if spaceInitReceived then Some(Rebuilt(model)) else None
    }

    /** What the subscribers read when they are told now, each once. */
    ghost function Calls(told: bool): seq<Option<Content>>
      reads this
    {
      if told then Repeated(subscribers, Reading()) else []
    }

    /** `notifySnapshotUpdate`: invalidates first, so a subscriber that reads back sees the new state. */
    method NotifySnapshotUpdate()
      requires Coupled()
      modifies this`cachedSnapshot, this`snapshotCacheValid, this`seen
      ensures Valid() && seen == old(seen) + Calls(true)
    {
      snapshotCacheValid := false;
      for i := 0 to subscribers
        invariant Valid() && seen == old(seen) + Repeated(i, Reading())
      {
        var snapshot := GetSnapshot();
        seen := seen + [if snapshot == null then None else Some(snapshot.content)];
      }
    }

    method SubscribeSnapshotUpdates()
      requires Valid()
      modifies this`subscribers
      ensures Valid() && subscribers == old(subscribers) + 1
    {
      subscribers := subscribers + 1;
    }

    method HandleMemberJoin(m: ClientMember)
      requires Valid()
      modifies this
      ensures Valid() && fresh(objects - old(objects)) && model == Handle(old(model), MemberJoin(m))
      ensures outbox == old(outbox) && subscribers == old(subscribers)
      ensures seen == old(seen) + Calls(model.warnings == old(model.warnings))
    {
      if m.id in consumerMembers || producerMemberId == Some(m.id) {
        Warn();
        return;
      }
      AddConsumer(m);
      NotifySnapshotUpdate();
    }

    method Warn()
      requires Valid()
      modifies this`warnings, this`model
      ensures Valid() && model == old(model).(warnings := old(model).warnings + 1)
    {
      warnings := warnings + 1;
      model := model.(warnings := warnings);
    }

    method AddConsumer(m: ClientMember)
      requires Coupled()
      modifies this`consumerMembers, this`objects, this`model
      ensures Coupled() && objects >= old(objects) && fresh(objects - old(objects))
      ensures model == old(model).(consumers := old(model).consumers[m.id := Profile(m.data, m.state)])
    {
      var member := new Member(m.data, m.state);
      consumerMembers := consumerMembers[m.id := member];
      objects := objects + {member};
      model := model.(consumers := model.consumers[m.id := Profile(m.data, m.state)]);
    }

    method HandleMemberLeave(memberId: int)
      requires Valid()
      modifies this
      ensures Valid() && objects == old(objects) && model == Handle(old(model), MemberLeave(memberId))
      ensures outbox == old(outbox) && subscribers == old(subscribers)
      ensures seen == old(seen) + Calls(model.warnings == old(model.warnings))
    {
      if memberId !in consumerMembers {
        Warn();
        return;
      }
      consumerMembers := consumerMembers - {memberId};
      model := model.(consumers := model.consumers - {memberId});
      NotifySnapshotUpdate();
    }

    method HandleMemberStateUpdate(memberId: int, newState: MemberState)
      requires Valid()
      modifies this, objects
      ensures Valid() && objects == old(objects) && model == Handle(old(model), MemberStateUpdate(memberId, newState))
      ensures outbox == old(outbox) && subscribers == old(subscribers)
      ensures seen == old(seen) + Calls(model.warnings == old(model.warnings))
    {
      if producerMemberId == Some(memberId) {
        UpdateProducer(Patch(None, Some(newState.transportIsConnected)));
      } else if memberId in consumerMembers {
        var member := consumerMembers[memberId];
        ghost var after := Handle(model, MemberStateUpdate(memberId, newState));
        member.UpdateState(FullPatch(newState.isMuted, newState.transportIsConnected));
        model := after;
      } else {
        Warn();
        return;
      }
      NotifySnapshotUpdate();
    }

    method UpdateProducer(patch: Patch)
      requires Coupled()
      modifies this`model, producerMember
      ensures Coupled() && producerMember.data == old(producerMember.data)
      ensures producerMember.state.isMuted
              == if patch.isMuted.Some? then patch.isMuted.value else old(producerMember.state.isMuted)
      ensures producerMember.state.transportIsConnected
              == if patch.transportIsConnected.Some? then patch.transportIsConnected.value
                 else old(producerMember.state.transportIsConnected)
      ensures model == old(model).(producer := old(model).producer.(state := Merge(old(model).producer.state, patch)))
    {
      producerMember.UpdateState(patch);
      model := model.(producer := producerMember.View());
    }

    /** `updateProducerMemberState`: the local flag changes at once and the change is sent to the server. */
    method UpdateProducerMemberState(isMuted: bool)
      requires Valid()
      modifies this, producerMember
      ensures Valid() && objects == old(objects) && model == SetOwnMuted(old(model), isMuted)
      ensures outbox == old(outbox) + [Patch(Some(isMuted), None)]
      ensures producerMember.state == MemberState(isMuted, old(producerMember.state.transportIsConnected))
      ensures producerMember.data == old(producerMember.data)
      ensures subscribers == old(subscribers) && seen == old(seen) + Calls(true)
    {
      UpdateProducer(Patch(Some(isMuted), None));
      NotifySnapshotUpdate();
      outbox := outbox + [Patch(Some(isMuted), None)];
    }

    method HandleTransportParams(memberId: int)
      requires Valid()
      modifies this
      ensures Valid() && objects == old(objects) && model == Handle(old(model), TransportParams(memberId))
      ensures outbox == old(outbox) && subscribers == old(subscribers)
      ensures seen == old(seen) + Calls(model.unknownParams == old(model.unknownParams))
    {
      if producerMemberId != Some(memberId) && memberId !in consumerMembers {
        unknownParams := unknownParams + 1;
        model := model.(unknownParams := unknownParams);
        return;
      }
      NotifySnapshotUpdate();
    }

    method HandleSpaceInit(receivingMemberId: int, uuid: string, spaceData: string, members: seq<ClientMember>)
      requires Valid()
      modifies this, producerMember
      ensures Valid() && fresh(objects - old(objects))
      ensures model == Handle(old(model), SpaceInit(receivingMemberId, uuid, spaceData, members))
      ensures outbox == old(outbox) && subscribers == old(subscribers)
      ensures seen == old(seen) + Calls(!old(spaceInitReceived))
    {
      if spaceInitReceived { return; }
      Enter(receivingMemberId, uuid, spaceData, members);
      NotifySnapshotUpdate();
    }

    /** The branch for a first `spaceInit`, up to telling the subscribers. */
    method Enter(receivingMemberId: int, uuid: string, spaceData: string, members: seq<ClientMember>)
      requires Coupled() && !spaceInitReceived
      modifies this`producerMemberId, this`uuid, this`data, this`spaceInitReceived, this`consumerMembers, this`objects
      modifies this`model, producerMember
      ensures Coupled() && fresh(objects - old(objects))
      ensures model == Handle(old(model), SpaceInit(receivingMemberId, uuid, spaceData, members))
    {
      producerMemberId, this.uuid, data := Some(receivingMemberId), Some(uuid), Some(spaceData);
      model := model.(producerId := Some(receivingMemberId), uuid := Some(uuid), spaceData := Some(spaceData));
      EnlistMembers(members);
      spaceInitReceived := true;
      model := model.(received := true);
    }

    /** `clientSideSpace.members.forEach(...)`. */
    method EnlistMembers(members: seq<ClientMember>)
      requires Coupled()
      modifies this`consumerMembers, this`objects, this`model, producerMember
      ensures Coupled() && fresh(objects - old(objects)) && model == EnlistAll(old(model), members)
    {
      for i := 0 to |members|
        invariant Coupled() && fresh(objects - old(objects))
        invariant model == EnlistAll(old(model), members[..i])
      {
        assert members[..i + 1][..i] == members[..i];
        EnlistMember(members[i]);
      }
      assert members[..|members|] == members;
    }

    method EnlistMember(m: ClientMember)
      requires Coupled()
      modifies this`consumerMembers, this`objects, this`model, producerMember
      ensures Coupled() && fresh(objects - old(objects)) && model == Enlist(old(model), m)
    {
      if producerMemberId == Some(m.id) {
        producerMember.data, producerMember.state := m.data, m.state;
        model := model.(producer := Profile(m.data, m.state));
      } else {
        AddConsumer(m);
      }
    }

    /** `onSocketDisconnected`: only the flag changes; the members stay for the next `spaceInit` to overwrite. */
    method OnSocketDisconnected()
      requires Valid()
      modifies this`spaceInitReceived, this`model
      ensures Valid() && model == old(model).(received := false)
    {
      spaceInitReceived := false;
      model := model.(received := false);
    }

    method Cleanup()
      requires Valid()
      modifies this`spaceInitReceived, this`cachedSnapshot, this`snapshotCacheValid, this`model
      ensures Valid() && !snapshotCacheValid && cachedSnapshot == null && model == old(model).(received := false)
    {
      spaceInitReceived, cachedSnapshot, snapshotCacheValid := false, null, false;
      model := model.(received := false);
    }

    method HandleSpaceClose()
      requires Valid()
      modifies this
      ensures Valid() && objects == old(objects) && model == old(model).(received := false) && outbox == old(outbox)
      ensures subscribers == old(subscribers) && seen == old(seen) + Repeated(subscribers, None)
    {
      Cleanup();
      NotifySnapshotUpdate();
    }

    /** Two reads with no update between them return the same object. */
    method ReadTwice() returns (first: Snapshot?, second: Snapshot?)
      requires Valid()
      modifies this`cachedSnapshot, this`snapshotCacheValid
      ensures Valid() && first == second
    {
      first := GetSnapshot();
      second := GetSnapshot();
    }
  }
}
