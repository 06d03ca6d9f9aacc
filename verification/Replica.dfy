/** The client's copy of a space, as a function of the events it receives on its channel. */
module Replica {
  import opened Common

  datatype MemberState = MemberState(isMuted: bool, transportIsConnected: bool)

  /** `Partial<MemberState>`. */
  datatype Patch = Patch(isMuted: Option<bool>, transportIsConnected: Option<bool>)

  datatype Profile = Profile(data: string, state: MemberState)

  datatype ClientMember = ClientMember(id: int, data: string, state: MemberState)

  /** What a signaling server emits on a client channel. */
  datatype Event =
    | SpaceInit(receivingMemberId: int, uuid: string, spaceData: string, members: seq<ClientMember>)
    | MemberJoin(member: ClientMember)
    | MemberLeave(memberId: int)
    | MemberStateUpdate(memberId: int, newState: MemberState)
    | TransportParams(memberId: int)

  /** `warnings` counts the join, leave and state-update branches marked "this should not happen", `unknownParams`
      the one for transport parameters. */
  datatype Client = Client(
    received: bool,
    uuid: Option<string>,
    spaceData: Option<string>,
    producerId: Option<int>,
    producer: Profile,
    consumers: map<int, Profile>,
    warnings: nat,
    unknownParams: nat)

  function Merge(state: MemberState, patch: Patch): MemberState {
    MemberState(patch.isMuted.GetOr(state.isMuted), patch.transportIsConnected.GetOr(state.transportIsConnected))
  }

  function FullPatch(isMuted: bool, transportIsConnected: bool): Patch {
    Patch(Some(isMuted), Some(transportIsConnected))
  }

  function NewClient(data: string, isMuted: bool): Client {
    Client(false, None, None, None, Profile(data, MemberState(isMuted, false)), map[], 0, 0)
  }

  /** One entry of the initial member list: the own entry fills the producer, any other one a consumer. */
  function Enlist(c: Client, m: ClientMember): Client {
    if c.producerId == Some(m.id) then c.(producer := Profile(m.data, m.state))
    else c.(consumers := c.consumers[m.id := Profile(m.data, m.state)])
  }

  function EnlistAll(c: Client, members: seq<ClientMember>): Client
    decreases |members|
  {
    if members == [] then c else Enlist(EnlistAll(c, members[..|members| - 1]), members[|members| - 1])
  }

  function Handle(c: Client, e: Event): Client {
    match e
    case SpaceInit(id, uuid, spaceData, members) =>
      if c.received then c
      else EnlistAll(c.(producerId := Some(id), uuid := Some(uuid), spaceData := Some(spaceData)),
          members).(received := true)
    case MemberJoin(m) =>
      if m.id in c.consumers || c.producerId == Some(m.id) then c.(warnings := c.warnings + 1)
      else c.(consumers := c.consumers[m.id := Profile(m.data, m.state)])
    case MemberLeave(id) =>
      if id in c.consumers then c.(consumers := c.consumers - {id}) else c.(warnings := c.warnings + 1)
    case MemberStateUpdate(id, st) =>
      if c.producerId == Some(id) then
        c.(producer := c.producer.(state := Merge(c.producer.state, Patch(None, Some(st.transportIsConnected)))))
      else if id in c.consumers then
        c.(consumers := c.consumers[id := c.consumers[id].(state :=
          Merge(c.consumers[id].state, FullPatch(st.isMuted, st.transportIsConnected)))])
      else c.(warnings := c.warnings + 1)
    case TransportParams(id) =>
      if c.producerId == Some(id) || id in c.consumers then c else c.(unknownParams := c.unknownParams + 1)
  }

  /** The fold of a whole channel log. */
  function Replay(c: Client, log: seq<Event>): Client
    decreases |log|
  {
    if log == [] then c else Handle(Replay(c, log[..|log| - 1]), log[|log| - 1])
  }

  /** `c` is what member `id` should see of a space whose members are `ms`: everybody else exactly, and of itself the
      data and the connection flag, without ever having hit a "should not happen" branch. */
  ghost predicate Mirrors(c: Client, ms: map<int, Profile>, id: int) {
    && c.received && c.warnings == 0
    && c.producerId == Some(id) && id in ms
    && c.consumers == ms - {id}
    && c.producer.data == ms[id].data
    && c.producer.state.transportIsConnected == ms[id].state.transportIsConnected
  }

  ghost function Ids(members: seq<ClientMember>): set<int> {
    set i | 0 <= i < |members| :: members[i].id
  }

  lemma {:induction false} IdsSplit(members: seq<ClientMember>)
    requires members != []
    ensures Ids(members) == Ids(members[..|members| - 1]) + {members[|members| - 1].id}
  {
    var n := |members| - 1;
    forall k | k in Ids(members) ensures k in Ids(members[..n]) + {members[n].id} {
      var i :| 0 <= i < |members| && members[i].id == k;
      assert i < n ==> members[..n][i].id == k;
    }
  }

  ghost predicate EntriesFrom(members: seq<ClientMember>, ms: map<int, Profile>) {
    forall i :: 0 <= i < |members| ==>
      members[i].id in ms && ms[members[i].id] == Profile(members[i].data, members[i].state)
  }

  /** A member list in some order, each member once, as `Array.from(space.members.values())` gives it. */
  ghost predicate Lists(members: seq<ClientMember>, ms: map<int, Profile>) {
    && Ids(members) == ms.Keys
    && EntriesFrom(members, ms)
    && (forall i, j :: 0 <= i < j < |members| ==> members[i].id != members[j].id)
  }

  // ----- One event keeps the replica in step with one change of the mirror -----

  lemma {:induction false} InitGivesTheMirror(c: Client, id: int, uuid: string, spaceData: string,
                                              members: seq<ClientMember>,
                                              ms: map<int, Profile>)
    requires !c.received && c.consumers == map[] && c.warnings == 0
    requires Lists(members, ms) && id in ms
    ensures Mirrors(Handle(c, SpaceInit(id, uuid, spaceData, members)), ms, id)
  {
    Enlisted(c.(producerId := Some(id), uuid := Some(uuid), spaceData := Some(spaceData)), id, members, ms);
  }

  lemma {:induction false} Enlisted(c: Client, id: int, members: seq<ClientMember>, ms: map<int, Profile>)
    requires c.producerId == Some(id) && c.consumers == map[] && EntriesFrom(members, ms)
    ensures EnlistAll(c, members) == c.(producer := if id in Ids(members) then ms[id] else c.producer,
                                        consumers := map k | k in Ids(members) && k != id :: ms[k])
    decreases |members|
  {
    if members != [] {
      var n := |members| - 1;
      assert forall i :: 0 <= i < n ==> members[..n][i] == members[i];
      Enlisted(c, id, members[..n], ms);
      IdsSplit(members);
      OneMoreConsumer(Ids(members[..n]), members[n].id, id, ms);
    }
  }

  lemma {:induction false} OneMoreConsumer(ids: set<int>, k: int, id: int, ms: map<int, Profile>)
    requires k in ms && ids <= ms.Keys
    ensures (map j | j in ids + {k} && j != id :: ms[j])
            == if k == id then (map j | j in ids && j != id :: ms[j])
                else (map j | j in ids && j != id :: ms[j])[k := ms[k]]
  {}

  lemma {:induction false} JoinKeepsMirror(c: Client, ms: map<int, Profile>, id: int, m: ClientMember)
    requires Mirrors(c, ms, id) && m.id !in ms
    ensures Mirrors(Handle(c, MemberJoin(m)), ms[m.id := Profile(m.data, m.state)], id)
  {
    assert ms[m.id := Profile(m.data, m.state)] - {id} == (ms - {id})[m.id := Profile(m.data, m.state)];
  }

  lemma {:induction false} LeaveKeepsMirror(c: Client, ms: map<int, Profile>, id: int, k: int)
    requires Mirrors(c, ms, id) && k in ms && k != id
    ensures Mirrors(Handle(c, MemberLeave(k)), ms - {k}, id)
  {
    assert (ms - {k}) - {id} == (ms - {id}) - {k};
  }

  lemma {:induction false} UpdateKeepsMirror(c: Client, ms: map<int, Profile>, id: int, k: int, st: MemberState)
    requires Mirrors(c, ms, id) && k in ms
    ensures Mirrors(Handle(c, MemberStateUpdate(k, st)), ms[k := ms[k].(state := st)], id)
  {
    if k != id {
      assert ms[k := ms[k].(state := st)] - {id} == (ms - {id})[k := ms[k].(state := st)];
    } else {
      assert ms[k := ms[k].(state := st)] - {id} == ms - {id};
    }
  }

  lemma {:induction false} ReplayOneMore(c: Client, log: seq<Event>, e: Event)
    ensures Replay(c, log + [e]) == Handle(Replay(c, log), e)
  {
    assert (log + [e])[..|log|] == log;
  }

  lemma {:induction false} WarningsOnlyGrow(c: Client, log: seq<Event>, k: nat)
    requires k <= |log|
    ensures Replay(c, log[..k]).warnings <= Replay(c, log).warnings
    decreases |log|
  {
    if k == |log| {
      assert log[..k] == log;
    } else {
      var n := |log| - 1;
      assert log[..n][..k] == log[..k];
      WarningsOnlyGrow(c, log[..n], k);
      HandlingOnlyAddsWarnings(Replay(c, log[..n]), log[n]);
    }
  }

  lemma {:induction false} HandlingOnlyAddsWarnings(c: Client, e: Event)
    ensures c.warnings <= Handle(c, e).warnings
  {
    if e.SpaceInit? {
      var c1 := c.(producerId := Some(e.receivingMemberId), uuid := Some(e.uuid), spaceData := Some(e.spaceData));
      EnlistKeepsOwner(c1, e.members);
    }
  }

  /** An agreeing client is surprised, and then left as it is, exactly by a join of somebody mirrored already, and by a
      leave or a state update of somebody who is not; its own leave surprises it too. */
  lemma {:induction false} SurprisedExactlyWhenOutOfStep(c: Client, ms: map<int, Profile>, id: int, e: Event)
    requires Mirrors(c, ms, id)
    ensures var surprised := match e
              case MemberJoin(m) => m.id in ms
              case MemberLeave(k) => k !in ms || k == id
              case MemberStateUpdate(k, _) => k !in ms
              case _ => false;
            && Handle(c, e).warnings == (if surprised then 1 else 0)
            && (surprised ==> Handle(c, e) == c.(warnings := 1))
            && (e.SpaceInit? ==> Handle(c, e) == c)
  {
    assert forall k :: k in c.consumers <==> k in ms && k != id;
  }

  /** The remaining "should not happen" branch is not dead: transport parameters surprise an agreeing client exactly
      when they name a member its server does not mirror, such as one of another signaling server. */
  lemma {:induction false} ParamsSurpriseExactlyWhenUnknown(c: Client, ms: map<int, Profile>, id: int, about: int)
    requires Mirrors(c, ms, id)
    ensures Handle(c, TransportParams(about)).unknownParams == c.unknownParams + (if about in ms then 0 else 1)
  {
    assert about in c.consumers <==> about in ms && about != id;
  }

  // ----- The client's own changes -----

  /** What happens on a client: an event arrives, or the user flips the local mute flag. */
  datatype Input = Received(event: Event) | SetMuted(isMuted: bool)

  /** `updateProducerMemberState`: changed at once, and sent to the server. */
  function SetOwnMuted(c: Client, isMuted: bool): Client {
    c.(producer := c.producer.(state := Merge(c.producer.state, Patch(Some(isMuted), None))))
  }

  function Play(c: Client, inputs: seq<Input>): Client
    decreases |inputs|
  {
    if inputs == [] then c
    else
      var before := Play(c, inputs[..|inputs| - 1]);
      match inputs[|inputs| - 1]
      case Received(e) => Handle(before, e)
      case SetMuted(b) => SetOwnMuted(before, b)
  }

  function EventsOf(inputs: seq<Input>): seq<Event>
    decreases |inputs|
  {
    if inputs == [] then []
    else
      var before := EventsOf(inputs[..|inputs| - 1]);
      match inputs[|inputs| - 1]
      case Received(e) => before + [e]
      case SetMuted(_) => before
  }

  /** Local mute flips, wherever they fall between the events, only touch the own mute flag. */
  lemma {:induction false} OwnFlipsStayLocal(c: Client, inputs: seq<Input>)
    ensures var played := Play(c, inputs);
            var replayed := Replay(c, EventsOf(inputs));
            played == replayed.(producer :=
                replayed.producer.(state := replayed.producer.state.(isMuted := played.producer.state.isMuted)))
    decreases |inputs|
  {
    if inputs != [] {
      var before := inputs[..|inputs| - 1];
      OwnFlipsStayLocal(c, before);
      match inputs[|inputs| - 1]
      case Received(e) =>
        ReplayOneMore(c, EventsOf(before), e);
        MuteFlagIsInvisible(Replay(c, EventsOf(before)), Play(c, before).producer.state.isMuted, e);
      case SetMuted(_) =>
    }
  }

  ghost function WithMute(c: Client, b: bool): Client {
    c.(producer := c.producer.(state := c.producer.state.(isMuted := b)))
  }

  lemma {:induction false} MuteFlagIsInvisible(c: Client, b: bool, e: Event)
    ensures exists b' :: Handle(WithMute(c, b), e) == WithMute(Handle(c, e), b')
  {
    if e.SpaceInit? && !c.received {
      var c1 := c.(producerId := Some(e.receivingMemberId), uuid := Some(e.uuid), spaceData := Some(e.spaceData));
      MuteFlagInvisibleWhileEnlisting(c1, b, e.members);
      var b' :| EnlistAll(WithMute(c1, b), e.members) == WithMute(EnlistAll(c1, e.members), b');
      assert Handle(WithMute(c, b), e) == WithMute(Handle(c, e), b');
    } else {
      assert Handle(WithMute(c, b), e) == WithMute(Handle(c, e), b);
    }
  }

  lemma {:induction false} MuteFlagInvisibleWhileEnlisting(c: Client, b: bool, members: seq<ClientMember>)
    ensures exists b' :: EnlistAll(WithMute(c, b), members) == WithMute(EnlistAll(c, members), b')
    decreases |members|
  {
    if members == [] {
      assert EnlistAll(WithMute(c, b), members) == WithMute(EnlistAll(c, members), b);
    } else {
      var n := |members| - 1;
      MuteFlagInvisibleWhileEnlisting(c, b, members[..n]);
      var b' :| EnlistAll(WithMute(c, b), members[..n]) == WithMute(EnlistAll(c, members[..n]), b');
      var own := c.producerId == Some(members[n].id);
      EnlistKeepsOwner(c, members[..n]);
      assert EnlistAll(WithMute(c, b), members)
          == WithMute(EnlistAll(c, members), if own then members[n].state.isMuted else b');
    }
  }

  lemma {:induction false} EnlistKeepsOwner(c: Client, members: seq<ClientMember>)
    ensures EnlistAll(c, members).producerId == c.producerId && EnlistAll(c, members).warnings == c.warnings
    decreases |members|
  {
    if members != [] { EnlistKeepsOwner(c, members[..|members| - 1]); }
  }

  // ----- What only the inputs tell -----

  /** The first `spaceInit` among the inputs. */
  function FirstInit(inputs: seq<Input>): (init: Option<Event>)
    ensures init.Some? ==> init.value.SpaceInit?
    decreases |inputs|
  {
    if inputs == [] then None
    else
      var before, last := FirstInit(inputs[..|inputs| - 1]), inputs[|inputs| - 1];
      if before.Some? then before
      else if last.Received? && last.event.SpaceInit? then Some(last.event)
      else None
  }

  /** The last entry of a member list under this id. */
  function LastEntry(members: seq<ClientMember>, id: int): Option<ClientMember>
    decreases |members|
  {
    if members == [] then None
    else if members[|members| - 1].id == id then Some(members[|members| - 1])
    else LastEntry(members[..|members| - 1], id)
  }

  /** The own mute flag: what the user last set, unless the first snapshot came after that and lists the own member. */
  function ToldMute(isMuted: bool, inputs: seq<Input>): bool
    decreases |inputs|
  {
    if inputs == [] then isMuted
    else
      var rest, last := inputs[..|inputs| - 1], inputs[|inputs| - 1];
      match last
      case SetMuted(b) => b
      case Received(e) =>
        if e.SpaceInit? && FirstInit(rest).None? && LastEntry(e.members, e.receivingMemberId).Some?
        then LastEntry(e.members, e.receivingMemberId).value.state.isMuted
        else ToldMute(isMuted, rest)
  }

  lemma {:induction false} EnlistedOwn(c: Client, members: seq<ClientMember>)
    requires c.producerId.Some?
    ensures var c' := EnlistAll(c, members);
            && c'.producerId == c.producerId && c'.received == c.received
            && c'.uuid == c.uuid && c'.spaceData == c.spaceData
            && c'.producer == match LastEntry(members, c.producerId.value)
                              case Some(m) => Profile(m.data, m.state)
                              case None => c.producer
    decreases |members|
  {
    if members != [] { EnlistedOwn(c, members[..|members| - 1]); }
  }

  /** However events and own flips come, a new client knows the space of the first `spaceInit` and keeps it; its own
      mute flag is what the user last set, unless that first snapshot came later and lists the own member. */
  lemma {:induction false} OwnMuteAndSpaceAreTold(c: Client, inputs: seq<Input>)
    requires !c.received
    ensures var c' := Play(c, inputs);
            && c'.producer.state.isMuted == ToldMute(c.producer.state.isMuted, inputs)
            && (c'.received <==> FirstInit(inputs).Some?)
            && match FirstInit(inputs)
               case None => c'.uuid == c.uuid && c'.spaceData == c.spaceData && c'.producerId == c.producerId
               case Some(init) =>
                 c'.uuid == Some(init.uuid) && c'.spaceData == Some(init.spaceData)
                 && c'.producerId == Some(init.receivingMemberId)
    decreases |inputs|
  {
    if inputs != [] {
      var last := inputs[|inputs| - 1];
      OwnMuteAndSpaceAreTold(c, inputs[..|inputs| - 1]);
      if last.Received? && last.event.SpaceInit? {
        var before, e := Play(c, inputs[..|inputs| - 1]), last.event;
        EnlistedOwn(before.(producerId := Some(e.receivingMemberId), uuid := Some(e.uuid),
                            spaceData := Some(e.spaceData)), e.members);
      }
    }
  }
}
