/** What a signaling server mirrors and sends, over every run, told from what it was told: which members it has, with
    which data and state; which space each is in; and which transport parameters went out on each channel. */
module Profiles {
  import opened Common
  import opened Replica
  import opened Mirror
  import opened Sessions
  import ClientSpace

  /** The space a member entered, and as what. */
  datatype Entry = Entry(uuid: string, profile: Profile)

  datatype Ledger<S> = Ledger(
    net: Net<S>,
    entered: map<int, Entry>,
    present: set<int>,             // entered a mirrored space, or came with it, and not removed since
    patches: map<int, seq<Patch>>, // since it entered: sent by its client, or a producer-connected event
    offered: map<nat, seq<int>>,   // per channel: the members whose transport parameters the coordinator sent for it
    made: map<S, (string, string)>) // the uuid and the data each space object was mirrored with

  ghost function PatchesFor<S>(l: Ledger<S>, id: int): seq<Patch> {
    if id in l.patches then l.patches[id] else []
  }

  ghost function Patched<S>(l: Ledger<S>, id: int, patch: Patch): Ledger<S> {
    l.(patches := l.patches[id := PatchesFor(l, id) + [patch]])
  }

  /** A space is mirrored with its listed members; a repeated id counts as its last entry says. */
  ghost function Listing<S>(l: Ledger<S>, uuid: string, data: string, listed: seq<ClientMember>, s: S): Ledger<S> {
    var ids := Ids(listed);
    l.(present := l.present + ids,
       entered := l.entered + map id | id in ids :: Entry(uuid, LastProfile(listed, id)),
       patches := l.patches - ids,
       made := l.made[s := (uuid, data)])
  }

  ghost function LastProfile(listed: seq<ClientMember>, id: int): Profile {
    match LastEntry(listed, id)
    case Some(m) => Profile(m.data, m.state)
    case None => Profile("", MemberState(false, false))
  }

  /** What is written down of a step. */
  ghost function Remarked<S>(l: Ledger<S>, step: Step<S>): Ledger<S>
    requires Possible(l.net, step)
  {
    var srv, sessions := l.net.server, l.net.sessions;
    match step
    case Connect(_, _, _) => l.(offered := l.offered[|sessions| := []])
    case SpaceAcked(c, data, listed, newRef) =>
      if sessions[c].uuid in srv.spaces then l else Listing(l, sessions[c].uuid, data, listed, newRef)
    case MemberAcked(c, id) =>
      l.(present := if sessions[c].uuid in srv.spaces then l.present + {id} else l.present,
         entered := l.entered[id := Entry(sessions[c].uuid,
                                          Profile(sessions[c].data, MemberState(sessions[c].isMuted, false)))],
         patches := l.patches[id := []])
    case ClientUpdate(c, patch) => Patched(l, sessions[c].phase.id, patch)
    case CoordinatorEvent(uuid, update) =>
      if uuid !in srv.spaces then l
      else (match update
            case TransportParamsEvent(id, from) =>
              if id !in srv.channels || srv.channels[id] !in l.offered then l
              else
                var source := match from case Some(k) => k case None => id;
                l.(offered := l.offered[srv.channels[id] := l.offered[srv.channels[id]] + [source]])
            case ProducerConnectedEvent(id) =>
              if id !in srv.channels then l else Patched(l, id, Patch(None, Some(true)))
            case _ => l)
    case RemovalAcked(id) => l.(present := l.present - {id})
    case _ => l
  }

  ghost function Noted<S>(l: Ledger<S>, step: Step<S>): (l': Ledger<S>)
    requires Consistent(l.net.server) && LogsMatch(l.net) && Possible(l.net, step)
    ensures Consistent(l'.net.server) && LogsMatch(l'.net)
  {
    Remarked(l, step).(net := Do(l.net, step))
  }

  ghost function Note<S>(steps: seq<Step<S>>): (l: Option<Ledger<S>>)
    ensures match Run(steps) case None => l.None? case Some(n) => l.Some? && l.value.net == n
    decreases |steps|
  {
    if steps == [] then Some(Ledger(Initial(), map[], {}, map[], map[], map[]))
    else
      var before, step := Note(steps[..|steps| - 1]), steps[|steps| - 1];
      if before.None? || !Possible(before.value.net, step) then None else Some(Noted(before.value, step))
  }

  // ----- Told -----

  /** The mute flag after these patches. */
  function LastMuted(patches: seq<Patch>, isMuted: bool): bool
    decreases |patches|
  {
    if patches == [] then isMuted
    else if patches[|patches| - 1].isMuted.Some? then patches[|patches| - 1].isMuted.value
    else LastMuted(patches[..|patches| - 1], isMuted)
  }

  function LastConnected(patches: seq<Patch>, isConnected: bool): bool
    decreases |patches|
  {
    if patches == [] then isConnected
    else if patches[|patches| - 1].transportIsConnected.Some? then patches[|patches| - 1].transportIsConnected.value
    else LastConnected(patches[..|patches| - 1], isConnected)
  }

  /** The members named by the transport parameters of a channel log, in order. */
  function ParamsIn(log: seq<Event>): seq<int>
    decreases |log|
  {
    if log == [] then []
    else
      var before, last := ParamsIn(log[..|log| - 1]), log[|log| - 1];
      if last.TransportParams? then before + [last.memberId] else before
  }

  ghost function ProfileAt<S, C>(srv: Server<S, C>, id: int): Profile
    requires Consistent(srv) && id in srv.members
  {
    srv.objects[srv.members[id]].members[id]
  }

  ghost function UuidAt<S, C>(srv: Server<S, C>, id: int): string
    requires Consistent(srv) && id in srv.members
  {
    srv.objects[srv.members[id]].uuid
  }

  /** What the member entered with, after its patches. */
  ghost function ToldProfile<S>(l: Ledger<S>, id: int): Profile
    requires id in l.entered
  {
    var p, patches := l.entered[id].profile, PatchesFor(l, id);
    Profile(p.data, MemberState(LastMuted(patches, p.state.isMuted),
                                LastConnected(patches, p.state.transportIsConnected)))
  }

  ghost predicate MemberTold<S>(l: Ledger<S>, id: int)
    requires Consistent(l.net.server) && id in l.net.server.members
  {
    && id in l.entered && UuidAt(l.net.server, id) == l.entered[id].uuid
    && ProfileAt(l.net.server, id) == ToldProfile(l, id)
  }

  ghost predicate MembersTold<S>(l: Ledger<S>)
    requires Consistent(l.net.server)
  {
    && l.present == l.net.server.members.Keys
    && forall id :: id in l.net.server.members ==> MemberTold(l, id)
  }

  ghost predicate SpacesTold<S>(l: Ledger<S>) {
    && l.made.Keys == l.net.server.objects.Keys
    && forall s :: s in l.made ==> (l.net.server.objects[s].uuid, l.net.server.objects[s].data) == l.made[s]
  }

  ghost predicate ParamsTold<S>(l: Ledger<S>)
    requires LogsMatch(l.net)
  {
    forall c: nat :: c < |l.net.sessions| ==> c in l.offered && ParamsIn(l.net.server.logs[c]) == l.offered[c]
  }

  ghost predicate NetOk<S>(n: Net<S>) {
    IndicesAgree(n.server) && LogsMatch(n) && n.server.members.Keys <= n.seen
  }

  // ----- What each operation does to the members -----

  lemma {:induction false} PatchedOnce(patches: seq<Patch>, patch: Patch, isMuted: bool, isConnected: bool)
    ensures LastMuted(patches + [patch], isMuted)
            == if patch.isMuted.Some? then patch.isMuted.value else LastMuted(patches, isMuted)
    ensures LastConnected(patches + [patch], isConnected)
            == if patch.transportIsConnected.Some? then patch.transportIsConnected.value
               else LastConnected(patches, isConnected)
  {
    assert (patches + [patch])[..|patches|] == patches;
  }

  /** One more patch for a mirrored member, and the mirror has taken it in. */
  lemma {:induction false} MembersAfterPatch<S>(l: Ledger<S>, l': Ledger<S>, id: int, patch: Patch)
    requires Consistent(l.net.server) && Consistent(l'.net.server) && MembersTold(l)
    requires l'.entered == l.entered && l'.present == l.present
    requires l'.patches == l.patches[id := PatchesFor(l, id) + [patch]]
    requires l'.net.server == match MemberUpdated(l.net.server, id, patch)
                              case Some(srv') => srv' case None => l.net.server
    ensures MembersTold(l')
  {
    var srv, srv' := l.net.server, l'.net.server;
    PatchedFieldByField(srv, id, patch);
    forall k | k in srv'.members ensures MemberTold(l', k) {
      assert MemberTold(l, k);
      if k == id {
        var p := l.entered[id].profile;
        PatchedOnce(PatchesFor(l, id), patch, p.state.isMuted, p.state.transportIsConnected);
        assert ProfileAt(srv', id).state == StateOf(srv', id);
      }
    }
  }

  lemma {:induction false} MembersSame<S>(l: Ledger<S>, l': Ledger<S>)
    requires Consistent(l.net.server) && Consistent(l'.net.server) && MembersTold(l)
    requires l'.entered == l.entered && l'.present == l.present && l'.patches == l.patches
    requires l'.net.server.members == l.net.server.members && l'.net.server.objects == l.net.server.objects
    ensures MembersTold(l')
  {
    forall k | k in l'.net.server.members ensures MemberTold(l', k) { assert MemberTold(l, k); }
  }

  lemma {:induction false} MembersAfterEntry<S>(l: Ledger<S>, c: nat, id: int)
    requires NetOk(l.net) && MembersTold(l) && Possible(l.net, MemberAcked(c, id))
    ensures MembersTold(Noted(l, MemberAcked(c, id)))
  {
    var l', srv, ses := Noted(l, MemberAcked(c, id)), l.net.server, l.net.sessions[c];
    var srv' := l'.net.server;
    assert id !in srv.members;
    AddedMembers(srv, ses.uuid, id, ses.data, MemberState(ses.isMuted, false));
    forall k | k in srv'.members ensures MemberTold(l', k) {
      if k != id { assert MemberTold(l, k); }
    }
  }

  lemma {:induction false} AddedMembers<S, C>(srv: Server<S, C>, uuid: string, id: int, data: string,
                                              state: MemberState)
    requires Consistent(srv) && id !in srv.members
    ensures var srv' := MemberAdded(srv, uuid, id, data, state);
            && srv'.members.Keys == (if uuid in srv.spaces then srv.members.Keys + {id} else srv.members.Keys)
            && (uuid in srv.spaces ==> ProfileAt(srv', id) == Profile(data, state) && UuidAt(srv', id) == uuid)
            && forall k :: k in srv.members ==>
                 ProfileAt(srv', k) == ProfileAt(srv, k) && UuidAt(srv', k) == UuidAt(srv, k)
  {}

  lemma {:induction false} ListedAreTheLast(listed: seq<ClientMember>)
    ensures Listed(listed).Keys == Ids(listed)
    ensures forall id :: id in Listed(listed) ==>
              LastEntry(listed, id).Some? && Listed(listed)[id] == LastProfile(listed, id)
    decreases |listed|
  {
    if listed != [] {
      ListedAreTheLast(listed[..|listed| - 1]);
      IdsSplit(listed);
    }
  }

  lemma {:induction false} MirroredMembers<S, C>(srv: Server<S, C>, uuid: string, data: string,
                                                 listed: seq<ClientMember>, s: S)
    requires IndicesAgree(srv) && uuid !in srv.spaces && s !in srv.objects && Listed(listed).Keys !! srv.members.Keys
    ensures var srv' := SpaceMirrored(srv, uuid, data, listed, s);
            && srv'.members.Keys == srv.members.Keys + Ids(listed)
            && (forall k :: k in Ids(listed) ==>
                  ProfileAt(srv', k) == LastProfile(listed, k) && UuidAt(srv', k) == uuid)
            && forall k :: k in srv.members ==>
                 ProfileAt(srv', k) == ProfileAt(srv, k) && UuidAt(srv', k) == UuidAt(srv, k)
  {
    ListedAreTheLast(listed);
  }

  lemma {:induction false} MembersAfterMirroring<S>(l: Ledger<S>, step: Step<S>)
    requires NetOk(l.net) && MembersTold(l) && Possible(l.net, step) && step.SpaceAcked?
    ensures MembersTold(Noted(l, step))
  {
    var srv, uuid := l.net.server, l.net.sessions[step.c].uuid;
    NotedMirroring(l, step);
    if uuid in srv.spaces {
      MembersSame(l, Noted(l, step));
    } else {
      ListedAreTheLast(step.listed);
      MirroredMembers(srv, uuid, step.data, step.listed, step.newRef);
      MembersListed(l, Noted(l, step), uuid, step.listed);
    }
  }

  lemma {:induction false} NotedMirroring<S>(l: Ledger<S>, step: Step<S>)
    requires Consistent(l.net.server) && LogsMatch(l.net) && Possible(l.net, step) && step.SpaceAcked?
    ensures var uuid, l' := l.net.sessions[step.c].uuid, Noted(l, step);
            && l'.net.server == SpaceMirrored(l.net.server, uuid, step.data, step.listed, step.newRef)
            && (if uuid in l.net.server.spaces then l' == l.(net := l'.net)
                else l' == Listing(l.(net := l'.net), uuid, step.data, step.listed, step.newRef))
  {}

  lemma {:induction false} MembersListed<S>(l: Ledger<S>, l': Ledger<S>, uuid: string, listed: seq<ClientMember>)
    requires Consistent(l.net.server) && Consistent(l'.net.server) && MembersTold(l)
    requires var srv, srv' := l.net.server, l'.net.server;
             && srv'.members.Keys == srv.members.Keys + Ids(listed) && Ids(listed) !! srv.members.Keys
             && (forall k :: k in Ids(listed) ==>
                   ProfileAt(srv', k) == LastProfile(listed, k) && UuidAt(srv', k) == uuid)
             && forall k :: k in srv.members ==>
                  ProfileAt(srv', k) == ProfileAt(srv, k) && UuidAt(srv', k) == UuidAt(srv, k)
    requires l'.present == l.present + Ids(listed) && l'.patches == l.patches - Ids(listed)
    requires l'.entered == l.entered + map id | id in Ids(listed) :: Entry(uuid, LastProfile(listed, id))
    ensures MembersTold(l')
  {
    forall k | k in l'.net.server.members ensures MemberTold(l', k) {
      if k !in Ids(listed) { assert MemberTold(l, k); }
    }
  }

  lemma {:induction false} RemovedMembers<S, C>(srv: Server<S, C>, id: int)
    requires Consistent(srv)
    ensures var srv' := MemberRemoved(srv, id);
            && srv'.members.Keys == srv.members.Keys - {id}
            && forall k :: k in srv'.members ==>
                 ProfileAt(srv', k) == ProfileAt(srv, k) && UuidAt(srv', k) == UuidAt(srv, k)
  {}

  lemma {:induction false} MembersAfterRemoval<S>(l: Ledger<S>, id: int)
    requires NetOk(l.net) && MembersTold(l) && Possible(l.net, RemovalAcked(id))
    ensures MembersTold(Noted(l, RemovalAcked(id)))
  {
    RemovedMembers(l.net.server, id);
    MembersFewer(l, Noted(l, RemovalAcked(id)), id);
  }

  lemma {:induction false} MembersFewer<S>(l: Ledger<S>, l': Ledger<S>, id: int)
    requires Consistent(l.net.server) && Consistent(l'.net.server) && MembersTold(l)
    requires var srv, srv' := l.net.server, l'.net.server;
             && srv'.members.Keys == srv.members.Keys - {id}
             && forall k :: k in srv'.members ==>
                  ProfileAt(srv', k) == ProfileAt(srv, k) && UuidAt(srv', k) == UuidAt(srv, k)
    requires l'.present == l.present - {id} && l'.patches == l.patches && l'.entered == l.entered
    ensures MembersTold(l')
  {
    forall k | k in l'.net.server.members ensures MemberTold(l', k) { assert MemberTold(l, k); }
  }

  // ----- Each step keeps what is told of the members -----

  lemma {:induction false} StepKeepsMembers<S>(l: Ledger<S>, step: Step<S>)
    requires NetOk(l.net) && MembersTold(l) && Possible(l.net, step)
    ensures MembersTold(Noted(l, step))
  {
    match step
    case SpaceAcked(_, _, _, _) => MembersAfterMirroring(l, step);
    case MemberAcked(c, id) => MembersAfterEntry(l, c, id);
    case ClientUpdate(c, patch) => MembersAfterPatch(l, Noted(l, step), l.net.sessions[c].phase.id, patch);
    case CoordinatorEvent(uuid, update) => MembersAfterEvent(l, uuid, update);
    case RemovalAcked(id) => MembersAfterRemoval(l, id);
    case _ => MembersSame(l, Noted(l, step));
  }

  lemma {:induction false} MembersAfterEvent<S>(l: Ledger<S>, uuid: string, update: CoordinatorUpdate)
    requires NetOk(l.net) && MembersTold(l)
    ensures MembersTold(Noted(l, CoordinatorEvent(uuid, update)))
  {
    var srv := l.net.server;
    var l' := Noted(l, CoordinatorEvent(uuid, update));
    if update.ProducerConnectedEvent? && uuid in srv.spaces && update.memberId in srv.channels {
      MembersAfterPatch(l, l', update.memberId, Patch(None, Some(true)));
    } else {
      QuietEvent(srv, uuid, update);
      MembersSame(l, l');
    }
  }

  /** Any other event leaves the members alone. */
  lemma {:induction false} QuietEvent<S, C>(srv: Server<S, C>, uuid: string, update: CoordinatorUpdate)
    requires Consistent(srv)
    requires !(update.ProducerConnectedEvent? && uuid in srv.spaces && update.memberId in srv.channels)
    ensures var srv' := SpaceUpdated(srv, uuid, update).0;
            && srv'.members == srv.members && srv'.objects == srv.objects && srv'.spaces == srv.spaces
            && srv'.channels == srv.channels
  {}

  // ----- Spaces -----

  ghost predicate SameSpaces<S, C>(srv: Server<S, C>, srv': Server<S, C>) {
    && srv'.objects.Keys == srv.objects.Keys
    && forall s :: s in srv.objects ==>
         srv'.objects[s].uuid == srv.objects[s].uuid && srv'.objects[s].data == srv.objects[s].data
  }

  lemma {:induction false} AddingKeepsSpaces<S, C>(srv: Server<S, C>, uuid: string, id: int, data: string,
                                                   state: MemberState)
    requires Consistent(srv)
    ensures SameSpaces(srv, MemberAdded(srv, uuid, id, data, state))
  {}

  lemma {:induction false} RemovingKeepsSpaces<S, C>(srv: Server<S, C>, id: int)
    requires Consistent(srv)
    ensures SameSpaces(srv, MemberRemoved(srv, id))
  {}

  lemma {:induction false} EventKeepsSpaces<S, C>(srv: Server<S, C>, uuid: string, update: CoordinatorUpdate)
    requires Consistent(srv)
    ensures SameSpaces(srv, SpaceUpdated(srv, uuid, update).0)
  {
    if update.ProducerConnectedEvent? {
      PatchedFieldByField(srv, update.memberId, Patch(None, Some(true)));
    }
  }

  lemma {:induction false} MirroringAddsOne<S, C>(srv: Server<S, C>, uuid: string, data: string,
                                                  listed: seq<ClientMember>, s: S)
    requires s !in srv.objects && uuid !in srv.spaces
    ensures var srv' := SpaceMirrored(srv, uuid, data, listed, s);
            && srv'.objects.Keys == srv.objects.Keys + {s}
            && srv'.objects[s].uuid == uuid && srv'.objects[s].data == data
            && forall q :: q in srv.objects ==> srv'.objects[q] == srv.objects[q]
  {}

  lemma {:induction false} SpacesAfterMirroring<S>(l: Ledger<S>, step: Step<S>)
    requires NetOk(l.net) && SpacesTold(l) && Possible(l.net, step) && step.SpaceAcked?
    ensures SpacesTold(Noted(l, step))
  {
    var uuid := l.net.sessions[step.c].uuid;
    NotedMirroring(l, step);
    if uuid !in l.net.server.spaces {
      MirroringAddsOne(l.net.server, uuid, step.data, step.listed, step.newRef);
    }
  }

  lemma {:induction false} StepKeepsSpaces<S>(l: Ledger<S>, step: Step<S>)
    requires NetOk(l.net) && SpacesTold(l) && Possible(l.net, step)
    ensures SpacesTold(Noted(l, step))
  {
    if step.SpaceAcked? {
      SpacesAfterMirroring(l, step);
    } else {
      StepSparesSpaces(l.net, step);
      MadeStays(l, step);
      SpacesSpared(l, Remarked(l, step), Do(l.net, step));
    }
  }

  lemma {:induction false} SpacesSpared<S>(l: Ledger<S>, l': Ledger<S>, n: Net<S>)
    requires SpacesTold(l) && l'.made == l.made && SameSpaces(l.net.server, n.server)
    ensures SpacesTold(l'.(net := n))
  {}

  lemma {:induction false} MadeStays<S>(l: Ledger<S>, step: Step<S>)
    requires Possible(l.net, step) && !step.SpaceAcked?
    ensures Remarked(l, step).made == l.made
  {}

  lemma {:induction false} StepSparesSpaces<S>(n: Net<S>, step: Step<S>)
    requires NetOk(n) && Possible(n, step) && !step.SpaceAcked?
    ensures SameSpaces(n.server, Do(n, step).server)
  {
    match step
    case MemberAcked(c, id) =>
      AddingKeepsSpaces(n.server, n.sessions[c].uuid, id, n.sessions[c].data,
          MemberState(n.sessions[c].isMuted, false));
    case ClientUpdate(c, patch) => PatchedFieldByField(n.server, n.sessions[c].phase.id, patch);
    case CoordinatorEvent(uuid, update) => EventKeepsSpaces(n.server, uuid, update);
    case RemovalAcked(id) => RemovingKeepsSpaces(n.server, id);
    case _ =>
  }

  // ----- Transport parameters -----

  /** Each log stays, or gains one event that is no transport parameters. */
  ghost predicate NoParams<S, C>(srv: Server<S, C>, srv': Server<S, C>) {
    && srv'.logs.Keys == srv.logs.Keys
    && forall c :: c in srv.logs ==> ParamsIn(srv'.logs[c]) == ParamsIn(srv.logs[c]) && srv.logs[c] <= srv'.logs[c]
  }

  lemma {:induction false} ParamsOneMore(log: seq<Event>, e: Event)
    ensures ParamsIn(log + [e]) == if e.TransportParams? then ParamsIn(log) + [e.memberId] else ParamsIn(log)
  {
    assert (log + [e])[..|log|] == log;
  }

  lemma {:induction false} EmittingNoParams<S, C>(srv: Server<S, C>, to: set<int>, e: Event)
    requires !e.TransportParams?
    ensures NoParams(srv, Emit(srv, to, e))
  {
    forall c | c in srv.logs ensures ParamsIn(Emit(srv, to, e).logs[c]) == ParamsIn(srv.logs[c]) {
      ParamsOneMore(srv.logs[c], e);
    }
  }

  lemma {:induction false} AddingSendsNoParams<S, C>(srv: Server<S, C>, uuid: string, id: int, data: string,
                                                     state: MemberState)
    requires Consistent(srv)
    ensures NoParams(srv, MemberAdded(srv, uuid, id, data, state))
  {
    if id !in srv.members && uuid in srv.spaces {
      var ms := srv.objects[srv.spaces[uuid]].members[id := Profile(data, state)];
      EmittingNoParams(WithMembers(srv, srv.spaces[uuid], ms).(members := srv.members[id := srv.spaces[uuid]]),
          ms.Keys - {id}, MemberJoin(ClientMember(id, data, state)));
    }
  }

  lemma {:induction false} RemovingSendsNoParams<S, C>(srv: Server<S, C>, id: int)
    requires Consistent(srv)
    ensures NoParams(srv, MemberRemoved(srv, id))
  {
    if id in srv.members {
      var ms := srv.objects[srv.members[id]].members - {id};
      EmittingNoParams(WithMembers(srv, srv.members[id], ms).(members := srv.members - {id}), ms.Keys, MemberLeave(id));
    }
  }

  lemma {:induction false} PatchingSendsNoParams<S, C>(srv: Server<S, C>, id: int, patch: Patch)
    requires Consistent(srv)
    ensures MemberUpdated(srv, id, patch).Some? ==> NoParams(srv, MemberUpdated(srv, id, patch).value)
  {
    if id in srv.members {
      PatchedFieldByField(srv, id, patch);
      var srv' := MemberUpdated(srv, id, patch).value;
      forall c | c in srv.logs ensures ParamsIn(srv'.logs[c]) == ParamsIn(srv.logs[c]) {
        ParamsOneMore(srv.logs[c], MemberStateUpdate(id, StateOf(srv', id)));
      }
    }
  }

  lemma {:induction false} ParamsStay<S>(l: Ledger<S>, l': Ledger<S>, n: Net<S>)
    requires LogsMatch(l.net) && LogsMatch(n) && ParamsTold(l) && NoParams(l.net.server, n.server)
    requires l'.offered == l.offered && |n.sessions| == |l.net.sessions|
    ensures ParamsTold(l'.(net := n))
  {}

  lemma {:induction false} ParamsAfterConnect<S>(l: Ledger<S>, step: Step<S>)
    requires NetOk(l.net) && ParamsTold(l) && step.Connect?
    ensures ParamsTold(Noted(l, step))
  {}

  lemma {:induction false} ParamsAfterEvent<S>(l: Ledger<S>, uuid: string, update: CoordinatorUpdate)
    requires NetOk(l.net) && ParamsTold(l)
    ensures ParamsTold(Noted(l, CoordinatorEvent(uuid, update)))
  {
    var srv := l.net.server;
    if update.TransportParamsEvent? && uuid in srv.spaces && update.memberId in srv.channels {
      ParamsOffered(l, uuid, update);
    } else {
      EventSendsNoParams(srv, uuid, update);
      NothingOffered(l, uuid, update);
      ParamsStay(l, Remarked(l, CoordinatorEvent(uuid, update)), Do(l.net, CoordinatorEvent(uuid, update)));
    }
  }

  lemma {:induction false} EventSendsNoParams<S, C>(srv: Server<S, C>, uuid: string, update: CoordinatorUpdate)
    requires Consistent(srv)
    requires !(update.TransportParamsEvent? && uuid in srv.spaces && update.memberId in srv.channels)
    ensures NoParams(srv, SpaceUpdated(srv, uuid, update).0)
  {
    if update.ProducerConnectedEvent? { PatchingSendsNoParams(srv, update.memberId, Patch(None, Some(true))); }
  }

  lemma {:induction false} NothingOffered<S>(l: Ledger<S>, uuid: string, update: CoordinatorUpdate)
    requires !(update.TransportParamsEvent? && uuid in l.net.server.spaces && update.memberId in l.net.server.channels)
    ensures Remarked(l, CoordinatorEvent(uuid, update)).offered == l.offered
  {}

  lemma {:induction false} ParamsOffered<S>(l: Ledger<S>, uuid: string, update: CoordinatorUpdate)
    requires NetOk(l.net) && ParamsTold(l) && update.TransportParamsEvent? && uuid in l.net.server.spaces
    requires update.memberId in l.net.server.channels
    ensures ParamsTold(Noted(l, CoordinatorEvent(uuid, update)))
  {
    var srv, l' := l.net.server, Noted(l, CoordinatorEvent(uuid, update));
    var c := srv.channels[update.memberId];
    var source := match update.consumesFrom case Some(k) => k case None => update.memberId;
    OneChannel(srv, update.memberId, TransportParams(source));
    ParamsOneMore(srv.logs[c], TransportParams(source));
    assert l'.offered == l.offered[c := l.offered[c] + [source]];
    assert l'.net.server.logs == srv.logs[c := srv.logs[c] + [TransportParams(source)]];
  }

  lemma {:induction false} OneChannel<S, C>(srv: Server<S, C>, id: int, e: Event)
    requires id in srv.channels && srv.channels[id] in srv.logs
    ensures Emit(srv, {id}, e).logs == srv.logs[srv.channels[id] := srv.logs[srv.channels[id]] + [e]]
  {
    assert Reaches(srv.channels, {id}, srv.channels[id]);
  }

  lemma {:induction false} StepKeepsParams<S>(l: Ledger<S>, step: Step<S>)
    requires NetOk(l.net) && ParamsTold(l) && Possible(l.net, step)
    ensures ParamsTold(Noted(l, step))
  {
    match step
    case Connect(_, _, _) => ParamsAfterConnect(l, step);
    case CoordinatorEvent(uuid, update) => ParamsAfterEvent(l, uuid, update);
    case _ =>
      StepSendsNoParams(l.net, step);
      ParamsStay(l, Remarked(l, step), Do(l.net, step));
  }

  lemma {:induction false} StepSendsNoParams<S>(n: Net<S>, step: Step<S>)
    requires NetOk(n) && Possible(n, step) && !step.Connect? && !step.CoordinatorEvent?
    ensures NoParams(n.server, Do(n, step).server)
  {
    var srv := n.server;
    match step
    case MemberAcked(c, id) =>
      AddingSendsNoParams(srv, n.sessions[c].uuid, id, n.sessions[c].data, MemberState(n.sessions[c].isMuted, false));
    case ClientUpdate(c, patch) => PatchingSendsNoParams(srv, n.sessions[c].phase.id, patch);
    case RemovalAcked(id) => RemovingSendsNoParams(srv, id);
    case Start(c, order) =>
      var ses := n.sessions[c];
      if ses.uuid in srv.spaces {
        ParamsOneMore(srv.logs[c], SpaceInit(ses.phase.id, ses.uuid, srv.objects[srv.spaces[ses.uuid]].data, order));
      }
    case _ =>
  }

  // ----- The snapshot that opened a channel -----

  /** A live client's channel opens with the snapshot of the space its member is in. */
  ghost predicate OpenedRight<S>(n: Net<S>, c: nat)
    requires Consistent(n.server) && LogsMatch(n) && c < |n.sessions| && n.sessions[c].phase.Live?
  {
    var srv, ses, id := n.server, n.sessions[c], n.sessions[c].phase.id;
    && id in srv.members && UuidAt(srv, id) == ses.uuid
    && srv.logs[c] != [] && srv.logs[c][0].SpaceInit? && srv.logs[c][0].receivingMemberId == id
    && srv.logs[c][0].uuid == ses.uuid && srv.logs[c][0].spaceData == srv.objects[srv.members[id]].data
  }

  ghost predicate OpenedOk<S>(n: Net<S>)
    requires Consistent(n.server) && LogsMatch(n)
  {
    forall c: nat :: c < |n.sessions| && n.sessions[c].phase.Live? ==> OpenedRight(n, c)
  }

  /** Members stay in their spaces, spaces stay what they are, and logs only grow. */
  ghost predicate Steady<S>(srv: Server<S, nat>, srv': Server<S, nat>) {
    && (forall id :: id in srv.members && id in srv'.members ==> srv'.members[id] == srv.members[id])
    && (forall s :: s in srv.objects ==>
          && s in srv'.objects
          && srv'.objects[s].uuid == srv.objects[s].uuid && srv'.objects[s].data == srv.objects[s].data)
    && (forall c :: c in srv.logs ==> c in srv'.logs && srv.logs[c] <= srv'.logs[c])
  }

  lemma {:induction false} OpenedStays<S>(n: Net<S>, n': Net<S>, c: nat)
    requires Consistent(n.server) && LogsMatch(n) && Consistent(n'.server) && LogsMatch(n')
    requires c < |n.sessions| && c < |n'.sessions| && Steady(n.server, n'.server)
    requires n.sessions[c].phase.Live? && n'.sessions[c] == n.sessions[c] && n.sessions[c].phase.id in n'.server.members
    requires OpenedRight(n, c)
    ensures OpenedRight(n', c)
  {}

  lemma {:induction false} LogsGrow<S>(n: Net<S>, step: Step<S>)
    requires NetOk(n) && Possible(n, step)
    ensures forall c :: c in n.server.logs ==>
              c in Do(n, step).server.logs && n.server.logs[c] <= Do(n, step).server.logs[c]
  {
    if step.CoordinatorEvent? {
      EventGrowsLogs(n.server, step.uuid, step.update);
    } else if !step.Connect? {
      StepSendsNoParams(n, step);
    }
  }

  lemma {:induction false} EventGrowsLogs<S, C>(srv: Server<S, C>, uuid: string, update: CoordinatorUpdate)
    requires Consistent(srv)
    ensures forall c :: c in srv.logs ==>
              c in SpaceUpdated(srv, uuid, update).0.logs && srv.logs[c] <= SpaceUpdated(srv, uuid, update).0.logs[c]
  {
    if update.ProducerConnectedEvent? { PatchedFieldByField(srv, update.memberId, Patch(None, Some(true))); }
  }

  lemma {:induction false} OwnersStay<S>(n: Net<S>, step: Step<S>)
    requires NetOk(n) && Possible(n, step)
    ensures forall id :: id in n.server.members && id in Do(n, step).server.members ==>
              Do(n, step).server.members[id] == n.server.members[id]
  {
    var srv := n.server;
    match step
    case ClientUpdate(c, patch) => PatchedFieldByField(srv, n.sessions[c].phase.id, patch);
    case CoordinatorEvent(uuid, update) => EventKeepsOwners(srv, uuid, update);
    case _ =>
  }

  lemma {:induction false} EventKeepsOwners<S, C>(srv: Server<S, C>, uuid: string, update: CoordinatorUpdate)
    requires Consistent(srv)
    ensures SpaceUpdated(srv, uuid, update).0.members == srv.members
  {
    if update.ProducerConnectedEvent? { PatchedFieldByField(srv, update.memberId, Patch(None, Some(true))); }
  }

  lemma {:induction false} StepIsSteady<S>(n: Net<S>, step: Step<S>)
    requires NetOk(n) && Possible(n, step)
    ensures Steady(n.server, Do(n, step).server)
  {
    LogsGrow(n, step);
    OwnersStay(n, step);
    if step.SpaceAcked? {
      if n.sessions[step.c].uuid !in n.server.spaces {
        MirroringAddsOne(n.server, n.sessions[step.c].uuid, step.data, step.listed, step.newRef);
      }
    } else {
      StepSparesSpaces(n, step);
    }
  }

  lemma {:induction false} StepKeepsOpened<S>(n: Net<S>, step: Step<S>)
    requires Inv(n) && OpenedOk(n) && Possible(n, step) && Inv(Do(n, step))
    ensures OpenedOk(Do(n, step))
  {
    var n' := Do(n, step);
    StepIsSteady(n, step);
    forall c: nat | c < |n'.sessions| && n'.sessions[c].phase.Live? ensures OpenedRight(n', c) {
      assert SessionOk(n', c);
      if step.Start? && c == step.c { StartOpens(n, step); } else { OpenedStays(n, n', c); }
    }
  }

  lemma {:induction false} StartOpens<S>(n: Net<S>, step: Step<S>)
    requires Inv(n) && Possible(n, step) && step.Start? && Do(n, step).sessions[step.c].phase.Live?
    ensures OpenedRight(Do(n, step), step.c)
  {
    assert SessionOk(n, step.c);
  }

  // ----- Every run -----

  lemma {:induction false} EveryRunIsTold<S>(steps: seq<Step<S>>)
    ensures match Note(steps)
            case None => true
            case Some(l) => Inv(l.net) && MembersTold(l) && SpacesTold(l) && ParamsTold(l) && OpenedOk(l.net)
    decreases |steps|
  {
    if steps != [] {
      var before, step := Note(steps[..|steps| - 1]), steps[|steps| - 1];
      EveryRunIsTold(steps[..|steps| - 1]);
      if before.Some? && Possible(before.value.net, step) {
        StepKeepsInv(before.value.net, step);
        StepKeepsOpened(before.value.net, step);
        StepKeepsMembers(before.value, step);
        StepKeepsSpaces(before.value, step);
        StepKeepsParams(before.value, step);
      }
    }
  }

  // ----- The results -----

  /** In every run the server mirrors exactly the members that entered a mirrored space, or came with it, and were not
      removed since; each in the space it entered, with the data it entered with, and with each field of its state as
      the last patch that named it set it, or as it was on entering.  A space object is what it was mirrored as. */
  lemma {:induction false} MirrorIsWhatWasTold<S>(steps: seq<Step<S>>)
    ensures match Note(steps)
            case None => true
            case Some(l) => MembersTold(l) && SpacesTold(l)
  {
    EveryRunIsTold(steps);
  }

  /** In every run the transport parameters on a channel are those the coordinator sent for its member while it was
      registered in a mirrored space, in order, each naming the member it consumes from, or else the member itself. */
  lemma {:induction false} ParamsAreDeliveredInOrder<S>(steps: seq<Step<S>>, c: nat)
    ensures match Note(steps)
            case None => true
            case Some(l) =>
              c < |l.net.sessions| ==>
                c in l.offered && c in l.net.server.logs && ParamsIn(l.net.server.logs[c]) == l.offered[c]
  {
    EveryRunIsTold(steps);
  }

  lemma {:induction false} FirstInitOpens(inputs: seq<Input>)
    requires EventsOf(inputs) != [] && EventsOf(inputs)[0].SpaceInit?
    ensures FirstInit(inputs) == Some(EventsOf(inputs)[0])
    decreases |inputs|
  {
    var rest := inputs[..|inputs| - 1];
    if EventsOf(rest) != [] { FirstInitOpens(rest); } else { NoEventsNoInit(rest); }
  }

  lemma {:induction false} NoEventsNoInit(inputs: seq<Input>)
    requires EventsOf(inputs) == []
    ensures FirstInit(inputs).None?
    decreases |inputs|
  {
    if inputs != [] { NoEventsNoInit(inputs[..|inputs| - 1]); }
  }

  /** In every run, what a registered client reads is its space as the server mirrors it: the space's uuid and data,
      every other member with its data and state, and of itself everything but the mute flag, which is what the user
      last set, unless the opening snapshot came after that. */
  lemma {:induction false} ClientsReadTheirSpace<S>(steps: seq<Step<S>>, id: int, inputs: seq<Input>)
    requires Run(steps).Some? && id in Run(steps).value.server.channels
    requires EventsOf(inputs) == Run(steps).value.server.logs[Run(steps).value.server.channels[id]]
    ensures var n := Run(steps).value;
            && n.server.channels[id] < |n.sessions|
            && id in n.server.members && n.server.members[id] in n.server.objects
            && var space, ses := n.server.objects[n.server.members[id]], n.sessions[n.server.channels[id]];
            && var content := ClientSpace.Rebuilt(Play(FreshClient(ses), inputs));
            && content.uuid == Some(space.uuid) && content.spaceData == Some(space.data) && space.uuid == ses.uuid
            && content.producerId == Some(id) && id in space.members
            && content.consumers == space.members - {id}
            && content.producer == Profile(space.members[id].data,
                                           MemberState(ToldMute(ses.isMuted, inputs),
                                                       space.members[id].state.transportIsConnected))
  {
    EveryRunIsTold(steps);
    ReplicasAgree(steps, id, inputs);
    var n := Run(steps).value;
    var c := n.server.channels[id];
    assert OpenedRight(n, c);
    FirstInitOpens(inputs);
    OwnMuteAndSpaceAreTold(FreshClient(n.sessions[c]), inputs);
    ClientSpace.SnapshotShowsTheMirror(Play(FreshClient(n.sessions[c]), inputs),
        n.server.objects[n.server.members[id]].members, id);
  }

  /** In every run a coordinator event is ignored exactly when it goes the other way, nacked exactly when its space is
      not mirrored or its type is unknown, and acknowledged otherwise: the member of a registered channel is always
      found. */
  lemma {:induction false} VerdictIsTold<S>(steps: seq<Step<S>>, uuid: string, update: CoordinatorUpdate)
    ensures match Run(steps)
            case None => true
            case Some(n) =>
              var verdict := SpaceUpdated(n.server, uuid, update).1;
              && (verdict == Ignored <==> update.FromServer?)
              && (verdict == Nacked <==> !update.FromServer? && (uuid !in n.server.spaces || update.UnknownEvent?))
  {
    EveryRunIsTold(steps);
    var run := Run(steps);
    if run.Some? && update.ProducerConnectedEvent? && update.memberId in run.value.server.channels {
      var n := run.value;
      assert InPhase(n, n.server.channels[update.memberId], Live(update.memberId));
      assert OpenedRight(n, n.server.channels[update.memberId]);
    }
  }

  /** Nobody but `id` is mirrored in this space object. */
  ghost predicate NobodyElseIn<S, C>(srv: Server<S, C>, s: S, id: int) {
    forall k :: k in srv.members && srv.members[k] == s ==> k == id
  }

  lemma {:induction false} EmptyWithoutIt<S, C>(srv: Server<S, C>, s: S, id: int)
    requires IndicesAgree(srv) && s in srv.objects
    ensures srv.objects[s].members - {id} == map[] <==> NobodyElseIn(srv, s, id)
  {
    var rest := srv.objects[s].members - {id};
    if NobodyElseIn(srv, s, id) {
      forall k ensures k !in rest { assert k in srv.objects[s].members ==> k in srv.members && srv.members[k] == s; }
    }
    if rest == map[] {
      forall k | k in srv.members && srv.members[k] == s ensures k == id { assert k !in rest; }
    }
  }

  /** What the mirrored spaces hold once `id` has left. */
  lemma {:induction false} SpacesOnceGone<S, C>(srv: Server<S, C>, id: int, s: S)
    requires IndicesAgree(srv) && id in srv.members && s in srv.objects
    ensures MemberRemoved(srv, id).objects[s].members == srv.objects[s].members - {id}
  {
    if s != srv.members[id] { assert id !in srv.objects[s].members; }
  }

  /** In every run an acknowledged removal asks for an unsubscription exactly when nobody else is mirrored in the
      member's space, its uuid is still mirrored, and nobody else is in the space mirrored under it. */
  lemma {:induction false} DropIsAskedExactlyWhenEmptied<S>(steps: seq<Step<S>>, id: int)
    ensures match Run(steps)
            case None => true
            case Some(n) =>
              id in n.removals ==>
                var srv, drops := n.server, Do(n, RemovalAcked(id)).drops;
                if id !in srv.members then drops == n.drops
                else
                  var s := srv.members[id];
                  var uuid := srv.objects[s].uuid;
                  drops == if NobodyElseIn(srv, s, id) && uuid in srv.spaces && NobodyElseIn(srv, srv.spaces[uuid], id)
                           then n.drops + multiset{uuid} else n.drops
  {
    EveryRunIsTold(steps);
    var run := Run(steps);
    if run.Some? && id in run.value.removals && id in run.value.server.members {
      var srv := run.value.server;
      var s := srv.members[id];
      var uuid := srv.objects[s].uuid;
      EmptyWithoutIt(srv, s, id);
      SpacesOnceGone(srv, id, s);
      RemovedMembers(srv, id);
      if uuid in srv.spaces {
        EmptyWithoutIt(srv, srv.spaces[uuid], id);
        SpacesOnceGone(srv, id, srv.spaces[uuid]);
      }
    }
  }
}
