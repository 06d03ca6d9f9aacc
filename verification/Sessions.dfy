/** Every run of a signaling server with its client sessions, at the granularity of one synchronous step between two
    awaits: connections, acknowledgements, client messages, coordinator events and closes in any order.  A session is
    named by its number, and so is its channel.

    Hypotheses on what the coordinator answers, all in `Possible`: an acknowledged member id is new to this server,
    and so are the ids listed when a space is mirrored; and when a session reads the mirror to start, the mirror under
    its uuid is the one its member was added to. */
module Sessions {
  import opened Common
  import opened Replica
  import opened Mirror

  datatype Phase =
    | SpacePending
    | SpaceReady
    | MemberPending
    | MemberReady(id: int) // acknowledged, the rest of `start` has not run yet
    | Live(id: int)
    | Failed(id: int)      // acknowledged, but its space was gone when `start` went on; client messages are still heard
    | Over

  datatype Session = Session(uuid: string, data: string, isMuted: bool, phase: Phase)

  datatype Net<S> = Net(
    server: Server<S, nat>,
    sessions: seq<Session>,
    removals: set<int>,      // remove-member requests not answered yet
    drops: multiset<string>, // unsubscribe requests not answered yet
    seen: set<int>)          // every member id the coordinator has told this server about

  datatype Step<S> =
    | Connect(uuid: string, data: string, isMuted: bool)
    | SpaceAcked(c: nat, data: string, listed: seq<ClientMember>, newRef: S)
    | Proceed(c: nat)
    | MemberAcked(c: nat, id: int)
    | Start(c: nat, order: seq<ClientMember>)
    | ClientUpdate(c: nat, patch: Patch)
    | CoordinatorEvent(uuid: string, update: CoordinatorUpdate)
    | Close(c: nat)
    | RemovalAcked(id: int)
    | DropAcked(uuid: string)
    | Refused(c: nat)        // the awaited request was nacked
    | RemovalRefused(id: int)

  ghost function Initial<S>(): Net<S> {
    Net(Server(map[], map[], map[], map[], map[]), [], {}, multiset{}, {})
  }

  ghost predicate InPhase<S>(n: Net<S>, c: nat, phase: Phase) {
    c < |n.sessions| && n.sessions[c].phase == phase
  }

  ghost predicate Possible<S>(n: Net<S>, step: Step<S>) {
    match step
    case Connect(_, _, _) => true
    case SpaceAcked(c, _, listed, newRef) =>
      && InPhase(n, c, SpacePending) && newRef !in n.server.objects
      && (n.sessions[c].uuid !in n.server.spaces ==> Listed(listed).Keys !! n.seen)
    case Proceed(c) => InPhase(n, c, SpaceReady)
    case MemberAcked(c, id) => InPhase(n, c, MemberPending) && id !in n.seen
    case Start(c, order) =>
      && c < |n.sessions| && n.sessions[c].phase.MemberReady?
      && (n.sessions[c].uuid in n.server.spaces ==>
            && Mirrored(n.server, n.sessions[c].uuid, n.sessions[c].phase.id)
            && Lists(order, n.server.objects[n.server.spaces[n.sessions[c].uuid]].members))
    case ClientUpdate(c, _) => c < |n.sessions| && (n.sessions[c].phase.Live? || n.sessions[c].phase.Failed?)
    case CoordinatorEvent(_, _) => true
    case Close(c) => c < |n.sessions|
    case RemovalAcked(id) => id in n.removals
    case DropAcked(uuid) => uuid in n.drops
    case Refused(c) => c < |n.sessions| && (n.sessions[c].phase == SpacePending || n.sessions[c].phase == MemberPending)
    case RemovalRefused(id) => id in n.removals
  }

  /** The space object under `uuid` holds member `id`. */
  ghost predicate Mirrored<S>(srv: Server<S, nat>, uuid: string, id: int) {
    uuid in srv.spaces && srv.spaces[uuid] in srv.objects && id in srv.objects[srv.spaces[uuid]].members
  }

  ghost function ToPhase<S>(n: Net<S>, c: nat, phase: Phase): Net<S>
    requires c < |n.sessions|
  {
    n.(sessions := n.sessions[c := n.sessions[c].(phase := phase)])
  }

  ghost predicate LogsMatch<S>(n: Net<S>) {
    forall c: nat :: c in n.server.logs <==> c < |n.sessions|
  }

  ghost function Do<S>(n: Net<S>, step: Step<S>): (n': Net<S>)
    requires Consistent(n.server) && LogsMatch(n) && Possible(n, step)
    ensures Consistent(n'.server) && LogsMatch(n')
  {
    var srv := n.server;
    match step
    case Connect(uuid, data, isMuted) =>
      var phase := if uuid in srv.spaces then SpaceReady else SpacePending;
      n.(server := srv.(logs := srv.logs[|n.sessions| := []]), sessions :=
          n.sessions + [Session(uuid, data, isMuted, phase)])
    case SpaceAcked(c, data, listed, newRef) =>
      ToPhase(n, c, SpaceReady).(
        server := SpaceMirrored(srv, n.sessions[c].uuid, data, listed, newRef),
        seen := n.seen + Listed(listed).Keys)
    case Proceed(c) => ToPhase(n, c, if n.sessions[c].uuid in srv.spaces then MemberPending else Over)
    case MemberAcked(c, id) =>
      var ses := n.sessions[c];
      ToPhase(n, c, MemberReady(id)).(
        server := MemberAdded(srv, ses.uuid, id, ses.data, MemberState(ses.isMuted, false)),
        seen := n.seen + {id})
    case Start(c, order) =>
      var ses := n.sessions[c];
      if ses.uuid !in srv.spaces then ToPhase(n, c, Failed(ses.phase.id))
      else ToPhase(n, c, Live(ses.phase.id)).(server := Registered(srv, ses.uuid, ses.phase.id, c, order))
    case ClientUpdate(c, patch) =>
      (match MemberUpdated(srv, n.sessions[c].phase.id, patch)
       case Some(srv') => n.(server := srv')
       case None => n)
    case CoordinatorEvent(uuid, update) => n.(server := SpaceUpdated(srv, uuid, update).0)
    case Close(c) =>
      if !n.sessions[c].phase.Live? then n
      else
        var id := n.sessions[c].phase.id;
        ToPhase(n, c, Over).(
          server := Unregistered(srv, id),
          removals := if id in srv.members then n.removals + {id} else n.removals)
    case RemovalAcked(id) =>
      n.(server := MemberRemoved(srv, id), removals := n.removals - {id},
         drops := match Emptied(srv, id) { case Some(uuid) => n.drops + multiset{uuid} case None => n.drops })
    case DropAcked(uuid) => n.(server := SpaceDropped(srv, uuid), drops := n.drops - multiset{uuid})
    case Refused(c) => ToPhase(n, c, Over)
    case RemovalRefused(id) => n.(removals := n.removals - {id})
  }

  // ----- The invariant -----

  ghost function FreshClient(ses: Session): Client {
    NewClient(ses.data, ses.isMuted)
  }

  /** A channel log is empty, or is one `spaceInit` followed by other events none of which surprises the client. */
  ghost predicate LogOk(ses: Session, log: seq<Event>) {
    log == [] || (log[0].SpaceInit? && (forall i :: 0 < i < |log| ==> !log[i].SpaceInit?)
                  && Replay(FreshClient(ses), log).warnings == 0)
  }

  /** The registered client's fold of its channel log is the mirror of its own space. */
  ghost predicate ClientAgrees<S>(srv: Server<S, nat>, ses: Session, c: nat, id: int) {
    && c in srv.logs && id in srv.members && srv.members[id] in srv.objects
    && LogOk(ses, srv.logs[c]) && srv.logs[c] != []
    && Mirrors(Replay(FreshClient(ses), srv.logs[c]), srv.objects[srv.members[id]].members, id)
  }

  ghost predicate Held(phase: Phase, id: int) {
    phase == MemberReady(id) || phase == Live(id)
  }

  ghost predicate SessionOk<S>(n: Net<S>, c: nat)
    requires c < |n.sessions| && c in n.server.logs
  {
    match n.sessions[c].phase
    case MemberReady(id) => n.server.logs[c] == [] && id in n.seen && id !in n.server.channels && id !in n.removals
    case Live(id) =>
      && id in n.seen && id in n.server.channels && n.server.channels[id] == c && id !in n.removals
      && ClientAgrees(n.server, n.sessions[c], c, id)
    case Over => LogOk(n.sessions[c], n.server.logs[c])
    case _ => n.server.logs[c] == []
  }

  ghost predicate ChannelsAreLive<S>(n: Net<S>) {
    forall id :: id in n.server.channels ==> InPhase(n, n.server.channels[id], Live(id))
  }

  ghost predicate OneSessionPerMember<S>(n: Net<S>) {
    forall c, d, id ::
      (0 <= c < |n.sessions| && 0 <= d < |n.sessions| && Held(n.sessions[c].phase, id) && Held(n.sessions[d].phase, id)
       ==> c == d)
  }

  ghost predicate Inv<S>(n: Net<S>) {
    && IndicesAgree(n.server) && LogsMatch(n)
    && n.server.members.Keys <= n.seen && n.removals <= n.seen
    && ChannelsAreLive(n) && OneSessionPerMember(n)
    && (forall c :: 0 <= c < |n.sessions| ==> SessionOk(n, c))
  }

  ghost function Run<S>(steps: seq<Step<S>>): (n: Option<Net<S>>)
    ensures n.Some? ==> Consistent(n.value.server) && LogsMatch(n.value)
    decreases |steps|
  {
    if steps == [] then Some(Initial())
    else
      var before := Run(steps[..|steps| - 1]);
      var step := steps[|steps| - 1];
      if before.None? || !Possible(before.value, step) then None else Some(Do(before.value, step))
  }

  // ----- Each step keeps the invariant -----

  /** A broadcast reaches a live session exactly when it is addressed to its member, and no other session. */
  lemma {:induction false} BroadcastReach<S>(n: Net<S>, to: set<int>, c: nat)
    requires Inv(n) && c < |n.sessions|
    ensures Reaches(n.server.channels, to, c) <==> n.sessions[c].phase.Live? && n.sessions[c].phase.id in to
  {
    assert SessionOk(n, c);
    if Reaches(n.server.channels, to, c) {
      var id :| id in to && id in n.server.channels && n.server.channels[id] == c;
      assert InPhase(n, n.server.channels[id], Live(id));
    }
  }

  /** An update of a mirrored member keeps every session in order. */
  lemma {:induction false} UpdateKeepsInv<S>(n: Net<S>, id: int, patch: Patch)
    requires Inv(n)
    ensures MemberUpdated(n.server, id, patch).Some? ==> Inv(n.(server := MemberUpdated(n.server, id, patch).value))
  {
    if id in n.server.members {
      var srv := n.server;
      UpdatingKeepsIndices(srv, id, patch);
      var n' := n.(server := MemberUpdated(srv, id, patch).value);
      var ms := srv.objects[srv.members[id]].members;
      var st := Merge(ms[id].state, patch);
      forall c | 0 <= c < |n'.sessions| ensures SessionOk(n', c) {
        assert SessionOk(n, c);
        BroadcastReach(n, ms.Keys, c);
        if n.sessions[c].phase.Live? && n.sessions[c].phase.id in ms {
          var own := n.sessions[c].phase.id;
          var client := FreshClient(n.sessions[c]);
          ReplayOneMore(client, srv.logs[c], MemberStateUpdate(id, st));
          UpdateKeepsMirror(Replay(client, srv.logs[c]), ms, own, id, st);
        }
      }
      assert ChannelsAreLive(n');
    }
  }

  lemma {:induction false} ParamsKeepInv<S>(n: Net<S>, id: int, about: int)
    requires Inv(n)
    ensures Inv(n.(server := Emit(n.server, {id}, TransportParams(about))))
  {
    var srv := n.server;
    var n' := n.(server := Emit(srv, {id}, TransportParams(about)));
    forall c | 0 <= c < |n'.sessions| ensures SessionOk(n', c) {
      assert SessionOk(n, c);
      BroadcastReach(n, {id}, c);
      ReplayOneMore(FreshClient(n.sessions[c]), srv.logs[c], TransportParams(about));
    }
    assert ChannelsAreLive(n');
  }

  lemma {:induction false} EventKeepsInv<S>(n: Net<S>, uuid: string, update: CoordinatorUpdate)
    requires Inv(n)
    ensures Inv(n.(server := SpaceUpdated(n.server, uuid, update).0))
  {
    match update
    case TransportParamsEvent(id, from) => ParamsKeepInv(n, id, from.GetOr(id));
    case ProducerConnectedEvent(id) => UpdateKeepsInv(n, id, Patch(None, Some(true)));
    case UnknownEvent =>
    case FromServer =>
  }

  lemma {:induction false} RemovalKeepsInv<S>(n: Net<S>, id: int, removals': set<int>, drops': multiset<string>)
    requires Inv(n) && id in n.removals && removals' == n.removals - {id}
    ensures Inv(n.(server := MemberRemoved(n.server, id), removals := removals', drops := drops'))
  {
    var srv := n.server;
    RemovingKeepsIndices(srv, id);
    var n' := n.(server := MemberRemoved(srv, id), removals := removals', drops := drops');
    forall c | 0 <= c < |n'.sessions| ensures SessionOk(n', c) {
      assert SessionOk(n, c);
      if id in srv.members {
        var ms := srv.objects[srv.members[id]].members;
        BroadcastReach(n, (ms - {id}).Keys, c);
        if n.sessions[c].phase.Live? && n.sessions[c].phase.id in ms {
          var own := n.sessions[c].phase.id;
          var client := FreshClient(n.sessions[c]);
          ReplayOneMore(client, srv.logs[c], MemberLeave(id));
          LeaveKeepsMirror(Replay(client, srv.logs[c]), ms, own, id);
        }
      }
    }
    assert ChannelsAreLive(n');
  }

  lemma {:induction false} MirroringKeepsInv<S>(n: Net<S>, c: nat, data: string, listed: seq<ClientMember>, newRef: S)
    requires Inv(n) && Possible(n, SpaceAcked(c, data, listed, newRef))
    ensures Inv(Do(n, SpaceAcked(c, data, listed, newRef)))
  {
    var srv, uuid := n.server, n.sessions[c].uuid;
    var n' := Do(n, SpaceAcked(c, data, listed, newRef));
    if uuid !in srv.spaces { MirroringKeepsIndices(srv, uuid, data, listed, newRef); }
    forall d | 0 <= d < |n'.sessions| ensures SessionOk(n', d) {
      assert SessionOk(n, d);
      if d != c && n.sessions[d].phase.Live? { assert n.sessions[d].phase.id in srv.members; }
    }
    PhaseChangeKeepsOwners(n, n');
  }

  /** When phases only move to ones that hold no member, ownership of channels and ids is kept. */
  lemma {:induction false} PhaseChangeKeepsOwners<S>(n: Net<S>, n': Net<S>)
    requires ChannelsAreLive(n) && OneSessionPerMember(n) && |n.sessions| <= |n'.sessions|
    requires n'.server.channels.Keys <= n.server.channels.Keys
    requires forall id :: id in n'.server.channels ==> n'.server.channels[id] == n.server.channels[id]
    requires forall d, id :: 0 <= d < |n'.sessions| && Held(n'.sessions[d].phase, id) ==>
               d < |n.sessions| && n'.sessions[d].phase == n.sessions[d].phase
    requires forall d, id :: 0 <= d < |n.sessions| && n.sessions[d].phase == Live(id) && id in n'.server.channels ==>
               n'.sessions[d].phase == Live(id)
    ensures ChannelsAreLive(n') && OneSessionPerMember(n')
  {
    forall id | id in n'.server.channels ensures InPhase(n', n'.server.channels[id], Live(id)) {
      assert InPhase(n, n.server.channels[id], Live(id));
    }
  }

  lemma {:induction false} JoinKeepsInv<S>(n: Net<S>, c: nat, id: int)
    requires Inv(n) && Possible(n, MemberAcked(c, id))
    ensures Inv(Do(n, MemberAcked(c, id)))
  {
    var srv, ses := n.server, n.sessions[c];
    var n' := Do(n, MemberAcked(c, id));
    AddingKeepsIndices(srv, ses.uuid, id, ses.data, MemberState(ses.isMuted, false));
    forall d | 0 <= d < |n'.sessions| ensures SessionOk(n', d) {
      if d == c { NewcomerOk(n, c, id); } else { JoinKeepsOthers(n, c, id, d); }
    }
    NewHolder(n, n', c, id);
  }

  lemma {:induction false} NewcomerOk<S>(n: Net<S>, c: nat, id: int)
    requires Inv(n) && Possible(n, MemberAcked(c, id))
    ensures SessionOk(Do(n, MemberAcked(c, id)), c)
  {
    var srv, ses := n.server, n.sessions[c];
    assert SessionOk(n, c);
    forall k | k in srv.channels ensures k in n.seen {
      assert InPhase(n, srv.channels[k], Live(k));
      assert SessionOk(n, srv.channels[k]);
    }
    if ses.uuid in srv.spaces { JoinReach(n, srv.objects[srv.spaces[ses.uuid]].members.Keys, id, c); }
  }

  lemma {:induction false} JoinKeepsOthers<S>(n: Net<S>, c: nat, id: int, d: nat)
    requires Inv(n) && Possible(n, MemberAcked(c, id)) && d < |n.sessions| && d != c
    ensures SessionOk(Do(n, MemberAcked(c, id)), d)
  {
    var srv, ses := n.server, n.sessions[c];
    assert SessionOk(n, d);
    if ses.uuid in srv.spaces {
      var ms := srv.objects[srv.spaces[ses.uuid]].members;
      JoinReach(n, ms.Keys, id, d);
      if n.sessions[d].phase.Live? && n.sessions[d].phase.id in ms { NeighbourAgrees(n, c, id, d); }
    }
  }

  /** A live client of the same space follows the join. */
  lemma {:induction false} NeighbourAgrees<S>(n: Net<S>, c: nat, id: int, d: nat)
    requires Inv(n) && Possible(n, MemberAcked(c, id)) && d < |n.sessions| && d != c && n.sessions[d].phase.Live?
    requires n.sessions[c].uuid in n.server.spaces
    requires n.sessions[d].phase.id in n.server.objects[n.server.spaces[n.sessions[c].uuid]].members
    ensures SessionOk(Do(n, MemberAcked(c, id)), d)
  {
    var srv, ses := n.server, n.sessions[c];
    var ms := srv.objects[srv.spaces[ses.uuid]].members;
    assert SessionOk(n, d);
    JoinReach(n, ms.Keys, id, d);
    var member := ClientMember(id, ses.data, MemberState(ses.isMuted, false));
    var client := FreshClient(n.sessions[d]);
    ReplayOneMore(client, srv.logs[d], MemberJoin(member));
    JoinKeepsMirror(Replay(client, srv.logs[d]), ms, n.sessions[d].phase.id, member);
  }

  lemma {:induction false} JoinReach<S>(n: Net<S>, ids: set<int>, id: int, d: nat)
    requires Inv(n) && d < |n.sessions| && id !in n.seen
    ensures Reaches(n.server.channels, ids + {id} - {id}, d) <==>
            n.sessions[d].phase.Live? && n.sessions[d].phase.id in ids
  {
    assert SessionOk(n, d);
    BroadcastReach(n, ids + {id} - {id}, d);
  }

  lemma {:induction false} NewHolder<S>(n: Net<S>, n': Net<S>, c: nat, id: int)
    requires Inv(n) && c < |n.sessions| && n.sessions[c].phase == MemberPending && id !in n.seen
    requires n'.sessions == n.sessions[c := n.sessions[c].(phase := MemberReady(id))]
    requires n'.server.channels == n.server.channels
    ensures ChannelsAreLive(n') && OneSessionPerMember(n')
  {
    forall d, k | 0 <= d < |n.sessions| && Held(n.sessions[d].phase, k) ensures k in n.seen { assert SessionOk(n, d); }
    forall d, e, k | 0 <= d < |n'.sessions| && 0 <= e < |n'.sessions| && Held(n'.sessions[d].phase, k)
        && Held(n'.sessions[e].phase, k)
      ensures d == e
    {
      if k != id { assert Held(n.sessions[d].phase, k) && Held(n.sessions[e].phase, k); }
    }
  }

  lemma {:induction false} StartKeepsInv<S>(n: Net<S>, c: nat, order: seq<ClientMember>)
    requires Inv(n) && Possible(n, Start(c, order))
    ensures Inv(Do(n, Start(c, order)))
  {
    var n' := Do(n, Start(c, order));
    assert SessionOk(n, c);
    var id := n.sessions[c].phase.id;
    assert Held(n.sessions[c].phase, id);
    forall d | 0 <= d < |n'.sessions| ensures SessionOk(n', d) {
      assert SessionOk(n, d);
      assert Held(n.sessions[d].phase, id) ==> d == c;
      if d == c { StarterOk(n, c, order); }
    }
    forall d, k | 0 <= d < |n'.sessions| && Held(n'.sessions[d].phase, k) ensures Held(n.sessions[d].phase, k) {}
  }

  lemma {:induction false} StarterOk<S>(n: Net<S>, c: nat, order: seq<ClientMember>)
    requires Inv(n) && Possible(n, Start(c, order))
    ensures SessionOk(Do(n, Start(c, order)), c)
  {
    var srv, ses := n.server, n.sessions[c];
    assert SessionOk(n, c);
    if ses.uuid in srv.spaces {
      var space := srv.objects[srv.spaces[ses.uuid]];
      var client := FreshClient(ses);
      var init := SpaceInit(ses.phase.id, ses.uuid, space.data, order);
      ReplayOneMore(client, [], init);
      assert [] + [init] == [init];
      InitGivesTheMirror(client, ses.phase.id, ses.uuid, space.data, order, space.members);
    }
  }

  lemma {:induction false} CloseKeepsInv<S>(n: Net<S>, c: nat)
    requires Inv(n) && c < |n.sessions|
    ensures Inv(Do(n, Close(c)))
  {
    var n' := Do(n, Close(c));
    assert SessionOk(n, c);
    forall d | 0 <= d < |n'.sessions| ensures SessionOk(n', d) { assert SessionOk(n, d); }
    PhaseChangeKeepsOwners(n, n');
  }

  lemma {:induction false} ConnectKeepsInv<S>(n: Net<S>, uuid: string, data: string, isMuted: bool)
    requires Inv(n)
    ensures Inv(Do(n, Connect(uuid, data, isMuted)))
  {
    var n' := Do(n, Connect(uuid, data, isMuted));
    forall d | 0 <= d < |n'.sessions| ensures SessionOk(n', d) { assert d < |n.sessions| ==> SessionOk(n, d); }
    PhaseChangeKeepsOwners(n, n');
  }

  lemma {:induction false} PhaseKeepsInv<S>(n: Net<S>, c: nat, phase: Phase)
    requires Inv(n) && c < |n.sessions| && (n.sessions[c].phase == SpacePending || n.sessions[c].phase == SpaceReady
                                            || n.sessions[c].phase == MemberPending)
    requires phase == MemberPending || phase == Over
    ensures Inv(ToPhase(n, c, phase))
  {
    var n' := ToPhase(n, c, phase);
    forall d | 0 <= d < |n'.sessions| ensures SessionOk(n', d) { assert SessionOk(n, d); }
    PhaseChangeKeepsOwners(n, n');
  }

  lemma {:induction false} StepKeepsInv<S>(n: Net<S>, step: Step<S>)
    requires Inv(n) && Possible(n, step)
    ensures Inv(Do(n, step))
  {
    match step
    case Connect(uuid, data, isMuted) => ConnectKeepsInv(n, uuid, data, isMuted);
    case SpaceAcked(c, data, listed, newRef) => MirroringKeepsInv(n, c, data, listed, newRef);
    case Proceed(c) => PhaseKeepsInv(n, c, if n.sessions[c].uuid in n.server.spaces then MemberPending else Over);
    case MemberAcked(c, id) => JoinKeepsInv(n, c, id);
    case Start(c, order) => StartKeepsInv(n, c, order);
    case ClientUpdate(c, patch) => UpdateKeepsInv(n, n.sessions[c].phase.id, patch);
    case CoordinatorEvent(uuid, update) => EventKeepsInv(n, uuid, update);
    case Close(c) => CloseKeepsInv(n, c);
    case RemovalAcked(id) =>
      var n' := Do(n, step);
      RemovalKeepsInv(n, id, n'.removals, n'.drops);
    case DropAcked(uuid) => DropKeepsInv(n, uuid);
    case Refused(c) => PhaseKeepsInv(n, c, Over);
    case RemovalRefused(id) => WithdrawalKeepsInv(n, id);
  }

  lemma {:induction false} DropKeepsInv<S>(n: Net<S>, uuid: string)
    requires Inv(n)
    ensures Inv(n.(server := SpaceDropped(n.server, uuid), drops := n.drops - multiset{uuid}))
  {
    var n' := n.(server := SpaceDropped(n.server, uuid), drops := n.drops - multiset{uuid});
    forall d | 0 <= d < |n'.sessions| ensures SessionOk(n', d) { assert SessionOk(n, d); }
    PhaseChangeKeepsOwners(n, n');
  }

  lemma {:induction false} WithdrawalKeepsInv<S>(n: Net<S>, id: int)
    requires Inv(n)
    ensures Inv(n.(removals := n.removals - {id}))
  {
    var n' := n.(removals := n.removals - {id});
    forall d | 0 <= d < |n'.sessions| ensures SessionOk(n', d) { assert SessionOk(n, d); }
    PhaseChangeKeepsOwners(n, n');
  }

  // ----- The results -----

  lemma {:induction false} EveryRunKeepsInv<S>(steps: seq<Step<S>>)
    ensures Run(steps).Some? ==> Inv(Run(steps).value)
    decreases |steps|
  {
    if steps != [] {
      EveryRunKeepsInv(steps[..|steps| - 1]);
      var before := Run(steps[..|steps| - 1]);
      if before.Some? && Possible(before.value, steps[|steps| - 1]) {
        StepKeepsInv(before.value, steps[|steps| - 1]);
      }
    }
  }

  /** Replica agreement in every run: for every registered channel the client's fold of the channel log holds exactly
      the other members of its space as the server mirrors it, and its own data and connection flag; flips of the own
      mute flag, wherever they fall between the events, change nothing but that flag. */
  lemma {:induction false} ReplicasAgree<S>(steps: seq<Step<S>>, id: int, inputs: seq<Input>)
    requires Run(steps).Some? && id in Run(steps).value.server.channels
    requires EventsOf(inputs) == Run(steps).value.server.logs[Run(steps).value.server.channels[id]]
    ensures var n := Run(steps).value;
            var c := n.server.channels[id];
            && c < |n.sessions| && n.sessions[c].phase == Live(id)
            && id in n.server.members && n.server.members[id] in n.server.objects
            && Mirrors(Play(FreshClient(n.sessions[c]), inputs), n.server.objects[n.server.members[id]].members, id)
  {
    EveryRunKeepsInv(steps);
    var n := Run(steps).value;
    var c := n.server.channels[id];
    assert InPhase(n, c, Live(id));
    assert SessionOk(n, c);
    OwnFlipsStayLocal(FreshClient(n.sessions[c]), inputs);
  }

  /** In every run, on every channel, registered or not: nothing precedes `spaceInit`, it is emitted once, and at no
      point of the log does the client take one of the join, leave and state-update branches that should not happen. */
  lemma {:induction false} NoSurprises<S>(steps: seq<Step<S>>, c: nat, k: nat)
    requires Run(steps).Some? && c in Run(steps).value.server.logs && k <= |Run(steps).value.server.logs[c]|
    ensures var n := Run(steps).value;
            var log := n.server.logs[c];
            && c < |n.sessions|
            && (log != [] ==> log[0].SpaceInit?) && (forall i :: 0 < i < |log| ==> !log[i].SpaceInit?)
            && Replay(FreshClient(n.sessions[c]), log[..k]).warnings == 0
  {
    EveryRunKeepsInv(steps);
    var n := Run(steps).value;
    assert SessionOk(n, c);
    var log := n.server.logs[c];
    WarningsOnlyGrow(FreshClient(n.sessions[c]), log, k);
  }

  /** In every run the global member index and the per-space ones describe the same members. */
  lemma {:induction false} MirrorIndicesAgree<S>(steps: seq<Step<S>>)
    ensures match Run(steps)
            case None => true
            case Some(n) =>
              var srv := n.server;
              && (forall id :: id in srv.members ==>
                    srv.members[id] in srv.objects && id in srv.objects[srv.members[id]].members)
              && (forall s, id :: s in srv.objects && id in srv.objects[s].members ==>
                    id in srv.members && srv.members[id] == s)
  {
    EveryRunKeepsInv(steps);
  }
}
