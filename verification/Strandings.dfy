/** Mirrored members whose space is no longer indexed.  An unsubscription is acknowledged some time after the space was
    found empty; a member that entered in between keeps its place in the member index, and a session whose space is gone
    when its join goes on leaves its member behind. */
module Strandings {
  import opened Common
  import opened Replica
  import opened Mirror
  import opened Sessions
  import opened Closings

  /** The space object is the one indexed under its uuid. */
  ghost predicate InIndex<S>(srv: Server<S, nat>, s: S) {
    s in srv.objects && srv.objects[s].uuid in srv.spaces && srv.spaces[srv.objects[s].uuid] == s
  }

  ghost predicate AllIndexed<S>(n: Net<S>) {
    forall id :: id in n.server.members ==> InIndex(n.server, n.server.members[id])
  }

  /** The acknowledged unsubscription drops this space object. */
  ghost predicate Drops<S>(n: Net<S>, step: Step<S>, s: S) {
    step.DropAcked? && step.uuid in n.server.spaces && n.server.spaces[step.uuid] == s
  }

  /** If the step drops a space object, nobody is in it. */
  ghost predicate DropsNobody<S>(n: Net<S>, step: Step<S>) {
    step.DropAcked? && step.uuid in n.server.spaces && n.server.spaces[step.uuid] in n.server.objects ==>
      n.server.objects[n.server.spaces[step.uuid]].members == map[]
  }

  // ----- One step -----

  /** A space object keeps its uuid, and leaves the index exactly when it is dropped; it never enters it again. */
  lemma {:induction false} IndexedUntilDropped<S>(n: Net<S>, step: Step<S>, s: S)
    requires Inv(n) && Possible(n, step) && s in n.server.objects
    ensures var srv' := Do(n, step).server;
            && s in srv'.objects && srv'.objects[s].uuid == n.server.objects[s].uuid
            && (InIndex(srv', s) <==> InIndex(n.server, s) && !Drops(n, step, s))
  {
    UuidsStay(n, step, s);
    IndexAfter(n, step);
  }

  ghost predicate KeepsUuid<S>(srv: Server<S, nat>, srv': Server<S, nat>, s: S) {
    s in srv.objects && s in srv'.objects && srv'.objects[s].uuid == srv.objects[s].uuid
  }

  lemma {:induction false} UuidsStay<S>(n: Net<S>, step: Step<S>, s: S)
    requires Consistent(n.server) && LogsMatch(n) && Possible(n, step) && s in n.server.objects
    ensures KeepsUuid(n.server, Do(n, step).server, s)
  {
    if step.SpaceAcked? {
      UuidsStayWhenMirroring(n, step, s);
    } else if step.MemberAcked? || step.RemovalAcked? {
      UuidsStayWhenMembersMove(n, step, s);
    } else {
      UuidsStayOtherwise(n, step, s);
    }
  }

  lemma {:induction false} UuidsStayWhenMirroring<S>(n: Net<S>, step: Step<S>, s: S)
    requires Consistent(n.server) && LogsMatch(n) && Possible(n, step) && s in n.server.objects
    requires step.SpaceAcked?
    ensures KeepsUuid(n.server, Do(n, step).server, s)
  {}

  lemma {:induction false} UuidsStayWhenMembersMove<S>(n: Net<S>, step: Step<S>, s: S)
    requires Consistent(n.server) && LogsMatch(n) && Possible(n, step) && s in n.server.objects
    requires step.MemberAcked? || step.RemovalAcked?
    ensures KeepsUuid(n.server, Do(n, step).server, s)
  {}

  lemma {:induction false} UuidsStayOtherwise<S>(n: Net<S>, step: Step<S>, s: S)
    requires Consistent(n.server) && LogsMatch(n) && Possible(n, step) && s in n.server.objects
    requires !step.SpaceAcked? && !step.MemberAcked? && !step.RemovalAcked?
    ensures KeepsUuid(n.server, Do(n, step).server, s)
  {}

  ghost predicate IndexMoves<S>(n: Net<S>, step: Step<S>, spaces': map<string, S>)
    requires Possible(n, step)
  {
    spaces' == if step.DropAcked? then n.server.spaces - {step.uuid}
               else if step.SpaceAcked? && n.sessions[step.c].uuid !in n.server.spaces
               then n.server.spaces[n.sessions[step.c].uuid := step.newRef]
               else n.server.spaces
  }

  lemma {:induction false} IndexAfter<S>(n: Net<S>, step: Step<S>)
    requires Consistent(n.server) && LogsMatch(n) && Possible(n, step)
    ensures IndexMoves(n, step, Do(n, step).server.spaces)
  {
    if step.SpaceAcked? || step.MemberAcked? || step.RemovalAcked? {
      IndexAfterAnswer(n, step);
    } else {
      IndexAfterTheRest(n, step);
    }
  }

  lemma {:induction false} IndexAfterAnswer<S>(n: Net<S>, step: Step<S>)
    requires Consistent(n.server) && LogsMatch(n) && Possible(n, step)
    requires step.SpaceAcked? || step.MemberAcked? || step.RemovalAcked?
    ensures IndexMoves(n, step, Do(n, step).server.spaces)
  {}

  lemma {:induction false} IndexAfterTheRest<S>(n: Net<S>, step: Step<S>)
    requires Consistent(n.server) && LogsMatch(n) && Possible(n, step)
    requires !step.SpaceAcked? && !step.MemberAcked? && !step.RemovalAcked?
    ensures IndexMoves(n, step, Do(n, step).server.spaces)
  {}

  ghost predicate KeepsOwner<S>(n: Net<S>, step: Step<S>, members': map<int, S>, id: int)
    requires id in n.server.members
  {
    if step == RemovalAcked(id) then id !in members'
    else id in members' && members'[id] == n.server.members[id]
  }

  /** A mirrored member keeps its owning space object until its removal is acknowledged. */
  lemma {:induction false} OwnerStays<S>(n: Net<S>, step: Step<S>, id: int)
    requires Consistent(n.server) && LogsMatch(n) && Possible(n, step) && id in n.server.members && id in n.seen
    ensures KeepsOwner(n, step, Do(n, step).server.members, id)
  {
    if step.SpaceAcked? || step.MemberAcked? || step.RemovalAcked? {
      OwnerStaysAfterAnswer(n, step, id);
    } else {
      OwnerStaysAfterTheRest(n, step, id);
    }
  }

  lemma {:induction false} OwnerStaysAfterAnswer<S>(n: Net<S>, step: Step<S>, id: int)
    requires Consistent(n.server) && LogsMatch(n) && Possible(n, step) && id in n.server.members && id in n.seen
    requires step.SpaceAcked? || step.MemberAcked? || step.RemovalAcked?
    ensures KeepsOwner(n, step, Do(n, step).server.members, id)
  {}

  lemma {:induction false} OwnerStaysAfterTheRest<S>(n: Net<S>, step: Step<S>, id: int)
    requires Consistent(n.server) && LogsMatch(n) && Possible(n, step) && id in n.server.members && id in n.seen
    requires !step.SpaceAcked? && !step.MemberAcked? && !step.RemovalAcked?
    ensures KeepsOwner(n, step, Do(n, step).server.members, id)
  {}

  /** A member enters the mirror in an indexed space. */
  lemma {:induction false} EntersIndexed<S>(n: Net<S>, step: Step<S>, id: int)
    requires Inv(n) && Possible(n, step) && id !in n.server.members && id in Do(n, step).server.members
    ensures InIndex(Do(n, step).server, Do(n, step).server.members[id])
  {}

  /** While every mirrored member's space is the indexed one, a step keeps that exactly when it drops no space with
      members. */
  lemma {:induction false} IndexedExactlyWhenDropsNobody<S>(n: Net<S>, step: Step<S>)
    requires Inv(n) && AllIndexed(n) && Possible(n, step)
    ensures AllIndexed(Do(n, step)) <==> DropsNobody(n, step)
  {
    var srv, srv' := n.server, Do(n, step).server;
    if DropsNobody(n, step) {
      forall id | id in srv'.members ensures InIndex(srv', srv'.members[id]) {
        if id in srv.members { StaysIndexed(n, step, id); } else { EntersIndexed(n, step, id); }
      }
    } else {
      var s := srv.spaces[step.uuid];
      var ms := srv.objects[s].members;
      assert (forall id: int :: id !in ms) ==> ms == map[];
      var id: int :| id in ms;
      IndexedUntilDropped(n, step, s);
      assert id in srv'.members && srv'.members[id] == s;
    }
  }

  lemma {:induction false} StaysIndexed<S>(n: Net<S>, step: Step<S>, id: int)
    requires Inv(n) && AllIndexed(n) && Possible(n, step) && DropsNobody(n, step)
    requires id in n.server.members && id in Do(n, step).server.members
    ensures InIndex(Do(n, step).server, Do(n, step).server.members[id])
  {
    OwnerStays(n, step, id);
    IndexedUntilDropped(n, step, n.server.members[id]);
  }

  // ----- Every run -----

  /** In each state of the run every mirrored member's space is the indexed one. */
  ghost predicate AlwaysIndexed<S>(steps: seq<Step<S>>)
    decreases |steps|
  {
    && (steps != [] ==> AlwaysIndexed(steps[..|steps| - 1]))
    && match Run(steps) case None => true case Some(n) => AllIndexed(n)
  }

  /** Each unsubscription, when it is acknowledged, finds nobody in the space it drops. */
  ghost predicate DropsAreEmpty<S>(steps: seq<Step<S>>)
    decreases |steps|
  {
    steps != [] ==>
      && DropsAreEmpty(steps[..|steps| - 1])
      && match Run(steps[..|steps| - 1]) case None => true case Some(n) => DropsNobody(n, steps[|steps| - 1])
  }

  /** In every run: every mirrored member's owning space is the one indexed under its uuid, throughout, if and only if
      each unsubscription that is acknowledged finds its space still empty. */
  lemma {:induction false} IndexedExactlyWhenDropsAreEmpty<S>(steps: seq<Step<S>>)
    ensures Run(steps).Some? ==> (AlwaysIndexed(steps) <==> DropsAreEmpty(steps))
    decreases |steps|
  {
    if steps != [] && Run(steps).Some? {
      var before := steps[..|steps| - 1];
      IndexedExactlyWhenDropsAreEmpty(before);
      EveryRunKeepsInv(before);
      if AlwaysIndexed(before) {
        assert AllIndexed(Run(before).value);
        IndexedExactlyWhenDropsNobody(Run(before).value, steps[|steps| - 1]);
      }
    }
  }

  // ----- A session whose space is gone when its join goes on -----

  /** The member of a prepared session is in a space of the session's uuid; that of a failed one is in no indexed
      space. */
  ghost predicate HomeOk<S>(srv: Server<S, nat>, ses: Session) {
    match ses.phase
    case MemberReady(id) =>
      id in srv.members ==> srv.members[id] in srv.objects && srv.objects[srv.members[id]].uuid == ses.uuid
    case Failed(id) => id in srv.members ==> srv.members[id] in srv.objects && !InIndex(srv, srv.members[id])
    case _ => true
  }

  ghost predicate HomesOk<S>(n: Net<S>) {
    forall c :: 0 <= c < |n.sessions| ==> HomeOk(n.server, n.sessions[c])
  }

  lemma {:induction false} UuidsOfSessionsStay<S>(n: Net<S>, step: Step<S>, c: nat)
    requires Consistent(n.server) && LogsMatch(n) && Possible(n, step) && c < |n.sessions|
    ensures c < |Do(n, step).sessions| && Do(n, step).sessions[c].uuid == n.sessions[c].uuid
  {}

  /** A session that is given its member finds it in the space indexed under the session's uuid, or nowhere. */
  lemma {:induction false} HomeOfNewcomer<S>(n: Net<S>, c: nat, id: int)
    requires Inv(n) && Possible(n, MemberAcked(c, id))
    ensures HomeOk(Do(n, MemberAcked(c, id)).server, Do(n, MemberAcked(c, id)).sessions[c])
  {}

  lemma {:induction false} HomeOfFailed<S>(n: Net<S>, c: nat, order: seq<ClientMember>)
    requires Inv(n) && Possible(n, Start(c, order)) && HomeOk(n.server, n.sessions[c])
    ensures HomeOk(Do(n, Start(c, order)).server, Do(n, Start(c, order)).sessions[c])
  {}

  /** Nothing changes for a session that stays in its phase. */
  lemma {:induction false} HomeStays<S>(n: Net<S>, step: Step<S>, c: nat)
    requires Inv(n) && Possible(n, step) && c < |n.sessions| && HomeOk(n.server, n.sessions[c])
    requires n.sessions[c].phase.MemberReady? || n.sessions[c].phase.Failed?
    requires n.sessions[c].phase.id in n.seen
    requires c < |Do(n, step).sessions| && Do(n, step).sessions[c].phase == n.sessions[c].phase
    ensures HomeOk(Do(n, step).server, Do(n, step).sessions[c])
  {
    var id := n.sessions[c].phase.id;
    UuidsOfSessionsStay(n, step, c);
    OnlyNewIdsEnter(n, step);
    if id in n.server.members {
      OwnerStays(n, step, id);
      IndexedUntilDropped(n, step, n.server.members[id]);
    }
  }

  lemma {:induction false} HomeAfter<S>(w: Watch<S>, step: Step<S>, c: nat)
    requires WatchOk(w) && HomesOk(w.net) && CanHappen(w, step) && c < |w.net.sessions|
    ensures c < |Do(w.net, step).sessions| && HomeOk(Do(w.net, step).server, Do(w.net, step).sessions[c])
  {
    var before := w.net.sessions[c].phase;
    PhaseAfter(w.net, step, c);
    assert HomeOk(w.net.server, w.net.sessions[c]) && HolderOk(before, w.given, w.closed, c);
    var after := Do(w.net, step).sessions[c].phase;
    if after == before {
      if before.MemberReady? || before.Failed? { HomeStays(w.net, step, c); }
    } else if after.MemberReady? {
      HomeOfNewcomer(w.net, c, after.id);
    } else if after.Failed? {
      OnlyAStartFails(w.net, step, c);
      HomeOfFailed(w.net, c, step.order);
    }
  }

  lemma {:induction false} OnlyAStartFails<S>(n: Net<S>, step: Step<S>, c: nat)
    requires Consistent(n.server) && LogsMatch(n) && Possible(n, step)
    requires c < |n.sessions| && !n.sessions[c].phase.Failed?
    requires c < |Do(n, step).sessions| && Do(n, step).sessions[c].phase.Failed?
    ensures step.Start? && step.c == c
  {}

  lemma {:induction false} EveryRunKeepsHomes<S>(steps: seq<Step<S>>)
    ensures WatchRun(steps).Some? ==> HomesOk(WatchRun(steps).value.net)
    decreases |steps|
  {
    if steps != [] {
      EveryRunKeepsHomes(steps[..|steps| - 1]);
      EveryRunIsWatched(steps[..|steps| - 1]);
      var before := WatchRun(steps[..|steps| - 1]);
      if before.Some? && CanHappen(before.value, steps[|steps| - 1]) {
        StepKeepsHomes(before.value, steps[|steps| - 1]);
      }
    }
  }

  lemma {:induction false} StepKeepsHomes<S>(w: Watch<S>, step: Step<S>)
    requires WatchOk(w) && HomesOk(w.net) && CanHappen(w, step)
    ensures HomesOk(Do(w.net, step))
  {
    var n' := Do(w.net, step);
    forall c | 0 <= c < |n'.sessions| ensures HomeOk(n'.server, n'.sessions[c]) {
      if c < |w.net.sessions| { HomeAfter(w, step, c); } else { NewSessions(w.net, step, c); }
    }
  }

  /** The session was given member `id`, and its space was gone when its join went on. */
  ghost predicate FailedWith<S>(w: Watch<S>, c: nat, id: int) {
    c < |w.net.sessions| && w.net.sessions[c].phase == Failed(id)
  }

  /** What becomes of the member of such a session, whatever comes after: it is never asked back, and it stays in the
      mirror exactly when it was there, in a space object that is not indexed. */
  lemma {:induction false} FailedStartLeavesItsMember<S>(before: seq<Step<S>>, after: seq<Step<S>>, c: nat, id: int)
    ensures WatchRun(before).Some? && FailedWith(WatchRun(before).value, c, id) ==>
              match WatchRun(before + after)
              case None => true
              case Some(w) =>
                && FailedWith(w, c, id) && !TakenBack(w, id)
                && (id in w.net.server.members <==> id in WatchRun(before).value.net.server.members)
                && (id in w.net.server.members ==> !InIndex(w.net.server, w.net.server.members[id]))
  {
    if WatchRun(before).Some? && FailedWith(WatchRun(before).value, c, id) && WatchRun(before + after).Some? {
      FailedOn(before, after, c, id);
      EveryRunIsWatched(before + after);
      EveryRunKeepsHomes(before + after);
      var w := WatchRun(before + after).value;
      NeverAskedBack(w, c, id);
      assert HomeOk(w.net.server, w.net.sessions[c]);
    }
  }

  lemma {:induction false} NeverAskedBack<S>(w: Watch<S>, c: nat, id: int)
    requires WatchOk(w) && FailedWith(w, c, id)
    ensures !TakenBack(w, id) && id in w.net.seen
  {
    assert HolderOk(w.net.sessions[c].phase, w.given, w.closed, c);
  }

  lemma {:induction false} FailedOn<S>(before: seq<Step<S>>, after: seq<Step<S>>, c: nat, id: int)
    requires WatchRun(before).Some? && FailedWith(WatchRun(before).value, c, id) && WatchRun(before + after).Some?
    ensures FailedWith(WatchRun(before + after).value, c, id)
    ensures id in WatchRun(before + after).value.net.server.members
            <==> id in WatchRun(before).value.net.server.members
    decreases |after|
  {
    if after == [] {
      assert before + after == before;
    } else {
      var n := |after| - 1;
      var steps := before + after[..n];
      OneShorter(before, after);
      FailedOn(before, after[..n], c, id);
      EveryRunIsWatched(steps);
      FailedAfter(WatchRun(steps).value, after[n], c, id);
    }
  }

  lemma {:induction false} FailedAfter<S>(w: Watch<S>, step: Step<S>, c: nat, id: int)
    requires WatchOk(w) && CanHappen(w, step) && FailedWith(w, c, id)
    ensures FailedWith(Watched(w, step), c, id)
    ensures id in Watched(w, step).net.server.members <==> id in w.net.server.members
  {
    PhaseAfter(w.net, step, c);
    NeverAskedBack(w, c, id);
    OnlyNewIdsEnter(w.net, step);
    if id in w.net.server.members { OwnerStays(w.net, step, id); }
  }

  // ----- A run that strands a member -----

  /** The server mirrors one space object, indexed or not, with these members in it and no others anywhere. */
  ghost predicate OneSpace(srv: Server<int, nat>, indexed: bool, ms: map<int, Profile>) {
    && srv.objects == map[0 := Space("s", "x", ms)] && srv.spaces == (if indexed then map["s" := 0] else map[])
    && srv.members == (map id | id in ms :: 0) && Consistent(srv)
  }

  ghost function Me(): Profile {
    Profile("d", MemberState(false, false))
  }

  /** The first member's session has run and closed; its removal is pending. */
  ghost function FirstCloses(): seq<Step<int>> {
    Preparing() + [Start(0, [ClientMember(7, "d", MemberState(false, false))])] + [Close(0)]
  }

  lemma {:induction false} FirstClosed() returns (w: Watch<int>)
    ensures Reached(FirstCloses(), w) && LogsMatch(w.net) && OneSpace(w.net.server, true, map[7 := Me()])
    ensures w.net.sessions == [Session("s", "d", false, Over)]
    ensures w.net.seen == {7} && w.net.removals == {7} && w.net.drops == multiset{}
  {
    var ready := Prepared();
    var me := ClientMember(7, "d", MemberState(false, false));
    OnlyMember(me);
    Then(Preparing(), ready, Start(0, [me]));
    var live := Watched(ready, Start(0, [me]));
    Then(Preparing() + [Start(0, [me])], live, Close(0));
    w := Watched(live, Close(0));
  }

  /** A second client finds the space mirrored, and asks to be added; then the first one's removal is acknowledged. */
  ghost function SecondAsks(): seq<Step<int>> {
    FirstCloses() + [Connect("s", "d", false)] + [Proceed(1)] + [RemovalAcked(7)]
  }

  lemma {:induction false} SecondAsked() returns (w: Watch<int>)
    ensures Reached(SecondAsks(), w) && LogsMatch(w.net) && OneSpace(w.net.server, true, map[])
    ensures w.net.sessions == [Session("s", "d", false, Over), Session("s", "d", false, MemberPending)]
    ensures w.net.seen == {7} && w.net.drops == multiset{"s"}
  {
    var first := FirstClosed();
    Then(FirstCloses(), first, Connect("s", "d", false));
    var connected := Watched(first, Connect("s", "d", false));
    Then(FirstCloses() + [Connect("s", "d", false)], connected, Proceed(1));
    var asks := Watched(connected, Proceed(1));
    Then(FirstCloses() + [Connect("s", "d", false)] + [Proceed(1)], asks, RemovalAcked(7));
    FirstIsRemoved(asks);
    w := Watched(asks, RemovalAcked(7));
  }

  lemma {:induction false} FirstIsRemoved(w: Watch<int>)
    requires LogsMatch(w.net) && OneSpace(w.net.server, true, map[7 := Me()]) && CanHappen(w, RemovalAcked(7))
    requires w.net.drops == multiset{}
    ensures var w' := Watched(w, RemovalAcked(7)); OneSpace(w'.net.server, true, map[]) && w'.net.drops == multiset{"s"}
  {
    assert w.net.server.members[7] == 0;
    assert map[7 := Me()] - {7} == map[];
  }

  /** The second client's member is added to the space, the empty space's unsubscription is acknowledged, and the join
      goes on: the session fails, and its member stays in the mirror, in no indexed space, without being asked back. */
  lemma {:induction false} LateDropStrandsAMember() returns (w: Watch<int>)
    ensures WatchRun(SecondAsks() + [MemberAcked(1, 8)] + [DropAcked("s")] + [Start(1, [])]) == Some(w)
    ensures FailedWith(w, 1, 8) && 8 in w.net.server.members && !InIndex(w.net.server, w.net.server.members[8])
  {
    var asked := SecondAsked();
    Then(SecondAsks(), asked, MemberAcked(1, 8));
    SecondEnters(asked);
    var dropped := Dropped(Watched(asked, MemberAcked(1, 8)));
    Then(SecondAsks() + [MemberAcked(1, 8)] + [DropAcked("s")], dropped, Start(1, []));
    w := Watched(dropped, Start(1, []));
    ReachedIsRun(SecondAsks() + [MemberAcked(1, 8)] + [DropAcked("s")] + [Start(1, [])], w);
  }

  lemma {:induction false} Dropped(w: Watch<int>) returns (w': Watch<int>)
    requires Reached(SecondAsks() + [MemberAcked(1, 8)], w) && LogsMatch(w.net) && CanHappen(w, DropAcked("s"))
    requires OneSpace(w.net.server, true, map[8 := Me()])
    ensures Reached(SecondAsks() + [MemberAcked(1, 8)] + [DropAcked("s")], w') && LogsMatch(w'.net)
    ensures OneSpace(w'.net.server, false, map[8 := Me()]) && w'.net.sessions == w.net.sessions
  {
    Then(SecondAsks() + [MemberAcked(1, 8)], w, DropAcked("s"));
    w' := Watched(w, DropAcked("s"));
  }

  lemma {:induction false} SecondEnters(w: Watch<int>)
    requires LogsMatch(w.net) && OneSpace(w.net.server, true, map[]) && CanHappen(w, MemberAcked(1, 8))
    requires w.net.sessions == [Session("s", "d", false, Over), Session("s", "d", false, MemberPending)]
    ensures OneSpace(Watched(w, MemberAcked(1, 8)).net.server, true, map[8 := Me()])
  {}
}
