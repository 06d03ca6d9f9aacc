/** What becomes of a session whose channel closes, over every run of a signaling server: its member is taken back
    exactly when the close came while the session was live.  A channel closes once. */
module Closings {
  import opened Common
  import opened Replica
  import opened Mirror
  import opened Sessions

  datatype Watch<S> = Watch(
    net: Net<S>,
    closed: map<nat, bool>, // the sessions whose channel closed, and whether they were live then
    given: map<nat, int>,   // the member id each session was given
    asked: set<int>,        // members whose removal was requested
    gone: set<int>,         // members whose removal was acknowledged
    kept: set<int>)         // members whose removal was refused

  ghost function Nothing<S>(): Watch<S> {
    Watch(Sessions.Initial(), map[], map[], {}, {}, {})
  }

  ghost predicate CanHappen<S>(w: Watch<S>, step: Step<S>) {
    Possible(w.net, step) && (step.Close? ==> step.c !in w.closed)
  }

  ghost predicate IsLive<S>(n: Net<S>, c: nat) {
    c < |n.sessions| && n.sessions[c].phase.Live?
  }

  ghost function Watched<S>(w: Watch<S>, step: Step<S>): (w': Watch<S>)
    requires Consistent(w.net.server) && LogsMatch(w.net) && CanHappen(w, step)
    ensures Consistent(w'.net.server) && LogsMatch(w'.net)
  {
    var net := Do(w.net, step);
    Watch(net,
          if step.Close? then w.closed[step.c := IsLive(w.net, step.c)] else w.closed,
          if step.MemberAcked? then w.given[step.c := step.id] else w.given,
          w.asked + (net.removals - w.net.removals),
          if step.RemovalAcked? then w.gone + {step.id} else w.gone,
          if step.RemovalRefused? then w.kept + {step.id} else w.kept)
  }

  ghost function WatchRun<S>(steps: seq<Step<S>>): (w: Option<Watch<S>>)
    ensures w.Some? ==> Consistent(w.value.net.server) && LogsMatch(w.value.net)
    decreases |steps|
  {
    if steps == [] then Some(Nothing())
    else
      var before := WatchRun(steps[..|steps| - 1]);
      var step := steps[|steps| - 1];
      if before.None? || !CanHappen(before.value, step) then None else Some(Watched(before.value, step))
  }

  /** Watching adds to a run nothing but that a channel closes once. */
  lemma {:induction false} WatchingIsRunning<S>(steps: seq<Step<S>>)
    ensures WatchRun(steps).Some? ==> Run(steps) == Some(WatchRun(steps).value.net)
    decreases |steps|
  {
    if steps != [] { WatchingIsRunning(steps[..|steps| - 1]); }
  }

  // ----- The invariant -----

  /** The ids given to sessions are known and all different, and a session that holds one was given it. */
  ghost predicate GivenOk<S>(w: Watch<S>) {
    && (forall c :: c in w.given ==> c < |w.net.sessions| && w.given[c] in w.net.seen)
    && (forall a, b :: a in w.given && b in w.given && w.given[a] == w.given[b] ==> a == b)
    && (forall c: nat :: c < |w.net.sessions| ==> HolderOk(w.net.sessions[c].phase, w.given, w.closed, c))
  }

  /** A session that holds a member was given it and did not close while live. */
  ghost predicate HolderOk(phase: Phase, given: map<nat, int>, closed: map<nat, bool>, c: nat) {
    match phase
    case MemberReady(id) => c in given && given[c] == id && (c in closed ==> !closed[c])
    case Live(id) => c in given && given[c] == id && (c in closed ==> !closed[c])
    case Failed(id) => c in given && given[c] == id && (c in closed ==> !closed[c])
    case Over => true
    case _ => c !in given && (c in closed ==> !closed[c])
  }

  /** A session's member is asked back exactly when the session closed while live. */
  ghost predicate AskedOk<S>(w: Watch<S>) {
    && w.asked <= w.net.seen
    && (forall c :: c in w.given ==> (w.given[c] in w.asked <==> c in w.closed && w.closed[c]))
    && (forall c :: c in w.closed ==> c < |w.net.sessions| && (w.closed[c] ==> c in w.given))
  }

  /** A removal that was requested is pending, acknowledged or refused; an acknowledged one took the member away. */
  ghost predicate AnsweredOk<S>(w: Watch<S>) {
    && w.asked == w.net.removals + w.gone + w.kept
    && w.gone !! w.net.server.members.Keys
  }

  ghost predicate WatchOk<S>(w: Watch<S>) {
    Inv(w.net) && GivenOk(w) && AskedOk(w) && AnsweredOk(w)
  }

  // ----- Each step keeps it -----

  /** Only ids that were not known before enter the mirror. */
  lemma {:induction false} OnlyNewIdsEnter<S>(n: Net<S>, step: Step<S>)
    requires Inv(n) && Possible(n, step)
    ensures forall id :: id in Do(n, step).server.members && id in n.seen ==> id in n.server.members
    ensures n.seen <= Do(n, step).seen
  {}

  lemma {:induction false} RemovalsAfter<S>(n: Net<S>, step: Step<S>)
    requires Inv(n) && Possible(n, step)
    ensures Do(n, step).removals
            == if step.Close? && IsLive(n, step.c) then n.removals + {n.sessions[step.c].phase.id}
               else if step.RemovalAcked? || step.RemovalRefused? then n.removals - {step.id}
               else n.removals
    ensures step.Close? && IsLive(n, step.c) ==> n.sessions[step.c].phase.id !in n.removals
  {
    if step.Close? { assert SessionOk(n, step.c); }
  }

  lemma {:induction false} AnsweredAfter<S>(w: Watch<S>, step: Step<S>)
    requires WatchOk(w) && CanHappen(w, step)
    ensures AnsweredOk(Watched(w, step))
  {
    var w' := Watched(w, step);
    RemovalsAfter(w.net, step);
    GoneStayGone(w, step);
  }

  lemma {:induction false} GoneStayGone<S>(w: Watch<S>, step: Step<S>)
    requires Inv(w.net) && AnsweredOk(w) && w.asked <= w.net.seen && CanHappen(w, step)
    ensures Watched(w, step).gone !! Do(w.net, step).server.members.Keys
  {
    OnlyNewIdsEnter(w.net, step);
    if step.RemovalAcked? { assert step.id !in Do(w.net, step).server.members; }
  }

  /** How a step moves the phase of one session. */
  ghost predicate PhaseMoves<S>(step: Step<S>, c: nat, before: Phase, after: Phase) {
    || after == before
    || (after == Over && !before.MemberReady? && !before.Failed? && (before.Live? ==> step == Close(c)))
    || (before.SpacePending? && after.SpaceReady?)
    || (before.SpaceReady? && after.MemberPending?)
    || (before.MemberPending? && after.MemberReady? && step == MemberAcked(c, after.id))
    || (before.MemberReady? && (after == Live(before.id) || after == Failed(before.id)))
  }

  lemma {:induction false} PhaseAfter<S>(n: Net<S>, step: Step<S>, c: nat)
    requires Inv(n) && Possible(n, step) && c < |n.sessions|
    ensures |n.sessions| <= |Do(n, step).sessions|
    ensures PhaseMoves(step, c, n.sessions[c].phase, Do(n, step).sessions[c].phase)
    ensures step.MemberAcked? && step.c == c ==>
            n.sessions[c].phase.MemberPending? && Do(n, step).sessions[c].phase == MemberReady(step.id)
    ensures step.Close? && step.c == c && IsLive(n, c) ==> Do(n, step).sessions[c].phase == Over
  {}

  lemma {:induction false} NewSessions<S>(n: Net<S>, step: Step<S>, c: nat)
    requires Inv(n) && Possible(n, step) && |n.sessions| <= c < |Do(n, step).sessions|
    ensures Do(n, step).sessions[c].phase.SpacePending? || Do(n, step).sessions[c].phase.SpaceReady?
  {}

  lemma {:induction false} GivenAfter<S>(w: Watch<S>, step: Step<S>)
    requires WatchOk(w) && CanHappen(w, step)
    ensures GivenOk(Watched(w, step))
  {
    var w' := Watched(w, step);
    OnlyNewIdsEnter(w.net, step);
    forall c | c in w'.given ensures c < |w'.net.sessions| && w'.given[c] in w'.net.seen {
      if c < |w.net.sessions| { PhaseAfter(w.net, step, c); }
    }
    forall c: nat | c < |w'.net.sessions| ensures HolderOk(w'.net.sessions[c].phase, w'.given, w'.closed, c) {
      if c < |w.net.sessions| {
        HolderAfter(w, step, c);
      } else {
        NewSessions(w.net, step, c);
        assert c !in w.closed;
      }
    }
  }

  lemma {:induction false} HolderAfter<S>(w: Watch<S>, step: Step<S>, c: nat)
    requires Inv(w.net) && CanHappen(w, step) && c < |w.net.sessions| <= |Do(w.net, step).sessions|
    requires HolderOk(w.net.sessions[c].phase, w.given, w.closed, c)
    ensures HolderOk(Do(w.net, step).sessions[c].phase, Watched(w, step).given, Watched(w, step).closed, c)
  {
    PhaseAfter(w.net, step, c);
    HolderMoves(w, step, c, w.net.sessions[c].phase, Do(w.net, step).sessions[c].phase);
  }

  lemma {:induction false} HolderMoves<S>(w: Watch<S>, step: Step<S>, c: nat, before: Phase, after: Phase)
    requires HolderOk(before, w.given, w.closed, c) && PhaseMoves(step, c, before, after)
    requires step.Close? && step.c == c && before.Live? ==> after == Over
    requires step.MemberAcked? && step.c == c ==> after == MemberReady(step.id)
    ensures HolderOk(after, if step.MemberAcked? then w.given[step.c := step.id] else w.given,
                     if step.Close? then w.closed[step.c := before.Live? && step.c == c] else w.closed, c)
  {}

  lemma {:induction false} AskedAfter<S>(w: Watch<S>, step: Step<S>)
    requires WatchOk(w) && CanHappen(w, step)
    ensures AskedOk(Watched(w, step))
  {
    var w' := Watched(w, step);
    RemovalsAfter(w.net, step);
    OnlyNewIdsEnter(w.net, step);
    forall c | c in w'.given
      ensures w'.given[c] in w'.asked <==> c in w'.closed && w'.closed[c]
    {
      AskedOf(w, step, c);
    }
    forall c | c in w'.closed ensures c < |w'.net.sessions| && (w'.closed[c] ==> c in w'.given) {
      PhaseAfter(w.net, step, c);
    }
  }

  lemma {:induction false} AskedOf<S>(w: Watch<S>, step: Step<S>, c: nat)
    requires WatchOk(w) && CanHappen(w, step) && c in Watched(w, step).given
    ensures var w' := Watched(w, step); w'.given[c] in w'.asked <==> c in w'.closed && w'.closed[c]
  {
    RemovalsAfter(w.net, step);
    if step.MemberAcked? && step.c == c {
      assert HolderOk(w.net.sessions[c].phase, w.given, w.closed, c);
    } else if step.Close? {
      assert HolderOk(w.net.sessions[step.c].phase, w.given, w.closed, step.c);
    }
  }

  lemma {:induction false} StepKeepsWatch<S>(w: Watch<S>, step: Step<S>)
    requires WatchOk(w) && CanHappen(w, step)
    ensures WatchOk(Watched(w, step))
  {
    StepKeepsInv(w.net, step);
    GivenAfter(w, step);
    AskedAfter(w, step);
    AnsweredAfter(w, step);
  }

  lemma {:induction false} EveryRunIsWatched<S>(steps: seq<Step<S>>)
    ensures WatchRun(steps).Some? ==> WatchOk(WatchRun(steps).value)
    decreases |steps|
  {
    if steps != [] {
      EveryRunIsWatched(steps[..|steps| - 1]);
      var before := WatchRun(steps[..|steps| - 1]);
      if before.Some? && CanHappen(before.value, steps[|steps| - 1]) {
        StepKeepsWatch(before.value, steps[|steps| - 1]);
      }
    }
  }

  // ----- The results -----

  ghost predicate TakenBack<S>(w: Watch<S>, id: int) {
    id in w.net.removals || id in w.gone || id in w.kept
  }

  /** In every run: the member of a closed session is asked back, pending or answered, exactly when its channel closed
      while the session was live; an acknowledged removal took it out of the mirror for good. */
  lemma {:induction false} TakenBackExactlyWhenClosedLive<S>(steps: seq<Step<S>>, c: nat)
    ensures match WatchRun(steps)
            case None => true
            case Some(w) =>
              c in w.closed && c in w.given ==>
                && (TakenBack(w, w.given[c]) <==> w.closed[c])
                && (w.given[c] in w.gone ==> w.given[c] !in w.net.server.members)
  {
    EveryRunIsWatched(steps);
  }

  /** A session is live, its channel closed before that, and it holds member `id`. */
  ghost predicate LeftOpen<S>(w: Watch<S>, c: nat, id: int) {
    c in w.closed && c < |w.net.sessions| && w.net.sessions[c].phase == Live(id)
  }

  /** Whatever comes after: a session that went live after its channel closed stays live, its dead channel stays
      registered, and its member stays in the mirror without ever being asked back. */
  lemma {:induction false} LeftOpenForever<S>(before: seq<Step<S>>, after: seq<Step<S>>, c: nat, id: int)
    ensures WatchRun(before).Some? && LeftOpen(WatchRun(before).value, c, id) ==>
              match WatchRun(before + after)
              case None => true
              case Some(w) =>
                && LeftOpen(w, c, id) && id in w.net.server.channels && w.net.server.channels[id] == c
                && id in w.net.server.members && !TakenBack(w, id)
  {
    if WatchRun(before).Some? && LeftOpen(WatchRun(before).value, c, id) && WatchRun(before + after).Some? {
      LeftOpenOn(before, after, c, id);
      EveryRunIsWatched(before + after);
      StaysOpen(WatchRun(before + after).value, c, id);
    }
  }

  lemma {:induction false} LeftOpenOn<S>(before: seq<Step<S>>, after: seq<Step<S>>, c: nat, id: int)
    requires WatchRun(before).Some? && LeftOpen(WatchRun(before).value, c, id) && WatchRun(before + after).Some?
    ensures LeftOpen(WatchRun(before + after).value, c, id)
    decreases |after|
  {
    if after == [] {
      assert before + after == before;
    } else {
      var n := |after| - 1;
      var steps := before + after[..n];
      OneShorter(before, after);
      LeftOpenOn(before, after[..n], c, id);
      EveryRunIsWatched(steps);
      OpenAfter(WatchRun(steps).value, after[n], c, id);
    }
  }

  lemma {:induction false} OneShorter<T>(before: seq<T>, after: seq<T>)
    requires after != []
    ensures (before + after)[..|before + after| - 1] == before + after[..|after| - 1]
    ensures (before + after)[|before + after| - 1] == after[|after| - 1]
  {}

  lemma {:induction false} OpenAfter<S>(w: Watch<S>, step: Step<S>, c: nat, id: int)
    requires Inv(w.net) && CanHappen(w, step) && LeftOpen(w, c, id)
    ensures LeftOpen(Watched(w, step), c, id)
  {
    PhaseAfter(w.net, step, c);
  }

  lemma {:induction false} StaysOpen<S>(w: Watch<S>, c: nat, id: int)
    requires WatchOk(w) && LeftOpen(w, c, id)
    ensures id in w.net.server.channels && w.net.server.channels[id] == c && id in w.net.server.members
            && !TakenBack(w, id)
  {
    assert SessionOk(w.net, c) && HolderOk(w.net.sessions[c].phase, w.given, w.closed, c);
  }

  // ----- A run that leaves a member behind -----

  ghost predicate StepAt<S>(trail: seq<Watch<S>>, steps: seq<Step<S>>, i: nat) {
    && i < |steps| && i + 1 < |trail| && Consistent(trail[i].net.server) && LogsMatch(trail[i].net)
    && CanHappen(trail[i], steps[i]) && trail[i + 1] == Watched(trail[i], steps[i])
  }

  ghost predicate Trail<S>(trail: seq<Watch<S>>, steps: seq<Step<S>>) {
    |trail| == |steps| + 1 && trail[0] == Nothing() && forall i: nat :: i < |steps| ==> StepAt(trail, steps, i)
  }

  /** The steps lead from the start to `w`. */
  ghost predicate Reached<S(!new)>(steps: seq<Step<S>>, w: Watch<S>) {
    exists trail :: Trail(trail, steps) && trail[|steps|] == w
  }

  lemma {:induction false} Then<S(!new)>(steps: seq<Step<S>>, w: Watch<S>, step: Step<S>)
    requires Reached(steps, w) && Consistent(w.net.server) && LogsMatch(w.net) && CanHappen(w, step)
    ensures Reached(steps + [step], Watched(w, step))
  {
    var trail :| Trail(trail, steps) && trail[|steps|] == w;
    var more := trail + [Watched(w, step)];
    forall i: nat | i < |steps| + 1 ensures StepAt(more, steps + [step], i) {
      if i < |steps| { assert StepAt(trail, steps, i); }
    }
    assert Trail(more, steps + [step]) && more[|steps| + 1] == Watched(w, step);
  }

  lemma {:induction false} ReachedIsRun<S(!new)>(steps: seq<Step<S>>, w: Watch<S>)
    requires Reached(steps, w)
    ensures WatchRun(steps) == Some(w)
  {
    var trail :| Trail(trail, steps) && trail[|steps|] == w;
    TrailIsRun(trail, steps, |steps|);
    assert steps[..|steps|] == steps;
  }

  lemma {:induction false} TrailIsRun<S>(trail: seq<Watch<S>>, steps: seq<Step<S>>, n: nat)
    requires Trail(trail, steps) && n <= |steps|
    ensures WatchRun(steps[..n]) == Some(trail[n])
    decreases n
  {
    if n > 0 {
      TrailIsRun(trail, steps, n - 1);
      assert StepAt(trail, steps, n - 1);
      assert steps[..n][..n - 1] == steps[..n - 1];
    }
  }

  lemma {:induction false} SpaceIsMirrored() returns (w: Watch<int>)
    ensures Reached([] + [Connect("s", "d", false)] + [SpaceAcked(0, "x", [], 0)], w) && w.closed == map[]
    ensures w.net.sessions == [Session("s", "d", false, SpaceReady)] && w.net.seen == {}
    ensures w.net.removals == {} && w.net.drops == multiset{}
    ensures w.net.server == Server(map[0 := Space("s", "x", map[])], map["s" := 0], map[], map[], map[0 := []])
  {
    var connected := Connected();
    Then([] + [Connect("s", "d", false)], connected, SpaceAcked(0, "x", [], 0));
    w := Watched(connected, SpaceAcked(0, "x", [], 0));
  }

  lemma {:induction false} Connected() returns (w: Watch<int>)
    ensures Reached([] + [Connect("s", "d", false)], w) && w.closed == map[] && w.net.seen == {}
    ensures w.net.sessions == [Session("s", "d", false, SpacePending)]
    ensures w.net.removals == {} && w.net.drops == multiset{}
    ensures w.net.server == Server(map[], map[], map[], map[], map[0 := []])
  {
    w := Nothing();
    assert Trail([w], []) && [w][0] == w;
    Then([], w, Connect("s", "d", false));
    w := Watched(w, Connect("s", "d", false));
  }

  ghost function Preparing(): seq<Step<int>> {
    [] + [Connect("s", "d", false)] + [SpaceAcked(0, "x", [], 0)] + [Proceed(0)] + [MemberAcked(0, 7)]
  }

  ghost predicate IsPrepared(w: Watch<int>) {
    && w.closed == map[] && w.net.sessions == [Session("s", "d", false, MemberReady(7))]
    && w.net.server.objects == map[0 := Space("s", "x", map[7 := Profile("d", MemberState(false, false))])]
    && w.net.server.spaces == map["s" := 0] && w.net.server.members == map[7 := 0]
    && w.net.seen == {7} && w.net.removals == {} && w.net.drops == multiset{}
    && Consistent(w.net.server) && LogsMatch(w.net)
  }

  /** One client connected to a space nobody mirrored yet and got its member id. */
  lemma {:induction false} Prepared() returns (w: Watch<int>)
    ensures Reached(Preparing(), w) && IsPrepared(w)
  {
    var ready := SpaceIsMirrored();
    var steps: seq<Step<int>> := [] + [Connect("s", "d", false)] + [SpaceAcked(0, "x", [], 0)];
    Then(steps, ready, Proceed(0));
    var proceeded := Watched(ready, Proceed(0));
    Then(steps + [Proceed(0)], proceeded, MemberAcked(0, 7));
    w := Watched(proceeded, MemberAcked(0, 7));
    MemberEnters(proceeded);
  }

  lemma {:induction false} MemberEnters(w: Watch<int>)
    requires Consistent(w.net.server) && LogsMatch(w.net) && CanHappen(w, MemberAcked(0, 7)) && w.closed == map[]
    requires w.net.sessions == [Session("s", "d", false, MemberPending)]
    requires w.net.server.objects == map[0 := Space("s", "x", map[])] && w.net.server.spaces == map["s" := 0]
    requires w.net.server.members == map[] && w.net.seen == {} && w.net.removals == {} && w.net.drops == multiset{}
    ensures IsPrepared(Watched(w, MemberAcked(0, 7)))
  {}

  /** The channel closes before the rest of the join runs: the session goes live all the same. */
  lemma {:induction false} ClosedTooEarly(me: ClientMember) returns (w: Watch<int>)
    requires me == ClientMember(7, "d", MemberState(false, false))
    ensures WatchRun(Preparing() + [Close(0)] + [Start(0, [me])]) == Some(w) && LeftOpen(w, 0, 7)
  {
    var ready := Prepared();
    Then(Preparing(), ready, Close(0));
    var closed := Watched(ready, Close(0));
    OnlyMember(me);
    Then(Preparing() + [Close(0)], closed, Start(0, [me]));
    w := Watched(closed, Start(0, [me]));
    ReachedIsRun(Preparing() + [Close(0)] + [Start(0, [me])], w);
  }

  lemma {:induction false} OnlyMember(me: ClientMember)
    ensures Lists([me], map[me.id := Profile(me.data, me.state)])
  {
    assert [me][0].id in Ids([me]);
  }
}
