/** The lifecycle when requests overlap.  A subscription passes the null check and registers a router in one step; the
    worker's answer is another step, and anything may come in between.  An answer's continuations run with it. */
module LifecycleSteps {
  import opened Common
  import L = Lifecycle

  datatype Waiting = Waiting(server: int, space: string)

  datatype State = State(
    now: L.State,
    inFlight: map<int, Waiting>, // by the router that was asked for
    ended: set<string>)          // every space that ever was ended

  datatype Step =
    | Create(space: string)
    | Subscribe(server: int, space: string, offered: Option<int>) // `None`: no worker is connected
    | Answer(router: int, ok: bool)
    | Unsubscribe(server: int, space: string)
    | AddMember(server: int, space: string)
    | RemoveMember(member: int)

  ghost predicate Possible(f: State, step: Step) {
    match step
    case Create(space) => L.Possible(f.now, L.Create(space))
    case Subscribe(_, _, Some(router)) => router !in f.now.routers && router !in f.now.madeFor && router !in f.inFlight
    case Answer(router, _) => router in f.inFlight
    case _ => true
  }

  /** The subscription finds the space initialized and without a router, and a worker is there to ask. */
  predicate AsksForRouter(s: L.State, step: Step) {
    && step.Subscribe? && step.offered.Some? && step.space in s.spaces
    && s.spaces[step.space].status == L.Initialized && s.spaces[step.space].primaryRouter == None
  }

  function WithSubscriber(s: L.State, server: int, space: string): L.State {
    s.(pairs := s.pairs + {(server, space)})
  }

  /** What a subscription does that does not have to wait. */
  function Immediately(s: L.State, server: int, space: string): L.State {
    if space !in s.spaces || s.spaces[space].status == L.Ended || s.spaces[space].primaryRouter == None then s
    else if s.spaces[space].status == L.Running then WithSubscriber(s, server, space)
    else WithSubscriber(L.WithStatus(s, space, L.Running), server, space)
  }

  /** The worker's acknowledgement sets the space's router; then the transition sets its status, and the server is
      subscribed.  None of the three looks at what the space has become meanwhile. */
  function Granted(s: L.State, w: Waiting, router: int): L.State {
    if w.space !in s.spaces then s
    else
      var v := s.spaces[w.space].(primaryRouter := Some(router), status := L.Running);
      WithSubscriber(s.(madeFor := s.madeFor[router := w.space], spaces := s.spaces[w.space := v]), w.server, w.space)
  }

  ghost function Next(f: State, step: Step): L.State
    requires Possible(f, step)
  {
    match step
    case Create(space) => L.Created(f.now, space)
    case Subscribe(server, space, router) =>
      if AsksForRouter(f.now, step) then f.now.(routers := f.now.routers + {router.value})
      else Immediately(f.now, server, space)
    case Answer(router, ok) => if ok then Granted(f.now, f.inFlight[router], router) else f.now
    case Unsubscribe(server, space) => L.Unsubscribed(f.now, server, space).0
    case AddMember(server, space) => L.MemberAdded(f.now, server, space, L.Refused).0
    case RemoveMember(member) => L.MemberRemoved(f.now, member).0
  }

  ghost function EndedIn(s: L.State): set<string> {
    set k | k in s.spaces && s.spaces[k].status == L.Ended
  }

  ghost function Do(f: State, step: Step): State
    requires Possible(f, step)
  {
    var now := Next(f, step);
    State(now,
          if AsksForRouter(f.now, step) then f.inFlight[step.offered.value := Waiting(step.server, step.space)]
          else if step.Answer? then f.inFlight - {step.router} else f.inFlight,
          f.ended + EndedIn(now))
  }

  ghost function Initial(): State {
    State(L.Initial(), map[], {})
  }

  ghost function RunFrom(f: State, steps: seq<Step>): Option<State>
    decreases |steps|
  {
    if steps == [] then Some(f)
    else if !Possible(f, steps[0]) then None
    else RunFrom(Do(f, steps[0]), steps[1..])
  }

  ghost function Run(steps: seq<Step>): Option<State> {
    RunFrom(Initial(), steps)
  }

  // ----- What holds however requests overlap -----

  ghost predicate WaitingOk(f: State) {
    && (forall r :: r in f.inFlight ==>
          f.inFlight[r].space in f.now.spaces && r in f.now.routers && r !in f.now.madeFor)
    && (forall r :: r in f.now.madeFor ==> f.now.madeFor[r] in f.now.spaces)
  }

  ghost predicate EndedOk(f: State) {
    && (forall k :: k in f.ended ==> k in f.now.spaces && f.now.spaces[k].status != L.Initialized)
    && (forall k :: k in f.now.spaces && f.now.spaces[k].status == L.Ended ==> k in f.ended)
  }

  ghost predicate Inv(f: State) {
    L.SpacesOk(f.now) && L.MembersOk(f.now) && WaitingOk(f) && EndedOk(f)
  }

  lemma {:induction false} AskingKeepsSpaces(s: L.State, router: int)
    requires L.SpacesOk(s) && L.MembersOk(s)
    ensures L.SpacesOk(s.(routers := s.routers + {router})) && L.MembersOk(s.(routers := s.routers + {router}))
  {
    var s' := s.(routers := s.routers + {router});
    forall k | k in s'.spaces ensures L.SpaceOk(s', k) { assert L.SpaceOk(s, k); }
  }

  lemma {:induction false} SubscriberKeepsSpaces(s: L.State, server: int, space: string)
    requires L.SpacesOk(s) && L.MembersOk(s) && space in s.spaces && s.spaces[space].status == L.Running
    ensures L.SpacesOk(WithSubscriber(s, server, space)) && L.MembersOk(WithSubscriber(s, server, space))
  {
    var s' := WithSubscriber(s, server, space);
    forall k | k in s'.spaces ensures L.SpaceOk(s', k) {
      assert L.SpaceOk(s, k);
      L.SubscribersAfterAdding(s.pairs, server, space, k);
    }
  }

  lemma {:induction false} ImmediatelyKeepsSpaces(s: L.State, server: int, space: string)
    requires L.SpacesOk(s) && L.MembersOk(s)
    ensures L.SpacesOk(Immediately(s, server, space)) && L.MembersOk(Immediately(s, server, space))
    ensures Immediately(s, server, space)
            == if space in s.spaces && s.spaces[space].status == L.Running then WithSubscriber(s, server, space) else s
  {
    if space in s.spaces {
      assert L.SpaceOk(s, space);
      if s.spaces[space].status == L.Running { SubscriberKeepsSpaces(s, server, space); }
    }
  }

  lemma {:induction false} GrantingKeepsSpaces(s: L.State, w: Waiting, router: int)
    requires L.SpacesOk(s) && L.MembersOk(s) && w.space in s.spaces && router in s.routers && router !in s.madeFor
    ensures L.SpacesOk(Granted(s, w, router)) && L.MembersOk(Granted(s, w, router))
  {
    var s' := Granted(s, w, router);
    forall k | k in s'.spaces ensures L.SpaceOk(s', k) {
      assert L.SpaceOk(s, k);
      L.SubscribersAfterAdding(s.pairs, w.server, w.space, k);
    }
  }

  lemma {:induction false} StepKeepsSpaces(f: State, step: Step)
    requires Inv(f) && Possible(f, step)
    ensures L.SpacesOk(Next(f, step)) && L.MembersOk(Next(f, step))
  {
    match step
    case Create(space) => L.CreatingKeepsSpaces(f.now, space);
    case Subscribe(server, space, router) =>
      if AsksForRouter(f.now, step) {
        AskingKeepsSpaces(f.now, router.value);
      } else {
        ImmediatelyKeepsSpaces(f.now, server, space);
      }
    case Answer(router, ok) => if ok { GrantingKeepsSpaces(f.now, f.inFlight[router], router); }
    case Unsubscribe(server, space) => L.UnsubscribingKeepsSpaces(f.now, server, space);
    case AddMember(server, space) => L.AddingKeepsSpaces(f.now, server, space, L.Refused);
    case RemoveMember(member) => L.RemovingKeepsSpaces(f.now, member);
  }

  /** No space is forgotten or initialized anew. */
  ghost predicate Onwards(s: L.State, s': L.State) {
    forall k :: k in s.spaces ==>
      k in s'.spaces && (s.spaces[k].status != L.Initialized ==> s'.spaces[k].status != L.Initialized)
  }

  lemma {:induction false} MaybeEndedGoesOn(s: L.State, space: string)
    requires space in s.spaces
    ensures var s' := L.MaybeEnded(s, space);
            Onwards(s, s') && s'.madeFor == s.madeFor && s'.spaces.Keys == s.spaces.Keys
            && s.routers - s'.routers <= (if s.spaces[space].primaryRouter.Some?
               then {s.spaces[space].primaryRouter.value} else {})
  {}

  lemma {:induction false} StepGoesOn(f: State, step: Step)
    requires Inv(f) && Possible(f, step)
    ensures Onwards(f.now, Next(f, step))
  {
    match step
    case Subscribe(server, space, _) => if !AsksForRouter(f.now, step) { ImmediatelyKeepsSpaces(f.now, server, space); }
    case Unsubscribe(server, space) =>
      if space in f.now.spaces { MaybeEndedGoesOn(f.now.(pairs := f.now.pairs - {(server, space)}), space); }
    case AddMember(server, space) => if (server, space) in f.now.pairs { L.AddedAs(f.now, server, space, L.Refused); }
    case RemoveMember(member) =>
      if L.Present(f.now, member) {
        L.Removing(f.now, member);
        MaybeEndedGoesOn(L.WithoutMember(f.now, member), f.now.ownerOf[member]);
      }
    case _ =>
  }

  /** Only an acknowledgement makes a router somebody's. */
  lemma {:induction false} MadeForAfter(f: State, step: Step)
    requires Inv(f) && Possible(f, step)
    ensures Next(f, step).madeFor
            == if step.Answer? && step.ok then f.now.madeFor[step.router := f.inFlight[step.router].space]
               else f.now.madeFor
  {
    match step
    case Subscribe(server, space, _) => if !AsksForRouter(f.now, step) { ImmediatelyKeepsSpaces(f.now, server, space); }
    case AddMember(server, space) => if (server, space) in f.now.pairs { L.AddedAs(f.now, server, space, L.Refused); }
    case _ =>
  }

  /** A router that is nobody's stays registered: only a space's own router is ever removed. */
  lemma {:induction false} NobodysRouterStays(f: State, step: Step, router: int)
    requires Inv(f) && Possible(f, step) && router in f.now.routers && router !in f.now.madeFor
    ensures router in Next(f, step).routers
  {
    match step
    case Subscribe(server, space, _) => if !AsksForRouter(f.now, step) { ImmediatelyKeepsSpaces(f.now, server, space); }
    case Unsubscribe(server, space) =>
      if space in f.now.spaces {
        assert L.SpaceOk(f.now, space);
        MaybeEndedGoesOn(f.now.(pairs := f.now.pairs - {(server, space)}), space);
      }
    case AddMember(server, space) => if (server, space) in f.now.pairs { L.AddedAs(f.now, server, space, L.Refused); }
    case RemoveMember(member) =>
      if L.Present(f.now, member) {
        assert L.SpaceOk(f.now, f.now.ownerOf[member]);
        L.Removing(f.now, member);
        MaybeEndedGoesOn(L.WithoutMember(f.now, member), f.now.ownerOf[member]);
      }
    case _ =>
  }

  /** Every step, overlapping or not, keeps what each space promises of its subscribers, members and router. */
  lemma {:induction false} StepKeepsInv(f: State, step: Step)
    requires Inv(f) && Possible(f, step)
    ensures Inv(Do(f, step))
  {
    StepKeepsSpaces(f, step);
    StepGoesOn(f, step);
    MadeForAfter(f, step);
    var f' := Do(f, step);
    forall r | r in f'.inFlight
      ensures f'.inFlight[r].space in f'.now.spaces && r in f'.now.routers && r !in f'.now.madeFor
    {
      if r in f.inFlight { NobodysRouterStays(f, step, r); }
    }
  }

  lemma {:induction false} RunKeepsInv(f: State, steps: seq<Step>)
    requires Inv(f) && RunFrom(f, steps).Some?
    ensures Inv(RunFrom(f, steps).value)
    decreases |steps|
  {
    if steps != [] {
      StepKeepsInv(f, steps[0]);
      RunKeepsInv(Do(f, steps[0]), steps[1..]);
    }
  }

  // ----- The law, and when it survives -----

  /** The lifecycle invariant holds, and whatever was ended is ended. */
  ghost predicate Lawful(f: State) {
    L.Inv(f.now) && forall k :: k in f.ended ==> k in f.now.spaces && f.now.spaces[k].status == L.Ended
  }

  /** The run is possible, and each of its states is lawful. */
  ghost predicate StaysLawful(f: State, steps: seq<Step>)
    decreases |steps|
  {
    Lawful(f) && (steps != [] ==> Possible(f, steps[0]) && StaysLawful(Do(f, steps[0]), steps[1..]))
  }

  ghost predicate OnTime(f: State, step: Step)
    requires Possible(f, step)
  {
    step.Answer? && step.ok ==>
      var space := f.inFlight[step.router].space; space in f.now.spaces && f.now.spaces[space].status == L.Initialized
  }

  /** Every acknowledgement finds its space still waiting for its first router. */
  ghost predicate AllOnTime(f: State, steps: seq<Step>)
    decreases |steps|
  {
    steps != [] && Possible(f, steps[0]) ==> OnTime(f, steps[0]) && AllOnTime(Do(f, steps[0]), steps[1..])
  }

  lemma {:induction false} AskingIsLawful(f: State, step: Step)
    requires Inv(f) && Lawful(f) && Possible(f, step) && AsksForRouter(f.now, step)
    ensures Lawful(Do(f, step))
  {
    L.SpacesStandBesides(f.now, Next(f, step));
  }

  /** A request of the model where requests complete one at a time that does here what it does there. */
  ghost function Whole(step: Step): L.Request
    requires !step.Answer?
  {
    match step
    case Create(space) => L.Create(space)
    case Subscribe(server, space, _) => L.Subscribe(server, space, L.Refused)
    case Unsubscribe(server, space) => L.Unsubscribe(server, space)
    case AddMember(server, space) => L.AddMember(server, space, L.Refused)
    case RemoveMember(member) => L.RemoveMember(member)
  }

  lemma {:induction false} WholeStep(f: State, step: Step)
    requires Inv(f) && Possible(f, step) && !step.Answer? && !AsksForRouter(f.now, step)
    ensures L.Possible(f.now, Whole(step)) && Next(f, step) == L.Completed(f.now, Whole(step))
  {
    if step.Subscribe? {
      ImmediatelyKeepsSpaces(f.now, step.server, step.space);
      if step.space in f.now.spaces { assert L.SpaceOk(f.now, step.space); }
    }
  }

  lemma {:induction false} WholeStepsAreLawful(f: State, step: Step)
    requires Inv(f) && Lawful(f) && Possible(f, step) && !step.Answer? && !AsksForRouter(f.now, step)
    ensures Lawful(Do(f, step))
  {
    WholeStep(f, step);
    L.RequestKeepsInv(f.now, Whole(step));
    forall k | k in f.ended ensures k in Next(f, step).spaces && Next(f, step).spaces[k].status == L.Ended {
      L.EndedIsForever(f.now, Whole(step), k);
    }
  }

  /** The decisive step: an acknowledgement keeps the law exactly when its space still waits for its first router. */
  lemma {:induction false} AckIsLawfulExactlyOnTime(f: State, router: int)
    requires Inv(f) && Lawful(f) && router in f.inFlight
    ensures Lawful(Do(f, Answer(router, true))) <==> OnTime(f, Answer(router, true))
  {
    var w := f.inFlight[router];
    assert L.SpaceOk(f.now, w.space);
    StepKeepsInv(f, Answer(router, true));
    match f.now.spaces[w.space].status
    case Initialized => GrantingFirst(f, router);
    case Running => GrantingAgain(f, router);
    case Ended => assert w.space in f.ended;
  }

  lemma {:induction false} GrantingFirst(f: State, router: int)
    requires Inv(f) && Lawful(f) && router in f.inFlight
             && f.now.spaces[f.inFlight[router].space].status == L.Initialized
    ensures L.RoutersOk(Granted(f.now, f.inFlight[router], router))
    ensures f.inFlight[router].space !in f.ended
  {
    var s, s' := f.now, Granted(f.now, f.inFlight[router], router);
    forall r | r in s'.madeFor
      ensures s'.madeFor[r] in s'.spaces
      ensures r in s'.routers <==>
              s'.spaces[s'.madeFor[r]].status == L.Running && s'.spaces[s'.madeFor[r]].primaryRouter == Some(r)
    {
      if r in s.madeFor { assert s.madeFor[r] in s.spaces; }
    }
  }

  /** The space's own router is registered and no longer the space's. */
  lemma {:induction false} GrantingAgain(f: State, router: int)
    requires Inv(f) && router in f.inFlight && f.now.spaces[f.inFlight[router].space].status == L.Running
    ensures !L.RoutersOk(Granted(f.now, f.inFlight[router], router))
  {
    var w := f.inFlight[router];
    assert L.SpaceOk(f.now, w.space);
    var first := f.now.spaces[w.space].primaryRouter.value;
    var s' := Granted(f.now, w, router);
    assert first in s'.madeFor && s'.madeFor[first] == w.space && first in s'.routers;
  }

  /** In every run of possible steps: all states are lawful exactly when every acknowledgement is on time. */
  lemma {:induction false} LawfulExactlyWhenOnTime(f: State, steps: seq<Step>)
    requires Inv(f) && Lawful(f) && RunFrom(f, steps).Some?
    ensures StaysLawful(f, steps) <==> AllOnTime(f, steps)
    decreases |steps|
  {
    if steps != [] {
      var step := steps[0];
      StepKeepsInv(f, step);
      StepIsLawfulExactlyOnTime(f, step);
      if OnTime(f, step) {
        LawfulExactlyWhenOnTime(Do(f, step), steps[1..]);
      } else {
        UnlawfulAtOnce(Do(f, step), steps[1..]);
      }
    }
  }

  lemma {:induction false} UnlawfulAtOnce(f: State, steps: seq<Step>)
    requires !Lawful(f)
    ensures !StaysLawful(f, steps)
  {}

  lemma {:induction false} StepIsLawfulExactlyOnTime(f: State, step: Step)
    requires Inv(f) && Lawful(f) && Possible(f, step)
    ensures Lawful(Do(f, step)) <==> OnTime(f, step)
  {
    if step.Answer? && step.ok {
      AckIsLawfulExactlyOnTime(f, step.router);
    } else if AsksForRouter(f.now, step) {
      AskingIsLawful(f, step);
    } else if !step.Answer? {
      WholeStepsAreLawful(f, step);
    }
  }

  // ----- What a caller can check -----

  ghost predicate Awaited(f: State, space: string) {
    exists r :: r in f.inFlight && f.inFlight[r].space == space
  }

  /** A subscription asks for a router while another one's router request for the same space is in flight. */
  ghost predicate Overlaps(f: State, step: Step) {
    AsksForRouter(f.now, step) && Awaited(f, step.space)
  }

  ghost predicate NeverOverlaps(f: State, steps: seq<Step>)
    decreases |steps|
  {
    steps != [] && Possible(f, steps[0]) ==> !Overlaps(f, steps[0]) && NeverOverlaps(Do(f, steps[0]), steps[1..])
  }

  /** At most one router is in flight for a space, and then the space is initialized. */
  ghost predicate OneEach(f: State) {
    && (forall r :: r in f.inFlight ==>
          f.inFlight[r].space in f.now.spaces && f.now.spaces[f.inFlight[r].space].status == L.Initialized)
    && (forall a, b :: a in f.inFlight && b in f.inFlight && f.inFlight[a].space == f.inFlight[b].space ==> a == b)
  }

  /** A space that waits for its first router waits on, whatever other steps come. */
  lemma {:induction false} InitializedStays(f: State, step: Step, space: string)
    requires Inv(f) && Possible(f, step) && space in f.now.spaces && f.now.spaces[space].status == L.Initialized
    requires step.Answer? && step.ok ==> f.inFlight[step.router].space != space
    ensures space in Next(f, step).spaces && Next(f, step).spaces[space].status == L.Initialized
  {
    assert L.SpaceOk(f.now, space);
    match step
    case Subscribe(server, k, _) => if !AsksForRouter(f.now, step) { ImmediatelyKeepsSpaces(f.now, server, k); }
    case AddMember(server, k) => if (server, k) in f.now.pairs { L.AddedAs(f.now, server, k, L.Refused); }
    case _ =>
  }

  lemma {:induction false} StepKeepsOneEach(f: State, step: Step)
    requires Inv(f) && OneEach(f) && Possible(f, step) && !Overlaps(f, step)
    ensures OneEach(Do(f, step)) && OnTime(f, step)
  {
    var f' := Do(f, step);
    forall r | r in f'.inFlight
      ensures f'.inFlight[r].space in f'.now.spaces && f'.now.spaces[f'.inFlight[r].space].status == L.Initialized
    {
      InitializedStays(f, step, f'.inFlight[r].space);
    }
  }

  lemma {:induction false} OnTimeWithoutOverlap(f: State, steps: seq<Step>)
    requires Inv(f) && OneEach(f) && RunFrom(f, steps).Some? && NeverOverlaps(f, steps)
    ensures AllOnTime(f, steps)
    decreases |steps|
  {
    if steps != [] {
      StepKeepsInv(f, steps[0]);
      StepKeepsOneEach(f, steps[0]);
      OnTimeWithoutOverlap(Do(f, steps[0]), steps[1..]);
    }
  }

  /** Some acknowledgement to come will be late: two routers are in flight for one space, or one for a space that is not
      initialized any more. */
  ghost predicate Doomed(f: State) {
    || (exists r :: r in f.inFlight && Late(f, r))
    || (exists a, b :: a in f.inFlight && b in f.inFlight && a != b && f.inFlight[a].space == f.inFlight[b].space)
  }

  ghost predicate Late(f: State, r: int) {
    r in f.inFlight && f.inFlight[r].space in f.now.spaces && f.now.spaces[f.inFlight[r].space].status != L.Initialized
  }

  lemma {:induction false} LateStays(f: State, step: Step, r: int)
    requires Inv(f) && Possible(f, step) && Late(f, r) && !(step.Answer? && step.router == r)
    ensures Late(Do(f, step), r)
  {
    StepGoesOn(f, step);
  }

  /** Until its first late acknowledgement a doomed state stays doomed. */
  lemma {:induction false} DoomStays(f: State, step: Step)
    requires Inv(f) && Doomed(f) && Possible(f, step) && OnTime(f, step) && (step.Answer? ==> step.ok)
    ensures Doomed(Do(f, step))
  {
    if r :| r in f.inFlight && Late(f, r) {
      LateStays(f, step, r);
    } else {
      var a, b :| a in f.inFlight && b in f.inFlight && a != b && f.inFlight[a].space == f.inFlight[b].space;
      var f' := Do(f, step);
      if step.Answer? && step.router == a {
        assert Late(f', b);
      } else if step.Answer? && step.router == b {
        assert Late(f', a);
      } else {
        assert a in f'.inFlight && b in f'.inFlight && f'.inFlight[a].space == f'.inFlight[b].space;
      }
    }
  }

  ghost predicate NothingNacked(steps: seq<Step>) {
    forall i :: 0 <= i < |steps| && steps[i].Answer? ==> steps[i].ok
  }

  lemma {:induction false} DoomIsFulfilled(f: State, steps: seq<Step>)
    requires Inv(f) && Doomed(f) && RunFrom(f, steps).Some? && RunFrom(f, steps).value.inFlight == map[]
             && NothingNacked(steps)
    ensures !AllOnTime(f, steps)
    decreases |steps|
  {
    if steps != [] && OnTime(f, steps[0]) {
      StepKeepsInv(f, steps[0]);
      DoomStays(f, steps[0]);
      DoomIsFulfilled(Do(f, steps[0]), steps[1..]);
    }
  }

  lemma {:induction false} OverlapDooms(f: State, step: Step)
    requires Possible(f, step) && Overlaps(f, step)
    ensures Doomed(Do(f, step))
  {
    var r :| r in f.inFlight && f.inFlight[r].space == step.space;
    var f' := Do(f, step);
    assert r in f'.inFlight && step.offered.value in f'.inFlight && r != step.offered.value;
    assert f'.inFlight[r].space == f'.inFlight[step.offered.value].space;
  }

  lemma {:induction false} OverlapMeansLate(f: State, steps: seq<Step>)
    requires Inv(f) && RunFrom(f, steps).Some? && RunFrom(f, steps).value.inFlight == map[] && NothingNacked(steps)
    requires !NeverOverlaps(f, steps)
    ensures !AllOnTime(f, steps)
    decreases |steps|
  {
    StepKeepsInv(f, steps[0]);
    if Overlaps(f, steps[0]) {
      OverlapDooms(f, steps[0]);
      DoomIsFulfilled(Do(f, steps[0]), steps[1..]);
    } else {
      OverlapMeansLate(Do(f, steps[0]), steps[1..]);
    }
  }

  // ----- The results -----

  /** In every run: when no subscription asks for a router while another one's request for the same space is in flight,
      the lifecycle invariant holds throughout and what was ended stays ended, whatever the workers answer and when. */
  lemma {:induction false} LawfulWithoutOverlap(steps: seq<Step>)
    ensures Run(steps).Some? && NeverOverlaps(Initial(), steps) ==> StaysLawful(Initial(), steps)
  {
    if Run(steps).Some? && NeverOverlaps(Initial(), steps) {
      OnTimeWithoutOverlap(Initial(), steps);
      LawfulExactlyWhenOnTime(Initial(), steps);
    }
  }

  /** And only then: in a run where workers acknowledge every router they are asked for, the law survives exactly when
      no subscription overlaps another one in that way. */
  lemma {:induction false} LawfulExactlyWithoutOverlap(steps: seq<Step>)
    ensures match Run(steps)
            case None => true
            case Some(f) =>
              f.inFlight == map[] && NothingNacked(steps) ==>
                  (StaysLawful(Initial(), steps) <==> NeverOverlaps(Initial(), steps))
  {
    if Run(steps).Some? && Run(steps).value.inFlight == map[] && NothingNacked(steps) {
      LawfulWithoutOverlap(steps);
      LawfulExactlyWhenOnTime(Initial(), steps);
      if !NeverOverlaps(Initial(), steps) { OverlapMeansLate(Initial(), steps); }
    }
  }

  /** The guard of one subscription: in a lawful state with at most one request in flight for each space, asking for a
      router is safe, whatever comes next without overlap, exactly when none is in flight for that space. */
  lemma {:induction false} SafeToAskExactlyWhenNotAwaited(f: State, step: Step)
    requires Inv(f) && Lawful(f) && OneEach(f) && Possible(f, step) && AsksForRouter(f.now, step)
    ensures !Awaited(f, step.space) <==> forall rest :: SafeAfter(Do(f, step), rest)
  {
    var f1 := Do(f, step);
    StepKeepsInv(f, step);
    AskingIsLawful(f, step);
    if Awaited(f, step.space) {
      var r :| r in f.inFlight && f.inFlight[r].space == step.space;
      BothAcksBreakIt(f1, r, step.offered.value);
    } else {
      StepKeepsOneEach(f, step);
      forall rest ensures SafeAfter(f1, rest) {
        if RunFrom(f1, rest).Some? && NeverOverlaps(f1, rest) {
          OnTimeWithoutOverlap(f1, rest);
          LawfulExactlyWhenOnTime(f1, rest);
        }
      }
    }
  }

  ghost predicate SafeAfter(f: State, rest: seq<Step>) {
    RunFrom(f, rest).Some? && NeverOverlaps(f, rest) ==> StaysLawful(f, rest)
  }

  lemma {:induction false} BothAcksBreakIt(f: State, a: int, b: int)
    requires Inv(f) && Lawful(f) && a in f.inFlight && b in f.inFlight && a != b
             && f.inFlight[a].space == f.inFlight[b].space
    ensures !SafeAfter(f, [Answer(a, true), Answer(b, true)])
  {
    var steps := [Answer(a, true), Answer(b, true)];
    var f1 := Do(f, steps[0]);
    StepKeepsInv(f, steps[0]);
    assert Late(f1, b);
    assert steps[1..] == [Answer(b, true)] && steps[1..][1..] == [];
    assert RunFrom(f1, steps[1..]) == RunFrom(Do(f1, Answer(b, true)), []);
    assert RunFrom(f, steps).Some?;
    assert !OnTime(f1, steps[1..][0]);
    assert !AllOnTime(f1, steps[1..]);
    LawfulExactlyWhenOnTime(f, steps);
    assert NeverOverlaps(f1, steps[1..]);
  }

  /** The router was asked for, and the request nacked. */
  ghost predicate Abandoned(f: State, router: int) {
    router in f.now.routers && router !in f.now.madeFor && router !in f.inFlight
  }

  lemma {:induction false} AbandonedForEver(f: State, steps: seq<Step>, router: int)
    requires Inv(f) && Abandoned(f, router) && RunFrom(f, steps).Some?
    ensures Abandoned(RunFrom(f, steps).value, router)
    decreases |steps|
  {
    if steps != [] {
      StepKeepsInv(f, steps[0]);
      NobodysRouterStays(f, steps[0], router);
      MadeForAfter(f, steps[0]);
      AbandonedForEver(Do(f, steps[0]), steps[1..], router);
    }
  }

  /** In every run a router whose request is nacked stays registered for ever after, and is never a space's router. */
  lemma {:induction false} NackedRouterStaysForEver(before: seq<Step>, router: int, after: seq<Step>)
    ensures match Run(before)
            case None => true
            case Some(f) =>
              router in f.inFlight ==>
                match RunFrom(Do(f, Answer(router, false)), after)
                case None => true
                case Some(f') =>
                  && router in f'.now.routers
                  && forall k :: k in f'.now.spaces ==> f'.now.spaces[k].primaryRouter != Some(router)
  {
    if Run(before).Some? && router in Run(before).value.inFlight {
      RunKeepsInv(Initial(), before);
      var f1 := Do(Run(before).value, Answer(router, false));
      StepKeepsInv(Run(before).value, Answer(router, false));
      if RunFrom(f1, after).Some? {
        AbandonedForEver(f1, after, router);
        RunKeepsInv(f1, after);
        var f' := RunFrom(f1, after).value;
        forall k | k in f'.now.spaces ensures f'.now.spaces[k].primaryRouter != Some(router) {
          assert L.SpaceOk(f'.now, k);
        }
      }
    }
  }

  /** Answered at once, a subscription is what it is when requests complete one at a time. */
  lemma {:induction false} AnsweredAtOnce(f: State, server: int, space: string, router: int, ok: bool)
    requires Inv(f) && Possible(f, Subscribe(server, space, Some(router)))
             && AsksForRouter(f.now, Subscribe(server, space, Some(router)))
    ensures var f1 := Do(f, Subscribe(server, space, Some(router)));
            && Possible(f1, Answer(router, ok))
            && Next(f1, Answer(router, ok))
               == L.Subscribed(f.now, server, space, if ok then L.Allocated(router) else L.NackedAfter(router)).0
            && Do(f1, Answer(router, ok)).inFlight == f.inFlight
  {
    var requested := f.now.spaces[space].(primaryRouter := Some(router));
    assert f.now.spaces[space := requested.(status := L.Running)]
        == f.now.spaces[space := requested][space := requested.(status := L.Running)];
    assert f.inFlight[router := Waiting(server, space)] - {router} == f.inFlight;
  }

  // ----- Runs that break it -----

  lemma {:induction false} Then(f: State, step: Step, rest: seq<Step>)
    requires Possible(f, step)
    ensures RunFrom(f, [step] + rest) == RunFrom(Do(f, step), rest)
  {
    assert ([step] + rest)[1..] == rest;
  }

  /** Two servers subscribed to a new space and both asked for a router. */
  lemma {:induction false} TwoAsk(rest: seq<Step>) returns (f: State)
    ensures Run([Create("s"), Subscribe(0, "s", Some(0)), Subscribe(1, "s", Some(1))] + rest) == RunFrom(f, rest)
    ensures f.inFlight == map[0 := Waiting(0, "s"), 1 := Waiting(1, "s")] && f.ended == {}
    ensures f.now == L.State(map["s" := L.Space(L.Initialized, None, {})], {}, {0, 1}, map[], map[], 0)
  {
    var last := [Subscribe(1, "s", Some(1))] + rest;
    var next := [Subscribe(0, "s", Some(0))] + last;
    assert [Create("s"), Subscribe(0, "s", Some(0)), Subscribe(1, "s", Some(1))] + rest == [Create("s")] + next;
    Then(Initial(), Create("s"), next);
    var f1 := Do(Initial(), Create("s"));
    Then(f1, Subscribe(0, "s", Some(0)), last);
    var f2 := Do(f1, Subscribe(0, "s", Some(0)));
    Then(f2, Subscribe(1, "s", Some(1)), rest);
    f := Do(f2, Subscribe(1, "s", Some(1)));
  }

  /** Two first subscriptions overlap: the second acknowledgement replaces the space's router, and the first router
      stays registered although no space uses it. */
  lemma {:induction false} OverlapLeaksARouter() returns (f: State)
    ensures Run([Create("s"), Subscribe(0, "s", Some(0)), Subscribe(1, "s", Some(1))]
            + [Answer(0, true), Answer(1, true)]) == Some(f)
    ensures "s" in f.now.spaces && f.now.spaces["s"].primaryRouter == Some(1) && 0 in f.now.routers
    ensures 0 in f.now.madeFor && f.now.madeFor[0] == "s" && !L.Inv(f.now)
  {
    var rest := [Answer(0, true), Answer(1, true)];
    var f1 := TwoAsk(rest);
    assert rest == [Answer(0, true)] + [Answer(1, true)] && [Answer(1, true)] + [] == [Answer(1, true)];
    Then(f1, Answer(0, true), [Answer(1, true)]);
    var f2 := Do(f1, Answer(0, true));
    Then(f2, Answer(1, true), []);
    f := Do(f2, Answer(1, true));
  }

  /** The first subscriber is gone before the second acknowledgement comes: the space was ended, and runs again. */
  lemma {:induction false} OverlapRevivesAnEndedSpace() returns (f: State)
    ensures Run([Create("s"), Subscribe(0, "s", Some(0)), Subscribe(1, "s", Some(1))]
                + [Answer(0, true), Unsubscribe(0, "s"), Answer(1, true)]) == Some(f)
    ensures "s" in f.ended && "s" in f.now.spaces && f.now.spaces["s"].status == L.Running
  {
    var last := [Answer(1, true)];
    var next := [Unsubscribe(0, "s")] + last;
    var rest := [Answer(0, true), Unsubscribe(0, "s"), Answer(1, true)];
    var f1 := TwoAsk(rest);
    assert rest == [Answer(0, true)] + next && last + [] == last;
    Then(f1, Answer(0, true), next);
    var f2 := Do(f1, Answer(0, true));
    Then(f2, Unsubscribe(0, "s"), last);
    FirstLeaves(f2);
    var f3 := Do(f2, Unsubscribe(0, "s"));
    Then(f3, Answer(1, true), []);
    f := Do(f3, Answer(1, true));
  }

  lemma {:induction false} FirstLeaves(f: State)
    requires "s" in f.now.spaces && f.now.spaces["s"] == L.Space(L.Running, Some(0), {}) && f.now.pairs == {(0, "s")}
    ensures var f' := Do(f, Unsubscribe(0, "s"));
            "s" in f'.now.spaces && f'.now.spaces["s"].status == L.Ended && "s" in f'.ended
    ensures Do(f, Unsubscribe(0, "s")).inFlight == f.inFlight
  {
    assert L.Subscribers(f.now.pairs, "s") == {0};
    L.LastServerLeaves(f.now, 0, "s");
  }
}
