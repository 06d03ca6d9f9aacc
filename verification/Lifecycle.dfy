/** Spaces, their subscriptions and their lifecycle under the subscription-driven policy, over every run of requests
    that complete one at a time.  Whether a router allocation succeeds, and with which router id, comes with the
    step. */
module Lifecycle {
  import opened Common

  datatype Status = Initialized | Running | Ended

  datatype Space = Space(status: Status, primaryRouter: Option<int>, members: set<int>)

  datatype State = State(
    spaces: map<string, Space>,
    pairs: set<(int, string)>,  // who is subscribed to what
    routers: set<int>,          // the router allocator's keys
    madeFor: map<int, string>,  // acknowledged routers, and the space each was made for
    ownerOf: map<int, string>,  // the space of every member that ever was
    nextMember: nat)

  // ----- The policy -----

  function OnSubscribe(status: Status): Option<Status> {
    if status == Initialized then Some(Running) else None
  }

  function ShouldEnd(status: Status, subscribers: nat, members: nat): Option<Status> {
    if status == Running && subscribers == 0 && members == 0 then Some(Ended) else None
  }

  // ----- Requests -----

  function Subscribers(pairs: set<(int, string)>, space: string): set<int> {
    set pair | pair in pairs && pair.1 == space :: pair.0
  }

  /** What the router allocator does when it is asked: the worker acknowledges `router`, or the allocation fails, with
      or without having registered the router. */
  datatype Outcome = Allocated(router: int) | Refused | NackedAfter(router: int)

  /** `RouterAllocator.allocate` for a known space; `None` is a rejection. */
  function Allocate(s: State, space: string, outcome: Outcome): (State, Option<int>)
    requires space in s.spaces
  {
    match s.spaces[space].primaryRouter
    case Some(router) => (s, Some(router))
    case None =>
      match outcome
      case Refused => (s, None)
      case NackedAfter(router) => (s.(routers := s.routers + {router}), None)
      case Allocated(router) =>
        (s.(routers := s.routers + {router}, madeFor := s.madeFor[router := space],
            spaces := s.spaces[space := s.spaces[space].(primaryRouter := Some(router))]), Some(router))
  }

  function WithStatus(s: State, space: string, status: Status): State
    requires space in s.spaces
  {
    s.(spaces := s.spaces[space := s.spaces[space].(status := status)])
  }

  /** `applyTransition`; not `ok` when the router allocation rejects. */
  function Transition(s: State, space: string, to: Option<Status>, outcome: Outcome): (State, bool)
    requires space in s.spaces
  {
    if to == None || s.spaces[space].status == to.value then (s, true)
    else if to == Some(Running) && s.spaces[space].status == Initialized then
      var (s1, router) := Allocate(s, space, outcome);
      if router == None || space !in s1.spaces then (s1, false) else (WithStatus(s1, space, Running), true)
    else if to == Some(Ended) && s.spaces[space].status == Running then
      match s.spaces[space].primaryRouter
      case None => (WithStatus(s, space, Ended), true)
      case Some(router) =>
        (s.(routers := s.routers - {router},
            spaces := s.spaces[space := s.spaces[space].(primaryRouter := None, status := Ended)]), true)
    else (s, true)
  }

  datatype Reply = Ack | Nack

  function Created(s: State, space: string): State {
    s.(spaces := s.spaces[space := Space(Initialized, None, {})])
  }

  function Subscribed(s: State, server: int, space: string, outcome: Outcome): (State, Reply) {
    if space !in s.spaces || s.spaces[space].status == Ended then (s, Nack)
    else
      var (s1, ok) := Transition(s, space, OnSubscribe(s.spaces[space].status), outcome);
      if !ok || space !in s1.spaces || s1.spaces[space].primaryRouter == None then (s1, Nack)
      else (s1.(pairs := s1.pairs + {(server, space)}), Ack)
  }

  function Unsubscribed(s: State, server: int, space: string): (State, Reply) {
    if space !in s.spaces then (s, Nack)
    else
      var s1 := s.(pairs := s.pairs - {(server, space)});
      (MaybeEnded(s1, space), Ack)
  }

  /** The policy is asked whether the space should end, and the answer is applied. */
  function MaybeEnded(s: State, space: string): State
    requires space in s.spaces
  {
    var to := ShouldEnd(s.spaces[space].status, |Subscribers(s.pairs, space)|, |s.spaces[space].members|);
    Transition(s, space, to, Refused).0
  }

  function MemberAdded(s: State, server: int, space: string, outcome: Outcome): (State, Reply) {
    if (server, space) !in s.pairs || space !in s.spaces then (s, Nack)
    else
      var (s1, router) := Allocate(s, space, outcome);
      if router == None || space !in s1.spaces then (s1, Nack)
      else
        var id := s1.nextMember;
        (s1.(spaces := s1.spaces[space := s1.spaces[space].(members := s1.spaces[space].members + {id})],
             ownerOf := s1.ownerOf[id := space], nextMember := id + 1), Ack)
  }

  ghost predicate Present(s: State, member: int) {
    member in s.ownerOf && s.ownerOf[member] in s.spaces && member in s.spaces[s.ownerOf[member]].members
  }

  ghost function MemberRemoved(s: State, member: int): (State, Reply) {
    if !Present(s, member) then (s, Nack)
    else
      var space := s.ownerOf[member];
      var s1 := s.(spaces := s.spaces[space := s.spaces[space].(members := s.spaces[space].members - {member})]);
      (MaybeEnded(s1, space), Ack)
  }

  // ----- Runs -----

  datatype Request =
    | Create(space: string)
    | Subscribe(server: int, space: string, outcome: Outcome)
    | Unsubscribe(server: int, space: string)
    | AddMember(server: int, space: string, outcome: Outcome)
    | RemoveMember(member: int)

  /** Space ids and router ids are new. */
  ghost predicate NewRouter(s: State, outcome: Outcome) {
    (outcome.Allocated? || outcome.NackedAfter?) ==> outcome.router !in s.routers && outcome.router !in s.madeFor
  }

  ghost predicate Possible(s: State, r: Request) {
    match r
    case Create(space) => space !in s.spaces && (forall server: int :: (server, space) !in s.pairs)
    case Subscribe(_, _, outcome) => NewRouter(s, outcome)
    case AddMember(_, _, outcome) => NewRouter(s, outcome)
    case _ => true
  }

  ghost function Completed(s: State, r: Request): State {
    match r
    case Create(space) => Created(s, space)
    case Subscribe(server, space, outcome) => Subscribed(s, server, space, outcome).0
    case Unsubscribe(server, space) => Unsubscribed(s, server, space).0
    case AddMember(server, space, outcome) => MemberAdded(s, server, space, outcome).0
    case RemoveMember(member) => MemberRemoved(s, member).0
  }

  ghost function Initial(): State {
    State(map[], {}, {}, map[], map[], 0)
  }

  ghost function Run(requests: seq<Request>): Option<State>
    decreases |requests|
  {
    if requests == [] then Some(Initial())
    else
      match Run(requests[..|requests| - 1])
      case None => None
      case Some(s) =>
        if !Possible(s, requests[|requests| - 1]) then None else Some(Completed(s, requests[|requests| - 1]))
  }

  // ----- The invariant -----

  ghost predicate HasItsRouter(s: State, space: string)
    requires space in s.spaces
  {
    var router := s.spaces[space].primaryRouter;
    router.Some? && router.value in s.routers && router.value in s.madeFor && s.madeFor[router.value] == space
  }

  ghost predicate SpaceOk(s: State, space: string)
    requires space in s.spaces
  {
    var v := s.spaces[space];
    match v.status
    case Running => HasItsRouter(s, space) && (Subscribers(s.pairs, space) != {} || v.members != {})
    case _ => v.primaryRouter == None && Subscribers(s.pairs, space) == {} && v.members == {}
  }

  ghost predicate RoutersOk(s: State) {
    forall r :: r in s.madeFor ==>
      && s.madeFor[r] in s.spaces
      && (r in s.routers <==>
            s.spaces[s.madeFor[r]].status == Running && s.spaces[s.madeFor[r]].primaryRouter == Some(r))
  }

  ghost predicate MembersOk(s: State) {
    && (forall m :: m in s.ownerOf ==> 0 <= m < s.nextMember && s.ownerOf[m] in s.spaces)
    && (forall space, m :: space in s.spaces && m in s.spaces[space].members ==>
          m in s.ownerOf && s.ownerOf[m] == space)
  }

  ghost predicate SpacesOk(s: State) {
    && (forall space :: space in s.spaces ==> SpaceOk(s, space))
    && (forall pair :: pair in s.pairs ==> pair.1 in s.spaces)
  }

  ghost predicate Inv(s: State) {
    SpacesOk(s) && RoutersOk(s) && MembersOk(s)
  }

  // ----- Each request keeps it -----

  lemma {:induction false} SubscribersAfterAdding(pairs: set<(int, string)>, server: int, space: string, other: string)
    ensures Subscribers(pairs + {(server, space)}, other)
            == if other == space then Subscribers(pairs, other) + {server} else Subscribers(pairs, other)
  {
    var after := Subscribers(pairs + {(server, space)}, other);
    forall x: int ensures x in after <==> x in Subscribers(pairs, other) || (other == space && x == server) {
      assert x in Subscribers(pairs, other) <==> (x, other) in pairs;
      assert x in after <==> (x, other) in pairs + {(server, space)};
    }
  }

  lemma {:induction false} SubscribersAfterRemoving(pairs: set<(int, string)>, server: int, space: string,
                                                    other: string)
    ensures Subscribers(pairs - {(server, space)}, other)
            == if other == space then Subscribers(pairs, other) - {server} else Subscribers(pairs, other)
  {
    var after := Subscribers(pairs - {(server, space)}, other);
    forall x: int ensures x in after <==> x in Subscribers(pairs, other) && !(other == space && x == server) {
      assert x in Subscribers(pairs, other) <==> (x, other) in pairs;
      assert x in after <==> (x, other) in pairs - {(server, space)};
    }
  }

  /** In a running space the router is already there, so an allocation changes nothing. */
  lemma {:induction false} RunningNeedsNoAllocation(s: State, space: string, outcome: Outcome)
    requires SpacesOk(s) && space in s.spaces && s.spaces[space].status == Running
    ensures Allocate(s, space, outcome) == (s, s.spaces[space].primaryRouter)
  {
    assert SpaceOk(s, space);
  }

  lemma {:induction false} CreatingKeepsInv(s: State, space: string)
    requires Inv(s) && Possible(s, Create(space))
    ensures Inv(Created(s, space))
  {
    CreatingKeepsSpaces(s, space);
  }

  lemma {:induction false} CreatingKeepsSpaces(s: State, space: string)
    requires SpacesOk(s) && MembersOk(s) && Possible(s, Create(space))
    ensures SpacesOk(Created(s, space)) && MembersOk(Created(s, space))
  {
    var s' := Created(s, space);
    forall k | k in s'.spaces ensures SpaceOk(s', k) {
      if k == space {
        forall x ensures x !in Subscribers(s.pairs, space) { assert (x, space) !in s.pairs; }
      } else {
        assert SpaceOk(s, k);
      }
    }
  }

  lemma {:induction false} SubscribingKeepsInv(s: State, server: int, space: string, outcome: Outcome)
    requires Inv(s) && NewRouter(s, outcome)
    ensures Inv(Subscribed(s, server, space, outcome).0)
  {
    if space !in s.spaces || s.spaces[space].status == Ended { return; }
    assert SpaceOk(s, space);
    if s.spaces[space].status == Initialized {
      match outcome
      case Allocated(router) => FirstSubscriberKeepsInv(s, server, space, router);
      case _ => SpacesStandBesides(s, Subscribed(s, server, space, outcome).0);
    } else {
      MoreSubscribersKeepInv(s, server, space);
    }
  }

  /** Registering a router that never gets acknowledged disturbs no space. */
  lemma {:induction false} SpacesStandBesides(s: State, s': State)
    requires Inv(s) && s' == s.(routers := s'.routers) && s.routers <= s'.routers
    requires forall r :: r in s'.routers && r !in s.routers ==> r !in s.madeFor
    ensures Inv(s')
  {
    forall k | k in s'.spaces ensures SpaceOk(s', k) { assert SpaceOk(s, k); }
  }

  lemma {:induction false} MoreSubscribersKeepInv(s: State, server: int, space: string)
    requires Inv(s) && space in s.spaces && s.spaces[space].status == Running
    ensures Inv(s.(pairs := s.pairs + {(server, space)}))
  {
    var s' := s.(pairs := s.pairs + {(server, space)});
    forall k | k in s'.spaces ensures SpaceOk(s', k) {
      assert SpaceOk(s, k);
      SubscribersAfterAdding(s.pairs, server, space, k);
    }
  }

  /** What the first subscription leaves when the worker acknowledges the router. */
  function Started(s: State, server: int, space: string, router: int): State
    requires space in s.spaces
  {
    s.(routers := s.routers + {router}, madeFor := s.madeFor[router := space],
       spaces := s.spaces[space := s.spaces[space].(status := Running, primaryRouter := Some(router))],
       pairs := s.pairs + {(server, space)})
  }

  lemma {:induction false} FirstSubscriberKeepsInv(s: State, server: int, space: string, router: int)
    requires Inv(s) && space in s.spaces && s.spaces[space].status == Initialized && router !in s.routers
             && router !in s.madeFor
    ensures Subscribed(s, server, space, Allocated(router)) == (Started(s, server, space, router), Ack)
    ensures Inv(Started(s, server, space, router))
  {
    assert SpaceOk(s, space);
    var s' := Started(s, server, space, router);
    var requested := s.spaces[space].(primaryRouter := Some(router));
    assert s'.spaces == s.spaces[space := requested][space := requested.(status := Running)];
    forall k | k in s'.spaces ensures SpaceOk(s', k) {
      assert SpaceOk(s, k);
      SubscribersAfterAdding(s.pairs, server, space, k);
    }
  }

  /** All spaces are in order but `space`, which may have lost its last subscriber or member; if it runs, it has its
      router. */
  ghost predicate OthersOk(s: State, space: string) {
    && MembersOk(s) && space in s.spaces
    && (forall k :: k in s.spaces && k != space ==> SpaceOk(s, k))
    && (forall pair :: pair in s.pairs ==> pair.1 in s.spaces)
    && if s.spaces[space].status == Running then HasItsRouter(s, space) else SpaceOk(s, space)
  }

  lemma {:induction false} MaybeEndingKeepsSpaces(s: State, space: string)
    requires OthersOk(s, space)
    ensures SpacesOk(MaybeEnded(s, space)) && MembersOk(MaybeEnded(s, space))
  {
    var s' := MaybeEnded(s, space);
    forall k | k in s'.spaces ensures SpaceOk(s', k) {
      if k != space { assert SpaceOk(s, k); }
    }
  }

  lemma {:induction false} MaybeEndingKeepsRouters(s: State, space: string)
    requires OthersOk(s, space) && RoutersOk(s)
    ensures RoutersOk(MaybeEnded(s, space))
  {}

  lemma {:induction false} Unsubscribing(s: State, server: int, space: string)
    requires SpacesOk(s) && MembersOk(s) && space in s.spaces
    ensures OthersOk(s.(pairs := s.pairs - {(server, space)}), space)
  {
    var s1 := s.(pairs := s.pairs - {(server, space)});
    forall k | k in s1.spaces && (k != space || s.spaces[space].status != Running) ensures SpaceOk(s1, k) {
      assert SpaceOk(s, k);
      SubscribersAfterRemoving(s.pairs, server, space, k);
    }
    assert SpaceOk(s, space);
  }

  lemma {:induction false} UnsubscribingKeepsSpaces(s: State, server: int, space: string)
    requires SpacesOk(s) && MembersOk(s)
    ensures SpacesOk(Unsubscribed(s, server, space).0) && MembersOk(Unsubscribed(s, server, space).0)
  {
    if space in s.spaces {
      Unsubscribing(s, server, space);
      MaybeEndingKeepsSpaces(s.(pairs := s.pairs - {(server, space)}), space);
    }
  }

  lemma {:induction false} UnsubscribingKeepsInv(s: State, server: int, space: string)
    requires Inv(s)
    ensures Inv(Unsubscribed(s, server, space).0)
  {
    UnsubscribingKeepsSpaces(s, server, space);
    if space in s.spaces {
      Unsubscribing(s, server, space);
      MaybeEndingKeepsRouters(s.(pairs := s.pairs - {(server, space)}), space);
    }
  }

  lemma {:induction false} AddingKeepsSpaces(s: State, server: int, space: string, outcome: Outcome)
    requires SpacesOk(s) && MembersOk(s)
    ensures SpacesOk(MemberAdded(s, server, space, outcome).0) && MembersOk(MemberAdded(s, server, space, outcome).0)
  {
    if (server, space) in s.pairs {
      AddedAs(s, server, space, outcome);
      EnteringKeepsSpaces(s, space);
    }
  }

  lemma {:induction false} AddingKeepsInv(s: State, server: int, space: string, outcome: Outcome)
    requires Inv(s)
    ensures Inv(MemberAdded(s, server, space, outcome).0)
  {
    AddingKeepsSpaces(s, server, space, outcome);
    if (server, space) in s.pairs {
      AddedAs(s, server, space, outcome);
      EnteringKeepsRouters(s, space);
    }
  }

  lemma {:induction false} EnteringKeepsRouters(s: State, space: string)
    requires RoutersOk(s) && space in s.spaces
    ensures RoutersOk(Entered(s, space))
  {
    var s' := Entered(s, space);
    forall r | r in s'.madeFor ensures s'.madeFor[r] in s'.spaces { assert s.madeFor[r] in s.spaces; }
  }

  lemma {:induction false} EnteringKeepsSpaces(s: State, space: string)
    requires SpacesOk(s) && MembersOk(s) && space in s.spaces && s.spaces[space].status == Running
    ensures SpacesOk(Entered(s, space)) && MembersOk(Entered(s, space))
  {
    var s' := Entered(s, space);
    assert SpacesOk(s') by {
      forall k | k in s'.spaces ensures SpaceOk(s', k) { assert SpaceOk(s, k); }
    }
    assert MembersOk(s') by {
      forall k, m | k in s'.spaces && m in s'.spaces[k].members ensures m in s'.ownerOf && s'.ownerOf[m] == k {
        if k != space || m != s.nextMember { assert m in s.spaces[k].members && m in s.ownerOf; }
      }
    }
  }

  /** The space gets the next member id. */
  function Entered(s: State, space: string): State
    requires space in s.spaces
  {
    var v := s.spaces[space];
    s.(spaces := s.spaces[space := v.(members := v.members + {s.nextMember})],
       ownerOf := s.ownerOf[s.nextMember := space], nextMember := s.nextMember + 1)
  }

  /** A subscribed server's add request never allocates: the router is there. */
  lemma {:induction false} AddedAs(s: State, server: int, space: string, outcome: Outcome)
    requires SpacesOk(s) && (server, space) in s.pairs
    ensures space in s.spaces && s.spaces[space].status == Running
    ensures MemberAdded(s, server, space, outcome) == (Entered(s, space), Ack)
  {
    assert SpaceOk(s, space);
    assert server in Subscribers(s.pairs, space);
    RunningNeedsNoAllocation(s, space, outcome);
  }

  function WithoutMember(s: State, member: int): State
    requires member in s.ownerOf && s.ownerOf[member] in s.spaces
  {
    var v := s.spaces[s.ownerOf[member]];
    s.(spaces := s.spaces[s.ownerOf[member] := v.(members := v.members - {member})])
  }

  lemma {:induction false} Removing(s: State, member: int)
    requires SpacesOk(s) && MembersOk(s) && Present(s, member)
    ensures OthersOk(WithoutMember(s, member), s.ownerOf[member])
    ensures MemberRemoved(s, member) == (MaybeEnded(WithoutMember(s, member), s.ownerOf[member]), Ack)
  {
    var space := s.ownerOf[member];
    assert SpaceOk(s, space);
    forall k | k in s.spaces && k != space ensures SpaceOk(WithoutMember(s, member), k) { assert SpaceOk(s, k); }
  }

  lemma {:induction false} RemovingKeepsSpaces(s: State, member: int)
    requires SpacesOk(s) && MembersOk(s)
    ensures SpacesOk(MemberRemoved(s, member).0) && MembersOk(MemberRemoved(s, member).0)
  {
    if Present(s, member) {
      Removing(s, member);
      MaybeEndingKeepsSpaces(WithoutMember(s, member), s.ownerOf[member]);
    }
  }

  lemma {:induction false} RemovingKeepsInv(s: State, member: int)
    requires Inv(s)
    ensures Inv(MemberRemoved(s, member).0)
  {
    RemovingKeepsSpaces(s, member);
    if Present(s, member) {
      Removing(s, member);
      WithoutMemberKeepsRouters(s, member);
      MaybeEndingKeepsRouters(WithoutMember(s, member), s.ownerOf[member]);
    }
  }

  lemma {:induction false} WithoutMemberKeepsRouters(s: State, member: int)
    requires RoutersOk(s) && Present(s, member)
    ensures RoutersOk(WithoutMember(s, member))
  {
    var s' := WithoutMember(s, member);
    forall r | r in s'.madeFor ensures s'.madeFor[r] in s'.spaces { assert s.madeFor[r] in s.spaces; }
  }

  lemma {:induction false} RequestKeepsInv(s: State, r: Request)
    requires Inv(s) && Possible(s, r)
    ensures Inv(Completed(s, r))
  {
    match r
    case Create(space) => CreatingKeepsInv(s, space);
    case Subscribe(server, space, outcome) => SubscribingKeepsInv(s, server, space, outcome);
    case Unsubscribe(server, space) => UnsubscribingKeepsInv(s, server, space);
    case AddMember(server, space, outcome) => AddingKeepsInv(s, server, space, outcome);
    case RemoveMember(member) => RemovingKeepsInv(s, member);
  }

  lemma {:induction false} EveryRunKeepsInv(requests: seq<Request>)
    ensures var s := Run(requests); s.Some? ==> Inv(s.value)
    decreases |requests|
  {
    if requests != [] {
      EveryRunKeepsInv(requests[..|requests| - 1]);
      var s := Run(requests[..|requests| - 1]);
      if s.Some? && Possible(s.value, requests[|requests| - 1]) { RequestKeepsInv(s.value, requests[|requests| - 1]); }
    }
  }

  // ----- The results -----

  /** The lifecycle invariant, in any run of requests that complete one at a time. */
  lemma {:induction false} LifecycleInvariant(requests: seq<Request>, space: string)
    requires Run(requests).Some? && space in Run(requests).value.spaces
    ensures var s := Run(requests).value;
            var v, subscribers := s.spaces[space], Subscribers(s.pairs, space);
            && (v.status == Initialized ==> subscribers == {} && v.members == {} && v.primaryRouter == None)
            && (v.status == Running ==>
                  && (subscribers != {} || v.members != {})
                  && v.primaryRouter.Some? && v.primaryRouter.value in s.madeFor
                  && s.madeFor[v.primaryRouter.value] == space)
            && (v.status == Ended ==> subscribers == {} && v.members == {} && v.primaryRouter == None)
            && (forall r :: r in s.madeFor && s.madeFor[r] == space ==>
                  (r in s.routers <==> v.status == Running && v.primaryRouter == Some(r)))
  {
    EveryRunKeepsInv(requests);
    assert SpaceOk(Run(requests).value, space);
  }

  /** An ended space never regains a subscriber, a member or a router, and stays ended. */
  lemma {:induction false} EndedIsForever(s: State, r: Request, space: string)
    requires Inv(s) && Possible(s, r) && space in s.spaces && s.spaces[space].status == Ended
    ensures var s' := Completed(s, r);
            && space in s'.spaces && s'.spaces[space] == Space(Ended, None, {})
            && Subscribers(s'.pairs, space) == {}
            && (forall k :: k in s.madeFor && s.madeFor[k] == space ==> k !in s'.routers)
  {
    StatusMoves(s, r, space);
    RequestKeepsInv(s, r);
    EndedIsEmpty(Completed(s, r), space);
    MadeForIsKept(s, r);
  }

  lemma {:induction false} EndedIsEmpty(s: State, space: string)
    requires Inv(s) && space in s.spaces && s.spaces[space].status == Ended
    ensures s.spaces[space] == Space(Ended, None, {}) && Subscribers(s.pairs, space) == {}
    ensures forall k :: k in s.madeFor && s.madeFor[k] == space ==> k !in s.routers
  {
    assert SpaceOk(s, space);
  }

  ghost predicate KeepsMadeFor(s: State, s': State) {
    forall k :: k in s.madeFor ==> k in s'.madeFor && s'.madeFor[k] == s.madeFor[k]
  }

  lemma {:induction false} MadeForIsKept(s: State, r: Request)
    requires Inv(s) && Possible(s, r)
    ensures KeepsMadeFor(s, Completed(s, r))
  {
    match r
    case Subscribe(server, space, outcome) => SubscribingKeepsMadeFor(s, server, space, outcome);
    case AddMember(server, space, outcome) => if (server, space) in s.pairs { AddedAs(s, server, space, outcome); }
    case _ =>
  }

  lemma {:induction false} SubscribingKeepsMadeFor(s: State, server: int, space: string, outcome: Outcome)
    requires NewRouter(s, outcome)
    ensures KeepsMadeFor(s, Subscribed(s, server, space, outcome).0)
  {}

  function Rank(status: Status): int {
    match status case Initialized => 0 case Running => 1 case Ended => 2
  }

  ghost predicate Moves(s: State, r: Request, s': State, space: string)
    requires space in s.spaces
  {
    && space in s'.spaces
    && var before, after := s.spaces[space].status, s'.spaces[space].status;
    && Rank(before) <= Rank(after) <= Rank(before) + 1
    && (before == Initialized ==> (after == Running <==> r.Subscribe? && r.space == space && r.outcome.Allocated?))
    && (before == Running ==>
          (after == Ended <==> Subscribers(s'.pairs, space) == {} && s'.spaces[space].members == {}))
  }

  /** A status moves forward one step at a time; a space starts running only by a subscription whose router is
      allocated, and ends exactly when its last subscriber or member is gone. */
  lemma {:induction false} StatusMoves(s: State, r: Request, space: string)
    requires Inv(s) && Possible(s, r) && space in s.spaces
    ensures Moves(s, r, Completed(s, r), space)
  {
    RequestKeepsInv(s, r);
    match r
    case Create(_) => SameSpaceMoves(s, r, Completed(s, r), space);
    case Subscribe(server, other, outcome) => SubscribingMoves(s, server, other, outcome, space);
    case Unsubscribe(server, other) => UnsubscribingMoves(s, server, other, space);
    case AddMember(server, other, outcome) => AddingMoves(s, server, other, outcome, space);
    case RemoveMember(member) => RemovingMoves(s, member, space);
  }

  lemma {:induction false} SameSpaceMoves(s: State, r: Request, s': State, space: string)
    requires Inv(s) && Inv(s') && space in s.spaces && space in s'.spaces
             && s'.spaces[space].status == s.spaces[space].status
    requires s.spaces[space].status == Initialized ==> !(r.Subscribe? && r.space == space && r.outcome.Allocated?)
    ensures Moves(s, r, s', space)
  {
    assert SpaceOk(s, space) && SpaceOk(s', space);
  }

  lemma {:induction false} SubscribingMoves(s: State, server: int, other: string, outcome: Outcome, space: string)
    requires Inv(s) && NewRouter(s, outcome) && space in s.spaces && Inv(Subscribed(s, server, other, outcome).0)
    ensures Moves(s, Subscribe(server, other, outcome), Subscribed(s, server, other, outcome).0, space)
  {
    assert SpaceOk(s, space);
    if other == space && s.spaces[space].status == Initialized && outcome.Allocated? {
      FirstSubscriberKeepsInv(s, server, space, outcome.router);
    } else {
      SubscribingKeepsStatus(s, server, other, outcome, space);
      SameSpaceMoves(s, Subscribe(server, other, outcome), Subscribed(s, server, other, outcome).0, space);
    }
  }

  lemma {:induction false} SubscribingKeepsStatus(s: State, server: int, other: string, outcome: Outcome, space: string)
    requires space in s.spaces && (s.spaces[space].status == Initialized ==> s.spaces[space].primaryRouter == None)
    requires !(other == space && s.spaces[space].status == Initialized && outcome.Allocated?)
    ensures var s' := Subscribed(s, server, other, outcome).0;
            space in s'.spaces && s'.spaces[space].status == s.spaces[space].status
  {}

  lemma {:induction false} AddingMoves(s: State, server: int, other: string, outcome: Outcome, space: string)
    requires Inv(s) && space in s.spaces && Inv(MemberAdded(s, server, other, outcome).0)
    ensures Moves(s, AddMember(server, other, outcome), MemberAdded(s, server, other, outcome).0, space)
  {
    if (server, other) in s.pairs { AddedAs(s, server, other, outcome); }
    SameSpaceMoves(s, AddMember(server, other, outcome), MemberAdded(s, server, other, outcome).0, space);
  }

  lemma {:induction false} UnsubscribingMoves(s: State, server: int, other: string, space: string)
    requires Inv(s) && space in s.spaces && Inv(Unsubscribed(s, server, other).0)
    ensures Moves(s, Unsubscribe(server, other), Unsubscribed(s, server, other).0, space)
  {
    assert SpaceOk(s, space) && SpaceOk(Unsubscribed(s, server, other).0, space);
  }

  lemma {:induction false} RemovingMoves(s: State, member: int, space: string)
    requires Inv(s) && space in s.spaces && Inv(MemberRemoved(s, member).0)
    ensures Moves(s, RemoveMember(member), MemberRemoved(s, member).0, space)
  {
    assert SpaceOk(s, space) && SpaceOk(MemberRemoved(s, member).0, space);
  }

  /** An add request is acknowledged exactly when its server is subscribed, whatever the allocator would answer: the
      space is running then, so its router is already there. */
  lemma {:induction false} AddingNeedsOnlyASubscription(s: State, server: int, space: string, outcome: Outcome)
    requires Inv(s)
    ensures MemberAdded(s, server, space, outcome).1 == Ack <==> (server, space) in s.pairs
    ensures MemberAdded(s, server, space, outcome).0.routers == s.routers
  {
    if (server, space) in s.pairs { AddedAs(s, server, space, outcome); }
  }

  /** While anyone is subscribed, a member leaves and nothing else happens. */
  lemma {:induction false} RemovedWhileSubscribed(s: State, member: int)
    requires Present(s, member) && Subscribers(s.pairs, s.ownerOf[member]) != {}
    ensures var v := s.spaces[s.ownerOf[member]];
            MemberRemoved(s, member)
                == (s.(spaces := s.spaces[s.ownerOf[member] := v.(members := v.members - {member})]), Ack)
  {}

  /** The last server leaves an empty running space: the space ends and its router goes. */
  lemma {:induction false} LastServerLeaves(s: State, server: int, space: string)
    requires space in s.spaces && s.spaces[space].status == Running && s.spaces[space].members == {}
    requires s.spaces[space].primaryRouter.Some? && Subscribers(s.pairs, space) == {server}
    ensures Unsubscribed(s, server, space)
            == (s.(pairs := s.pairs - {(server, space)}, routers := s.routers - {s.spaces[space].primaryRouter.value},
                   spaces := s.spaces[space := Space(Ended, None, {})]), Ack)
  {
    SubscribersAfterRemoving(s.pairs, server, space, space);
  }
}
