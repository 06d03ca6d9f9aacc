/** Who is subscribed, which members a space has and which routers are registered, over every run of completed requests,
    told from the requests and their answers. */
module LifecycleHistory {
  import opened Common
  import opened Lifecycle

  datatype Ledger = Ledger(
    s: State,
    subscribed: set<(int, string)>, // acknowledged, and not unsubscribed since
    entered: seq<string>,           // the space of every acknowledged add, in order
    left: set<int>,                 // acknowledged removals
    asked: set<int>,                // router ids a worker was asked for
    acked: map<int, string>)        // router ids a worker acknowledged, and for which space

  /** A subscription is accepted when its space runs, or can be started because a worker provides the router. */
  ghost predicate Subscribable(s: State, space: string, outcome: Outcome) {
    space in s.spaces
        && (s.spaces[space].status == Running || (s.spaces[space].status == Initialized && outcome.Allocated?))
  }

  /** Only the subscription that would start a space asks for a router. */
  ghost predicate AsksForRouter(s: State, r: Request) {
    r.Subscribe? && r.space in s.spaces && s.spaces[r.space].status == Initialized && !r.outcome.Refused?
  }

  ghost predicate IsThere(l: Ledger, member: int) {
    0 <= member < |l.entered| && member !in l.left
  }

  ghost function Remarked(l: Ledger, r: Request): Ledger {
    var l1 :=
      if !AsksForRouter(l.s, r) then l
      else
        l.(asked := l.asked + {r.outcome.router},
           acked := if r.outcome.Allocated? then l.acked[r.outcome.router := r.space] else l.acked);
    match r
    case Create(_) => l
    case Subscribe(server, space, outcome) =>
      if Subscribable(l.s, space, outcome) then l1.(subscribed := l.subscribed + {(server, space)}) else l1
    case Unsubscribe(server, space) => l.(subscribed := l.subscribed - {(server, space)})
    case AddMember(server, space, _) =>
      if (server, space) in l.subscribed then l.(entered := l.entered + [space]) else l
    case RemoveMember(member) => if IsThere(l, member) then l.(left := l.left + {member}) else l
  }

  ghost function Noted(l: Ledger, r: Request): Ledger {
    Remarked(l, r).(s := Completed(l.s, r))
  }

  ghost function Note(requests: seq<Request>): (l: Option<Ledger>)
    ensures match Run(requests) case None => l.None? case Some(s) => l.Some? && l.value.s == s
    decreases |requests|
  {
    if requests == [] then Some(Ledger(Initial(), {}, [], {}, {}, map[]))
    else
      var before, r := Note(requests[..|requests| - 1]), requests[|requests| - 1];
      if before.None? || !Possible(before.value.s, r) then None else Some(Noted(before.value, r))
  }

  // ----- Told -----

  ghost predicate MembersTold(s: State, entered: seq<string>, left: set<int>) {
    && s.nextMember == |entered| && (forall m :: m in left ==> 0 <= m < |entered|)
    && (forall m :: m in s.ownerOf <==> 0 <= m < |entered|)
    && (forall m :: 0 <= m < |entered| ==> s.ownerOf[m] == entered[m] && entered[m] in s.spaces)
    && (forall space, m :: space in s.spaces ==> MemberTold(s.spaces[space].members, entered, left, space, m))
  }

  /** A space's member is one that was added to it and not removed. */
  predicate MemberTold(members: set<int>, entered: seq<string>, left: set<int>, space: string, m: int) {
    m in members <==> 0 <= m < |entered| && entered[m] == space && m !in left
  }

  /** A router stays registered until the space it was acknowledged for ends; one that was nacked stays for good. */
  ghost predicate RoutersTold(s: State, asked: set<int>, acked: map<int, string>) {
    && s.madeFor == acked && acked.Keys <= asked
    && (forall r :: r in acked ==> acked[r] in s.spaces)
    && (forall r :: r in s.routers <==> r in asked && (r in acked ==> s.spaces[acked[r]].status != Ended))
  }

  ghost predicate LedgerOk(l: Ledger) {
    && Inv(l.s) && l.s.pairs == l.subscribed
    && MembersTold(l.s, l.entered, l.left) && RoutersTold(l.s, l.asked, l.acked)
  }

  // ----- Each request keeps it -----

  lemma {:induction false} CreatingKeepsLedger(l: Ledger, space: string)
    requires LedgerOk(l) && Possible(l.s, Create(space))
    ensures LedgerOk(Noted(l, Create(space)))
  {
    CreatingKeepsInv(l.s, space);
  }

  /** What a subscription does, in each of its cases. */
  lemma {:induction false} SubscribedAs(s: State, server: int, space: string, outcome: Outcome)
    requires Inv(s) && NewRouter(s, outcome)
    ensures var (s', reply) := Subscribed(s, server, space, outcome);
            && (reply == Ack <==> Subscribable(s, space, outcome))
            && (if !AsksForRouter(s, Subscribe(server, space, outcome)) then
                  s' == if reply == Ack then s.(pairs := s.pairs + {(server, space)}) else s
                else if outcome.Allocated? then s' == Started(s, server, space, outcome.router)
                else s' == s.(routers := s.routers + {outcome.router}))
  {
    if space in s.spaces && s.spaces[space].status != Ended {
      assert SpaceOk(s, space);
      if s.spaces[space].status == Initialized && outcome.Allocated? {
        FirstSubscriberKeepsInv(s, server, space, outcome.router);
      }
    }
  }

  lemma {:induction false} SubscribingKeepsLedger(l: Ledger, server: int, space: string, outcome: Outcome)
    requires LedgerOk(l) && NewRouter(l.s, outcome)
    ensures LedgerOk(Noted(l, Subscribe(server, space, outcome)))
  {
    var s' := Subscribed(l.s, server, space, outcome).0;
    SubscribedAs(l.s, server, space, outcome);
    SubscribingKeepsInv(l.s, server, space, outcome);
    MembersStay(l.s, s', l.entered, l.left);
    if AsksForRouter(l.s, Subscribe(server, space, outcome)) { RoutersAfterAsking(l, space, outcome, s'); }
  }

  lemma {:induction false} RoutersAfterAsking(l: Ledger, space: string, outcome: Outcome, s': State)
    requires LedgerOk(l) && NewRouter(l.s, outcome) && !outcome.Refused?
    requires space in l.s.spaces && l.s.spaces[space].status == Initialized
    requires s'.routers == l.s.routers + {outcome.router}
    requires s'.madeFor == if outcome.Allocated? then l.s.madeFor[outcome.router := space] else l.s.madeFor
    requires s'.spaces.Keys == l.s.spaces.Keys && forall k :: k in l.s.spaces ==>
               (s'.spaces[k].status == Ended <==> l.s.spaces[k].status == Ended)
    ensures RoutersTold(s', l.asked + {outcome.router},
                        if outcome.Allocated? then l.acked[outcome.router := space] else l.acked)
  {}

  /** Members are told the same as long as the spaces keep theirs. */
  lemma {:induction false} MembersStay(s: State, s': State, entered: seq<string>, left: set<int>)
    requires MembersTold(s, entered, left) && s'.nextMember == s.nextMember && s'.ownerOf == s.ownerOf
    requires s'.spaces.Keys == s.spaces.Keys
    requires forall k :: k in s.spaces ==> s'.spaces[k].members == s.spaces[k].members
    ensures MembersTold(s', entered, left)
  {
    forall k, m | k in s'.spaces ensures MemberTold(s'.spaces[k].members, entered, left, k, m) {
      assert MemberTold(s.spaces[k].members, entered, left, k, m);
    }
  }

  lemma {:induction false} PresentIsThere(s: State, entered: seq<string>, left: set<int>, member: int)
    requires MembersTold(s, entered, left)
    ensures Present(s, member) <==> 0 <= member < |entered| && member !in left
  {
    if 0 <= member < |entered| {
      assert MemberTold(s.spaces[entered[member]].members, entered, left, entered[member], member);
    }
  }

  /** What asking the policy does: nothing, or the space ends and its router goes. */
  lemma {:induction false} MaybeEndedAs(s: State, space: string)
    requires space in s.spaces
    ensures var s' := MaybeEnded(s, space);
            && s'.pairs == s.pairs && s'.madeFor == s.madeFor
            && s'.ownerOf == s.ownerOf && s'.nextMember == s.nextMember
            && s'.spaces.Keys == s.spaces.Keys
            && (forall k :: k in s.spaces ==> s'.spaces[k].members == s.spaces[k].members)
            && (forall k :: k in s.spaces && k != space ==> s'.spaces[k] == s.spaces[k])
            && (s'.spaces[space].status == Ended <==>
                  || s.spaces[space].status == Ended
                  || (s.spaces[space].status == Running && |Subscribers(s.pairs, space)| == 0
                      && |s.spaces[space].members| == 0))
            && s'.routers == (if s.spaces[space].status == Running && s'.spaces[space].status == Ended
                                 && s.spaces[space].primaryRouter.Some?
                              then s.routers - {s.spaces[space].primaryRouter.value} else s.routers)
  {}

  /** When a running space ends, the one router that goes is the one acknowledged for it. */
  lemma {:induction false} RoutersAfterEnding(s: State, space: string, asked: set<int>, acked: map<int, string>)
    requires OthersOk(s, space) && RoutersOk(s) && RoutersTold(s, asked, acked)
    ensures RoutersTold(MaybeEnded(s, space), asked, acked)
  {
    var s' := MaybeEnded(s, space);
    MaybeEndedAs(s, space);
    forall r ensures r in s'.routers <==> r in asked && (r in acked ==> s'.spaces[acked[r]].status != Ended) {
      if r in acked { assert r in s.madeFor && s.madeFor[r] in s.spaces; }
    }
  }

  lemma {:induction false} UnsubscribingKeepsLedger(l: Ledger, server: int, space: string)
    requires LedgerOk(l)
    ensures LedgerOk(Noted(l, Unsubscribe(server, space)))
  {
    UnsubscribingKeepsInv(l.s, server, space);
    if space in l.s.spaces {
      var s1 := l.s.(pairs := l.s.pairs - {(server, space)});
      Unsubscribing(l.s, server, space);
      MembersStay(l.s, s1, l.entered, l.left);
      ToldAfterEnding(s1, space, l.entered, l.left, l.asked, l.acked);
    } else {
      assert l.s.pairs - {(server, space)} == l.s.pairs;
    }
  }

  lemma {:induction false} AddingKeepsLedger(l: Ledger, server: int, space: string, outcome: Outcome)
    requires LedgerOk(l)
    ensures LedgerOk(Noted(l, AddMember(server, space, outcome)))
  {
    AddingKeepsInv(l.s, server, space, outcome);
    if (server, space) in l.s.pairs {
      AddedAs(l.s, server, space, outcome);
      MembersAfterEntering(l.s, space, l.entered, l.left);
    }
  }

  lemma {:induction false} MembersAfterEntering(s: State, space: string, entered: seq<string>, left: set<int>)
    requires MembersTold(s, entered, left) && space in s.spaces
    ensures MembersTold(Entered(s, space), entered + [space], left)
  {
    var s', more := Entered(s, space), entered + [space];
    forall k, m | k in s'.spaces ensures MemberTold(s'.spaces[k].members, more, left, k, m) {
      assert MemberTold(s.spaces[k].members, entered, left, k, m);
    }
  }

  lemma {:induction false} MembersAfterLeaving(s: State, member: int, entered: seq<string>, left: set<int>)
    requires MembersTold(s, entered, left) && Present(s, member)
    ensures MembersTold(WithoutMember(s, member), entered, left + {member})
  {
    var s' := WithoutMember(s, member);
    forall k, m | k in s'.spaces ensures MemberTold(s'.spaces[k].members, entered, left + {member}, k, m) {
      assert MemberTold(s.spaces[k].members, entered, left, k, m);
    }
  }

  lemma {:induction false} RemovingKeepsLedger(l: Ledger, member: int)
    requires LedgerOk(l)
    ensures LedgerOk(Noted(l, RemoveMember(member)))
  {
    RemovingKeepsInv(l.s, member);
    PresentIsThere(l.s, l.entered, l.left, member);
    if Present(l.s, member) {
      Removing(l.s, member);
      MembersAfterLeaving(l.s, member, l.entered, l.left);
      WithoutMemberKeepsRouters(l.s, member);
      ToldAfterEnding(WithoutMember(l.s, member), l.s.ownerOf[member], l.entered, l.left + {member}, l.asked, l.acked);
    }
  }

  lemma {:induction false} ToldAfterEnding(s: State, space: string, entered: seq<string>, left: set<int>,
                                           asked: set<int>, acked: map<int, string>)
    requires OthersOk(s, space) && RoutersOk(s) && RoutersTold(s, asked, acked) && MembersTold(s, entered, left)
    ensures RoutersTold(MaybeEnded(s, space), asked, acked) && MembersTold(MaybeEnded(s, space), entered, left)
    ensures MaybeEnded(s, space).pairs == s.pairs
  {
    RoutersAfterEnding(s, space, asked, acked);
    MaybeEndedAs(s, space);
    MembersStay(s, MaybeEnded(s, space), entered, left);
  }

  lemma {:induction false} EveryRunKeepsLedger(requests: seq<Request>)
    ensures Note(requests).Some? ==> LedgerOk(Note(requests).value)
    decreases |requests|
  {
    if requests != [] {
      EveryRunKeepsLedger(requests[..|requests| - 1]);
      var before, r := Note(requests[..|requests| - 1]), requests[|requests| - 1];
      if before.Some? && Possible(before.value.s, r) {
        match r
        case Create(space) => CreatingKeepsLedger(before.value, space);
        case Subscribe(server, space, outcome) => SubscribingKeepsLedger(before.value, server, space, outcome);
        case Unsubscribe(server, space) => UnsubscribingKeepsLedger(before.value, server, space);
        case AddMember(server, space, outcome) => AddingKeepsLedger(before.value, server, space, outcome);
        case RemoveMember(member) => RemovingKeepsLedger(before.value, member);
      }
    }
  }

  // ----- The results -----

  /** In every run a server is subscribed exactly when its last acknowledged request for the space was a subscription;
      a space has exactly the members that were added to it and not removed, numbered in the order of the adds; and a
      router is registered exactly when a worker was asked for it, unless it was acknowledged for a space that has
      ended. */
  lemma {:induction false} EverythingIsTold(requests: seq<Request>)
    ensures match Note(requests)
            case None => true
            case Some(l) =>
              && l.s.pairs == l.subscribed
              && MembersTold(l.s, l.entered, l.left)
              && RoutersTold(l.s, l.asked, l.acked)
  {
    EveryRunKeepsLedger(requests);
  }

  /** The answers, in every run: a subscription is acknowledged exactly when its space runs or a worker provides the
      router of an initialized one; an unsubscription exactly when the space is known; an add exactly for a subscribed
      server; and a removal exactly for a member that is there. */
  lemma {:induction false} AnswersAreTold(requests: seq<Request>, server: int, space: string, outcome: Outcome,
                                          member: int)
    ensures match Note(requests)
            case None => true
            case Some(l) =>
              && (NewRouter(l.s, outcome) ==>
                    (Subscribed(l.s, server, space, outcome).1 == Ack <==> Subscribable(l.s, space, outcome)))
              && (Unsubscribed(l.s, server, space).1 == Ack <==> space in l.s.spaces)
              && (MemberAdded(l.s, server, space, outcome).1 == Ack <==> (server, space) in l.subscribed)
              && (MemberRemoved(l.s, member).1 == Ack <==> IsThere(l, member))
  {
    EveryRunKeepsLedger(requests);
    var noted := Note(requests);
    if noted.Some? {
      var l := noted.value;
      if NewRouter(l.s, outcome) { SubscribedAs(l.s, server, space, outcome); }
      AddingNeedsOnlyASubscription(l.s, server, space, outcome);
      PresentIsThere(l.s, l.entered, l.left, member);
    }
  }
}
