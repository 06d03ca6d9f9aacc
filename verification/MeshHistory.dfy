/** The coordinator's members, statuses, consumers and records over every run, told from the joins and leaves, the
    answers to transport requests, the mesh loops and the removed routers. */
module MeshHistory {
  import opened Common
  import opened Mesh
  import opened MeshRuns
  import opened MeshResults

  datatype Ledger = Ledger(
    s: Coordinator,
    joined: seq<string>,        // the space of every member that ever joined, in order
    left: set<int>,
    answered: map<int, bool>,   // transports whose request was answered, and how
    late: set<int>,             // acknowledged when their source's record was gone
    looped: set<int>,           // members whose mesh loop ran
    connected: set<int>,
    records: set<int>,          // transports requested, and not released since
    held: map<(int, int), int>, // who consumes from whom, and with which transport
    homes: map<string, int>,    // the router each space was opened on
    running: set<int>)          // routers not removed yet

  ghost function Created(s: Coordinator, s': Coordinator): set<int> {
    s'.transportObjects.Keys - s.transportObjects.Keys
  }

  /** The transport's source has no record any more. */
  ghost predicate SourceReleased(l: Ledger, t: int)
    requires t in l.s.transportObjects
  {
    l.s.transportObjects[t].source.Some? && l.s.transportObjects[t].source.value !in l.records
  }

  /** What a leaving member takes along: its producer transport and the consumers it holds. */
  ghost predicate TakenAlong(l: Ledger, member: int, t: int) {
    || (t in l.s.transportObjects && l.s.transportObjects[t].owner == member && l.s.transportObjects[t].source.None?)
    || exists y :: (member, y) in l.held && l.held[(member, y)] == t
  }

  ghost function Answered(l: Ledger, t: int, ok: bool): Ledger
    requires t in l.s.transportObjects
  {
    var l1 := l.(answered := l.answered[t := ok]);
    if !ok then l1
    else
      match l.s.transportObjects[t].source
      case None => l1
      case Some(p) =>
        if p !in l.records || p !in l.s.transportObjects then l1.(late := l.late + {t})
        else l1.(held := l.held[(l.s.transportObjects[t].owner, l.s.transportObjects[p].owner) := t])
  }

  /** Removing a router that is not there removes no record. */
  ghost function RecordsWithout(l: Ledger, router: int): set<int> {
    if router !in l.running then l.records
    else set t | t in l.records && !(t in l.s.transportObjects && l.s.transportObjects[t].router == router)
  }

  ghost function Noted(l: Ledger, step: Step): Ledger
    requires Inv(l.s) && Possible(l.s, step)
  {
    var s' := Do(l.s, step);
    var l1 := l.(s := s', records := l.records + Created(l.s, s'));
    match step
    case OpenSpace(space, router) =>
      l.(s := s', homes := l.homes[space := router], running := l.running + {router})
    case Join(space) => l1.(joined := l.joined + [space])
    case MeshLoop(member, _) => l1.(looped := l.looped + {member})
    case Answer(t, ok) => Answered(l, t, ok).(s := s')
    case Leave(member) =>
      l.(s := s', left := l.left + {member}, records := set t | t in l.records && !TakenAlong(l, member, t))
    case RemoveRouter(router) =>
      l.(s := s', running := l.running - {router}, records := RecordsWithout(l, router))
    case Connect(t) => l.(s := s', connected := l.connected + {t})
  }

  ghost function Start(): Ledger {
    Ledger(Empty(), [], {}, map[], {}, {}, {}, {}, map[], map[], {})
  }

  ghost function NoteFrom(l: Ledger, steps: seq<Step>): (r: Option<Ledger>)
    requires Inv(l.s)
    ensures match RunFrom(l.s, steps) case None => r.None? case Some(s) => r.Some? && r.value.s == s
    decreases |steps|
  {
    if steps == [] then Some(l)
    else if !Possible(l.s, steps[0]) then None
    else
      StepKeepsInv(l.s, steps[0]);
      NoteFrom(Noted(l, steps[0]), steps[1..])
  }

  // ----- Told -----

  ghost predicate MemberTold(l: Ledger, m: int) {
    && (m in l.s.memberObjects <==> 0 <= m < |l.joined|)
    && (m in l.s.memberObjects ==> l.s.memberObjects[m].space == l.joined[m])
    && (m in l.s.members <==> 0 <= m < |l.joined| && m !in l.left)
  }

  ghost predicate InSpaceTold(l: Ledger, space: string, m: int)
    requires space in l.s.spaces
  {
    m in l.s.spaces[space] <==> 0 <= m < |l.joined| && l.joined[m] == space && m !in l.left
  }

  ghost predicate MembersTold(l: Ledger) {
    && l.s.nextMember == |l.joined| && (forall m :: m in l.left ==> 0 <= m < |l.joined|)
    && (forall m :: MemberTold(l, m))
    && (forall space, m :: space in l.s.spaces ==> InSpaceTold(l, space, m))
  }

  /** A transport is pending until it is answered; its status and whether it failed are what the answer said. */
  ghost predicate TransportTold(l: Ledger, t: int)
    requires t in l.s.transportObjects
  {
    var status := l.s.transportObjects[t].status;
    && (t in l.s.requested <==> t !in l.answered)
    && (status != Unallocated <==> t in l.answered && l.answered[t])
    && (status == Connected <==> t in l.connected)
    && (t in l.s.nacked <==> t in l.answered && (!l.answered[t] || t in l.late))
  }

  ghost predicate TransportsTold(l: Ledger) {
    && l.answered.Keys <= l.s.transportObjects.Keys && l.late <= l.s.transportObjects.Keys
    && l.connected <= l.s.transportObjects.Keys
    && (forall t :: t in l.late ==> t in l.answered && l.answered[t])
    && (forall t :: t in l.s.transportObjects ==> TransportTold(l, t))
  }

  /** A member's mesh loop is due once its producer transport was acknowledged, until it ran. */
  ghost predicate DueTold(l: Ledger, m: int) {
    m in l.s.meshDue <==> m !in l.looped && ProducerAnswered(l, m)
  }

  ghost predicate LoopsTold(l: Ledger) {
    (forall m :: DueTold(l, m)) && forall m :: m in l.looped ==> ProducerAnswered(l, m)
  }

  ghost predicate ProducerAnswered(l: Ledger, m: int) {
    && m in l.s.memberObjects && l.s.memberObjects[m].producer.Some?
    && var p := l.s.memberObjects[m].producer.value; p in l.answered && l.answered[p]
  }

  ghost predicate HeldTold(l: Ledger, m: int, y: int)
    requires m in l.s.memberObjects
  {
    && (y in l.s.memberObjects[m].consumers <==> (m, y) in l.held)
    && ((m, y) in l.held ==> y in l.s.memberObjects[m].consumers && l.s.memberObjects[m].consumers[y] == l.held[(m, y)])
  }

  ghost predicate ConsumersTold(l: Ledger) {
    && (forall m, y :: m in l.s.memberObjects ==> HeldTold(l, m, y))
    && (forall m, y :: (m, y) in l.held ==> m in l.s.memberObjects)
  }

  ghost predicate LedgerOk(l: Ledger) {
    && Inv(l.s) && MembersTold(l) && TransportsTold(l) && LoopsTold(l) && ConsumersTold(l)
    && l.s.transports == l.records && RoutersTold(l)
  }

  ghost predicate RoutersTold(l: Ledger) {
    l.s.routerOf == l.homes && l.s.routers == l.running
  }

  // ----- Members -----

  lemma {:induction false} MembersStay(l: Ledger, l': Ledger)
    requires MembersTold(l) && l'.joined == l.joined && l'.left == l.left
    requires l'.s.nextMember == l.s.nextMember && l'.s.members == l.s.members && l'.s.spaces == l.s.spaces
    requires l'.s.memberObjects.Keys == l.s.memberObjects.Keys
    requires forall m :: m in l.s.memberObjects ==> l'.s.memberObjects[m].space == l.s.memberObjects[m].space
    ensures MembersTold(l')
  {
    forall m ensures MemberTold(l', m) { assert MemberTold(l, m); }
    forall space, m | space in l'.s.spaces ensures InSpaceTold(l', space, m) { assert InSpaceTold(l, space, m); }
  }

  lemma {:induction false} MembersAfterOpening(l: Ledger, space: string, router: int)
    requires Inv(l.s) && MembersTold(l) && Possible(l.s, OpenSpace(space, router))
    ensures MembersTold(Noted(l, OpenSpace(space, router)))
  {
    var l' := Noted(l, OpenSpace(space, router));
    forall m ensures MemberTold(l', m) { assert MemberTold(l, m); }
    forall k, m | k in l'.s.spaces ensures InSpaceTold(l', k, m) {
      assert MemberTold(l, m);
      if k == space {
        if m in l.s.memberObjects { assert MemberOk(l.s, m); }
      } else {
        assert InSpaceTold(l, k, m);
      }
    }
  }

  lemma {:induction false} MembersAfterJoining(l: Ledger, space: string)
    requires Inv(l.s) && MembersTold(l) && Possible(l.s, Join(space))
    ensures MembersTold(Noted(l, Join(space)))
  {
    var l' := Noted(l, Join(space));
    forall m ensures MemberTold(l', m) { assert MemberTold(l, m); }
    forall k, m | k in l'.s.spaces ensures InSpaceTold(l', k, m) { assert InSpaceTold(l, k, m) && MemberTold(l, m); }
  }

  lemma {:induction false} MembersAfterLeaving(l: Ledger, member: int)
    requires Inv(l.s) && MembersTold(l) && Possible(l.s, Leave(member))
    ensures MembersTold(Noted(l, Leave(member)))
  {
    var l' := Noted(l, Leave(member));
    assert MemberTold(l, member) && MemberOk(l.s, member);
    forall m ensures MemberTold(l', m) { assert MemberTold(l, m); }
    forall k, m | k in l'.s.spaces ensures InSpaceTold(l', k, m) { assert InSpaceTold(l, k, m) && MemberTold(l, m); }
  }

  // ----- New transports -----

  /** Old transports stay; a new one is requested, unallocated and on record. */
  ghost predicate Grown(s: Coordinator, s': Coordinator) {
    && s.transportObjects.Keys <= s'.transportObjects.Keys
    && (forall t :: t in s.transportObjects ==>
          t in s'.transportObjects && s'.transportObjects[t] == s.transportObjects[t])
    && (forall t :: t in Created(s, s') ==> s'.transportObjects[t].status == Unallocated)
    && s'.requested == s.requested + Created(s, s') && s'.transports == s.transports + Created(s, s')
    && s'.nacked == s.nacked
  }

  /** Nothing about the members differs. */
  ghost predicate SameMembers(s: Coordinator, s': Coordinator) {
    && s'.memberObjects == s.memberObjects && s'.members == s.members && s'.spaces == s.spaces
    && s'.nextMember == s.nextMember && s'.meshDue == s.meshDue
    && s'.routers == s.routers && s'.routerOf == s.routerOf
  }

  lemma {:induction false} GrownTwice(s: Coordinator, s1: Coordinator, s2: Coordinator)
    requires Grown(s, s1) && Grown(s1, s2)
    ensures Grown(s, s2)
  {
    assert Created(s, s2) == Created(s, s1) + Created(s1, s2);
  }

  lemma {:induction false} TryingGrows(s: Coordinator, router: int, member: int, source: int)
    requires IdsBelowNext(s) && router in s.routerObjects && member in s.memberObjects
    ensures var s' := TryAllocate(s, router, member, source); Grown(s, s') && SameMembers(s, s') && IdsBelowNext(s')
  {
    var s' := TryAllocate(s, router, member, source);
    assert s' != s ==> Created(s, s') == {s.nextTransport};
    assert s' == s ==> Created(s, s') == {};
  }

  lemma {:induction false} TurnGrows(s: Coordinator, router: int, member: int, producer: int, other: int)
    requires IdsBelowNext(s) && router in s.routerObjects && member in s.memberObjects && other in s.memberObjects
    ensures var s' := Linked(s, router, member, producer, other);
            Grown(s, s') && SameMembers(s, s') && IdsBelowNext(s')
  {
    if other == member {
      assert Created(s, s) == {};
    } else {
      var s1 := TryAllocate(s, router, other, producer);
      TryingGrows(s, router, other, producer);
      if s.memberObjects[other].producer.Some? {
        TryingGrows(s1, router, member, s.memberObjects[other].producer.value);
        GrownTwice(s, s1, TryAllocate(s1, router, member, s.memberObjects[other].producer.value));
      }
    }
  }

  lemma {:induction false} LoopGrowsBy(s: Coordinator, router: int, member: int, producer: int, others: seq<int>)
    requires IdsBelowNext(s) && router in s.routerObjects && member in s.memberObjects
    requires forall i :: 0 <= i < |others| ==> others[i] in s.memberObjects
    ensures var s' := LinkedAll(s, router, member, producer, others);
            Grown(s, s') && SameMembers(s, s') && IdsBelowNext(s')
    decreases |others|
  {
    if others == [] {
      assert Created(s, s) == {};
    } else {
      var n := |others| - 1;
      var s1 := LinkedAll(s, router, member, producer, others[..n]);
      LoopGrowsBy(s, router, member, producer, others[..n]);
      TurnGrows(s1, router, member, producer, others[n]);
      GrownTwice(s, s1, Linked(s1, router, member, producer, others[n]));
    }
  }

  lemma {:induction false} MeshLoopGrows(s: Coordinator, member: int, others: seq<int>)
    requires Inv(s) && Possible(s, MeshLoop(member, others))
    ensures var s' := Do(s, MeshLoop(member, others));
            && Grown(s, s') && s'.meshDue == s.meshDue - {member} && SameMembers(s, s'.(meshDue := s.meshDue))
  {
    assert MemberOk(s, member);
    var p := s.memberObjects[member].producer.value;
    assert TransportOk(s, p);
    IdsAreBelowNext(s);
    LoopGrowsBy(s, s.transportObjects[p].router, member, p, others);
  }

  lemma {:induction false} JoiningGrows(s: Coordinator, space: string)
    requires Inv(s) && Possible(s, Join(space))
    ensures Grown(s, Do(s, Join(space))) && Created(s, Do(s, Join(space))) == {s.nextTransport}
  {
    IdsAreNew(s);
  }

  lemma {:induction false} TransportsGrow(l: Ledger, l': Ledger)
    requires TransportsTold(l) && Grown(l.s, l'.s) && l.s.nacked <= l.s.transportObjects.Keys
    requires l.s.requested <= l.s.transportObjects.Keys
    requires l'.answered == l.answered && l'.late == l.late && l'.connected == l.connected
    ensures TransportsTold(l')
  {
    forall t | t in l'.s.transportObjects ensures TransportTold(l', t) {
      if t in l.s.transportObjects { assert TransportTold(l, t); } else { assert t in Created(l.s, l'.s); }
    }
  }

  // ----- Answers -----

  lemma {:induction false} AnswerTold(l: Ledger, t: int, ok: bool)
    requires LedgerOk(l) && t in l.s.requested
    ensures t in l.s.transportObjects && TransportsTold(Noted(l, Answer(t, ok)))
  {
    var l' := Noted(l, Answer(t, ok));
    assert TransportOk(l.s, t) && TransportTold(l, t);
    forall k | k in l'.s.transportObjects ensures TransportTold(l', k) { assert TransportTold(l, k); }
  }

  lemma {:induction false} LoopsAfterAnswer(l: Ledger, t: int, ok: bool)
    requires LedgerOk(l) && t in l.s.requested
    ensures LoopsTold(Noted(l, Answer(t, ok)))
  {
    var l' := Noted(l, Answer(t, ok));
    assert TransportOk(l.s, t) && TransportTold(l, t);
    forall m | m in l'.looped ensures ProducerAnswered(l', m) { assert ProducerAnswered(l, m); }
    forall m ensures DueTold(l', m) {
      assert DueTold(l, m);
      if m in l.s.memberObjects { assert MemberOk(l.s, m); }
      assert m in l.looped ==> ProducerAnswered(l, m);
    }
  }

  lemma {:induction false} ConsumersAfterAnswer(l: Ledger, t: int, ok: bool)
    requires LedgerOk(l) && t in l.s.requested
    ensures ConsumersTold(Noted(l, Answer(t, ok))) && Noted(l, Answer(t, ok)).records == l.records
    ensures Do(l.s, Answer(t, ok)).transports == l.s.transports
  {
    var l' := Noted(l, Answer(t, ok));
    assert TransportOk(l.s, t);
    forall m, y | m in l'.s.memberObjects ensures HeldTold(l', m, y) { assert HeldTold(l, m, y); }
  }

  // ----- The other steps -----

  /** Statuses, requests and failures stay. */
  lemma {:induction false} TransportsStay(l: Ledger, l': Ledger)
    requires TransportsTold(l) && l'.s.transportObjects == l.s.transportObjects
    requires l'.s.requested == l.s.requested && l'.s.nacked == l.s.nacked
    requires l'.answered == l.answered && l'.late == l.late && l'.connected == l.connected
    ensures TransportsTold(l')
  {
    forall t | t in l'.s.transportObjects ensures TransportTold(l', t) { assert TransportTold(l, t); }
  }

  lemma {:induction false} TransportsAfterConnecting(l: Ledger, t: int)
    requires Inv(l.s) && TransportsTold(l) && Possible(l.s, Connect(t))
    ensures TransportsTold(Noted(l, Connect(t)))
  {
    var l' := Noted(l, Connect(t));
    forall k | k in l'.s.transportObjects ensures TransportTold(l', k) { assert TransportTold(l, k); }
  }

  lemma {:induction false} LoopsStay(l: Ledger, l': Ledger)
    requires LoopsTold(l) && l'.s.memberObjects == l.s.memberObjects && l'.s.meshDue == l.s.meshDue
    requires l'.answered == l.answered && l'.looped == l.looped
    ensures LoopsTold(l')
  {
    forall m ensures DueTold(l', m) { assert DueTold(l, m); }
    forall m | m in l'.looped ensures ProducerAnswered(l', m) { assert ProducerAnswered(l, m); }
  }

  lemma {:induction false} LoopsAfterLoop(l: Ledger, l': Ledger, member: int)
    requires LoopsTold(l) && l'.s.memberObjects == l.s.memberObjects && l'.s.meshDue == l.s.meshDue - {member}
    requires l'.answered == l.answered && l'.looped == l.looped + {member} && member in l.s.meshDue
    ensures LoopsTold(l')
  {
    assert DueTold(l, member);
    forall m ensures DueTold(l', m) { assert DueTold(l, m); }
    forall m | m in l'.looped ensures ProducerAnswered(l', m) { assert m in l.looped ==> ProducerAnswered(l, m); }
  }

  lemma {:induction false} LoopsAfterJoining(l: Ledger, space: string)
    requires LedgerOk(l) && Possible(l.s, Join(space))
    ensures LoopsTold(Noted(l, Join(space)))
  {
    var l' := Noted(l, Join(space));
    IdsAreNew(l.s);
    forall m | m in l'.looped ensures ProducerAnswered(l', m) { assert ProducerAnswered(l, m); }
    forall m ensures DueTold(l', m) { assert DueTold(l, m); }
  }

  lemma {:induction false} ConsumersStay(l: Ledger, l': Ledger)
    requires ConsumersTold(l) && l'.s.memberObjects == l.s.memberObjects && l'.held == l.held
    ensures ConsumersTold(l')
  {
    forall m, y | m in l'.s.memberObjects ensures HeldTold(l', m, y) { assert HeldTold(l, m, y); }
  }

  lemma {:induction false} ConsumersAfterJoining(l: Ledger, space: string)
    requires LedgerOk(l) && Possible(l.s, Join(space))
    ensures ConsumersTold(Noted(l, Join(space)))
  {
    var l' := Noted(l, Join(space));
    IdsAreNew(l.s);
    forall m, y | m in l'.s.memberObjects ensures HeldTold(l', m, y) {
      if m in l.s.memberObjects { assert HeldTold(l, m, y); }
    }
  }

  /** A leaving member takes along exactly the records of its producer transport and of the consumers it holds. */
  lemma {:induction false} RecordsAfterLeaving(l: Ledger, member: int)
    requires LedgerOk(l) && Possible(l.s, Leave(member))
    ensures Do(l.s, Leave(member)).transports == Noted(l, Leave(member)).records
  {
    assert MemberOk(l.s, member);
    var own := (match l.s.memberObjects[member].producer case Some(p) => {p} case None => {})
               + l.s.memberObjects[member].consumers.Values;
    forall t | t in l.s.transports ensures t in own <==> TakenAlong(l, member, t) {
      TakenAlongIsOwn(l, member, t);
    }
  }

  lemma {:induction false} TakenAlongIsOwn(l: Ledger, member: int, t: int)
    requires LedgerOk(l) && member in l.s.memberObjects && MemberOk(l.s, member) && t in l.s.transports
    ensures (t == l.s.memberObjects[member].producer.value || t in l.s.memberObjects[member].consumers.Values)
            <==> TakenAlong(l, member, t)
  {
    var consumers := l.s.memberObjects[member].consumers;
    assert TransportOk(l.s, t);
    forall y | y in consumers ensures (member, y) in l.held && l.held[(member, y)] == consumers[y] {
      assert HeldTold(l, member, y);
    }
    if !TakenAlong(l, member, t) {
      assert forall y :: y in consumers ==> consumers[y] != t;
    }
    if y :| (member, y) in l.held && l.held[(member, y)] == t {
      assert HeldTold(l, member, y);
    }
  }

  lemma {:induction false} RecordsAfterRemoval(l: Ledger, router: int)
    requires LedgerOk(l) && Possible(l.s, RemoveRouter(router))
    ensures Do(l.s, RemoveRouter(router)).transports == Noted(l, RemoveRouter(router)).records
  {
    forall t | t in l.s.transports
      ensures t in l.s.routerObjects[router] <==> l.s.transportObjects[t].router == router
    {
      assert TransportOk(l.s, t);
    }
  }

  // ----- Every step -----

  lemma {:induction false} OpeningKeepsLedger(l: Ledger, step: Step)
    requires LedgerOk(l) && Possible(l.s, step) && step.OpenSpace?
    ensures LedgerOk(Noted(l, step))
  {
    var l' := Noted(l, step);
    StepKeepsInv(l.s, step);
    MembersAfterOpening(l, step.space, step.router);
    TransportsStay(l, l');
    LoopsStay(l, l');
    ConsumersStay(l, l');
  }

  lemma {:induction false} JoiningKeepsLedger(l: Ledger, step: Step)
    requires LedgerOk(l) && Possible(l.s, step) && step.Join?
    ensures LedgerOk(Noted(l, step))
  {
    StepKeepsInv(l.s, step);
    MembersAfterJoining(l, step.space);
    JoiningGrows(l.s, step.space);
    TransportsGrow(l, Noted(l, step));
    LoopsAfterJoining(l, step.space);
    ConsumersAfterJoining(l, step.space);
  }

  lemma {:induction false} LoopingKeepsLedger(l: Ledger, step: Step)
    requires LedgerOk(l) && Possible(l.s, step) && step.MeshLoop?
    ensures LedgerOk(Noted(l, step))
  {
    var l' := Noted(l, step);
    StepKeepsInv(l.s, step);
    MeshLoopGrows(l.s, step.member, step.others);
    MembersStay(l, l');
    TransportsGrow(l, l');
    LoopsAfterLoop(l, l', step.member);
    ConsumersStay(l, l');
  }

  lemma {:induction false} AnsweringKeepsLedger(l: Ledger, step: Step)
    requires LedgerOk(l) && Possible(l.s, step) && step.Answer?
    ensures LedgerOk(Noted(l, step))
  {
    StepKeepsInv(l.s, step);
    MembersAfterAnswer(l, step.t, step.ok);
    AnswerTold(l, step.t, step.ok);
    LoopsAfterAnswer(l, step.t, step.ok);
    ConsumersAfterAnswer(l, step.t, step.ok);
  }

  lemma {:induction false} MembersAfterAnswer(l: Ledger, t: int, ok: bool)
    requires Inv(l.s) && MembersTold(l) && t in l.s.requested && RoutersTold(l)
    ensures MembersTold(Noted(l, Answer(t, ok))) && RoutersTold(Noted(l, Answer(t, ok)))
  {
    assert TransportOk(l.s, t);
    MembersStay(l, Noted(l, Answer(t, ok)));
  }

  lemma {:induction false} LeavingKeepsLedger(l: Ledger, step: Step)
    requires LedgerOk(l) && Possible(l.s, step) && step.Leave?
    ensures LedgerOk(Noted(l, step))
  {
    var l' := Noted(l, step);
    StepKeepsInv(l.s, step);
    MembersAfterLeaving(l, step.member);
    TransportsStay(l, l');
    LoopsStay(l, l');
    ConsumersStay(l, l');
    RecordsAfterLeaving(l, step.member);
  }

  /** Removing a router touches records and routers only. */
  lemma {:induction false} RemovalSpares(l: Ledger, router: int)
    requires Inv(l.s) && Possible(l.s, RemoveRouter(router))
    ensures var s, l' := l.s, Noted(l, RemoveRouter(router));
            && l' == l.(s := l'.s, running := l.running - {router}, records := l'.records)
            && l'.s == s.(transports := l'.s.transports, routers := s.routers - {router})
  {
    if router !in l.s.routers { assert l.s.routers - {router} == l.s.routers; }
  }

  lemma {:induction false} RemovingKeepsLedger(l: Ledger, step: Step)
    requires LedgerOk(l) && Possible(l.s, step) && step.RemoveRouter?
    ensures LedgerOk(Noted(l, step))
  {
    StepKeepsInv(l.s, step);
    RemovalSpares(l, step.router);
    RecordsAfterRemoval(l, step.router);
    RestStays(l, Noted(l, step));
  }

  lemma {:induction false} RestStays(l: Ledger, l': Ledger)
    requires LedgerOk(l) && l'.s == l.s.(transports := l'.s.transports, routers := l'.s.routers)
    requires l' == l.(s := l'.s, running := l'.running, records := l'.records)
    ensures MembersTold(l') && TransportsTold(l') && LoopsTold(l') && ConsumersTold(l')
  {
    MembersStay(l, l');
    TransportsStay(l, l');
    LoopsStay(l, l');
    ConsumersStay(l, l');
  }

  lemma {:induction false} ConnectingKeepsLedger(l: Ledger, step: Step)
    requires LedgerOk(l) && Possible(l.s, step) && step.Connect?
    ensures LedgerOk(Noted(l, step))
  {
    var l' := Noted(l, step);
    StepKeepsInv(l.s, step);
    MembersStay(l, l');
    TransportsAfterConnecting(l, step.t);
    LoopsStay(l, l');
    ConsumersStay(l, l');
  }

  lemma {:induction false} StepKeepsLedger(l: Ledger, step: Step)
    requires LedgerOk(l) && Possible(l.s, step)
    ensures LedgerOk(Noted(l, step))
  {
    match step
    case OpenSpace(_, _) => OpeningKeepsLedger(l, step);
    case Join(_) => JoiningKeepsLedger(l, step);
    case Answer(_, _) => AnsweringKeepsLedger(l, step);
    case MeshLoop(_, _) => LoopingKeepsLedger(l, step);
    case Leave(_) => LeavingKeepsLedger(l, step);
    case RemoveRouter(_) => RemovingKeepsLedger(l, step);
    case Connect(_) => ConnectingKeepsLedger(l, step);
  }

  lemma {:induction false} EveryRunKeepsLedger(l: Ledger, steps: seq<Step>)
    requires LedgerOk(l)
    ensures match NoteFrom(l, steps) case None => true case Some(l') => LedgerOk(l')
    decreases |steps|
  {
    if steps != [] && Possible(l.s, steps[0]) {
      StepKeepsLedger(l, steps[0]);
      EveryRunKeepsLedger(Noted(l, steps[0]), steps[1..]);
    }
  }

  // ----- The result -----

  /** In every run: the members are those that joined and have not left, each in its own space; a transport request is
      pending until it is answered, and status and failure are what the answer, and a connect, said; a mesh loop is due
      from the acknowledgement of the member's producer transport until it ran; a member holds, for each other member,
      the consumer acknowledged last while its source was on record; on record is what was requested and neither left
      with its member nor with its router; and a router is there from the opening of its space until it is removed. */
  lemma {:induction false} EverythingIsTold(steps: seq<Step>)
    ensures match NoteFrom(Start(), steps)
            case None => true
            case Some(l) =>
              && MembersTold(l) && TransportsTold(l) && LoopsTold(l) && ConsumersTold(l)
              && l.s.transports == l.records && RoutersTold(l)
  {
    EveryRunKeepsLedger(Start(), steps);
  }
}
