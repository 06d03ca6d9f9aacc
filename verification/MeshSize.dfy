/** The exact mesh of a space whose joins complete one at a time, whatever other spaces do in between. */
module MeshSize {
  import opened Common
  import opened Mesh
  import opened MeshRuns
  import opened MeshResults
  import opened MeshCounts

  /** The allocator's records on one router. */
  ghost function Records(s: Coordinator, router: int): set<int> {
    set t | t in s.transports && t in s.transportObjects && s.transportObjects[t].router == router
  }

  ghost function Producers(s: Coordinator, router: int): set<int> {
    set t | t in Records(s, router) && s.transportObjects[t].source == None
  }

  // ----- Counting -----

  ghost function Square(ids: set<int>, all: set<int>): set<(int, int)> {
    set x, y | x in ids && y in all :: (x, y)
  }

  lemma {:induction false} RowSize(x: int, all: set<int>)
    ensures |Square({x}, all)| == |all|
    decreases |all|
  {
    if all == {} {
      assert Square({x}, all) == {};
    } else {
      assert (forall y: int :: y !in all) ==> all == {};
      var y: int :| y in all;
      RowSize(x, all - {y});
      assert Square({x}, all) == Square({x}, all - {y}) + {(x, y)};
    }
  }

  lemma {:induction false} SquareSize(ids: set<int>, all: set<int>)
    ensures |Square(ids, all)| == |ids| * |all|
    decreases |ids|
  {
    if ids == {} {
      assert Square(ids, all) == {};
    } else {
      assert (forall x: int :: x !in ids) ==> ids == {};
      var x: int :| x in ids;
      RowSize(x, all);
      SquareSize(ids - {x}, all);
      assert Square(ids, all) == Square(ids - {x}, all) + Square({x}, all);
      assert |ids| * |all| == (|ids| - 1) * |all| + |all|;
    }
  }

  ghost predicate OneToOne<T(!new)>(f: map<int, T>) {
    forall a, b :: a in f && b in f && f[a] == f[b] ==> a == b
  }

  lemma {:induction false} SameSize<T(!new)>(f: map<int, T>, image: set<T>)
    requires OneToOne(f) && forall y :: y in image <==> exists a :: a in f && f[a] == y
    ensures |f.Keys| == |image|
    decreases |f.Keys|
  {
    if f.Keys == {} {
      assert image == {};
    } else {
      assert (forall a: int :: a !in f.Keys) ==> f.Keys == {};
      var a: int :| a in f.Keys;
      var g, rest := f - {a}, image - {f[a]};
      forall y ensures y in rest <==> exists b :: b in g && g[b] == y {
        if y in rest {
          var b :| b in f && f[b] == y;
          assert b in g && g[b] == y;
        }
      }
      SameSize(g, rest);
      assert g.Keys == f.Keys - {a};
    }
  }

  // ----- Whose record it is -----

  /** Who owns the transport and whom it consumes from; a producer transport counts as its owner's own. */
  ghost function Ends(s: Coordinator, t: int): (int, int)
    requires t in s.transportObjects
             && (s.transportObjects[t].source.Some? ==> s.transportObjects[t].source.value in s.transportObjects)
  {
    var tr := s.transportObjects[t];
    (tr.owner, match tr.source case None => tr.owner case Some(p) => s.transportObjects[p].owner)
  }

  /** The space runs on a live router, everybody who ever joined it is there, and nobody's mesh loop is to come. */
  ghost predicate Settled(s: Coordinator, done: seq<Step>, space: string) {
    && History(s, done) && InOrder(s, done, space) && space in s.spaces && space in s.routerOf
    && s.spaces[space] <= s.memberObjects.Keys
    && forall m :: m in s.spaces[space] ==> !Due(s, m)
  }

  lemma {:induction false} OwnerIsThere(s: Coordinator, done: seq<Step>, space: string, t: int)
    requires Settled(s, done, space) && t in s.transportObjects && s.transportObjects[t].router == s.routerOf[space]
    requires s.transportObjects[t].source == None
    ensures s.transportObjects[t].owner in s.spaces[space]
            && s.memberObjects[s.transportObjects[t].owner].producer == Some(t)
  {
    assert TransportOk(s, t) && MemberOk(s, s.transportObjects[t].owner);
  }

  lemma {:induction false} EndsAreMembers(s: Coordinator, done: seq<Step>, space: string, t: int)
    requires Settled(s, done, space) && t in Records(s, s.routerOf[space])
    ensures s.transportObjects[t].source.Some? ==> s.transportObjects[t].source.value in s.transportObjects
    ensures Ends(s, t).0 in s.spaces[space] && Ends(s, t).1 in s.spaces[space]
    ensures if s.transportObjects[t].source == None
            then Ends(s, t).0 == Ends(s, t).1 && s.memberObjects[Ends(s, t).0].producer == Some(t)
            else Ends(s, t).0 != Ends(s, t).1 && t in LinkSet(s, Ends(s, t).0, Ends(s, t).1)
  {
    assert TransportOk(s, t);
    match s.transportObjects[t].source
    case None => OwnerIsThere(s, done, space, t);
    case Some(p) =>
      OwnerIsThere(s, done, space, p);
      assert ConsumerWithinSpace(s, t);
  }

  /** Two members of a settled space have exactly one transport in each direction. */
  lemma {:induction false} OneEachWay(s: Coordinator, done: seq<Step>, space: string, x: int, y: int)
    requires Settled(s, done, space) && x in s.spaces[space] && y in s.spaces[space] && x != y
    ensures |LinkSet(s, x, y)| == 1
  {
    assert MemberOk(s, x) && MemberOk(s, y);
    assert Pair(s, x, y) && CountOk(s, done, x, y);
    assert OrderOk(done, if x < y then x else y, if x < y then y else x);
  }

  lemma {:induction false} TheOnlyOne(ids: set<int>, a: int, b: int)
    requires |ids| == 1 && a in ids && b in ids
    ensures a == b
  {
    assert |ids - {a}| == 0;
    assert b !in ids - {a};
  }

  lemma {:induction false} EndsTellRecordsApart(s: Coordinator, done: seq<Step>, space: string, a: int, b: int)
    requires Settled(s, done, space) && a in Records(s, s.routerOf[space]) && b in Records(s, s.routerOf[space])
    requires s.transportObjects[a].source.Some? ==> s.transportObjects[a].source.value in s.transportObjects
    requires s.transportObjects[b].source.Some? ==> s.transportObjects[b].source.value in s.transportObjects
    requires Ends(s, a) == Ends(s, b)
    ensures a == b
  {
    EndsAreMembers(s, done, space, a);
    EndsAreMembers(s, done, space, b);
    var ends := Ends(s, a);
    if ends.0 != ends.1 {
      OneEachWay(s, done, space, ends.0, ends.1);
      TheOnlyOne(LinkSet(s, ends.0, ends.1), a, b);
    }
  }

  /** Each ordered pair, a member with itself included, has a record with these ends. */
  lemma {:induction false} EveryPairHasARecord(s: Coordinator, done: seq<Step>, space: string, x: int, y: int)
    returns (t: int)
    requires Settled(s, done, space) && x in s.spaces[space] && y in s.spaces[space]
    ensures t in Records(s, s.routerOf[space])
    ensures s.transportObjects[t].source.Some? ==> s.transportObjects[t].source.value in s.transportObjects
    ensures Ends(s, t) == (x, y)
  {
    assert MemberOk(s, x) && MemberOk(s, y);
    if x == y {
      t := s.memberObjects[x].producer.value;
    } else {
      OneEachWay(s, done, space, x, y);
      assert LinkSet(s, x, y) != {};
      t :| t in LinkSet(s, x, y);
    }
    assert TransportOk(s, t);
  }

  ghost function EndsOf(s: Coordinator, records: set<int>): map<int, (int, int)> {
    map t | t in records && t in s.transportObjects
            && (s.transportObjects[t].source.Some? ==> s.transportObjects[t].source.value in s.transportObjects) ::
                  Ends(s, t)
  }

  lemma {:induction false} RecordsFormASquare(s: Coordinator, done: seq<Step>, space: string)
    requires Settled(s, done, space)
    ensures |Records(s, s.routerOf[space])| == |s.spaces[space]| * |s.spaces[space]|
  {
    var records, members := Records(s, s.routerOf[space]), s.spaces[space];
    var f := EndsOf(s, records);
    forall t | t in records ensures t in f && f[t] in Square(members, members) { EndsAreMembers(s, done, space, t); }
    assert f.Keys == records;
    forall a, b | a in f && b in f && f[a] == f[b] ensures a == b { EndsTellRecordsApart(s, done, space, a, b); }
    forall y ensures y in Square(members, members) <==> exists a :: a in f && f[a] == y {
      if y in Square(members, members) {
        var t := EveryPairHasARecord(s, done, space, y.0, y.1);
        assert t in f && f[t] == y;
      }
    }
    SameSize(f, Square(members, members));
    SquareSize(members, members);
  }

  ghost function OwnersOf(s: Coordinator, records: set<int>): map<int, int> {
    map t | t in records && t in s.transportObjects :: s.transportObjects[t].owner
  }

  lemma {:induction false} OneProducerEach(s: Coordinator, done: seq<Step>, space: string)
    requires Settled(s, done, space)
    ensures |Producers(s, s.routerOf[space])| == |s.spaces[space]|
    ensures forall m :: m in s.spaces[space] ==>
              s.memberObjects[m].producer.Some? && s.memberObjects[m].producer.value in Producers(s, s.routerOf[space])
    ensures forall t :: t in Producers(s, s.routerOf[space]) ==>
              t in s.transportObjects && s.transportObjects[t].owner in s.spaces[space]
              && s.memberObjects[s.transportObjects[t].owner].producer == Some(t)
  {
    var producers, members := Producers(s, s.routerOf[space]), s.spaces[space];
    var f := OwnersOf(s, producers);
    assert f.Keys == producers;
    forall t | t in producers
      ensures f[t] in members && s.memberObjects[f[t]].producer == Some(t)
    {
      OwnerIsThere(s, done, space, t);
    }
    forall m | m in members
      ensures s.memberObjects[m].producer.Some? && s.memberObjects[m].producer.value in producers
              && f[s.memberObjects[m].producer.value] == m
    {
      assert MemberOk(s, m);
      assert TransportOk(s, s.memberObjects[m].producer.value);
    }
    forall y ensures y in members <==> exists a :: a in f && f[a] == y {
      if y in members { assert f[s.memberObjects[y].producer.value] == y; }
    }
    SameSize(f, members);
  }

  // ----- The result -----

  ghost predicate ExactMesh(s: Coordinator, space: string)
    requires space in s.spaces && space in s.routerOf
  {
    var members, router := s.spaces[space], s.routerOf[space];
    && |Records(s, router)| == |members| * |members|
    && |Producers(s, router)| == |members|
    && (forall m :: m in members ==>
          m in s.memberObjects && s.memberObjects[m].producer.Some?
              && s.memberObjects[m].producer.value in Producers(s, router))
    && (forall x, y :: x in members && y in members && x != y ==>
          |LinkSet(s, x, y)| == 1 && LinkSet(s, x, y) <= Records(s, router))
  }

  lemma {:induction false} LinksAreRecords(s: Coordinator, done: seq<Step>, space: string, x: int, y: int)
    requires Settled(s, done, space) && x in s.spaces[space] && y in s.spaces[space] && x != y
    ensures |LinkSet(s, x, y)| == 1 && LinkSet(s, x, y) <= Records(s, s.routerOf[space])
  {
    OneEachWay(s, done, space, x, y);
    assert MemberOk(s, x) && MemberOk(s, y);
    forall t | t in LinkSet(s, x, y) ensures t in Records(s, s.routerOf[space]) { assert TransportOk(s, t); }
  }

  /** Whatever other spaces do in between: when a space's joins complete one at a time, nobody leaves it, and the last
      mesh loop has run, its router has exactly k * k records for k members: one producer transport for each member,
      and one consumer transport for each ordered pair. */
  lemma {:induction false} ExactMeshSize(steps: seq<Step>, space: string)
    ensures OrderlyRun(Empty(), steps, space) ==>
              match Run(steps)
              case None => true
              case Some(s) =>
                space in s.spaces && space in s.routerOf && (forall m :: m in s.spaces[space] ==> !Due(s, m)) ==>
                    ExactMesh(s, space)
  {
    if OrderlyRun(Empty(), steps, space) && Run(steps).Some? {
      var s := Run(steps).value;
      RunKeepsHistory(Empty(), [], steps);
      RunKeepsOrder(Empty(), [], steps, space);
      assert [] + steps == steps;
      if space in s.spaces && space in s.routerOf && forall m :: m in s.spaces[space] ==> !Due(s, m) {
        MembersAreObjects(s, space);
        RecordsFormASquare(s, steps, space);
        OneProducerEach(s, steps, space);
        forall x, y | x in s.spaces[space] && y in s.spaces[space] && x != y
          ensures |LinkSet(s, x, y)| == 1 && LinkSet(s, x, y) <= Records(s, s.routerOf[space])
        {
          LinksAreRecords(s, steps, space, x, y);
        }
      }
    }
  }

  lemma {:induction false} MembersAreObjects(s: Coordinator, space: string)
    requires Inv(s) && space in s.spaces
    ensures s.spaces[space] <= s.memberObjects.Keys
  {}
}
