/** The space service as the source writes it: a class with a two-way subscription index of nested maps and sets.

    The ghost field `pairs` is the relation both maps stand for; `View` is the state of `Lifecycle`. */
module SpaceServices {
  import opened Common
  import opened Lifecycle
  import opened RouterAllocators

  /** `index` lists, under each key, the partners of that key; it has no empty entry. */
  ghost predicate ByServer(index: map<int, set<string>>, pairs: set<(int, string)>) {
    && (forall k :: k in index ==> index[k] != {})
    && (forall server: int, space: string :: (server, space) in pairs <==> server in index && space in index[server])
  }

  ghost predicate BySpace(index: map<string, set<int>>, pairs: set<(int, string)>) {
    && (forall k :: k in index ==> index[k] != {})
    && (forall server: int, space: string :: (server, space) in pairs <==> space in index && server in index[space])
  }

  /** The entry under a space is the true set of its subscribers, so its size is their number; a space without an entry
      has none. */
  lemma {:induction false} EntryIsTheSubscribers(index: map<string, set<int>>, pairs: set<(int, string)>, space: string)
    requires BySpace(index, pairs)
    ensures Subscribers(pairs, space) == if space in index then index[space] else {}
    ensures space in index <==> exists server: int :: (server, space) in pairs
  {
    var entry := if space in index then index[space] else {};
    forall x: int ensures x in Subscribers(pairs, space) <==> x in entry {
      assert x in Subscribers(pairs, space) <==> (x, space) in pairs;
    }
    if space in index {
      assert (forall server: int :: server !in entry) ==> entry == {};
      var server: int :| server in entry;
      assert (server, space) in pairs;
    }
  }

  class SpaceService {
    const routerAllocator: RouterAllocator
    var spaces: map<string, Space>
    var spaceSubscriptions: map<int, set<string>>
    var spaceToSubscribedMap: map<string, set<int>>

    ghost var pairs: set<(int, string)>
    ghost var madeFor: map<int, string>
    ghost var ownerOf: map<int, string> // of the member service
    ghost var nextMember: nat

    constructor (routerAllocator: RouterAllocator)
      requires routerAllocator.routers == {}
      ensures this.routerAllocator == routerAllocator && Valid() && View() == Initial()
    {
      this.routerAllocator := routerAllocator;
      spaces, spaceSubscriptions, spaceToSubscribedMap := map[], map[], map[];
      pairs, madeFor, ownerOf, nextMember := {}, map[], map[], 0;
    }

    ghost function View(): State
      reads this, routerAllocator
    {
      State(spaces, pairs, routerAllocator.routers, madeFor, ownerOf, nextMember)
    }

    /** Both maps hold exactly the recorded pairs, so they are mutual inverses, and neither has an empty entry. */
    ghost predicate IndexOk()
      reads this
    {
      ByServer(spaceSubscriptions, pairs) && BySpace(spaceToSubscribedMap, pairs)
    }

    ghost predicate Valid()
      reads this, routerAllocator, routerAllocator.records
    {
      IndexOk() && routerAllocator.routers <= routerAllocator.records.routers.Keys
    }

    method HasSubscribers(space: string) returns (any: bool)
      requires IndexOk()
      ensures any <==> exists server: int :: (server, space) in pairs
    {
      EntryIsTheSubscribers(spaceToSubscribedMap, pairs, space);
      any := space in spaceToSubscribedMap;
    }

    method IsSubscribed(server: int, space: string) returns (subscribed: bool)
      requires IndexOk()
      ensures subscribed <==> (server, space) in pairs
    {
      if server !in spaceSubscriptions { return false; }
      subscribed := space in spaceSubscriptions[server];
    }

    method SubscriberCount(space: string) returns (count: nat)
      requires IndexOk()
      ensures count == |Subscribers(pairs, space)|
    {
      EntryIsTheSubscribers(spaceToSubscribedMap, pairs, space);
      count := if space in spaceToSubscribedMap then |spaceToSubscribedMap[space]| else 0;
    }

    method Subscribe(server: int, space: string)
      requires IndexOk()
      modifies this`spaceSubscriptions, this`spaceToSubscribedMap, this`pairs
      ensures IndexOk() && pairs == old(pairs) + {(server, space)}
    {
      if server !in spaceSubscriptions { spaceSubscriptions := spaceSubscriptions[server := {}]; }
      spaceSubscriptions := spaceSubscriptions[server := spaceSubscriptions[server] + {space}];
      if space !in spaceToSubscribedMap { spaceToSubscribedMap := spaceToSubscribedMap[space := {}]; }
      spaceToSubscribedMap := spaceToSubscribedMap[space := spaceToSubscribedMap[space] + {server}];
      pairs := pairs + {(server, space)};
    }

    method Unsubscribe(server: int, space: string)
      requires IndexOk()
      modifies this`spaceSubscriptions, this`spaceToSubscribedMap, this`pairs
      ensures IndexOk() && pairs == old(pairs) - {(server, space)}
    {
      ForgetSpace(server, space);
      ForgetServer(server, space);
      pairs := pairs - {(server, space)};
    }

    method ForgetSpace(server: int, space: string)
      requires ByServer(spaceSubscriptions, pairs)
      modifies this`spaceSubscriptions
      ensures ByServer(spaceSubscriptions, pairs - {(server, space)})
    {
      if server in spaceSubscriptions {
        var rest := spaceSubscriptions[server] - {space};
        spaceSubscriptions := spaceSubscriptions[server := rest];
        if |rest| == 0 { spaceSubscriptions := spaceSubscriptions - {server}; }
      }
    }

    method ForgetServer(server: int, space: string)
      requires BySpace(spaceToSubscribedMap, pairs)
      modifies this`spaceToSubscribedMap
      ensures BySpace(spaceToSubscribedMap, pairs - {(server, space)})
    {
      if space in spaceToSubscribedMap {
        var rest := spaceToSubscribedMap[space] - {server};
        spaceToSubscribedMap := spaceToSubscribedMap[space := rest];
        if |rest| == 0 { spaceToSubscribedMap := spaceToSubscribedMap - {space}; }
      }
    }

    method Create(space: string)
      requires Valid()
      modifies this`spaces
      ensures Valid() && View() == Created(old(View()), space)
    {
      spaces := spaces[space := Space(Initialized, None, {})];
    }

    /** What the allocation of a router comes to, when the worker that is asked acknowledges or nacks. */
    ghost function OutcomeOf(acks: bool): Outcome
      reads routerAllocator
    {
      if routerAllocator.workerIds == [] then Refused
      else if acks then Outcome.Allocated(routerAllocator.nextId)
      else NackedAfter(routerAllocator.nextId)
    }

    /** `routerAllocator.allocate` and the worker's answer. */
    method AllocateRouter(space: string, acks: bool) returns (ok: bool)
      requires Valid() && space in spaces
      modifies this`spaces, this`madeFor, routerAllocator, routerAllocator.records, routerAllocator.strategy
      ensures Valid()
      ensures View() == Allocate(old(View()), space, old(OutcomeOf(acks))).0
      ensures ok == Allocate(old(View()), space, old(OutcomeOf(acks))).1.Some?
    {
      var r := routerAllocator.Allocate(spaces[space].primaryRouter);
      if r.Existing? { return true; }
      if r.NoWorkers? || !acks { return false; }
      spaces := spaces[space := spaces[space].(primaryRouter := Some(r.router))];
      madeFor := madeFor[r.router := space];
      ok := true;
    }

    /** `applyTransition`. */
    method ApplyTransition(space: string, to: Status, acks: bool) returns (ok: bool)
      requires Valid() && space in spaces
      modifies this`spaces, this`madeFor, routerAllocator, routerAllocator.records, routerAllocator.strategy
      modifies routerAllocator.transportAllocator
      ensures Valid() && (View(), ok) == Transition(old(View()), space, Some(to), old(OutcomeOf(acks)))
    {
      if spaces[space].status == to { return true; }
      if to == Running && spaces[space].status == Initialized {
        ok := AllocateRouter(space, acks);
        if !ok { return; }
      } else if to == Ended && spaces[space].status == Running {
        if spaces[space].primaryRouter.Some? {
          routerAllocator.Remove(spaces[space].primaryRouter.value);
          spaces := spaces[space := spaces[space].(primaryRouter := None)];
        }
      } else {
        return true;
      }
      ghost var released := spaces[space];
      spaces := spaces[space := spaces[space].(status := to)];
      assert to == Ended ==> spaces == old(spaces)[space := released.(status := to)];
      ok := true;
    }

    /** `onSubscribeToSpaceRequest` through to its answer. */
    method OnSubscribe(server: int, space: string, acks: bool) returns (reply: Reply)
      requires Valid()
      modifies this, routerAllocator, routerAllocator.records, routerAllocator.strategy,
          routerAllocator.transportAllocator
      ensures Valid() && (View(), reply) == Subscribed(old(View()), server, space, old(OutcomeOf(acks)))
    {
      if space !in spaces { return Nack; }
      if spaces[space].status != Initialized && spaces[space].status != Running { return Nack; }
      var desired := Lifecycle.OnSubscribe(spaces[space].status);
      if desired.Some? {
        var ok := ApplyTransition(space, desired.value, acks);
        if !ok { return Nack; }
      }
      if spaces[space].primaryRouter.None? { return Nack; }
      Subscribe(server, space);
      reply := Ack;
    }

    /** The policy's `onUnsubscribe` and `onMemberLeft`, and the transition they ask for. */
    method EndWhenDone(space: string)
      requires Valid() && space in spaces
      modifies this`spaces, this`madeFor, routerAllocator, routerAllocator.records, routerAllocator.strategy
      modifies routerAllocator.transportAllocator
      ensures Valid() && View() == MaybeEnded(old(View()), space)
    {
      var subscribers := SubscriberCount(space);
      var desired := ShouldEnd(spaces[space].status, subscribers, |spaces[space].members|);
      if desired.Some? {
        var _ := ApplyTransition(space, desired.value, false);
      }
    }

    method OnUnsubscribe(server: int, space: string) returns (reply: Reply)
      requires Valid()
      modifies this, routerAllocator, routerAllocator.records, routerAllocator.strategy,
          routerAllocator.transportAllocator
      ensures Valid() && (View(), reply) == Unsubscribed(old(View()), server, space)
    {
      if space !in spaces { return Nack; }
      Unsubscribe(server, space);
      EndWhenDone(space);
      reply := Ack;
    }

    method NotifyMemberLeft(space: string)
      requires Valid()
      modifies this`spaces, this`madeFor, routerAllocator, routerAllocator.records, routerAllocator.strategy
      modifies routerAllocator.transportAllocator
      ensures Valid() && View() == if space in old(spaces) then MaybeEnded(old(View()), space) else old(View())
    {
      if space !in spaces { return; }
      EndWhenDone(space);
    }
  }
}
