/** The dispatcher as the source writes it: a handler that branches on the update and publishes to the worker, and the
    callbacks its commands are answered through.  Every method says what it does to the state of `Dispatch`. */
module SpaceUpdateDispatchers {
  import opened Common
  import opened Mesh
  import opened Dispatch
  import opened MemberServices

  class SpaceUpdateDispatcher {
    const members: MemberService
    var spaces: set<string>             // of the space service
    var received: nat
    var outstanding: map<nat, Command>  // commands the worker has not answered
    var answers: seq<(nat, Reply)>      // ack and nack calls made so far

    ghost var ignored: set<nat>
    ghost var silent: set<nat>

    constructor (members: MemberService)
      requires members.Wired() && members.View() == Empty()
      ensures this.members == members && Valid() && View() == Initial()
    {
      this.members, spaces, received, outstanding, answers := members, {}, 0, map[], [];
      ignored, silent := {}, {};
      new;
      InitialOk();
    }

    ghost function View(): Dispatcher
      reads this, members, members.records, members.transportAllocator, members.routerAllocator
    {
      Dispatcher(members.View(), spaces, received, ignored, silent, outstanding, answers)
    }

    ghost predicate Valid()
      reads this, members, members.records, members.transportAllocator, members.routerAllocator
    {
      members.Wired() && DispatchOk(View())
    }

    method Answer(request: nat, reply: Reply)
      modifies this`answers
      ensures answers == old(answers) + [(request, reply)]
    {
      answers := answers + [(request, reply)];
    }

    method Publish(request: nat, command: Command)
      modifies this`outstanding
      ensures outstanding == old(outstanding)[request := command]
    {
      outstanding := outstanding[request := command];
    }

    /** The transport objects a producer or consumer lookup may return. */
    method IsUsable(transport: Option<int>) returns (usable: bool)
      requires transport.Some? ==> transport.value in members.records.transports
      ensures usable == Usable(members.View(), transport)
    {
      usable := transport.Some? && members.records.transports[transport.value].status != Unallocated;
    }

    method OnConnect(request: nat, transport: Option<int>)
      requires transport.Some? ==> transport.value in members.records.transports
      modifies this`answers, this`outstanding, this`silent
      ensures match ConnectDecision(members.View(), transport)
              case Commanded(command) =>
                answers == old(answers) && outstanding == old(outstanding)[request := command] && silent == old(silent)
              case Silent =>
                answers == old(answers) && outstanding == old(outstanding) && silent == old(silent) + {request}
              case _ =>
                answers == old(answers) + [(request, Nack)] && outstanding == old(outstanding) && silent == old(silent)
    {
      var usable := IsUsable(transport);
      if !usable {
        Answer(request, Nack);
      } else if members.records.transports[transport.value].status != Connected {
        Publish(request, Command(transport.value, ConnectIt));
      } else {
        silent := silent + {request};
      }
    }

    method OnSpaceUpdate(space: string, update: Update)
      requires Valid()
      modifies this
      ensures Valid() && Some(View()) == Received(old(View()), space, update)
    {
      ReceivingKeepsOk(View(), space, update);
      ghost var next := Received(View(), space, update);
      var request := received;
      received := received + 1;
      Guard(request, space, update);
      assert Some(View()) == next;
    }

    /** The guards of `onSpaceUpdate`, in the source's order. */
    method Guard(request: nat, space: string, update: Update)
      requires members.Wired() && Inv(members.View())
      modifies this`answers, this`outstanding, this`silent, this`ignored
      ensures match Decide(members.View(), space in spaces, space, update)
              case Ignored =>
                answers == old(answers) && outstanding == old(outstanding) && silent == old(silent)
                && ignored == old(ignored) + {request}
              case Rejected(_) =>
                answers == old(answers) + [(request, Nack)] && outstanding == old(outstanding) && silent == old(silent)
                && ignored == old(ignored)
              case Commanded(command) =>
                answers == old(answers) && outstanding == old(outstanding)[request := command] && silent == old(silent)
                && ignored == old(ignored)
              case Silent =>
                answers == old(answers) && outstanding == old(outstanding) && silent == old(silent) + {request}
                && ignored == old(ignored)
              case Throws => false
    {
      DecisionsAreSound(members.View(), space in spaces, space, update);
      if update.FromCoordinator? {
        ignored := ignored + {request};
      } else if space !in spaces || update.UnknownUpdate? {
        Answer(request, Nack);
      } else if space !in members.spaces || update.member !in members.spaces[space] {
        Answer(request, Nack);
      } else {
        Handle(request, space, update);
      }
    }

    /** The branches of `onSpaceUpdate` for a member that was found. */
    method Handle(request: nat, space: string, update: Update)
      requires members.Wired() && Inv(members.View())
      requires space in spaces && !update.FromCoordinator? && !update.UnknownUpdate?
      requires space in members.spaces && update.member in members.spaces[space]
      modifies this`answers, this`outstanding, this`silent
      ensures match Decide(members.View(), true, space, update)
              case Commanded(command) =>
                answers == old(answers) && outstanding == old(outstanding)[request := command] && silent == old(silent)
              case Silent =>
                answers == old(answers) && outstanding == old(outstanding) && silent == old(silent) + {request}
              case _ =>
                answers == old(answers) + [(request, Nack)] && outstanding == old(outstanding) && silent == old(silent)
    {
      assert MemberOk(members.View(), update.member);
      var member := members.records.members[update.member];
      if update.ProducerConnect? {
        OnConnect(request, member.producer);
      } else if update.ProducerProduce? {
        var usable := IsUsable(member.producer);
        if usable { Publish(request, Command(member.producer.value, ProduceIt)); } else { Answer(request, Nack); }
      } else {
        var transport := if update.source in member.consumers then Some(member.consumers[update.source]) else None;
        assert update.source in member.consumers ==>
                 ConsumerOk(members.View(), update.member, update.source, member.consumers[update.source]);
        if update.ConsumerConnect? {
          OnConnect(request, transport);
          return;
        }
        if update.ConsumerConsume? && update.source !in members.spaces[space] {
          Answer(request, Nack);
          return;
        }
        var usable := IsUsable(transport);
        if !usable {
          Answer(request, Nack);
        } else if update.ConsumerResume? {
          Publish(request, Command(transport.value, ResumeIt));
        } else {
          assert MemberOk(members.View(), update.source);
          Publish(request, Command(transport.value, ConsumeIt(members.records.members[update.source].producer.value)));
        }
      }
    }

    method SetConnected(transport: int)
      requires members.Wired() && transport in members.records.transports
      modifies members.records
      ensures members.View() == WithStatus(old(members.View()), transport, Connected)
    {
      var transports := members.records.transports;
      members.records.transports := transports[transport := transports[transport].(status := Connected)];
    }

    /** The callbacks a published command is answered through. */
    method OnWorkerReply(request: nat, ok: bool)
      requires Valid() && request in outstanding
      modifies this, members.records
      ensures Valid() && View() == Replied(old(View()), request, ok)
    {
      ReplyingKeepsOk(View(), request, ok);
      PassOn(request, ok);
    }

    method PassOn(request: nat, ok: bool)
      requires members.Wired() && request in outstanding && outstanding[request].transport in members.records.transports
      modifies this`answers, this`outstanding, members.records
      ensures View() == Replied(old(View()), request, ok)
    {
      var command := outstanding[request];
      outstanding := outstanding - {request};
      if ok && command.kind.ConnectIt? {
        SetConnected(command.transport);
      }
      Answer(request, if ok then Ack else Nack);
      assert View() == Replied(old(View()), request, ok);
    }
  }
}
