/** The space update dispatcher over every run: `S:` updates arriving in any state of the coordinator, worker answers to
    its commands in any order, and the coordinator moving in between. */
module Dispatch {
  import opened Common
  import opened Mesh
  import opened MeshRuns
  import MeshResults

  datatype Update =
    | FromCoordinator
    | ProducerConnect(member: int)
    | ProducerProduce(member: int)
    | ConsumerConnect(member: int, source: int)
    | ConsumerConsume(member: int, source: int)
    | ConsumerResume(member: int, source: int)
    | UnknownUpdate

  datatype Error = SpaceNotFound | MemberNotFound | SourceMemberNotFound | TransportNotAllocated | UnknownType

  datatype Kind = ConnectIt | ProduceIt | ConsumeIt(producing: int) | ResumeIt

  datatype Command = Command(transport: int, kind: Kind)

  datatype Decision =
    | Ignored
    | Rejected(error: Error)
    | Commanded(command: Command)
    | Silent  // accepted, never answered
    | Throws  // dereferences a missing producer

  datatype Reply = Ack | Nack

  ghost function MembersIn(c: Coordinator, space: string): set<int> {
    if space in c.spaces then c.spaces[space] else {}
  }

  ghost predicate Usable(c: Coordinator, transport: Option<int>) {
    transport.Some? && transport.value in c.transportObjects
        && c.transportObjects[transport.value].status != Unallocated
  }

  ghost function ConnectDecision(c: Coordinator, transport: Option<int>): Decision {
    if !Usable(c, transport) then Rejected(TransportNotAllocated)
    else if c.transportObjects[transport.value].status != Connected then Commanded(Command(transport.value, ConnectIt))
    else Silent
  }

  ghost function ConsumerOf(c: Coordinator, member: int, source: int): Option<int>
    requires member in c.memberObjects
  {
    var consumers := c.memberObjects[member].consumers;
    if source in consumers then Some(consumers[source]) else None
  }

  /** `onSpaceUpdate` up to what it publishes to the worker; `known` is whether the space service has the space. */
  ghost function Decide(c: Coordinator, known: bool, space: string, update: Update): Decision
    requires MembersIn(c, space) <= c.memberObjects.Keys
  {
    var members := MembersIn(c, space);
    if update.FromCoordinator? then Ignored
    else if !known then Rejected(SpaceNotFound)
    else if update.UnknownUpdate? then Rejected(UnknownType)
    else if update.member !in members then Rejected(MemberNotFound)
    else
      match update
      case ProducerConnect(m) => ConnectDecision(c, c.memberObjects[m].producer)
      case ProducerProduce(m) =>
        var t := c.memberObjects[m].producer;
        if Usable(c, t) then Commanded(Command(t.value, ProduceIt)) else Rejected(TransportNotAllocated)
      case ConsumerConnect(m, source) => ConnectDecision(c, ConsumerOf(c, m, source))
      case ConsumerConsume(m, source) =>
        if source !in members then Rejected(SourceMemberNotFound)
        else
          var t := ConsumerOf(c, m, source);
          if !Usable(c, t) then Rejected(TransportNotAllocated)
          else
            (match c.memberObjects[source].producer
             case None => Throws
             case Some(p) => Commanded(Command(t.value, ConsumeIt(p))))
      case ConsumerResume(m, source) =>
        var t := ConsumerOf(c, m, source);
        if Usable(c, t) then Commanded(Command(t.value, ResumeIt)) else Rejected(TransportNotAllocated)
  }

  // ----- Runs -----

  datatype Dispatcher = Dispatcher(
    coordinator: Coordinator,
    known: set<string>,               // the spaces of the space service
    received: nat,                    // updates so far, numbered from 0
    ignored: set<nat>,
    silent: set<nat>,
    outstanding: map<nat, Command>,   // published to the worker, not answered yet
    answers: seq<(nat, Reply)>)

  datatype Event =
    | Coordinate(step: Mesh.Step)
    | Create(space: string)
    | Receive(space: string, update: Update)
    | WorkerReplies(request: nat, ok: bool)

  ghost function Initial(): Dispatcher {
    Dispatcher(Empty(), {}, 0, {}, {}, map[], [])
  }

  ghost predicate CanHappen(d: Dispatcher, e: Event) {
    match e
    case Coordinate(step) => !step.Connect? && Mesh.Possible(d.coordinator, step)
    case Create(_) => true
    case Receive(_, _) => true
    case WorkerReplies(request, _) => request in d.outstanding
  }

  /** Not `Some` when the handler throws. */
  ghost function Received(d: Dispatcher, space: string, update: Update): Option<Dispatcher>
    requires Inv(d.coordinator)
  {
    Applied(d, Decide(d.coordinator, space in d.known, space, update))
  }

  ghost function Applied(d: Dispatcher, decision: Decision): Option<Dispatcher> {
    var request := d.received;
    var d1 := d.(received := request + 1);
    match decision
    case Ignored => Some(d1.(ignored := d.ignored + {request}))
    case Rejected(_) => Some(d1.(answers := d.answers + [(request, Nack)]))
    case Commanded(command) => Some(d1.(outstanding := d.outstanding[request := command]))
    case Silent => Some(d1.(silent := d.silent + {request}))
    case Throws => None
  }

  ghost function Replied(d: Dispatcher, request: nat, ok: bool): Dispatcher
    requires request in d.outstanding && d.outstanding[request].transport in d.coordinator.transportObjects
  {
    var command := d.outstanding[request];
    var d1 := d.(outstanding := d.outstanding - {request},
                 answers := d.answers + [(request, if ok then Ack else Nack)]);
    if ok && command.kind.ConnectIt? then d1.(coordinator := WithStatus(d.coordinator, command.transport, Connected))
    else d1
  }

  // ----- The invariant -----

  /** What a command to the worker must be about: an allocated transport, and for a consume command the producer
      transport this consumer transport was made for. */
  ghost predicate CommandOk(c: Coordinator, command: Command) {
    && command.transport in c.transportObjects
    && c.transportObjects[command.transport].status != Unallocated
    && (match command.kind
        case ConnectIt => true
        case ProduceIt => c.transportObjects[command.transport].source == None
        case ConsumeIt(p) => c.transportObjects[command.transport].source == Some(p)
        case ResumeIt => c.transportObjects[command.transport].source.Some?)
  }

  function One(b: bool): nat { if b then 1 else 0 }

  ghost predicate CommandsOk(c: Coordinator, outstanding: map<nat, Command>) {
    forall r :: r in outstanding ==> CommandOk(c, outstanding[r])
  }

  ghost predicate DispatchOk(d: Dispatcher) {
    Inv(d.coordinator) && CommandsOk(d.coordinator, d.outstanding)
  }

  /** The handler's commands are sound and it never throws. */
  lemma {:induction false} DecisionsAreSound(c: Coordinator, known: bool, space: string, update: Update)
    requires Inv(c)
    ensures MembersIn(c, space) <= c.memberObjects.Keys
    ensures var decision := Decide(c, known, space, update);
            && decision != Throws
            && (decision.Commanded? ==> CommandOk(c, decision.command))
  {
    if known && !update.FromCoordinator? && !update.UnknownUpdate? && update.member in MembersIn(c, space) {
      var m := update.member;
      assert MemberOk(c, m);
      if update.ConsumerConnect? || update.ConsumerConsume? || update.ConsumerResume? {
        if update.source in c.memberObjects[m].consumers {
          assert ConsumerOk(c, m, update.source, c.memberObjects[m].consumers[update.source]);
        }
        if update.source in MembersIn(c, space) { assert MemberOk(c, update.source); }
      }
    }
  }

  lemma {:induction false} CommandStaysOk(c: Coordinator, c': Coordinator, command: Command)
    requires CommandOk(c, command) && ObjectsGrow(c, c')
    ensures CommandOk(c', command)
  {}

  ghost function Do(d: Dispatcher, e: Event): Option<Dispatcher>
    requires DispatchOk(d) && CanHappen(d, e)
  {
    match e
    case Coordinate(step) => Some(d.(coordinator := MeshResults.Do(d.coordinator, step)))
    case Create(space) => Some(d.(known := d.known + {space}))
    case Receive(space, update) => Received(d, space, update)
    case WorkerReplies(request, ok) =>
      assert CommandOk(d.coordinator, d.outstanding[request]);
      Some(Replied(d, request, ok))
  }

  lemma {:induction false} CommandsStayOk(c: Coordinator, c': Coordinator, outstanding: map<nat, Command>)
    requires CommandsOk(c, outstanding) && ObjectsGrow(c, c')
    ensures CommandsOk(c', outstanding)
  {
    forall r | r in outstanding ensures CommandOk(c', outstanding[r]) {
      CommandStaysOk(c, c', outstanding[r]);
    }
  }

  /** Only a worker's answer to a connect command connects. */
  lemma {:induction false} NothingElseConnects(c: Coordinator, step: Mesh.Step, t: int)
    requires Inv(c) && !step.Connect? && Mesh.Possible(c, step)
    ensures t in c.transportObjects ==> t in MeshResults.Do(c, step).transportObjects
    ensures t in MeshResults.Do(c, step).transportObjects ==>
              (MeshResults.Do(c, step).transportObjects[t].status == Connected
               <==> t in c.transportObjects && c.transportObjects[t].status == Connected)
  {
    if t in MeshResults.Do(c, step).transportObjects { MeshResults.NewOnesAreUnallocated(c, step, t); }
    if t in c.transportObjects { MeshResults.StatusMoves(c, step, t); }
  }

  lemma {:induction false} CoordinatingKeepsOk(d: Dispatcher, step: Mesh.Step)
    requires DispatchOk(d) && !step.Connect? && Mesh.Possible(d.coordinator, step)
    ensures DispatchOk(d.(coordinator := MeshResults.Do(d.coordinator, step)))
  {
    MeshResults.StepKeepsInv(d.coordinator, step);
    CommandsStayOk(d.coordinator, MeshResults.Do(d.coordinator, step), d.outstanding);
  }

  lemma {:induction false} ReceivingKeepsOk(d: Dispatcher, space: string, update: Update)
    requires DispatchOk(d)
    ensures Received(d, space, update).Some? && DispatchOk(Received(d, space, update).value)
  {
    DecisionsAreSound(d.coordinator, space in d.known, space, update);
  }

  lemma {:induction false} ReplyingKeepsOk(d: Dispatcher, request: nat, ok: bool)
    requires DispatchOk(d) && request in d.outstanding
    ensures CommandOk(d.coordinator, d.outstanding[request]) && DispatchOk(Replied(d, request, ok))
  {
    var command := d.outstanding[request];
    assert CommandOk(d.coordinator, command);
    if ok && command.kind.ConnectIt? {
      InvAfterConnecting(d.coordinator, command.transport);
      CommandsStayOk(d.coordinator, WithStatus(d.coordinator, command.transport, Connected), d.outstanding);
    }
  }

  lemma {:induction false} EventKeepsOk(d: Dispatcher, e: Event)
    requires DispatchOk(d) && CanHappen(d, e)
    ensures Do(d, e).Some? && DispatchOk(Do(d, e).value)
  {
    match e
    case Coordinate(step) => CoordinatingKeepsOk(d, step);
    case Create(space) =>
    case Receive(space, update) => ReceivingKeepsOk(d, space, update);
    case WorkerReplies(request, ok) => ReplyingKeepsOk(d, request, ok);
  }

  lemma {:induction false} InitialOk()
    ensures DispatchOk(Initial())
  {}
}
