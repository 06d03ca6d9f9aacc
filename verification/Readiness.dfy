/** The client's readiness gates: handlers passed to `onceReady` run when the gate opens, or at once when it is open. */
module Readiness {
  import opened Common

  /** What a handler does that matters here: it is run, and passes further handlers to the same `onceReady`. */
  datatype Handler = Handler(id: int, inner: seq<Handler>)

  /** Everything that runs when an open gate is given `h`: `h`, then what it registers, depth first. */
  function RunOf(h: Handler): seq<int>
    decreases h, 0
  {
    [h.id] + RunOfAll(h.inner)
  }

  function RunOfAll(hs: seq<Handler>): seq<int>
    decreases hs, 1
  {
    if hs == [] then [] else RunOfAll(hs[..|hs| - 1]) + RunOf(hs[|hs| - 1])
  }

  /** All handlers, nested ones included, with their multiplicity. */
  function HandlersIn(h: Handler): multiset<int>
    decreases h, 0
  {
    multiset{h.id} + HandlersInAll(h.inner)
  }

  function HandlersInAll(hs: seq<Handler>): multiset<int>
    decreases hs, 1
  {
    if hs == [] then multiset{} else HandlersInAll(hs[..|hs| - 1]) + HandlersIn(hs[|hs| - 1])
  }

  lemma {:induction false} EachRunsOnce(hs: seq<Handler>)
    ensures multiset(RunOfAll(hs)) == HandlersInAll(hs)
    decreases hs
  {
    if hs != [] {
      EachRunsOnce(hs[..|hs| - 1]);
      EachRunsOnce(hs[|hs| - 1].inner);
    }
  }

  // ----- The gate -----

  /** `onceReady`, `notifyReady` and their handler array, which the transport and the transport factory both have. */
  class Gate {
    var isReady: bool
    var onceReadyHandlers: seq<Handler>
    var log: seq<int>                // handlers run so far
    ghost var given: seq<Handler>    // handlers passed to `onceReady` from outside

    constructor ()
      ensures Valid() && !isReady && given == []
    {
      isReady, onceReadyHandlers, log, given := false, [], [], [];
    }

    /** Closed, everything waits; open, everything has run, once, in order. */
    ghost predicate Valid()
      reads this
    {
      if isReady then onceReadyHandlers == [] && log == RunOfAll(given)
      else onceReadyHandlers == given && log == []
    }

    /** Runs one handler, which may pass further handlers to `onceReady`. */
    method Call(h: Handler)
      requires isReady
      modifies this`log, this`onceReadyHandlers
      ensures log == old(log) + RunOf(h) && onceReadyHandlers == old(onceReadyHandlers)
      decreases h, 0
    {
      log := log + [h.id];
      for i := 0 to |h.inner|
        invariant log == old(log) + [h.id] + RunOfAll(h.inner[..i])
        invariant onceReadyHandlers == old(onceReadyHandlers)
      {
        assert h.inner[..i + 1][..i] == h.inner[..i];
        OnceReadyWithin(h.inner[i]);
      }
      assert h.inner[..|h.inner|] == h.inner;
    }

    method OnceReadyWithin(h: Handler)
      modifies this`log, this`onceReadyHandlers
      ensures if isReady then log == old(log) + RunOf(h) && onceReadyHandlers == old(onceReadyHandlers)
              else log == old(log) && onceReadyHandlers == old(onceReadyHandlers) + [h]
      decreases h, 1
    {
      if isReady {
        Call(h);
        return;
      }
      onceReadyHandlers := onceReadyHandlers + [h];
    }

    method OnceReady(h: Handler)
      requires Valid()
      modifies this
      ensures Valid() && isReady == old(isReady) && given == old(given) + [h]
    {
      OnceReadyWithin(h);
      given := given + [h];
    }

    /** The gate opens: `notifyReady` drains the array. */
    method Open()
      requires Valid()
      modifies this
      ensures Valid() && isReady && given == old(given)
    {
      if isReady { return; }
      isReady := true;
      var handlers := onceReadyHandlers;
      for i := 0 to |handlers|
        invariant isReady && given == old(given) && onceReadyHandlers == handlers && log == RunOfAll(handlers[..i])
      {
        assert handlers[..i + 1][..i] == handlers[..i];
        Call(handlers[i]);
      }
      assert handlers[..|handlers|] == handlers;
      onceReadyHandlers := [];
    }
  }

  /** A producer or consumer transport: its gate opens when the media object is assigned. */
  class Transport {
    const gate: Gate

    constructor (gate: Gate)
      ensures this.gate == gate
    {
      this.gate := gate;
    }

    method AssignMediaObject()
      requires gate.Valid()
      modifies gate
      ensures gate.Valid() && gate.isReady && gate.given == old(gate.given)
    {
      gate.Open();
    }
  }

  // ----- The factory -----

  datatype Step =
    | LoadResolves                       // the device is loaded; `init` goes on later
    | InitContinues
    | AssignAudioContext(suspended: bool)
    | OnceReady(h: Handler)

  datatype Factory = Factory(loaded: bool, continuations: nat, audioContext: bool, ready: bool, given: seq<Handler>,
      log: seq<int>)

  function NewFactory(): Factory {
    Factory(false, 0, false, false, [], [])
  }

  function Opened(f: Factory): Factory {
    f.(ready := true, log := RunOfAll(f.given))
  }

  /** `None`: the step throws, or there is nothing to continue. */
  function Do(f: Factory, step: Step): Option<Factory> {
    match step
    case LoadResolves => Some(f.(loaded := true, continuations := f.continuations + 1))
    case InitContinues =>
      if f.continuations == 0 then None
      else
        var f1 := f.(continuations := f.continuations - 1);
        Some(if !f.ready && f.audioContext then Opened(f1) else f1)
    case AssignAudioContext(suspended) =>
      if suspended then None
      else
        var f1 := f.(audioContext := true);
        Some(if !f.ready && f.loaded then Opened(f1) else f1)
    case OnceReady(h) => Some(f.(given := f.given + [h], log := if f.ready then f.log + RunOf(h) else f.log))
  }

  /** A step that throws leaves the factory as it is. */
  function Run(steps: seq<Step>): Factory {
    if steps == [] then NewFactory()
    else
      var f := Run(steps[..|steps| - 1]);
      Do(f, steps[|steps| - 1]).GetOr(f)
  }

  /** The handlers a run is given, in order. */
  function Given(steps: seq<Step>): seq<Handler> {
    if steps == [] then []
    else
      var step := steps[|steps| - 1];
      Given(steps[..|steps| - 1]) + (if step.OnceReady? then [step.h] else [])
  }

  /** The handlers have all run, once each, or none has; and readiness is having both a device and a running context,
      but for a continuation of `init` that is still to come. */
  ghost predicate FactoryOk(f: Factory) {
    && f.log == (if f.ready then RunOfAll(f.given) else [])
    && (f.ready ==> f.loaded && f.audioContext)
    && (f.continuations > 0 ==> f.loaded)
    && (f.loaded && f.audioContext && f.continuations == 0 ==> f.ready)
  }

  lemma {:induction false} StepKeepsOk(f: Factory, step: Step)
    requires FactoryOk(f)
    ensures FactoryOk(Do(f, step).GetOr(f))
  {
    if step.OnceReady? { assert (f.given + [step.h])[..|f.given|] == f.given; }
  }

  lemma {:induction false} OccursBefore(steps: seq<Step>, step: Step)
    requires steps != []
    ensures step in steps <==> step in steps[..|steps| - 1] || step == steps[|steps| - 1]
  {
    assert steps == steps[..|steps| - 1] + [steps[|steps| - 1]];
  }

  lemma {:induction false} RunKeepsTrack(steps: seq<Step>)
    ensures var f := Run(steps);
            f.given == Given(steps) && f.loaded == (LoadResolves in steps)
                && f.audioContext == (AssignAudioContext(false) in steps)
    decreases |steps|
  {
    if steps != [] {
      RunKeepsTrack(steps[..|steps| - 1]);
      OccursBefore(steps, LoadResolves);
      OccursBefore(steps, AssignAudioContext(false));
    }
  }

  lemma {:induction false} EveryRunIsOk(steps: seq<Step>)
    ensures FactoryOk(Run(steps))
    decreases |steps|
  {
    if steps != [] {
      EveryRunIsOk(steps[..|steps| - 1]);
      StepKeepsOk(Run(steps[..|steps| - 1]), steps[|steps| - 1]);
    }
  }

  /** In whatever order device load, audio context and handlers arrive: while the factory is not ready no handler has
      run, and once it is, each has run exactly once.  It is ready only with both a loaded device and a running
      context; and with both, unless a continuation of `init` is still to come, it is ready. */
  lemma {:induction false} ReadyOnceBothAreThere(steps: seq<Step>)
    ensures var f := Run(steps);
            && f.log == (if f.ready then RunOfAll(Given(steps)) else [])
            && multiset(f.log) == (if f.ready then HandlersInAll(Given(steps)) else multiset{})
            && (f.ready ==> LoadResolves in steps && AssignAudioContext(false) in steps)
            && (LoadResolves in steps && AssignAudioContext(false) in steps && f.continuations == 0 ==> f.ready)
  {
    EveryRunIsOk(steps);
    RunKeepsTrack(steps);
    EachRunsOnce(Given(steps));
  }

  /** A factory that is ready stays ready. */
  lemma {:induction false} ReadyOnce(f: Factory, step: Step)
    requires f.ready
    ensures Do(f, step).Some? ==> Do(f, step).value.ready && f.log <= Do(f, step).value.log
  {}

  class TransportFactory {
    const gate: Gate
    var deviceLoaded: bool
    var continuations: nat // resolved loads whose `init` has not gone on
    var audioContext: bool

    constructor ()
      ensures Valid() && View() == NewFactory() && fresh(gate)
    {
      gate := new Gate();
      deviceLoaded, continuations, audioContext := false, 0, false;
    }

    ghost function View(): Factory
      reads this, gate
    {
      Factory(deviceLoaded, continuations, audioContext, gate.isReady, gate.given, gate.log)
    }

    ghost predicate Valid()
      reads gate
    {
      gate.Valid()
    }

    method OnLoadResolved()
      modifies this
      ensures Some(View()) == Do(old(View()), LoadResolves)
    {
      deviceLoaded, continuations := true, continuations + 1;
    }

    method ContinueInit()
      requires Valid() && continuations > 0
      modifies this, gate
      ensures Valid() && Some(View()) == Do(old(View()), InitContinues)
    {
      continuations := continuations - 1;
      if !gate.isReady && audioContext { gate.Open(); }
    }

    /** Not `ok` is the error for a suspended context. */
    method SetAudioContext(suspended: bool) returns (ok: bool)
      requires Valid()
      modifies this, gate
      ensures Valid() && ok == !suspended
      ensures View() == Do(old(View()), AssignAudioContext(suspended)).GetOr(old(View()))
    {
      if suspended { return false; }
      audioContext := true;
      if !gate.isReady && deviceLoaded { gate.Open(); }
      ok := true;
    }

    method AddHandler(h: Handler)
      requires Valid()
      modifies gate
      ensures Valid() && Some(View()) == Do(old(View()), Step.OnceReady(h))
    {
      gate.OnceReady(h);
      assert gate.given[..|gate.given| - 1] == old(gate.given);
    }
  }
}
