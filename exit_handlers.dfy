/** sys.go: the package's list of exit handlers, which `Exit` runs in order
    before the process ends. A handler that panics is recovered and reported,
    and the handlers after it still run. */
module ExitHandlers {

  /** A registered handler: its identity, and whether calling it panics. */
  datatype Handler = Handler(id: nat, panics: bool)

  /** What running one handler came to: it returned, or it panicked and the
      panic was recovered and reported on standard error. */
  datatype HandlerRun = Returned(handler: Handler) | Recovered(handler: Handler)

  /** `runHandler`: calls the handler under a deferred `recover`. */
  function RunHandler(h: Handler): (run: HandlerRun)
    ensures run.handler == h
    ensures run.Recovered? <==> h.panics
  {
    if h.panics then Recovered(h) else Returned(h)
  }

  /** The runs of `handlers`, one per handler, in list order. */
  function RunTrace(handlers: seq<Handler>): (trace: seq<HandlerRun>)
    ensures |trace| == |handlers|
    ensures forall i :: 0 <= i < |trace| ==> trace[i] == RunHandler(handlers[i])
  {
    if handlers == [] then [] else [RunHandler(handlers[0])] + RunTrace(handlers[1..])
  }

  /** Running a concatenation runs the first list, then the second. */
  lemma {:induction false} RunTraceAppend(a: seq<Handler>, b: seq<Handler>)
    ensures RunTrace(a + b) == RunTrace(a) + RunTrace(b)
  {
    if a != [] {
      assert (a + b)[1..] == a[1..] + b;
      RunTraceAppend(a[1..], b);
    }
  }

  /** The package-level `handlers` slice. */
  class Registry {
    var handlers: seq<Handler>

    /** `var handlers = []func(){}`. */
    constructor ()
      ensures handlers == []
    {
      handlers := [];
    }

    /** `RegisterExitHandler`: appends. */
    method Register(h: Handler)
      modifies this
      ensures handlers == old(handlers) + [h]
    {
      handlers := handlers + [h];
    }

    /** `DeferExitHandler`: prepends, keeping the rest in order. */
    method Defer(h: Handler)
      modifies this
      ensures handlers == [h] + old(handlers)
    {
      handlers := [h] + handlers;
    }

    /** `runHandlers`: runs every handler once, in list order, without
        changing the list. */
    method RunHandlers() returns (trace: seq<HandlerRun>)
      ensures trace == RunTrace(handlers)
    {
      trace := [];
      var i := 0;
      while i < |handlers|
        invariant 0 <= i <= |handlers|
        invariant trace == RunTrace(handlers[..i])
      {
        RunTraceAppend(handlers[..i], [handlers[i]]);
        assert handlers[..i + 1] == handlers[..i] + [handlers[i]];
        trace := trace + [RunHandler(handlers[i])];
        i := i + 1;
      }
      assert handlers[..i] == handlers;
    }

    /** `Exit`: runs the handlers, then ends the process with `code`. */
    method Exit(code: int) returns (trace: seq<HandlerRun>, status: int)
      ensures trace == RunTrace(handlers)
      ensures status == code
    {
      trace := RunHandlers();
      status := code;
    }
  }

  /** A handler registered last runs last; one deferred runs first. */
  lemma RegisterRunsLast(handlers: seq<Handler>, h: Handler)
    ensures RunTrace(handlers + [h]) == RunTrace(handlers) + [RunHandler(h)]
    ensures RunTrace([h] + handlers) == [RunHandler(h)] + RunTrace(handlers)
  {
    RunTraceAppend(handlers, [h]);
    RunTraceAppend([h], handlers);
  }
}
