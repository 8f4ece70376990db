/**
 * The interpreter as src/flows/FlowEngine.ts runs it: loops over local variables, with the step tracker and the
 * loop counters passed by reference. Each method computes what the functions of FlowEngine say.
 */
module FlowInterpreter {
  import opened Strings
  import opened FlowEngine

  /** `{ count }`, shared by an execution and all its sub-flows. */
  class StepTracker {
    var count: nat
    var steps: int
    var calls: int
    var missing: seq<Missing>

    constructor (count: nat)
      ensures Value() == Begun(count)
    {
      this.count, steps, calls, missing := count, 0, 0, [];
    }

    function Value(): Tracker
      reads this
    {
      Tracker(count, steps, calls, missing)
    }
  }

  /** The map of loop counters that Loop handlers write to. */
  class LoopCounters {
    var counts: map<string, nat>

    constructor (counts: map<string, nat>)
      ensures this.counts == counts
    {
      this.counts := counts;
    }
  }

  /** What a run reports besides its tracker. */
  datatype Report = Report(outcome: Outcome, frame: Frame, events: seq<Event>)

  ghost predicate Reports(r: RunResult, p: Report, t: Tracker) {
    p == Report(r.outcome, r.frame, r.events) && t == r.tracker
  }

  function Prepend(events: seq<Event>, r: RunResult): RunResult {
    r.(events := events + r.events)
  }

  lemma RunUnfolds(w: World, def: Definition, f: Frame, t: Tracker, at: seq<nat>, events: seq<Event>)
    requires f.name != ""
    ensures var s := Step(w, def, f, t, at);
      Prepend(events, Run(w, def, f, t, at))
      == if s.Stop? then RunResult(s.outcome, s.frame, s.tracker, events + s.events)
         else Prepend(events + [s.event], Run(w, def, s.frame, s.tracker, at))
  {
    var s := Step(w, def, f, t, at);
    if s.Continue? {
      var rest := Run(w, def, s.frame, s.tracker, at).events;
      assert events + ([s.event] + rest) == events + [s.event] + rest;
    }
  }

  /** The main loop. `events` are the transitions reported so far. */
  method Execute(w: World, def: Definition, start: Frame, tracker: StepTracker, at: seq<nat>) returns (p: Report)
    modifies tracker
    ensures Reports(old(Run(w, def, start, tracker.Value(), at)), p, tracker.Value())
    decreases Fuel(tracker.Value()), 1, 0
  {
    var current := start;
    var events: seq<Event> := [];
    ghost var whole := Run(w, def, start, tracker.Value(), at);
    while current.name != ""
      invariant tracker.count >= old(tracker.count)
      invariant whole == Prepend(events, Run(w, def, current, tracker.Value(), at))
      decreases Fuel(tracker.Value())
    {
      RunUnfolds(w, def, current, tracker.Value(), at, events);
      var step := Turn(w, def, current, tracker, at);
      match step {
        case Stop(outcome, last, _, reported) =>
          return Report(outcome, last, events + reported);
        case Continue(next, _, event) =>
          events := events + [event];
          current := next;
      }
    }
    return Report(Success(current.payload), current, events);
  }

  /** One turn of the main loop: count the step, call the handler, and follow, catch or fail. */
  method Turn(w: World, def: Definition, current: Frame, tracker: StepTracker, at: seq<nat>) returns (s: StepResult)
    requires current.name != ""
    modifies tracker
    ensures s == old(Step(w, def, current, tracker.Value(), at)) && tracker.Value() == s.tracker
    decreases Fuel(tracker.Value()), 0, 0
  {
    var name, payload, logs := current.name, current.payload, current.logs;
    var stepCount := current.stepCount + 1;
    tracker.count := tracker.count + 1;
    if stepCount > MAX_STEPS || tracker.count > MAX_STEPS {
      s := Stop(Failure(LimitError()), current.(stepCount := stepCount), tracker.Value(), []);
      return;
    }
    var found := Lookup(def.states, name);
    if found.None? {
      tracker.missing := tracker.missing + [Missing(name, ScopeOf(def))];
      s := Stop(Failure(MissingState(name)), current.(stepCount := stepCount), tracker.Value(), []);
      return;
    }
    tracker.steps := tracker.steps + 1;
    var counters := new LoopCounters(current.counters);
    var reply := ExecuteWithRetry(w, found.value, name, payload, counters, tracker, at + [stepCount]);
    s := Settle(w, found.value, current.(stepCount := stepCount), reply, counters, tracker);
  }

  method Settle(w: World, state: State, current: Frame, reply: Reply, counters: LoopCounters, tracker: StepTracker)
    returns (s: StepResult)
    ensures s == Conclude(w, state, current, HandlerResult(reply, counters.counts, tracker.Value()))
  {
    var name, payload, logs, stepCount := current.name, current.payload, current.logs, current.stepCount;
    match reply {
      case Thrown(e) =>
        var caught := if e.kind.Ordinary? then FindCatch(state.catches, e) else None;
        if caught.None? {
          logs := logs + [Log(name, payload, None, true, Some(e.message), None)];
          var event := Event(Failed, logs, payload, Checkpoint(Some(name), payload, stepCount, counters.counts));
          s := Stop(Failure(e), Frame(name, payload, stepCount, logs, counters.counts), tracker.Value(), [event]);
          return;
        }
        var output := w.placeError(caught.value.resultPath, payload, e);
        logs := logs + [Log(name, payload, output, true, Some(e.message), Some(caught.value.next))];
        payload, name := output, caught.value.next;
      case Returned(next, output, isEnd, ok, error) =>
        var ends := isEnd || next.None? || next.value == "";
        logs := logs + [Log(name, payload, output, !ok, if ok then None else Some(error), if ends then None else next)];
        if !ok {
          var event := Event(Failed, logs, payload, Checkpoint(Some(name), payload, stepCount, counters.counts));
          s := Stop(Failure(Error(Ordinary, "Error", None, error)),
            Frame(name, payload, stepCount, logs, counters.counts),
                    tracker.Value(), [event]);
          return;
        }
        payload := output;
        if ends {
          var event := Event(Succeeded, logs, payload, Checkpoint(None, payload, stepCount, counters.counts));
          s := Stop(Success(payload), Frame(name, payload, stepCount, logs, counters.counts), tracker.Value(), [event]);
          return;
        }
        name := next.value;
    }
    var event := Event(Running, logs, payload, Checkpoint(Some(name), payload, stepCount, counters.counts));
    s := Continue(Frame(name, payload, stepCount, logs, counters.counts), tracker.Value(), event);
  }

  method ExecuteWithRetry(w: World, state: State, name: string, payload: Payload, counters: LoopCounters,
                          tracker: StepTracker, at: seq<nat>)
    returns (reply: Reply)
    modifies tracker, counters
    ensures old(Attempt(w, state, name, payload, counters.counts, tracker.Value(), at, 0))
         == HandlerResult(reply, counters.counts, tracker.Value())
    decreases Fuel(tracker.Value()), 5, 0
  {
    var attempt: nat := 0;
    ghost var whole := Attempt(w, state, name, payload, counters.counts, tracker.Value(), at, 0);
    while true
      invariant tracker.count >= old(tracker.count)
      invariant whole == Attempt(w, state, name, payload, counters.counts, tracker.Value(), at, attempt)
      decreases if attempt < MostAttempts(state.retry) then MostAttempts(state.retry) - attempt else 0
    {
      tracker.calls := tracker.calls + 1;
      reply := HandleState(w, state, name, payload, counters, tracker, at + [attempt]);
      if reply.Returned? {
        return;
      }
      var policy := FindRetry(state.retry, reply.thrown);
      GrantedAtMostMost(state.retry, reply.thrown);
      if policy.None? || attempt + 1 >= Attempts(policy.value) {
        return;
      }
      attempt := attempt + 1;
    }
  }

  method HandleState(w: World, state: State, name: string, payload: Payload, counters: LoopCounters,
                     tracker: StepTracker, at: seq<nat>)
    returns (reply: Reply)
    modifies tracker, counters
    ensures old(Handle(w, state, name, payload, counters.counts, tracker.Value(), at))
         == HandlerResult(reply, counters.counts, tracker.Value())
    decreases Fuel(tracker.Value()), 4, 0
  {
    match state.kind {
      case Map(_) => reply := HandleSubFlows(w, state, payload, tracker, at);
      case Parallel(_) => reply := HandleSubFlows(w, state, payload, tracker, at);
      case Loop(_, _, _) =>
        var n := (if name in counters.counts then counters.counts[name] else 0) + 1;
        counters.counts := counters.counts[name := n];
        reply := LoopReply(w, state, payload, n);
      case _ => reply := SimpleReply(w, state, payload, at);
    }
  }

  /** Map and Parallel: every sub-flow in turn, stopping at the first failure. */
  method HandleSubFlows(w: World, state: State, payload: Payload, tracker: StepTracker, at: seq<nat>)
    returns (reply: Reply)
    requires state.kind.Map? || state.kind.Parallel?
    modifies tracker
    ensures forall name, counters ::
      old(Handle(w, state, name, payload, counters, tracker.Value(), at))
        == HandlerResult(reply, counters, tracker.Value())
    decreases Fuel(tracker.Value()), 3, 0
  {
    var subs := SubFlows(w, state, payload);
    var outputs: seq<Payload>, k := [], 0;
    ghost var whole := RunAll(w, subs, tracker.Value(), at);
    while k < |subs|
      invariant 0 <= k <= |subs| && tracker.count >= old(tracker.count)
      invariant var rest := RunAll(w, subs[k..], tracker.Value(), at);
                whole == rest.(outputs := outputs + rest.outputs)
    {
      var sub := subs[k];
      assert subs[k..][0] == sub && subs[k..][1..] == subs[k + 1..] && |subs[k..]| == |subs| - k;
      var p := Execute(w, sub.def, Initial(sub.def, sub.input), tracker, at + [|subs| - k]);
      if p.outcome.Failure? {
        return Thrown(p.outcome.error);
      }
      outputs := outputs + [p.outcome.output];
      k := k + 1;
    }
    assert subs[k..] == [] && whole == Batch(None, outputs, tracker.Value());
    return Ok(state, w.place(state.params, payload, outputs));
  }
}
