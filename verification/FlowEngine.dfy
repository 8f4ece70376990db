/**
 * The durable flow interpreter (src/flows/FlowEngine.ts with the handlers of src/flows/runtime/StateHandlers.ts):
 * a state machine with retry, catch, nested sub-flows and one step budget shared by the whole tree.
 */
module FlowEngine {
  import opened Strings

  // ---------------------------------------------------------------- definitions

  /** A JSON value, held as its text; cloning through JSON is the identity. `None` is JavaScript's undefined. */
  type Json = string
  type Payload = Option<Json>

  const MAX_STEPS: nat := 500

  datatype Retry = Retry(errorEquals: seq<string>, maxAttempts: Option<nat>)
  datatype Catch = Catch(errorEquals: seq<string>, next: string, resultPath: string)

  /** `params` stands for the paths, rules and arguments of a state that only the opaque world reads. */
  datatype State = State(
    kind: Kind, next: Option<string>, end: bool, params: string, retry: seq<Retry>, catches: seq<Catch>)

  /** A choice rule with its condition as text, which only the opaque evaluator reads. */
  datatype Branch = Branch(rule: string, next: Option<string>)

  datatype Kind =
    | Task(callee: string)
    | Choice(choices: seq<Branch>, fallback: Option<string>)
    | Map(each: Definition)
    | Loop(condition: string, target: string, maxIterations: Option<nat>)
    | Parallel(branches: seq<Definition>)
    | Pass
    | Wait
    | Succeed
    | Fail(error: string)

  datatype Entry = Entry(name: string, state: State)
  datatype Definition = Definition(startAt: string, states: seq<Entry>)

  function Lookup(states: seq<Entry>, name: string): Option<State> {
    if states == [] then None
    else if states[0].name == name then Some(states[0].state)
    else Lookup(states[1..], name)
  }

  // ---------------------------------------------------------------- the names a flow knows

  function Keys(states: seq<Entry>): set<string> {
    set i | 0 <= i < |states| :: states[i].name
  }

  /** Every `next` of a catch policy of these states, nested flows not included. */
  function CatchTargets(states: seq<Entry>): set<string> {
    if states == [] then {} else CatchNexts(states[0].state.catches) + CatchTargets(states[1..])
  }

  function CatchNexts(catches: seq<Catch>): set<string> {
    set i | 0 <= i < |catches| :: catches[i].next
  }

  /** The names a flow declares and those its own catch policies lead to. */
  datatype Scope = Scope(declared: set<string>, caught: set<string>)

  function ScopeOf(def: Definition): Scope {
    Scope(Keys(def.states), CatchTargets(def.states))
  }

  /** A state that was looked for and not found, with the names known where that happened. */
  datatype Missing = Missing(name: string, scope: Scope)

  // ---------------------------------------------------------------- errors

  datatype ErrorKind = Ordinary | TimedOut | Cancelled
  datatype Error = Error(kind: ErrorKind, name: string, code: Option<string>, message: string)

  predicate Includes(text: string, part: string) {
    exists k: nat :: k <= |text| && part <= text[k..]
  }

  predicate Matches(errorEquals: seq<string>, e: Error) {
    || errorEquals == [] || "*" in errorEquals || "States.ALL" in errorEquals
    || exists i :: 0 <= i < |errorEquals| &&
         (errorEquals[i] == e.name || e.code == Some(errorEquals[i]) || Includes(e.message, errorEquals[i]))
  }

  function FindRetry(policies: seq<Retry>, e: Error): Option<Retry> {
    if policies == [] then None
    else if Matches(policies[0].errorEquals, e) then Some(policies[0])
    else FindRetry(policies[1..], e)
  }

  function FindCatch(policies: seq<Catch>, e: Error): Option<Catch> {
    if policies == [] then None
    else if Matches(policies[0].errorEquals, e) then Some(policies[0])
    else FindCatch(policies[1..], e)
  }

  function Attempts(r: Retry): nat {
    if r.maxAttempts.Some? then r.maxAttempts.value else 3
  }

  /** The largest number of attempts any policy grants, at least one. */
  function MostAttempts(policies: seq<Retry>): (n: nat)
    ensures n >= 1
  {
    if policies == [] then 1
    else
      var rest := MostAttempts(policies[1..]);
      if Attempts(policies[0]) > rest then Attempts(policies[0]) else rest
  }

  lemma {:induction false} GrantedAtMostMost(policies: seq<Retry>, e: Error)
    ensures FindRetry(policies, e).Some? ==> Attempts(FindRetry(policies, e).value) <= MostAttempts(policies)
  {
    if policies != [] {
      GrantedAtMostMost(policies[1..], e);
    }
  }

  /** Whether executeWithRetry calls the handler again. */
  predicate Retries(state: State, reply: Reply, attempt: nat) {
    reply.Thrown? &&
    var policy := FindRetry(state.retry, reply.thrown);
    policy.Some? && attempt + 1 < Attempts(policy.value)
  }

  lemma RetriesWithinMost(state: State, reply: Reply, attempt: nat)
    requires Retries(state, reply, attempt)
    ensures attempt + 1 < MostAttempts(state.retry)
  {
    GrantedAtMostMost(state.retry, reply.thrown);
  }

  // ---------------------------------------------------------------- the world

  datatype TaskOutcome = Done(body: Payload) | Threw(error: Error)

  /**
   * What the handlers ask of the outside: calling a function, reading the items of a Map, evaluating a Choice or a
   * Loop condition, and placing results with the path mapper. `at` tells where in the run a call is made (step and
   * attempt numbers from the top), so a task may answer differently each time it is called.
   */
  datatype World = World(
    task: (string, string, Payload, seq<nat>) -> TaskOutcome,
    items: (string, Payload) -> seq<Payload>,
    holds: (string, Payload) -> bool,
    place: (string, Payload, seq<Payload>) -> Payload,
    placeError: (string, Payload, Error) -> Payload)

  // ---------------------------------------------------------------- running

  datatype Log = Log(
    step: string, input: Payload, output: Payload, failed: bool, error: Option<string>, nextState: Option<string>)

  /** The local variables of the main loop. An empty name ends the loop. */
  datatype Frame = Frame(name: string, payload: Payload, stepCount: nat, logs: seq<Log>, counters: map<string, nat>)

  /**
   * `count` is the shared tracker; the others are history: the steps started, the handler calls made and the states
   * that were not found.
   */
  datatype Tracker = Tracker(count: nat, steps: int, calls: int, missing: seq<Missing>)

  function Begun(count: nat): Tracker {
    Tracker(count, 0, 0, [])
  }

  /** The shared count and the list of missing states only grow. */
  predicate Onward(t: Tracker, t': Tracker) {
    t.count <= t'.count && t.missing <= t'.missing
  }

  datatype Checkpoint = Checkpoint(
    currentStateName: Option<string>, currentPayload: Payload, stepCount: nat, counters: map<string, nat>)
  datatype Status = Running | Succeeded | Failed
  datatype Event = Event(status: Status, stepLogs: seq<Log>, payload: Payload, checkpoint: Checkpoint)

  datatype Outcome = Success(output: Payload) | Failure(error: Error)
  datatype RunResult = RunResult(outcome: Outcome, frame: Frame, tracker: Tracker, events: seq<Event>)

  datatype Reply =
    | Returned(nextState: Option<string>, payload: Payload, isEnd: bool, ok: bool, error: string)
    | Thrown(thrown: Error)
  datatype HandlerResult = HandlerResult(reply: Reply, counters: map<string, nat>, tracker: Tracker)
  datatype Batch = Batch(outcome: Option<Error>, outputs: seq<Payload>, tracker: Tracker)

  datatype SubFlow = SubFlow(def: Definition, input: Payload)

  const EMPTY_OBJECT: Json := "{}"

  function Initial(def: Definition, input: Payload): Frame {
    Frame(def.startAt, if input.Some? then input else Some(EMPTY_OBJECT), 0, [], map[])
  }

  function LimitError(): Error {
    Error(Ordinary, "AppError", None, "exceeded maximum step transitions")
  }

  function MissingState(name: string): Error {
    Error(Ordinary, "AppError", None, "State not found: " + name)
  }

  /** What the steps left allow: zero once the shared count has passed the limit. */
  function Fuel(t: Tracker): nat {
    if t.count > MAX_STEPS then 0 else MAX_STEPS + 1 - t.count
  }

  function Run(w: World, def: Definition, f: Frame, t: Tracker, at: seq<nat>): (r: RunResult)
    ensures Onward(t, r.tracker)
    decreases Fuel(t), 1, 0, 0
  {
    if f.name == "" then RunResult(Success(f.payload), f, t, [])
    else
      match Step(w, def, f, t, at)
      case Stop(outcome, f', t', events) => RunResult(outcome, f', t', events)
      case Continue(f', t', event) =>
        var rest := Run(w, def, f', t', at);
        rest.(events := [event] + rest.events)
  }

  datatype StepResult =
    | Stop(outcome: Outcome, frame: Frame, tracker: Tracker, events: seq<Event>)
    | Continue(frame: Frame, tracker: Tracker, event: Event)

  /** One turn of the main loop. */
  function Step(w: World, def: Definition, f: Frame, t: Tracker, at: seq<nat>): (r: StepResult)
    requires f.name != ""
    ensures r.tracker.count > t.count && Onward(t, r.tracker)
    ensures r.Continue? ==> t.count < MAX_STEPS
    decreases Fuel(t), 0, 0, 0
  {
    var f1, t1 := f.(stepCount := f.stepCount + 1), t.(count := t.count + 1);
    if f1.stepCount > MAX_STEPS || t1.count > MAX_STEPS then Stop(Failure(LimitError()), f1, t1, [])
    else
      var found := Lookup(def.states, f.name);
      if found.None? then
        Stop(Failure(MissingState(f.name)), f1, t1.(missing := t1.missing + [Missing(f.name, ScopeOf(def))]), [])
      else
        var h := Attempt(w, found.value, f.name, f.payload, f.counters, t1.(steps := t1.steps + 1),
          at + [f1.stepCount], 0);
        Conclude(w, found.value, f1, h)
  }

  /** A turn that finds its state within the limit, as one equation. */
  lemma StepOfFound(w: World, def: Definition, f: Frame, t: Tracker, at: seq<nat>)
    requires f.name != "" && f.stepCount < MAX_STEPS && t.count < MAX_STEPS && Lookup(def.states, f.name).Some?
    ensures var state, f1 := Lookup(def.states, f.name).value, f.(stepCount := f.stepCount + 1);
      var t1 := t.(count := t.count + 1, steps := t.steps + 1);
      Step(w, def, f, t, at)
      == Conclude(w, state, f1, Attempt(w, state, f.name, f.payload, f.counters, t1, at + [f1.stepCount], 0))
  {
  }

  /** What the main loop makes of the handler's reply. */
  function Conclude(w: World, state: State, f: Frame, h: HandlerResult): (r: StepResult)
    ensures r.tracker == h.tracker
  {
    var g := f.(counters := h.counters);
    match h.reply
    case Thrown(e) =>
      var caught := if e.kind.Ordinary? then FindCatch(state.catches, e) else None;
      if caught.Some? then
        var output := w.placeError(caught.value.resultPath, f.payload, e);
        var log := Log(f.name, f.payload, output, true, Some(e.message), Some(caught.value.next));
        Advance(g.(name := caught.value.next, payload := output, logs := f.logs + [log]), h.tracker)
      else
        var log := Log(f.name, f.payload, None, true, Some(e.message), None);
        Abandon(g.(logs := f.logs + [log]), e, h.tracker)
    case Returned(next, payload, isEnd, ok, error) =>
      var ends := isEnd || next.None? || next.value == "";
      var log := Log(f.name, f.payload, payload, !ok, if ok then None else Some(error), if ends then None else next);
      var g' := g.(logs := f.logs + [log]);
      if !ok then Abandon(g', Error(Ordinary, "Error", None, error), h.tracker)
      else if ends then Finish(g'.(payload := payload), h.tracker)
      else Advance(g'.(name := next.value, payload := payload), h.tracker)
  }

  function Advance(g: Frame, t: Tracker): StepResult {
    Continue(g, t, Event(Running, g.logs, g.payload, Checkpoint(Some(g.name), g.payload, g.stepCount, g.counters)))
  }

  function Abandon(g: Frame, e: Error, t: Tracker): StepResult {
    Stop(Failure(e), g, t,
         [Event(Failed, g.logs, g.payload, Checkpoint(Some(g.name), g.payload, g.stepCount, g.counters))])
  }

  function Finish(g: Frame, t: Tracker): StepResult {
    Stop(Success(g.payload), g, t,
         [Event(Succeeded, g.logs, g.payload, Checkpoint(None, g.payload, g.stepCount, g.counters))])
  }

  /** executeWithRetry, from the given attempt on. */
  function Attempt(w: World, state: State, name: string, payload: Payload, counters: map<string, nat>, t: Tracker,
                   at: seq<nat>, attempt: nat): (r: HandlerResult)
    ensures Onward(t, r.tracker)
    decreases Fuel(t), 5, if attempt < MostAttempts(state.retry) then MostAttempts(state.retry) - attempt else 0, 0
  {
    var h := Handle(w, state, name, payload, counters, t.(calls := t.calls + 1), at + [attempt]);
    if !Retries(state, h.reply, attempt) then h
    else
      RetriesWithinMost(state, h.reply, attempt);
      Attempt(w, state, name, payload, h.counters, h.tracker, at, attempt + 1)
  }

  function Ok(state: State, payload: Payload): Reply {
    Returned(state.next, payload, state.end, true, "")
  }

  function AppError(message: string): Reply {
    Thrown(Error(Ordinary, "AppError", None, message))
  }

  /** The sub-flows that a state starts, in order. */
  function SubFlows(w: World, state: State, payload: Payload): seq<SubFlow> {
    match state.kind
    case Map(each) =>
      var items := w.items(state.params, payload);
      seq(|items|, i requires 0 <= i < |items| => SubFlow(each, items[i]))
    case Parallel(branches) => seq(|branches|, i requires 0 <= i < |branches| => SubFlow(branches[i], payload))
    case _ => []
  }

  /** One call of the handler of the state's type. */
  function Handle(w: World, state: State, name: string, payload: Payload, counters: map<string, nat>, t: Tracker,
                  at: seq<nat>): (r: HandlerResult)
    ensures Onward(t, r.tracker)
    decreases Fuel(t), 4, 0, 0
  {
    if state.kind.Map? || state.kind.Parallel? then
      var b := RunAll(w, SubFlows(w, state, payload), t, at);
      HandlerResult(
        if b.outcome.Some? then Thrown(b.outcome.value) else Ok(state, w.place(state.params, payload, b.outputs)),
        counters, b.tracker)
    else if state.kind.Loop? then
      var n := (if name in counters then counters[name] else 0) + 1;
      HandlerResult(LoopReply(w, state, payload, n), counters[name := n], t)
    else HandlerResult(SimpleReply(w, state, payload, at), counters, t)
  }

  function LoopReply(w: World, state: State, payload: Payload, n: nat): Reply
    requires state.kind.Loop?
  {
    var most := state.kind.maxIterations;
    var limit := if most.Some? && most.value > 0 then most.value else 100;
    if n > limit then AppError("exceeded max iterations")
    else
      var again := w.holds(state.kind.condition, payload);
      Returned(if again then Some(state.kind.target) else state.next, payload, !again && state.end, true, "")
  }

  /** ChoiceEvaluator.findNextState */
  function FindNextState(w: World, choices: seq<Branch>, fallback: Option<string>, payload: Payload): Option<string> {
    if choices == [] then fallback
    else if w.holds(choices[0].rule, payload) then choices[0].next
    else FindNextState(w, choices[1..], fallback, payload)
  }

  function SimpleReply(w: World, state: State, payload: Payload, at: seq<nat>): Reply {
    match state.kind
    case Task(callee) =>
      var outcome := w.task(callee, state.params, payload, at);
      (match outcome
       case Done(body) => Ok(state, w.place(state.params, payload, [body]))
       case Threw(e) => Thrown(e))
    case Choice(choices, fallback) =>
      var next := FindNextState(w, choices, fallback, payload);
      if next.None? || next.value == "" then AppError("no matching branch and no default")
      else Returned(next, payload, state.end, true, "")
    case Pass => Ok(state, w.place(state.params, payload, []))
    case Succeed => Returned(None, payload, true, true, "")
    case Fail(error) => Returned(None, payload, true, false, error)
    case _ => Ok(state, payload)
  }

  /** The sub-flow executor applied to every item or branch; the first failure is thrown. */
  function RunAll(w: World, subs: seq<SubFlow>, t: Tracker, at: seq<nat>): (b: Batch)
    ensures Onward(t, b.tracker)
    decreases Fuel(t), 3, |subs|, 0
  {
    if subs == [] then Batch(None, [], t)
    else
      var r := Run(w, subs[0].def, Initial(subs[0].def, subs[0].input), t, at + [|subs|]);
      if r.outcome.Failure? then Batch(Some(r.outcome.error), [], r.tracker)
      else
        var rest := RunAll(w, subs[1..], r.tracker, at);
        rest.(outputs := [r.outcome.output] + rest.outputs)
  }
}
