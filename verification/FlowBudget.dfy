/** The step budget that the whole tree of sub-flows shares (src/flows/FlowEngine.ts). */
module FlowBudget {
  import opened Strings
  import opened FlowEngine

  /** How far one tracker lags behind another. */
  datatype Lag = Lag(count: nat, steps: int, calls: int, missing: nat)

  predicate Lags(t: Tracker, d: Lag) {
    d.count <= t.count && d.missing <= |t.missing|
  }

  function Lower(t: Tracker, d: Lag): Tracker
    requires Lags(t, d)
  {
    Tracker(t.count - d.count, t.steps - d.steps, t.calls - d.calls, t.missing[d.missing..])
  }

  // ---------------------------------------------------------------- a smaller count changes nothing but itself

  lemma {:induction false} RunLowered(w: World, def: Definition, f: Frame, t: Tracker, at: seq<nat>, d: Lag)
    requires Lags(t, d) && Run(w, def, f, t, at).tracker.count <= MAX_STEPS
    ensures var r := Run(w, def, f, t, at); Run(w, def, f, Lower(t, d), at) == r.(tracker := Lower(r.tracker, d))
    decreases Fuel(t), 1, 0, 0
  {
    if f.name != "" {
      StepLowered(w, def, f, t, at, d);
      var s := Step(w, def, f, t, at);
      if s.Continue? {
        RunLowered(w, def, s.frame, s.tracker, at, d);
      }
    }
  }

  lemma {:induction false} StepLowered(w: World, def: Definition, f: Frame, t: Tracker, at: seq<nat>, d: Lag)
    requires f.name != "" && Lags(t, d) && Step(w, def, f, t, at).tracker.count <= MAX_STEPS
    ensures var s := Step(w, def, f, t, at); Step(w, def, f, Lower(t, d), at) == s.(tracker := Lower(s.tracker, d))
    decreases Fuel(t), 0, 0, 0
  {
    var f1, t1 := f.(stepCount := f.stepCount + 1), t.(count := t.count + 1, steps := t.steps + 1);
    var found, low := Lookup(def.states, f.name), Lower(t, d);
    if f1.stepCount <= MAX_STEPS && found.Some? {
      StepOfFound(w, def, f, t, at);
      var h := Attempt(w, found.value, f.name, f.payload, f.counters, t1, at + [f1.stepCount], 0);
      AttemptLowered(w, found.value, f.name, f.payload, f.counters, t1, at + [f1.stepCount], 0, d);
      ConcludePassesTracker(w, found.value, f1, h, Lower(h.tracker, d));
      assert low.(count := low.count + 1, steps := low.steps + 1) == Lower(t1, d);
      StepOfFound(w, def, f, low, at);
    }
  }

  lemma ConcludePassesTracker(w: World, state: State, f: Frame, h: HandlerResult, t: Tracker)
    ensures Conclude(w, state, f, h.(tracker := t)) == Conclude(w, state, f, h).(tracker := t)
  {
  }

  lemma {:induction false} AttemptLowered(w: World, state: State, name: string, payload: Payload,
      counters: map<string, nat>, t: Tracker, at: seq<nat>, attempt: nat, d: Lag)
    requires Lags(t, d)
    requires Attempt(w, state, name, payload, counters, t, at, attempt).tracker.count <= MAX_STEPS
    ensures var h := Attempt(w, state, name, payload, counters, t, at, attempt);
      Attempt(w, state, name, payload, counters, Lower(t, d), at, attempt) == h.(tracker := Lower(h.tracker, d))
    decreases Fuel(t), 5, if attempt < MostAttempts(state.retry) then MostAttempts(state.retry) - attempt else 0, 0
  {
    var t1 := t.(calls := t.calls + 1);
    HandleLowered(w, state, name, payload, counters, t1, at + [attempt], d);
    var h := Handle(w, state, name, payload, counters, t1, at + [attempt]);
    assert Lower(t, d).(calls := Lower(t, d).calls + 1) == Lower(t1, d);
    if Retries(state, h.reply, attempt) {
      RetriesWithinMost(state, h.reply, attempt);
      AttemptLowered(w, state, name, payload, h.counters, h.tracker, at, attempt + 1, d);
    }
  }

  lemma {:induction false} HandleLowered(w: World, state: State, name: string, payload: Payload,
      counters: map<string, nat>, t: Tracker, at: seq<nat>, d: Lag)
    requires Lags(t, d) && Handle(w, state, name, payload, counters, t, at).tracker.count <= MAX_STEPS
    ensures var h := Handle(w, state, name, payload, counters, t, at);
      Handle(w, state, name, payload, counters, Lower(t, d), at) == h.(tracker := Lower(h.tracker, d))
    decreases Fuel(t), 4, 0, 0
  {
    if state.kind.Map? || state.kind.Parallel? {
      RunAllLowered(w, SubFlows(w, state, payload), t, at, d);
    }
  }

  lemma {:induction false} RunAllLowered(w: World, subs: seq<SubFlow>, t: Tracker, at: seq<nat>, d: Lag)
    requires Lags(t, d) && RunAll(w, subs, t, at).tracker.count <= MAX_STEPS
    ensures var b := RunAll(w, subs, t, at); RunAll(w, subs, Lower(t, d), at) == b.(tracker := Lower(b.tracker, d))
    decreases Fuel(t), 3, |subs|, 0
  {
    if subs != [] {
      var f := Initial(subs[0].def, subs[0].input);
      RunLowered(w, subs[0].def, f, t, at + [|subs|], d);
      var r := Run(w, subs[0].def, f, t, at + [|subs|]);
      if r.outcome.Success? {
        RunAllLowered(w, subs[1..], r.tracker, at, d);
      }
    }
  }

  // ---------------------------------------------------------------- success means the budget held

  /** No catch policy of the tree ends its flow quietly, with a blank `next`, on the error of the step limit. */
  predicate LimitPasses(def: Definition)
    decreases def, 1
  {
    EntriesPass(def.states)
  }

  predicate EntriesPass(states: seq<Entry>)
    decreases states, 1
  {
    forall i :: 0 <= i < |states| ==> StatePasses(states[i].state)
  }

  predicate StatePasses(state: State)
    decreases state, 1
  {
    && !SwallowsLimit(state.catches)
    && match state.kind
       case Map(each) => LimitPasses(each)
       case Parallel(branches) => forall i :: 0 <= i < |branches| ==> LimitPasses(branches[i])
       case _ => true
  }

  predicate SwallowsLimit(catches: seq<Catch>) {
    var caught := FindCatch(catches, LimitError());
    caught.Some? && caught.value.next == ""
  }

  predicate SubsPass(subs: seq<SubFlow>) {
    forall i :: 0 <= i < |subs| ==> LimitPasses(subs[i].def)
  }

  lemma {:induction false} LookupPasses(states: seq<Entry>, name: string)
    requires EntriesPass(states) && Lookup(states, name).Some?
    ensures StatePasses(Lookup(states, name).value)
  {
    assert StatePasses(states[0].state);
    if states[0].name != name {
      assert EntriesPass(states[1..]) by {
        forall i | 0 <= i < |states[1..]| ensures StatePasses(states[1..][i].state) {
          assert StatePasses(states[i + 1].state);
        }
      }
      LookupPasses(states[1..], name);
    }
  }

  /** No sub-flow of the list has a first step to take. */
  predicate NothingToRun(subs: seq<SubFlow>) {
    forall i :: 0 <= i < |subs| ==> subs[i].def.startAt == ""
  }

  lemma {:induction false} RunWithoutBudget(w: World, def: Definition, f: Frame, t: Tracker, at: seq<nat>)
    requires t.count >= MAX_STEPS
    ensures f.name == "" ==> Run(w, def, f, t, at) == RunResult(Success(f.payload), f, t, [])
    ensures f.name != "" ==> Run(w, def, f, t, at).outcome == Failure(LimitError())
  {
  }

  /** Past the limit a list of sub-flows succeeds only if it has nothing to run, and then it always does. */
  lemma {:induction false} RunAllWithoutBudget(w: World, subs: seq<SubFlow>, t: Tracker, at: seq<nat>)
    requires t.count >= MAX_STEPS
    ensures RunAll(w, subs, t, at).outcome == if NothingToRun(subs) then None else Some(LimitError())
    decreases |subs|
  {
    if subs != [] {
      var f := Initial(subs[0].def, subs[0].input);
      RunWithoutBudget(w, subs[0].def, f, t, at + [|subs|]);
      if f.name == "" {
        RunAllWithoutBudget(w, subs[1..], t, at);
        if NothingToRun(subs[1..]) {
          forall i | 0 <= i < |subs| ensures subs[i].def.startAt == "" {
            assert i > 0 ==> subs[i] == subs[1..][i - 1];
          }
        }
        if NothingToRun(subs) {
          forall i | 0 <= i < |subs[1..]| ensures subs[1..][i].def.startAt == "" { assert subs[1..][i] == subs[i + 1]; }
        }
      }
    }
  }

  lemma {:induction false} NothingRuns(w: World, subs: seq<SubFlow>, t: Tracker, at: seq<nat>)
    requires NothingToRun(subs)
    ensures RunAll(w, subs, t, at).outcome.None? && RunAll(w, subs, t, at).tracker == t
    decreases |subs|
  {
    if subs != [] {
      assert Initial(subs[0].def, subs[0].input).name == "";
      forall i | 0 <= i < |subs[1..]| ensures subs[1..][i].def.startAt == "" { assert subs[1..][i] == subs[i + 1]; }
      NothingRuns(w, subs[1..], t, at);
    }
  }

  /** Once an attempt has used up the budget, no later attempt of the same step returns. */
  lemma {:induction false} AttemptsWithoutBudget(w: World, state: State, name: string, payload: Payload,
      counters: map<string, nat>, t: Tracker, at: seq<nat>, attempt: nat)
    requires t.count > MAX_STEPS && !NothingToRun(SubFlows(w, state, payload))
    ensures Attempt(w, state, name, payload, counters, t, at, attempt).reply == Thrown(LimitError())
    decreases if attempt < MostAttempts(state.retry) then MostAttempts(state.retry) - attempt else 0
  {
    var t1 := t.(calls := t.calls + 1);
    var h := Handle(w, state, name, payload, counters, t1, at + [attempt]);
    RunAllWithoutBudget(w, SubFlows(w, state, payload), t1, at + [attempt]);
    if Retries(state, h.reply, attempt) {
      RetriesWithinMost(state, h.reply, attempt);
      AttemptsWithoutBudget(w, state, name, payload, h.counters, h.tracker, at, attempt + 1);
    }
  }

  // ---------------------------------------------------------------- what comes out past the limit

  /** An error that comes out of a run with the shared count above the limit is the error of the limit itself. */
  lemma {:induction false} RunFailsPast(w: World, def: Definition, f: Frame, t: Tracker, at: seq<nat>)
    requires t.count <= MAX_STEPS
    ensures var r := Run(w, def, f, t, at);
      r.tracker.count > MAX_STEPS && r.outcome.Failure? ==> r.outcome.error == LimitError()
    decreases Fuel(t), 1, 0, 0
  {
    if f.name != "" {
      StepFailsPast(w, def, f, t, at);
      var s := Step(w, def, f, t, at);
      if s.Continue? {
        if s.tracker.count > MAX_STEPS {
          RunWithoutBudget(w, def, s.frame, s.tracker, at);
        } else {
          RunFailsPast(w, def, s.frame, s.tracker, at);
        }
      }
    }
  }

  lemma {:induction false} StepFailsPast(w: World, def: Definition, f: Frame, t: Tracker, at: seq<nat>)
    requires f.name != "" && t.count <= MAX_STEPS
    ensures var s := Step(w, def, f, t, at);
      s.tracker.count > MAX_STEPS && s.Stop? && s.outcome.Failure? ==> s.outcome.error == LimitError()
    decreases Fuel(t), 0, 0, 0
  {
    var f1, t1 := f.(stepCount := f.stepCount + 1), t.(count := t.count + 1, steps := t.steps + 1);
    var found := Lookup(def.states, f.name);
    if f.stepCount < MAX_STEPS && t.count < MAX_STEPS && found.Some? {
      AttemptFailsPast(w, found.value, f.name, f.payload, f.counters, t1, at + [f1.stepCount], 0);
      StepOfFound(w, def, f, t, at);
    }
  }

  lemma {:induction false} AttemptFailsPast(w: World, state: State, name: string, payload: Payload,
      counters: map<string, nat>, t: Tracker, at: seq<nat>, attempt: nat)
    requires t.count <= MAX_STEPS
    ensures var h := Attempt(w, state, name, payload, counters, t, at, attempt);
      h.tracker.count > MAX_STEPS ==> if h.reply.Thrown? then h.reply.thrown == LimitError() else h.reply.ok
    decreases Fuel(t), 5, if attempt < MostAttempts(state.retry) then MostAttempts(state.retry) - attempt else 0, 0
  {
    var t1 := t.(calls := t.calls + 1);
    var subs := SubFlows(w, state, payload);
    var h := Handle(w, state, name, payload, counters, t1, at + [attempt]);
    if state.kind.Map? || state.kind.Parallel? {
      RunAllFailsPast(w, subs, t1, at + [attempt]);
    }
    if Retries(state, h.reply, attempt) {
      RetriesWithinMost(state, h.reply, attempt);
      if h.tracker.count <= MAX_STEPS {
        AttemptFailsPast(w, state, name, payload, h.counters, h.tracker, at, attempt + 1);
      } else {
        if NothingToRun(subs) {
          NothingRuns(w, subs, t1, at + [attempt]);
        }
        AttemptsWithoutBudget(w, state, name, payload, h.counters, h.tracker, at, attempt + 1);
      }
    }
  }

  lemma {:induction false} RunAllFailsPast(w: World, subs: seq<SubFlow>, t: Tracker, at: seq<nat>)
    requires t.count <= MAX_STEPS
    ensures var b := RunAll(w, subs, t, at);
      b.tracker.count > MAX_STEPS && b.outcome.Some? ==> b.outcome.value == LimitError()
    decreases Fuel(t), 3, |subs|, 0
  {
    if subs != [] {
      var f := Initial(subs[0].def, subs[0].input);
      RunFailsPast(w, subs[0].def, f, t, at + [|subs|]);
      var r := Run(w, subs[0].def, f, t, at + [|subs|]);
      if r.outcome.Success? {
        if r.tracker.count > MAX_STEPS {
          RunAllWithoutBudget(w, subs[1..], r.tracker, at);
        } else {
          RunAllFailsPast(w, subs[1..], r.tracker, at);
        }
      }
    }
  }

  /** A run that succeeds has kept its whole tree within the limit, if no blank catch policy takes the limit's error. */
  lemma {:induction false} RunSucceedsWithin(w: World, def: Definition, f: Frame, t: Tracker, at: seq<nat>)
    requires t.count <= MAX_STEPS && LimitPasses(def) && Run(w, def, f, t, at).outcome.Success?
    ensures Run(w, def, f, t, at).tracker.count <= MAX_STEPS
    decreases Fuel(t), 1, 0, 0
  {
    if f.name != "" {
      var s := Step(w, def, f, t, at);
      StepReturnsWithin(w, def, f, t, at);
      if s.Continue? {
        if s.tracker.count > MAX_STEPS {
          RunWithoutBudget(w, def, s.frame, s.tracker, at);
        } else {
          RunSucceedsWithin(w, def, s.frame, s.tracker, at);
        }
      }
    }
  }

  /** A step that ends the run in success is within budget; one that goes on past the budget names the next state. */
  lemma {:induction false} StepReturnsWithin(w: World, def: Definition, f: Frame, t: Tracker, at: seq<nat>)
    requires f.name != "" && t.count <= MAX_STEPS && LimitPasses(def)
    ensures var s := Step(w, def, f, t, at);
      && (s.Stop? && s.outcome.Success? ==> s.tracker.count <= MAX_STEPS)
      && (s.Continue? && s.tracker.count > MAX_STEPS ==> s.frame.name != "")
    decreases Fuel(t), 0, 0, 0
  {
    var t1 := t.(count := t.count + 1, steps := t.steps + 1);
    var found := Lookup(def.states, f.name);
    if f.stepCount + 1 <= MAX_STEPS && t1.count <= MAX_STEPS && found.Some? {
      LookupPasses(def.states, f.name);
      var h := Attempt(w, found.value, f.name, f.payload, f.counters, t1, at + [f.stepCount + 1], 0);
      if h.reply.Returned? {
        AttemptReturnsWithin(w, found.value, f.name, f.payload, f.counters, t1, at + [f.stepCount + 1], 0);
      } else {
        AttemptFailsPast(w, found.value, f.name, f.payload, f.counters, t1, at + [f.stepCount + 1], 0);
      }
    }
  }

  lemma {:induction false} AttemptReturnsWithin(w: World, state: State, name: string, payload: Payload,
      counters: map<string, nat>, t: Tracker, at: seq<nat>, attempt: nat)
    requires t.count <= MAX_STEPS && StatePasses(state)
    requires Attempt(w, state, name, payload, counters, t, at, attempt).reply.Returned?
    ensures Attempt(w, state, name, payload, counters, t, at, attempt).tracker.count <= MAX_STEPS
    decreases Fuel(t), 5, if attempt < MostAttempts(state.retry) then MostAttempts(state.retry) - attempt else 0, 0
  {
    var t1 := t.(calls := t.calls + 1);
    var subs := SubFlows(w, state, payload);
    var h := Handle(w, state, name, payload, counters, t1, at + [attempt]);
    SubsOfPassing(w, state, payload);
    if h.reply.Returned? {
      if state.kind.Map? || state.kind.Parallel? {
        RunAllSucceedsWithin(w, subs, t1, at + [attempt]);
      }
    } else {
      RetriesWithinMost(state, h.reply, attempt);
      if h.tracker.count > MAX_STEPS {
        if NothingToRun(subs) {
          NothingRuns(w, subs, t1, at + [attempt]);
        }
        AttemptsWithoutBudget(w, state, name, payload, h.counters, h.tracker, at, attempt + 1);
      } else {
        AttemptReturnsWithin(w, state, name, payload, h.counters, h.tracker, at, attempt + 1);
      }
    }
  }

  lemma SubsOfPassing(w: World, state: State, payload: Payload)
    requires StatePasses(state)
    ensures SubsPass(SubFlows(w, state, payload))
  {
  }

  lemma {:induction false} RunAllSucceedsWithin(w: World, subs: seq<SubFlow>, t: Tracker, at: seq<nat>)
    requires t.count <= MAX_STEPS && SubsPass(subs) && RunAll(w, subs, t, at).outcome.None?
    ensures RunAll(w, subs, t, at).tracker.count <= MAX_STEPS
    decreases Fuel(t), 3, |subs|, 0
  {
    if subs != [] {
      assert LimitPasses(subs[0].def);
      var f := Initial(subs[0].def, subs[0].input);
      RunSucceedsWithin(w, subs[0].def, f, t, at + [|subs|]);
      var r := Run(w, subs[0].def, f, t, at + [|subs|]);
      assert SubsPass(subs[1..]) by {
        forall i | 0 <= i < |subs[1..]| ensures LimitPasses(subs[1..][i].def) { assert LimitPasses(subs[i + 1].def); }
      }
      RunAllSucceedsWithin(w, subs[1..], r.tracker, at);
    }
  }

  /** A state that never ends, and a flow whose blank catch policy takes the limit's error of its branch. */
  const SPINNING := Definition("b", [Entry("b", State(Pass, Some("b"), false, "", [], []))])
  const SWALLOWING :=
    Definition("a", [Entry("a", State(Parallel([SPINNING]), None, true, "", [], [Catch([], "", "")]))])

  lemma {:induction false} SpinsToLimit(w: World, f: Frame, t: Tracker, at: seq<nat>)
    requires f.name == "b" && f.stepCount <= t.count <= MAX_STEPS
    ensures var r := Run(w, SPINNING, f, t, at); r.outcome == Failure(LimitError()) && r.tracker.count == MAX_STEPS + 1
    decreases Fuel(t)
  {
    if t.count < MAX_STEPS {
      assert Lookup(SPINNING.states, "b") == Some(SPINNING.states[0].state);
      var s := Step(w, SPINNING, f, t, at);
      StepOfFound(w, SPINNING, f, t, at);
      assert s.Continue? && s.frame.name == "b" && s.tracker.count == t.count + 1;
      SpinsToLimit(w, s.frame, s.tracker, at);
    }
  }

  lemma BranchSpins(w: World, payload: Payload, t: Tracker, at: seq<nat>)
    requires t.count <= MAX_STEPS
    ensures var b := RunAll(w, [SubFlow(SPINNING, payload)], t, at);
      b.outcome == Some(LimitError()) && b.tracker.count == MAX_STEPS + 1
  {
    SpinsToLimit(w, Initial(SPINNING, payload), t, at + [1]);
  }

  lemma SpinningAttempt(w: World, payload: Payload, counters: map<string, nat>, t: Tracker, at: seq<nat>)
    requires t.count <= MAX_STEPS
    ensures var h := Attempt(w, SWALLOWING.states[0].state, "a", payload, counters, t, at, 0);
      h.reply == Thrown(LimitError()) && h.tracker.count == MAX_STEPS + 1
  {
    var state, t1 := SWALLOWING.states[0].state, t.(calls := t.calls + 1);
    assert SubFlows(w, state, payload) == [SubFlow(SPINNING, payload)];
    BranchSpins(w, payload, t1, at + [0]);
    var h := Handle(w, state, "a", payload, counters, t1, at + [0]);
    assert h.reply == Thrown(LimitError());
    assert !Retries(state, h.reply, 0);
  }

  /** That flow succeeds with the shared count above the limit. */
  lemma SwallowedLimitSucceeds(w: World, input: Payload)
    ensures var r := Run(w, SWALLOWING, Initial(SWALLOWING, input), Begun(0), []);
      r.outcome.Success? && r.tracker.count == MAX_STEPS + 1 && r.frame.name == ""
  {
    var f, state := Initial(SWALLOWING, input), SWALLOWING.states[0].state;
    assert Lookup(SWALLOWING.states, "a") == Some(state);
    SpinningAttempt(w, f.payload, f.counters, Begun(0).(count := 1, steps := 1), [] + [1]);
    assert Matches([], LimitError());
    assert FindCatch(state.catches, LimitError()) == Some(state.catches[0]);
    StepOfFound(w, SWALLOWING, f, Begun(0), []);
    var s := Step(w, SWALLOWING, f, Begun(0), []);
    assert s.Continue? && s.frame.name == "" && s.tracker.count == MAX_STEPS + 1;
  }

  // ---------------------------------------------------------------- runs that end at a named state

  /** The catch policies of the flow itself lead to names; nested flows do not matter here. */
  predicate OwnCatchesNamed(def: Definition) {
    forall i :: 0 <= i < |def.states| ==> AllNamed(def.states[i].state.catches)
  }

  predicate AllNamed(catches: seq<Catch>) {
    forall i :: 0 <= i < |catches| ==> catches[i].next != ""
  }

  lemma {:induction false} FoundCatchNamed(states: seq<Entry>, name: string, e: Error)
    requires Lookup(states, name).Some?
    requires forall i :: 0 <= i < |states| ==> AllNamed(states[i].state.catches)
    ensures var caught := FindCatch(Lookup(states, name).value.catches, e); caught.Some? ==> caught.value.next != ""
  {
    assert AllNamed(states[0].state.catches);
    if states[0].name == name {
      CatchNamed(states[0].state.catches, e);
    } else {
      forall i | 0 <= i < |states[1..]| ensures AllNamed(states[1..][i].state.catches) {
        assert states[1..][i] == states[i + 1];
      }
      FoundCatchNamed(states[1..], name, e);
    }
  }

  lemma {:induction false} CatchNamed(catches: seq<Catch>, e: Error)
    requires AllNamed(catches)
    ensures FindCatch(catches, e).Some? ==> FindCatch(catches, e).value.next != ""
  {
    if catches != [] && !Matches(catches[0].errorEquals, e) {
      CatchNamed(catches[1..], e);
    }
  }

  lemma {:induction false} RunEndsNamed(w: World, def: Definition, f: Frame, t: Tracker, at: seq<nat>)
    requires f.name != "" && OwnCatchesNamed(def)
    ensures Run(w, def, f, t, at).frame.name != ""
    decreases Fuel(t)
  {
    StepNamesNext(w, def, f, t, at);
    var s := Step(w, def, f, t, at);
    if s.Continue? {
      RunEndsNamed(w, def, s.frame, s.tracker, at);
    }
  }

  lemma StepNamesNext(w: World, def: Definition, f: Frame, t: Tracker, at: seq<nat>)
    requires f.name != "" && OwnCatchesNamed(def)
    ensures Step(w, def, f, t, at).frame.name != ""
  {
    var f1, t1 := f.(stepCount := f.stepCount + 1), t.(count := t.count + 1, steps := t.steps + 1);
    var found := Lookup(def.states, f.name);
    if f.stepCount < MAX_STEPS && t.count < MAX_STEPS && found.Some? {
      var h := Attempt(w, found.value, f.name, f.payload, f.counters, t1, at + [f1.stepCount], 0);
      if h.reply.Thrown? {
        FoundCatchNamed(def.states, f.name, h.reply.thrown);
      }
      StepOfFound(w, def, f, t, at);
    }
  }
}
