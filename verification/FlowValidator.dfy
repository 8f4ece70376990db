/**
 * Validation of flow definitions and the references they hold to functions (src/flows/FlowValidator.ts). What is
 * checked about paths, numbers and the operators of choice rules is left out: it only makes validation stricter.
 */
module FlowValidator {
  import opened Strings
  import opened FlowEngine

  // ---------------------------------------------------------------- validation

  /** A JavaScript string that is present and not empty. */
  predicate Given(name: Option<string>) {
    name.Some? && name.value != ""
  }

  predicate MovesOn(state: State) {
    Given(state.next) || state.end
  }

  predicate Validate(def: Definition)
    decreases def, 1
  {
    && Trim(def.startAt) != "" && def.states != [] && Lookup(def.states, def.startAt).Some?
    && forall i :: 0 <= i < |def.states| ==> ValidateState(def.states[i].state, Keys(def.states))
  }

  predicate ValidateState(state: State, keys: set<string>)
    decreases state, 1
  {
    && (Given(state.next) ==> state.next.value in keys && !state.end)
    && match state.kind
       case Task(callee) => Trim(callee) != "" && MovesOn(state)
       case Choice(choices, fallback) =>
         && choices != [] && (Given(fallback) ==> fallback.value in keys)
         && forall i :: 0 <= i < |choices| ==> Given(choices[i].next) && choices[i].next.value in keys
       case Map(each) => Validate(each) && MovesOn(state)
       case Loop(_, target, maxIterations) =>
         target != "" && target in keys && maxIterations != Some(0) && MovesOn(state)
       case Parallel(branches) =>
         branches != [] && (forall i :: 0 <= i < |branches| ==> Validate(branches[i])) && MovesOn(state)
       case Pass => MovesOn(state)
       case Wait => MovesOn(state)
       case Succeed => true
       case Fail(_) => true
  }

  /** Every accepted state that is neither a choice nor terminal has exactly one of `next` and `end`. */
  lemma ExactlyOneWayOn(state: State, keys: set<string>)
    requires ValidateState(state, keys) && !state.kind.Choice? && !state.kind.Succeed? && !state.kind.Fail?
    ensures Given(state.next) <==> !state.end
  {
  }

  lemma {:induction false} LookupIffKey(states: seq<Entry>, name: string)
    ensures Lookup(states, name).Some? <==> name in Keys(states)
  {
    if states != [] {
      LookupIffKey(states[1..], name);
      assert forall i :: 1 <= i < |states| ==> states[i] == states[1..][i - 1];
      assert Keys(states) == {states[0].name} + Keys(states[1..]);
    }
  }

  lemma {:induction false} LookupIn(states: seq<Entry>, name: string)
    requires Lookup(states, name).Some?
    ensures exists i :: 0 <= i < |states| && states[i].state == Lookup(states, name).value
  {
    if states[0].name != name {
      LookupIn(states[1..], name);
      var i :| 0 <= i < |states[1..]| && states[1..][i].state == Lookup(states[1..], name).value;
      assert states[i + 1].state == Lookup(states, name).value;
    }
  }

  // ---------------------------------------------------------------- a validated flow never gets stuck

  /** The scopes of a flow and of every sub-flow in it, at any depth. */
  function Scopes(def: Definition): set<Scope>
    decreases def, 1
  {
    {ScopeOf(def)} + StatesScopes(def.states)
  }

  function StatesScopes(states: seq<Entry>): set<Scope>
    decreases states, 1
  {
    if states == [] then {} else StateScopes(states[0].state) + StatesScopes(states[1..])
  }

  function StateScopes(state: State): set<Scope>
    decreases state, 1
  {
    match state.kind
    case Map(each) => Scopes(each)
    case Parallel(branches) => BranchScopes(branches)
    case _ => {}
  }

  function BranchScopes(branches: seq<Definition>): set<Scope>
    decreases branches, 1
  {
    if branches == [] then {} else Scopes(branches[0]) + BranchScopes(branches[1..])
  }

  lemma {:induction false} BranchInScopes(branches: seq<Definition>, i: nat)
    requires i < |branches|
    ensures Scopes(branches[i]) <= BranchScopes(branches)
    decreases i
  {
    if i > 0 {
      BranchInScopes(branches[1..], i - 1);
    }
  }

  /** What a state found by its name brings with it: its own validity, its scopes and its catch targets. */
  lemma {:induction false} FoundState(states: seq<Entry>, name: string, keys: set<string>)
    requires forall i :: 0 <= i < |states| ==> ValidateState(states[i].state, keys)
    requires Lookup(states, name).Some?
    ensures var state := Lookup(states, name).value;
      && ValidateState(state, keys) && StateScopes(state) <= StatesScopes(states)
      && CatchNexts(state.catches) <= CatchTargets(states)
  {
    assert ValidateState(states[0].state, keys);
    if states[0].name != name {
      forall i | 0 <= i < |states[1..]| ensures ValidateState(states[1..][i].state, keys) {
        assert ValidateState(states[i + 1].state, keys);
      }
      FoundState(states[1..], name, keys);
    }
  }

  /** The sub-flows are accepted, and their scopes are among those given. */
  predicate SubsAccepted(subs: seq<SubFlow>, scopes: set<Scope>) {
    forall i :: 0 <= i < |subs| ==> Validate(subs[i].def) && Scopes(subs[i].def) <= scopes
  }

  lemma {:induction false} SubsOfAccepted(w: World, state: State, payload: Payload, keys: set<string>)
    requires ValidateState(state, keys)
    ensures SubsAccepted(SubFlows(w, state, payload), StateScopes(state))
  {
    var subs := SubFlows(w, state, payload);
    forall i | 0 <= i < |subs| ensures Validate(subs[i].def) && Scopes(subs[i].def) <= StateScopes(state) {
      if state.kind.Parallel? {
        BranchInScopes(state.kind.branches, i);
      }
    }
  }

  lemma {:induction false} ChoiceLeadsToKey(w: World, choices: seq<Branch>, fallback: Option<string>,
      payload: Payload, keys: set<string>)
    requires forall i :: 0 <= i < |choices| ==> Given(choices[i].next) && choices[i].next.value in keys
    requires Given(fallback) ==> fallback.value in keys
    ensures var next := FindNextState(w, choices, fallback, payload); Given(next) ==> next.value in keys
  {
    if choices != [] {
      ChoiceLeadsToKey(w, choices[1..], fallback, payload, keys);
    }
  }

  lemma {:induction false} CatchLeadsToTarget(catches: seq<Catch>, e: Error)
    ensures FindCatch(catches, e).Some? ==> FindCatch(catches, e).value.next in CatchNexts(catches)
  {
    if catches != [] {
      CatchLeadsToTarget(catches[1..], e);
      assert CatchNexts(catches) == {catches[0].next} + CatchNexts(catches[1..]) by {
        assert catches == [catches[0]] + catches[1..];
      }
    }
  }

  /** A handler's answer names a state of the flow, or no state. */
  predicate Declared(reply: Reply, keys: set<string>) {
    reply.Returned? && Given(reply.nextState) ==> reply.nextState.value in keys
  }

  /** The invariant of the main loop: its current name ends it, is declared, or was given by a catch policy. */
  predicate Followed(def: Definition, name: string) {
    name == "" || name in Keys(def.states) || name in CatchTargets(def.states)
  }

  /** The states found missing between two trackers were all named by a catch policy of the flow they are missing in. */
  predicate StraysOnly(t: Tracker, t': Tracker, scopes: set<Scope>) {
    t.missing <= t'.missing && AllStray(t'.missing[|t.missing|..], scopes)
  }

  predicate AllStray(missing: seq<Missing>, scopes: set<Scope>) {
    forall k :: 0 <= k < |missing| ==> Stray(missing[k]) && missing[k].scope in scopes
  }

  predicate Stray(m: Missing) {
    m.name in m.scope.caught && m.name !in m.scope.declared
  }

  lemma {:induction false} RunStraysOnly(w: World, def: Definition, f: Frame, t: Tracker, at: seq<nat>)
    requires Validate(def) && Followed(def, f.name)
    ensures StraysOnly(t, Run(w, def, f, t, at).tracker, Scopes(def))
    decreases Fuel(t), 1, 0, 0
  {
    if f.name != "" {
      StepStraysOnly(w, def, f, t, at);
      var s := Step(w, def, f, t, at);
      if s.Continue? {
        RunStraysOnly(w, def, s.frame, s.tracker, at);
      }
    }
  }

  lemma {:induction false} StepStraysOnly(w: World, def: Definition, f: Frame, t: Tracker, at: seq<nat>)
    requires Validate(def) && Followed(def, f.name) && f.name != ""
    ensures var s := Step(w, def, f, t, at);
      StraysOnly(t, s.tracker, Scopes(def)) && (s.Continue? ==> Followed(def, s.frame.name))
    decreases Fuel(t), 0, 0, 0
  {
    if f.stepCount < MAX_STEPS && t.count < MAX_STEPS {
      LookupIffKey(def.states, f.name);
      if Lookup(def.states, f.name).None? {
        StepStrays(w, def, f, t, at);
        OneStray(t.missing, Missing(f.name, ScopeOf(def)), Scopes(def));
      } else {
        var f1, t1 := f.(stepCount := f.stepCount + 1), t.(count := t.count + 1, steps := t.steps + 1);
        FoundStraysOnly(w, def, f1, t1, at + [f1.stepCount]);
        StepOfFound(w, def, f, t, at);
      }
    } else {
      StepEndsAtLimit(w, def, f, t, at);
    }
  }

  lemma StepEndsAtLimit(w: World, def: Definition, f: Frame, t: Tracker, at: seq<nat>)
    requires f.name != "" && (f.stepCount >= MAX_STEPS || t.count >= MAX_STEPS)
    ensures var s := Step(w, def, f, t, at); s.Stop? && s.tracker.missing == t.missing
  {
  }

  lemma StepStrays(w: World, def: Definition, f: Frame, t: Tracker, at: seq<nat>)
    requires f.name != "" && f.stepCount < MAX_STEPS && t.count < MAX_STEPS && Lookup(def.states, f.name).None?
    ensures var s := Step(w, def, f, t, at);
      s.Stop? && s.tracker.missing == t.missing + [Missing(f.name, ScopeOf(def))]
  {
  }

  lemma OneStray(before: seq<Missing>, m: Missing, scopes: set<Scope>)
    requires Stray(m) && m.scope in scopes
    ensures AllStray((before + [m])[|before|..], scopes)
  {
    assert (before + [m])[|before|..] == [m];
  }

  lemma {:induction false} FoundStraysOnly(w: World, def: Definition, f: Frame, t: Tracker, at: seq<nat>)
    requires Validate(def) && Lookup(def.states, f.name).Some?
    ensures var state := Lookup(def.states, f.name).value;
      var h := Attempt(w, state, f.name, f.payload, f.counters, t, at, 0);
      var s := Conclude(w, state, f, h);
      StraysOnly(t, h.tracker, Scopes(def)) && (s.Continue? ==> Followed(def, s.frame.name))
    decreases Fuel(t), 6, 0, 0
  {
    var state, keys := Lookup(def.states, f.name).value, Keys(def.states);
    FoundState(def.states, f.name, keys);
    AttemptStraysOnly(w, state, f.name, f.payload, f.counters, t, at, 0, keys);
    var h := Attempt(w, state, f.name, f.payload, f.counters, t, at, 0);
    ConcludeFollows(w, def, state, f, h);
  }

  lemma ConcludeFollows(w: World, def: Definition, state: State, f: Frame, h: HandlerResult)
    requires Declared(h.reply, Keys(def.states)) && CatchNexts(state.catches) <= CatchTargets(def.states)
    ensures var s := Conclude(w, state, f, h); s.Continue? ==> Followed(def, s.frame.name)
  {
    if h.reply.Thrown? {
      CatchLeadsToTarget(state.catches, h.reply.thrown);
    }
  }

  lemma {:induction false} AttemptStraysOnly(w: World, state: State, name: string, payload: Payload,
      counters: map<string, nat>, t: Tracker, at: seq<nat>, attempt: nat, keys: set<string>)
    requires ValidateState(state, keys)
    ensures var h := Attempt(w, state, name, payload, counters, t, at, attempt);
      StraysOnly(t, h.tracker, StateScopes(state)) && Declared(h.reply, keys)
    decreases Fuel(t), 5, if attempt < MostAttempts(state.retry) then MostAttempts(state.retry) - attempt else 0, 0
  {
    var t1 := t.(calls := t.calls + 1);
    HandleStraysOnly(w, state, name, payload, counters, t1, at + [attempt], keys);
    var h := Handle(w, state, name, payload, counters, t1, at + [attempt]);
    if Retries(state, h.reply, attempt) {
      RetriesWithinMost(state, h.reply, attempt);
      AttemptStraysOnly(w, state, name, payload, h.counters, h.tracker, at, attempt + 1, keys);
    }
  }

  lemma {:induction false} HandleStraysOnly(w: World, state: State, name: string, payload: Payload,
      counters: map<string, nat>, t: Tracker, at: seq<nat>, keys: set<string>)
    requires ValidateState(state, keys)
    ensures var h := Handle(w, state, name, payload, counters, t, at);
      StraysOnly(t, h.tracker, StateScopes(state)) && Declared(h.reply, keys)
    decreases Fuel(t), 4, 0, 0
  {
    if state.kind.Map? || state.kind.Parallel? {
      SubsOfAccepted(w, state, payload, keys);
      RunAllStraysOnly(w, SubFlows(w, state, payload), t, at, StateScopes(state));
    } else if state.kind.Choice? {
      ChoiceLeadsToKey(w, state.kind.choices, state.kind.fallback, payload, keys);
    }
  }

  lemma {:induction false} RunAllStraysOnly(w: World, subs: seq<SubFlow>, t: Tracker, at: seq<nat>, scopes: set<Scope>)
    requires SubsAccepted(subs, scopes)
    ensures StraysOnly(t, RunAll(w, subs, t, at).tracker, scopes)
    decreases Fuel(t), 3, |subs|, 0
  {
    if subs != [] {
      assert Validate(subs[0].def) && Scopes(subs[0].def) <= scopes;
      var f := Initial(subs[0].def, subs[0].input);
      LookupIffKey(subs[0].def.states, f.name);
      RunStraysOnly(w, subs[0].def, f, t, at + [|subs|]);
      var r := Run(w, subs[0].def, f, t, at + [|subs|]);
      if r.outcome.Success? {
        assert SubsAccepted(subs[1..], scopes) by {
          forall i | 0 <= i < |subs[1..]| ensures Validate(subs[1..][i].def) && Scopes(subs[1..][i].def) <= scopes {
            assert Validate(subs[i + 1].def) && Scopes(subs[i + 1].def) <= scopes;
          }
        }
        RunAllStraysOnly(w, subs[1..], r.tracker, at, scopes);
      }
    }
  }

  /**
   * In every run of every accepted flow, at every nesting depth, the only names for which no state is found are names
   * that a catch policy of that very flow or sub-flow gives as `next` and that it does not declare.
   */
  lemma ValidatedStraysOnlyThroughCatches(w: World, def: Definition, input: Payload)
    requires Validate(def)
    ensures AllStray(Run(w, def, Initial(def, input), Begun(0), []).tracker.missing, Scopes(def))
  {
    LookupIffKey(def.states, def.startAt);
    RunStraysOnly(w, def, Initial(def, input), Begun(0), []);
  }

  /** Every catch policy, at every depth, leads to a state of its own flow. */
  predicate CatchesDeclared(def: Definition) {
    forall scope :: scope in Scopes(def) ==> scope.caught <= scope.declared
  }

  /** If so, no run fails to find a state at all. */
  lemma ValidatedNeverStuck(w: World, def: Definition, input: Payload)
    requires Validate(def) && CatchesDeclared(def)
    ensures Run(w, def, Initial(def, input), Begun(0), []).tracker.missing == []
  {
    ValidatedStraysOnlyThroughCatches(w, def, input);
    var missing := Run(w, def, Initial(def, input), Begun(0), []).tracker.missing;
    var first := if missing != [] then missing[0] else Missing("", ScopeOf(def));
    assert first.scope in Scopes(def);
    assert !Stray(first);
  }

  /** A flow that validation accepts although its catch policy leads nowhere. */
  const STRAYING := Definition("a",
    [Entry("a", State(Task("f"), None, true, "", [Retry([], Some(1))], [Catch([], "b", "")]))])

  lemma StrayingIsAccepted()
    ensures Validate(STRAYING)
  {
    assert "f"[0] == 'f' && "a"[0] == 'a';
    assert Lookup(STRAYING.states, "a").Some?;
  }

  /** And when the call throws, the run gets stuck. */
  lemma CatchCanGetStuck(w: World, e: Error, input: Payload)
    requires e.kind.Ordinary? && forall p, x, at :: w.task("f", p, x, at) == Threw(e)
    ensures Run(w, STRAYING, Initial(STRAYING, input), Begun(0), []).outcome == Failure(MissingState("b"))
    ensures var missing := Run(w, STRAYING, Initial(STRAYING, input), Begun(0), []).tracker.missing;
      |missing| == 1 && missing[0].name == "b" && !CatchesDeclared(STRAYING)
  {
    var f, t, state := Initial(STRAYING, input), Begun(0), STRAYING.states[0].state;
    assert Lookup(STRAYING.states, "a") == Some(state);
    var t1 := t.(count := 1, steps := 1);
    assert Matches([], e);
    assert FindRetry(state.retry, e) == Some(state.retry[0]) && FindCatch(state.catches, e) == Some(state.catches[0]);
    var h := Attempt(w, state, f.name, f.payload, f.counters, t1, [1], 0);
    assert h.reply == Thrown(e) && h.tracker.count == 1 && h.tracker.missing == [];
    var s := Step(w, STRAYING, f, t, []);
    assert [] + [f.stepCount + 1] == [1];
    assert s.Continue? && s.frame.name == "b";
    assert STRAYING.states[1..] == [];
    assert Lookup(STRAYING.states, "b") == None;
    assert Step(w, STRAYING, s.frame, s.tracker, []).Stop?;
    assert state.catches[0].next in CatchNexts(state.catches);
    assert ScopeOf(STRAYING) in Scopes(STRAYING) && "b" in ScopeOf(STRAYING).caught
        && "b" !in ScopeOf(STRAYING).declared;
  }
}
