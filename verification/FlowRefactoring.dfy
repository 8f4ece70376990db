/** What renaming a function and normalising a definition do to the runs of a flow (src/flows/FlowValidator.ts). */
module FlowRefactoring {
  import opened Strings
  import opened FlowEngine
  import opened FlowReferences
  import opened FunctionService

  /** The world `u` answers every call to one of the names as `w` answers the edited call, and is otherwise the same. */
  ghost predicate Answers(w: World, u: World, e: Edit, names: set<string>) {
    && u == w.(task := u.task)
    && forall callee, params, payload, at :: callee in names ==>
         u.task(callee, params, payload, at) == w.task(Apply(e, callee), params, payload, at)
  }

  predicate Within(callees: seq<string>, names: set<string>) {
    forall i :: 0 <= i < |callees| ==> callees[i] in names
  }

  lemma WithinSplits(a: seq<string>, b: seq<string>, names: set<string>)
    requires Within(a + b, names)
    ensures Within(a, names) && Within(b, names)
  {
    forall i | 0 <= i < |a| ensures a[i] in names { assert (a + b)[i] == a[i]; }
    forall i | 0 <= i < |b| ensures b[i] in names { assert (a + b)[|a| + i] == b[i]; }
  }

  lemma {:induction false} FoundWithin(states: seq<Entry>, name: string, names: set<string>)
    requires Within(Callees(states), names) && Lookup(states, name).Some?
    ensures Within(StateCallees(Lookup(states, name).value), names)
  {
    WithinSplits(StateCallees(states[0].state), Callees(states[1..]), names);
    if states[0].name != name {
      FoundWithin(states[1..], name, names);
    }
  }

  lemma {:induction false} BranchWithin(branches: seq<Definition>, i: nat, names: set<string>)
    requires Within(BranchCallees(branches), names) && i < |branches|
    ensures Within(Callees(branches[i].states), names)
    decreases i
  {
    WithinSplits(Callees(branches[0].states), BranchCallees(branches[1..]), names);
    if i > 0 {
      BranchWithin(branches[1..], i - 1, names);
    }
  }

  predicate SubsWithin(subs: seq<SubFlow>, names: set<string>) {
    forall i :: 0 <= i < |subs| ==> Within(Callees(subs[i].def.states), names)
  }

  lemma SubFlowsWithin(w: World, state: State, payload: Payload, names: set<string>)
    requires Within(StateCallees(state), names)
    ensures SubsWithin(SubFlows(w, state, payload), names)
  {
    var subs := SubFlows(w, state, payload);
    forall i | 0 <= i < |subs| ensures Within(Callees(subs[i].def.states), names) {
      if state.kind.Parallel? {
        BranchWithin(state.kind.branches, i, names);
      }
    }
  }

  lemma {:induction false} LookupEdited(states: seq<Entry>, name: string, e: Edit)
    ensures Lookup(EditStates(states, e), name)
         == (var found := Lookup(states, name); if found.None? then None else Some(EditState(found.value, e)))
    decreases |states|
  {
    if states != [] && states[0].name != name {
      assert EditStates(states, e)[1..] == EditStates(states[1..], e);
      LookupEdited(states[1..], name, e);
    }
  }

  /** Retry and catch policies are no part of an edit, and transitions only of terminal states. */
  lemma PoliciesKept(state: State, e: Edit)
    ensures EditState(state, e).retry == state.retry && EditState(state, e).catches == state.catches
    ensures EditState(state, e).params == state.params
    ensures !state.kind.Succeed? && !state.kind.Fail?
        ==> EditState(state, e).next == state.next && EditState(state, e).end == state.end
  {
  }

  function EditSubs(subs: seq<SubFlow>, e: Edit): seq<SubFlow> {
    seq(|subs|, i requires 0 <= i < |subs| => SubFlow(EditFlow(subs[i].def, e), subs[i].input))
  }

  lemma SubFlowsEdited(w: World, u: World, state: State, payload: Payload, e: Edit)
    requires u == w.(task := u.task)
    ensures SubFlows(w, EditState(state, e), payload) == EditSubs(SubFlows(u, state, payload), e)
  {
    if state.kind.Parallel? {
      var branches := state.kind.branches;
      forall i | 0 <= i < |branches| ensures EditBranches(branches, e)[i] == EditFlow(branches[i], e) {
        EditedBranch(branches, e, i);
      }
    }
  }

  lemma {:induction false} SameNextState(w: World, u: World, choices: seq<Branch>, fallback: Option<string>,
      payload: Payload)
    requires u == w.(task := u.task)
    ensures FindNextState(u, choices, fallback, payload) == FindNextState(w, choices, fallback, payload)
  {
    if choices != [] {
      SameNextState(w, u, choices[1..], fallback, payload);
    }
  }

  lemma SameSimpleReply(w: World, u: World, state: State, payload: Payload, at: seq<nat>, e: Edit, names: set<string>)
    requires Answers(w, u, e, names) && Within(StateCallees(state), names)
    requires !state.kind.Map? && !state.kind.Parallel? && !state.kind.Loop?
    ensures SimpleReply(w, EditState(state, e), payload, at) == SimpleReply(u, state, payload, at)
  {
    if state.kind.Choice? {
      SameNextState(w, u, state.kind.choices, state.kind.fallback, payload);
    } else if state.kind.Task? {
      assert StateCallees(state)[0] in names;
    }
  }

  /**
   * The edited flow in a world runs as the original one in a world that answers the original names that way: the
   * same outcome, transitions, logs, checkpoints and budget, for every definition and from every state.
   */
  lemma {:induction false} RunEdited(w: World, u: World, def: Definition, f: Frame, t: Tracker, at: seq<nat>, e: Edit,
      names: set<string>)
    requires Answers(w, u, e, names) && Within(Callees(def.states), names)
    ensures Run(w, EditFlow(def, e), f, t, at) == Run(u, def, f, t, at)
    decreases Fuel(t), 1, 0, 0
  {
    if f.name != "" {
      StepEdited(w, u, def, f, t, at, e, names);
      var s := Step(u, def, f, t, at);
      if s.Continue? {
        RunEdited(w, u, def, s.frame, s.tracker, at, e, names);
      }
    }
  }

  lemma {:induction false} StepEdited(w: World, u: World, def: Definition, f: Frame, t: Tracker, at: seq<nat>, e: Edit,
      names: set<string>)
    requires Answers(w, u, e, names) && Within(Callees(def.states), names) && f.name != ""
    ensures Step(w, EditFlow(def, e), f, t, at) == Step(u, def, f, t, at)
    decreases Fuel(t), 0, 0, 0
  {
    LookupEdited(def.states, f.name, e);
    ScopeKept(def, e);
    var f1, t1 := f.(stepCount := f.stepCount + 1), t.(count := t.count + 1, steps := t.steps + 1);
    var found := Lookup(def.states, f.name);
    if f1.stepCount <= MAX_STEPS && t1.count <= MAX_STEPS && found.Some? {
      FoundEdited(w, u, def, f1, t1, at + [f1.stepCount], e, names);
      var h := Attempt(u, found.value, f1.name, f1.payload, f1.counters, t1, at + [f1.stepCount], 0);
      StepOfFound(u, def, f, t, at);
      StepOfFound(w, EditFlow(def, e), f, t, at);
    }
  }

  /** The state that was found, its attempts and what follows from them. */
  lemma {:induction false} FoundEdited(w: World, u: World, def: Definition, f: Frame, t: Tracker, at: seq<nat>, e: Edit,
      names: set<string>)
    requires Answers(w, u, e, names) && Within(Callees(def.states), names) && Lookup(def.states, f.name).Some?
    ensures var state := Lookup(def.states, f.name).value;
      var h := Attempt(u, state, f.name, f.payload, f.counters, t, at, 0);
      && Attempt(w, EditState(state, e), f.name, f.payload, f.counters, t, at, 0) == h
      && Conclude(w, EditState(state, e), f, h) == Conclude(u, state, f, h)
    decreases Fuel(t), 6, 0, 0
  {
    var state := Lookup(def.states, f.name).value;
    FoundWithin(def.states, f.name, names);
    AttemptEdited(w, u, state, f.name, f.payload, f.counters, t, at, 0, e, names);
    ConcludeEdited(w, u, state, f, Attempt(u, state, f.name, f.payload, f.counters, t, at, 0), e);
  }

  lemma ConcludeEdited(w: World, u: World, state: State, f: Frame, h: HandlerResult, e: Edit)
    requires u == w.(task := u.task)
    ensures Conclude(w, EditState(state, e), f, h) == Conclude(u, state, f, h)
  {
    PoliciesKept(state, e);
  }

  lemma RetriesEdited(state: State, e: Edit, reply: Reply, attempt: nat)
    ensures Retries(EditState(state, e), reply, attempt) == Retries(state, reply, attempt)
  {
    PoliciesKept(state, e);
  }

  lemma {:induction false} AttemptEdited(w: World, u: World, state: State, name: string, payload: Payload,
      counters: map<string, nat>, t: Tracker, at: seq<nat>, attempt: nat, e: Edit, names: set<string>)
    requires Answers(w, u, e, names) && Within(StateCallees(state), names)
    ensures Attempt(w, EditState(state, e), name, payload, counters, t, at, attempt)
         == Attempt(u, state, name, payload, counters, t, at, attempt)
    decreases Fuel(t), 5, if attempt < MostAttempts(state.retry) then MostAttempts(state.retry) - attempt else 0, 0
  {
    var t1 := t.(calls := t.calls + 1);
    HandleEdited(w, u, state, name, payload, counters, t1, at + [attempt], e, names);
    var h := Handle(u, state, name, payload, counters, t1, at + [attempt]);
    RetriesEdited(state, e, h.reply, attempt);
    if Retries(state, h.reply, attempt) {
      RetriesWithinMost(state, h.reply, attempt);
      AttemptEdited(w, u, state, name, payload, h.counters, h.tracker, at, attempt + 1, e, names);
    }
  }

  lemma {:induction false} HandleEdited(w: World, u: World, state: State, name: string, payload: Payload,
      counters: map<string, nat>, t: Tracker, at: seq<nat>, e: Edit, names: set<string>)
    requires Answers(w, u, e, names) && Within(StateCallees(state), names)
    ensures Handle(w, EditState(state, e), name, payload, counters, t, at)
         == Handle(u, state, name, payload, counters, t, at)
    decreases Fuel(t), 4, 0, 0
  {
    PoliciesKept(state, e);
    if state.kind.Map? || state.kind.Parallel? {
      SubFlowsEdited(w, u, state, payload, e);
      SubFlowsWithin(u, state, payload, names);
      RunAllEdited(w, u, SubFlows(u, state, payload), t, at, e, names);
    } else if !state.kind.Loop? {
      SameSimpleReply(w, u, state, payload, at, e, names);
    }
  }

  lemma {:induction false} RunAllEdited(w: World, u: World, subs: seq<SubFlow>, t: Tracker, at: seq<nat>, e: Edit,
      names: set<string>)
    requires Answers(w, u, e, names) && SubsWithin(subs, names)
    ensures RunAll(w, EditSubs(subs, e), t, at) == RunAll(u, subs, t, at)
    decreases Fuel(t), 3, |subs|, 0
  {
    if subs != [] {
      assert Within(Callees(subs[0].def.states), names);
      var f := Initial(subs[0].def, subs[0].input);
      RunEdited(w, u, subs[0].def, f, t, at + [|subs|], e, names);
      var r := Run(u, subs[0].def, f, t, at + [|subs|]);
      assert EditSubs(subs, e)[1..] == EditSubs(subs[1..], e);
      if r.outcome.Success? {
        assert SubsWithin(subs[1..], names) by {
          forall i | 0 <= i < |subs[1..]| ensures Within(Callees(subs[1..][i].def.states), names) {
            assert Within(Callees(subs[i + 1].def.states), names);
          }
        }
        RunAllEdited(w, u, subs[1..], r.tracker, at, e, names);
      }
    }
  }

  /** What validation deletes from terminal states no run can tell. */
  lemma NormalizationPreservesRuns(w: World, def: Definition, f: Frame, t: Tracker, at: seq<nat>)
    ensures Run(w, Normalized(def), f, t, at) == Run(w, def, f, t, at)
  {
    var cs := Callees(def.states);
    var names := set i | 0 <= i < |cs| :: cs[i];
    RunEdited(w, w, def, f, t, at, Edit("", "", true), names);
  }

  // ---------------------------------------------------------------- a function is renamed

  /**
   * The Task handler over the rows of `_functions`. `call` is any reaction to the function whose policy is checked
   * and the function that is run, both by id; `absent` is the error for a name that no row answers to.
   */
  datatype Calls = Calls(call: (string, string, string, Payload, seq<nat>) -> TaskOutcome, absent: string -> Error)

  function Serving(w: World, rows: seq<Function>, calls: Calls): World {
    w.(task := (callee, params, payload, at) => Answer(rows, calls, callee, params, payload, at))
  }

  function Answer(rows: seq<Function>, calls: Calls, callee: string, params: string, payload: Payload,
      at: seq<nat>): TaskOutcome
  {
    var checked, run := CheckedId(rows, callee), RunId(rows, callee);
    if checked.None? || run.None? then Threw(calls.absent(callee))
    else calls.call(checked.value, run.value, params, payload, at)
  }

  /** A call that a rename neither checks nor runs differently. */
  predicate Kept(rows: seq<Function>, f: Function, to: string, callee: string) {
    !Retargeted(rows, f, to, callee) && !Rechecked(rows, f, to, callee)
  }

  /**
   * Renaming a function: every flow whose calls keep their function, rewritten by the cascade, runs over the renamed
   * table exactly as the old flow ran over the old table, whatever the functions do.
   */
  lemma RenamePreservesRuns(w: World, rows: seq<Function>, calls: Calls, f: Function, to: string, def: Definition,
      input: Payload)
    requires Distinct(rows) && f in rows && Available(rows, f.id, to)
    requires forall i :: 0 <= i < |Callees(def.states)| ==> Kept(rows, f, to, Callees(def.states)[i])
    ensures var after, start := RenameRow(rows, f.id, to), Initial(def, input);
      Run(Serving(w, after, calls), Renamed(def, f.name, to), start, Begun(0), [])
      == Run(Serving(w, rows, calls), def, start, Begun(0), [])
  {
    var cs, e := Callees(def.states), Edit(f.name, to, false);
    var names := set i | 0 <= i < |cs| :: cs[i];
    var w1, u := Serving(w, RenameRow(rows, f.id, to), calls), Serving(w, rows, calls);
    forall callee, params, payload, at | callee in names
      ensures u.task(callee, params, payload, at) == w1.task(Apply(e, callee), params, payload, at)
    {
      SameAnswer(rows, calls, f, to, callee, params, payload, at);
    }
    RunEdited(w1, u, def, Initial(def, input), Begun(0), [], e, names);
  }

  lemma SameAnswer(rows: seq<Function>, calls: Calls, f: Function, to: string, callee: string, params: string,
      payload: Payload, at: seq<nat>)
    requires Distinct(rows) && f in rows && Available(rows, f.id, to) && Kept(rows, f, to, callee)
    ensures Answer(RenameRow(rows, f.id, to), calls, Apply(Edit(f.name, to, false), callee), params, payload, at)
         == Answer(rows, calls, callee, params, payload, at)
  {
    RenameKeepsTargetIff(rows, f, to, callee);
    RenameKeepsCheckIff(rows, f, to, callee);
    SameFound(rows, callee);
    SameFound(RenameRow(rows, f.id, to), Apply(Edit(f.name, to, false), callee));
    if callee == f.name {
      FoundByName(rows, f);
    }
  }

  /** A flow of one call. */
  function OneCall(callee: string): Definition {
    Definition("a", [Entry("a", State(Task(callee), None, true, "", [], []))])
  }

  /** Which of the two functions of a call is asked for: the one whose policy is checked, or the one that runs. */
  datatype Asked = Policy | Target

  function AskedId(rows: seq<Function>, callee: string, asked: Asked): Option<string> {
    if asked.Policy? then CheckedId(rows, callee) else RunId(rows, callee)
  }

  /** Calls that are answered with that function's id. */
  function Echo(asked: Asked): Calls {
    Calls((checked, run, params, payload, at) => Done(Some(if asked.Policy? then checked else run)),
          name => Error(Ordinary, "NotFoundError", None, name))
  }

  lemma OneCallRuns(w: World, rows: seq<Function>, asked: Asked, callee: string, input: Payload)
    requires forall p, b :: w.place("", p, [b]) == b
    ensures var def := OneCall(callee);
      var o := Run(Serving(w, rows, Echo(asked)), def, Initial(def, input), Begun(0), []).outcome;
      if RunId(rows, callee).Some? then o == Success(AskedId(rows, callee, asked)) else o.Failure?
  {
    SameFound(rows, callee);
    var def, u := OneCall(callee), Serving(w, rows, Echo(asked));
    var f, state := Initial(def, input), def.states[0].state;
    assert Lookup(def.states, "a") == Some(state);
    assert [] + [f.stepCount + 1] == [1] && [1] + [0] == [1, 0];
    var h := Attempt(u, state, f.name, f.payload, f.counters, Begun(0).(count := 1, steps := 1), [1], 0);
    var g := Handle(u, state, f.name, f.payload, f.counters, Begun(0).(count := 1, steps := 1, calls := 1), [1] + [0]);
    assert !Retries(state, g.reply, 0);
    assert h.reply == SimpleReply(u, state, f.payload, [1, 0]);
    assert Step(u, def, f, Begun(0), []).Stop?;
  }

  lemma OneCallRenamed(callee: string, from: string, to: string)
    ensures Renamed(OneCall(callee), from, to) == OneCall(Apply(Edit(from, to, false), callee))
  {
    var e, states := Edit(from, to, false), OneCall(callee).states;
    assert states[1..] == [] && EditStates([], e) == [];
    assert EditStates(states, e) == [Entry("a", EditState(states[0].state, e))];
  }

  /** The outcomes of a flow of one call, before the rename and after it. */
  lemma OneCallBeforeAndAfter(w: World, rows: seq<Function>, asked: Asked, f: Function, to: string, callee: string,
      input: Payload)
    requires forall p, b :: w.place("", p, [b]) == b
    requires AskedId(RenameRow(rows, f.id, to), Apply(Edit(f.name, to, false), callee), asked)
          != AskedId(rows, callee, asked)
    ensures var def, after := OneCall(callee), RenameRow(rows, f.id, to);
      Run(Serving(w, after, Echo(asked)), Renamed(def, f.name, to), Initial(def, input), Begun(0), []).outcome
      != Run(Serving(w, rows, Echo(asked)), def, Initial(def, input), Begun(0), []).outcome
  {
    var e, after := Edit(f.name, to, false), RenameRow(rows, f.id, to);
    SameFound(rows, callee);
    SameFound(after, Apply(e, callee));
    OneCallRuns(w, rows, asked, callee, input);
    OneCallRuns(w, after, asked, Apply(e, callee), input);
    OneCallRenamed(callee, f.name, to);
  }

  /** Where a call is retargeted the cascade changes runs: the flow of that one call answers differently. */
  lemma RetargetedRunsDiffer(w: World, rows: seq<Function>, f: Function, to: string, callee: string, input: Payload)
    requires Distinct(rows) && f in rows && Available(rows, f.id, to) && Retargeted(rows, f, to, callee)
    requires forall p, b :: w.place("", p, [b]) == b
    ensures var def, after := OneCall(callee), RenameRow(rows, f.id, to);
      Run(Serving(w, after, Echo(Target)), Renamed(def, f.name, to), Initial(def, input), Begun(0), []).outcome
      != Run(Serving(w, rows, Echo(Target)), def, Initial(def, input), Begun(0), []).outcome
  {
    RenameKeepsTargetIff(rows, f, to, callee);
    OneCallBeforeAndAfter(w, rows, Target, f, to, callee, input);
  }

  /** And where another function's policy is checked, although the call may still run the same function. */
  lemma RecheckedRunsDiffer(w: World, rows: seq<Function>, f: Function, to: string, callee: string, input: Payload)
    requires Distinct(rows) && f in rows && Available(rows, f.id, to) && Rechecked(rows, f, to, callee)
    requires forall p, b :: w.place("", p, [b]) == b
    ensures var def, after := OneCall(callee), RenameRow(rows, f.id, to);
      Run(Serving(w, after, Echo(Policy)), Renamed(def, f.name, to), Initial(def, input), Begun(0), []).outcome
      != Run(Serving(w, rows, Echo(Policy)), def, Initial(def, input), Begun(0), []).outcome
  {
    RenameKeepsCheckIff(rows, f, to, callee);
    OneCallBeforeAndAfter(w, rows, Policy, f, to, callee, input);
  }
}
