/** Resuming a stored execution (src/flows/FlowService.ts, resolveResumeState) equals not having crashed. */
module FlowResume {
  import opened Strings
  import opened FlowEngine
  import opened FlowBudget
  import FlowBounds

  const NULL_JSON: Json := "null"

  /** The columns of a row that resuming reads; an SQL NULL is `None`. */
  datatype Stored = Stored(
    input: Option<Json>, output: Option<Json>, stepLogs: seq<Log>, checkpoint: Option<Checkpoint>)

  /** persistCheckpoint's update of the row. */
  function Persist(row: Stored, e: Event): Stored {
    Stored(row.input, e.payload, e.stepLogs, if e.status.Succeeded? then None else Some(e.checkpoint))
  }

  /** The row of a fresh execution, as executeFlow saves it. */
  function Admitted(def: Definition, input: Payload): Stored {
    Stored(Some(if input.Some? then input.value else NULL_JSON), None, [],
           Some(Checkpoint(Some(def.startAt), if input.Some? then input else Some(EMPTY_OBJECT), 0, map[])))
  }

  datatype Resolution = Completed | Unresolvable | Resumed(frame: Frame)

  /** A column read back: an SQL NULL becomes JavaScript's null. */
  function Read(column: Option<Json>): Json {
    if column.Some? then column.value else NULL_JSON
  }

  /** `output ?? input ?? {}` */
  function Fallback(row: Stored): Json {
    if Read(row.output) != NULL_JSON then Read(row.output)
    else if Read(row.input) != NULL_JSON then Read(row.input)
    else EMPTY_OBJECT
  }

  function OrObject(p: Payload): Payload {
    if p.Some? then p else Some(EMPTY_OBJECT)
  }

  predicate Named(name: Option<string>) {
    name.Some? && name.value != ""
  }

  /** The next state and payload, from the checkpoint or else reconstructed from the last log entry. */
  function NextState(w: World, def: Definition, row: Stored): (r: (Option<string>, Payload, bool)) {
    var c := row.checkpoint;
    if c.Some? && Named(c.value.currentStateName) then
      var saved := c.value.currentPayload;
      (c.value.currentStateName, if saved.Some? then saved else Some(Fallback(row)), false)
    else if row.stepLogs == [] then (Some(def.startAt), Some(Read(row.input)), false)
    else
      var last := row.stepLogs[|row.stepLogs| - 1];
      var state := Lookup(def.states, last.step);
      if last.failed then (Some(last.step), OrObject(last.input), false)
      else if Named(last.nextState) then (last.nextState, OrObject(last.output), false)
      else if state.Some? && (state.value.end || state.value.kind.Succeed?) then (None, None, true)
      else if state.Some? && state.value.kind.Choice? then
        var payload := if last.output.Some? then last.output else OrObject(last.input);
        (FindNextState(w, state.value.kind.choices, state.value.kind.fallback, payload), payload, false)
      else if state.Some? && Named(state.value.next) then (state.value.next, OrObject(last.output), false)
      else (None, None, false)
  }

  function ResolveResumeState(w: World, def: Definition, row: Stored): Resolution {
    var (name, payload, completed) := NextState(w, def, row);
    if completed then Completed
    else if !Named(name) || Lookup(def.states, name.value).None? then Unresolvable
    else
      var counters := if row.checkpoint.Some? then row.checkpoint.value.counters else map[];
      var saved := if row.checkpoint.Some? then row.checkpoint.value.stepCount else 0;
      Resumed(Frame(name.value, payload, if saved > 0 then saved else |row.stepLogs|, row.stepLogs, counters))
  }

  /** The engine started from a resolution: its own tracker begins at the top-level step count. */
  function RunResumed(w: World, def: Definition, f: Frame, at: seq<nat>): RunResult {
    Run(w, def, f, Begun(f.stepCount), at)
  }

  /** Where the run stands after `k` transitions, if it gets that far. */
  function After(w: World, def: Definition, f: Frame, t: Tracker, at: seq<nat>, k: nat): Option<(Frame, Tracker)>
    decreases k
  {
    if k == 0 then Some((f, t))
    else if f.name == "" then None
    else
      match Step(w, def, f, t, at)
      case Stop(_, _, _, _) => None
      case Continue(g, t', _) => After(w, def, g, t', at, k - 1)
  }

  /** What the main loop keeps: the log is no longer than the step count, which the shared count covers. */
  predicate Consistent(f: Frame, t: Tracker) {
    |f.logs| <= f.stepCount <= t.count
  }

  lemma {:induction false} AfterSplitsRun(w: World, def: Definition, f: Frame, t: Tracker, at: seq<nat>, k: nat)
    requires Consistent(f, t) && After(w, def, f, t, at, k).Some?
    ensures var (g, t') := After(w, def, f, t, at, k).value;
      var whole, rest := Run(w, def, f, t, at), Run(w, def, g, t', at);
      && Consistent(g, t') && (k > 0 ==> g.stepCount > 0)
      && whole.outcome == rest.outcome && whole.frame == rest.frame && whole.tracker == rest.tracker
      && |whole.events| == k + |rest.events| && whole.events[k..] == rest.events
      && (k > 0 ==> whole.events[k - 1]
                    == Event(Running, g.logs, g.payload, Checkpoint(Some(g.name), g.payload, g.stepCount, g.counters)))
    decreases k
  {
    if k > 0 {
      FlowBounds.StepAppends(w, def, f, t, at);
      var s := Step(w, def, f, t, at);
      AfterSplitsRun(w, def, s.frame, s.tracker, at, k - 1);
      var rest := Run(w, def, s.frame, s.tracker, at).events;
      assert Run(w, def, f, t, at).events == [s.event] + rest;
      assert ([s.event] + rest)[k..] == rest[k - 1..];
    }
  }

  /**
   * What a running checkpoint gives back: exactly the frame that wrote it, if and only if that frame named a state of
   * the flow and its payload was defined. An undefined payload is not stored, and the flow's input takes its place; a
   * blank name is not taken for a name, and the last log entry decides.
   */
  lemma {:induction false} CheckpointRestoresIff(w: World, def: Definition, row: Stored, g: Frame)
    requires |g.logs| <= g.stepCount
    ensures var e := Event(Running, g.logs, g.payload, Checkpoint(Some(g.name), g.payload, g.stepCount, g.counters));
      ResolveResumeState(w, def, Persist(row, e)) == Resumed(g)
      <==> g.name != "" && Lookup(def.states, g.name).Some? && g.payload.Some?
  {
  }

  lemma {:induction false} SuccessFindsState(w: World, def: Definition, f: Frame, t: Tracker, at: seq<nat>)
    requires f.name != "" && Run(w, def, f, t, at).outcome.Success?
    ensures Lookup(def.states, f.name).Some?
  {
  }

  /** Same outcome, same final state, payload, logs and counters, and the same events from the resume point on. */
  predicate SameEnding(whole: RunResult, resumed: RunResult, k: nat) {
    && resumed.outcome == whole.outcome && resumed.frame == whole.frame
    && k <= |whole.events| && resumed.events == whole.events[k..]
  }

  /** The run succeeds, and its whole tree has kept within the step limit. */
  predicate Completes(r: RunResult) {
    r.outcome.Success? && r.tracker.count <= MAX_STEPS
  }

  /** Started where the run stood, with a tracker of its own, the engine does the rest of the run within its limit. */
  lemma RestIsRun(w: World, def: Definition, f: Frame, t: Tracker, at: seq<nat>, k: nat)
    requires Consistent(f, t) && Completes(Run(w, def, f, t, at)) && After(w, def, f, t, at, k).Some?
    ensures var whole, rest := Run(w, def, f, t, at), RunResumed(w, def, After(w, def, f, t, at, k).value.0, at);
      SameEnding(whole, rest, k) && Completes(rest)
  {
    AfterSplitsRun(w, def, f, t, at, k);
    var (g, t') := After(w, def, f, t, at, k).value;
    var d := Lag(t'.count - g.stepCount, t'.steps, t'.calls, |t'.missing|);
    RunLowered(w, def, g, t', at, d);
    assert Lower(t', d) == Begun(g.stepCount);
  }

  /**
   * Resume equivalence, for any definition: take any run that succeeds within the step limit and any transition of it
   * that was persisted as running. Running from where it led ends exactly as the uninterrupted run did, and the stored
   * row resolves to that very state if and only if the state has a name and its payload was defined.
   */
  lemma {:induction false} ResumeEqualsUninterrupted(w: World, def: Definition, f: Frame, t: Tracker, at: seq<nat>,
      k: nat, row: Stored)
    requires Consistent(f, t) && Completes(Run(w, def, f, t, at)) && k > 0 && After(w, def, f, t, at, k).Some?
    ensures var whole, g := Run(w, def, f, t, at), After(w, def, f, t, at, k).value.0;
      && k <= |whole.events| && whole.events[k - 1].status.Running?
      && SameEnding(whole, RunResumed(w, def, g, at), k)
      && (ResolveResumeState(w, def, Persist(row, whole.events[k - 1])) == Resumed(g)
          <==> g.name != "" && g.payload.Some?)
  {
    AfterSplitsRun(w, def, f, t, at, k);
    RestIsRun(w, def, f, t, at, k);
    var (g, t') := After(w, def, f, t, at, k).value;
    if g.name != "" {
      SuccessFindsState(w, def, g, t', at);
    }
    CheckpointRestoresIff(w, def, row, g);
  }

  /** When a definition alone gives what the theorems ask of a run that succeeds. */
  lemma NamedRunCompletes(w: World, def: Definition, f: Frame, t: Tracker, at: seq<nat>)
    requires t.count <= MAX_STEPS && f.name != "" && LimitPasses(def) && OwnCatchesNamed(def)
    requires Run(w, def, f, t, at).outcome.Success?
    ensures Completes(Run(w, def, f, t, at)) && Run(w, def, f, t, at).frame.name != ""
  {
    RunSucceedsWithin(w, def, f, t, at);
    RunEndsNamed(w, def, f, t, at);
  }

  /** A run that ends at a named state has stood at named states only. */
  lemma AfterNamed(w: World, def: Definition, f: Frame, t: Tracker, at: seq<nat>, k: nat)
    requires Consistent(f, t) && After(w, def, f, t, at, k).Some? && Run(w, def, f, t, at).frame.name != ""
    ensures After(w, def, f, t, at, k).value.0.name != ""
  {
    AfterSplitsRun(w, def, f, t, at, k);
  }

  /** So for such definitions every running transition with a defined payload resumes into the rest of the run. */
  lemma NamedFlowResumes(w: World, def: Definition, f: Frame, t: Tracker, at: seq<nat>, k: nat, row: Stored)
    requires Consistent(f, t) && t.count <= MAX_STEPS && f.name != "" && LimitPasses(def) && OwnCatchesNamed(def)
    requires Run(w, def, f, t, at).outcome.Success? && k > 0 && After(w, def, f, t, at, k).Some?
    requires After(w, def, f, t, at, k).value.0.payload.Some?
    ensures var whole, g := Run(w, def, f, t, at), After(w, def, f, t, at, k).value.0;
      && k <= |whole.events| && whole.events[k - 1].status.Running?
      && ResolveResumeState(w, def, Persist(row, whole.events[k - 1])) == Resumed(g)
      && SameEnding(whole, RunResumed(w, def, g, at), k)
  {
    NamedRunCompletes(w, def, f, t, at);
    AfterNamed(w, def, f, t, at, k);
    ResumeEqualsUninterrupted(w, def, f, t, at, k, row);
  }

  // ---------------------------------------------------------------- any number of crashes

  /**
   * The run of an execution that crashes `crashes[0]` transitions after it (re)started, is resumed from its row,
   * crashes again after `crashes[1]` further transitions, and so on. A crash after the run has ended changes nothing.
   */
  function RunWithCrashes(w: World, def: Definition, f: Frame, t: Tracker, at: seq<nat>, crashes: seq<nat>,
      row: Stored): RunResult
    decreases |crashes|
  {
    var whole := Run(w, def, f, t, at);
    if crashes == [] then whole
    else if crashes[0] == 0 then RunWithCrashes(w, def, f, t, at, crashes[1..], row)
    else
      var stop := After(w, def, f, t, at, crashes[0]);
      if stop.None? || crashes[0] > |whole.events| then whole
      else
        var row' := Persist(row, whole.events[crashes[0] - 1]);
        match ResolveResumeState(w, def, row')
        case Resumed(g) =>
          RunWithCrashes(w, def, g, Begun(g.stepCount), at, crashes[1..], row')
        case _ => whole
  }

  /** Every transition persisted as running has a defined payload. */
  predicate AllDefined(events: seq<Event>) {
    forall i :: 0 <= i < |events| && events[i].status.Running? ==> events[i].payload.Some?
  }

  /** A run that a crash at any of its transitions does not harm. */
  predicate Endures(r: RunResult) {
    Completes(r) && r.frame.name != "" && AllDefined(r.events)
  }

  /** One crash: the row gives back where the run stood, and what is resumed endures as well and ends alike. */
  lemma OneCrash(w: World, def: Definition, f: Frame, t: Tracker, at: seq<nat>, k: nat, row: Stored)
    requires Consistent(f, t) && Endures(Run(w, def, f, t, at)) && k > 0 && After(w, def, f, t, at, k).Some?
    ensures var whole, g := Run(w, def, f, t, at), After(w, def, f, t, at, k).value.0;
      && k <= |whole.events| && ResolveResumeState(w, def, Persist(row, whole.events[k - 1])) == Resumed(g)
      && Consistent(g, Begun(g.stepCount))
      && var rest := RunResumed(w, def, g, at);
         Endures(rest) && SameEnding(whole, rest, k)
  {
    var whole, g := Run(w, def, f, t, at), After(w, def, f, t, at, k).value.0;
    AfterSplitsRun(w, def, f, t, at, k);
    assert whole.events[k - 1].status.Running? && whole.events[k - 1].payload == g.payload;
    AfterNamed(w, def, f, t, at, k);
    ResumeEqualsUninterrupted(w, def, f, t, at, k, row);
    RestIsRun(w, def, f, t, at, k);
    DefinedTail(whole.events, k);
  }

  lemma DefinedTail(events: seq<Event>, k: nat)
    requires AllDefined(events) && k <= |events|
    ensures AllDefined(events[k..])
  {
    forall i | 0 <= i < |events[k..]| && events[k..][i].status.Running? ensures events[k..][i].payload.Some? {
      assert events[k..][i] == events[k + i];
    }
  }

  /** However often it crashes and wherever, a run that endures ends in the same output, logs and loop counters. */
  lemma {:induction false} CrashesChangeNothing(w: World, def: Definition, f: Frame, t: Tracker, at: seq<nat>,
      crashes: seq<nat>, row: Stored)
    requires Consistent(f, t) && Endures(Run(w, def, f, t, at))
    ensures var whole, crashed := Run(w, def, f, t, at), RunWithCrashes(w, def, f, t, at, crashes, row);
      crashed.outcome == whole.outcome && crashed.frame == whole.frame
    decreases |crashes|
  {
    if crashes != [] {
      var k := crashes[0];
      if k == 0 {
        CrashesChangeNothing(w, def, f, t, at, crashes[1..], row);
      } else if After(w, def, f, t, at, k).Some? {
        OneCrash(w, def, f, t, at, k, row);
        var g := After(w, def, f, t, at, k).value.0;
        var row' := Persist(row, Run(w, def, f, t, at).events[k - 1]);
        CrashesChangeNothing(w, def, g, Begun(g.stepCount), at, crashes[1..], row');
      }
    }
  }

  // ---------------------------------------------------------------- where an undefined payload goes

  /** Two states: the first has an output path that finds nothing, the second ends the flow. */
  const LOSING := Definition("a", [
    Entry("a", State(Pass, Some("b"), false, "", [], [])),
    Entry("b", State(Succeed, None, false, "", [], []))])

  /** With an undefined payload the resumed run ends differently: in the flow's input instead of in undefined. */
  lemma UndefinedPayloadIsLost(w: World, input: Json)
    requires input != NULL_JSON && w.place("", Some(input), []) == None
    ensures var f, t := Initial(LOSING, Some(input)), Begun(0);
      var whole := Run(w, LOSING, f, t, []);
      var row := Persist(Admitted(LOSING, Some(input)), whole.events[0]);
      && |whole.events| == 2 && whole.outcome == Success(None)
      && ResolveResumeState(w, LOSING, row).Resumed?
      && RunResumed(w, LOSING, ResolveResumeState(w, LOSING, row).frame, []).outcome == Success(Some(input))
  {
    var f, t := Initial(LOSING, Some(input)), Begun(0);
    assert Lookup(LOSING.states, "a") == Some(LOSING.states[0].state);
    assert LOSING.states[1..] == [LOSING.states[1]];
    assert Lookup(LOSING.states, "b") == Some(LOSING.states[1].state);
    var s1 := Step(w, LOSING, f, t, []);
    assert s1.Continue? && s1.frame.name == "b" && s1.frame.payload == None;
    var s2 := Step(w, LOSING, s1.frame, s1.tracker, []);
    assert s2.Stop? && s2.outcome == Success(None);
    assert Run(w, LOSING, s1.frame, s1.tracker, []) == RunResult(Success(None), s2.frame, s2.tracker, s2.events);
    var whole := Run(w, LOSING, f, t, []);
    var row := Persist(Admitted(LOSING, Some(input)), whole.events[0]);
    var g := ResolveResumeState(w, LOSING, row).frame;
    assert g.name == "b" && g.payload == Some(input);
    assert Step(w, LOSING, g, Begun(g.stepCount), []).Stop?;
  }

  // ---------------------------------------------------------------- where a blank catch policy goes

  /** One call whose error is caught into nowhere, which ends the flow. */
  const BLANK := Definition("a", [Entry("a", State(Task("f"), None, true, "", [], [Catch([], "", "")]))])

  lemma BlankStep(w: World, e: Error, f: Frame)
    requires e.kind.Ordinary? && (forall p, x, at :: w.task("f", p, x, at) == Threw(e)) && f.name == "a"
    requires f.stepCount < MAX_STEPS
    ensures var r := RunResumed(w, BLANK, f, []);
      var log := Log("a", f.payload, w.placeError("", f.payload, e), true, Some(e.message), Some(""));
      && r.outcome.Success? && r.frame.name == "" && r.frame.logs == f.logs + [log]
      && r.tracker.count == f.stepCount + 1
      && r.events == [Event(Running, f.logs + [log], log.output,
                            Checkpoint(Some(""), log.output, f.stepCount + 1, f.counters))]
  {
    var state, t := BLANK.states[0].state, Begun(f.stepCount);
    var t1 := t.(count := t.count + 1, steps := t.steps + 1);
    assert Lookup(BLANK.states, "a") == Some(state);
    assert Matches([], e) && FindCatch(state.catches, e) == Some(state.catches[0]);
    var h := Attempt(w, state, "a", f.payload, f.counters, t1, [f.stepCount + 1], 0);
    var g := Handle(w, state, "a", f.payload, f.counters, t1.(calls := t1.calls + 1), [f.stepCount + 1] + [0]);
    assert g.reply == Thrown(e) && !Retries(state, g.reply, 0);
    assert h.reply == Thrown(e) && h.tracker.count == t1.count && h.counters == f.counters;
    assert [] + [f.stepCount + 1] == [f.stepCount + 1];
    StepOfFound(w, BLANK, f, t, []);
    var s := Step(w, BLANK, f, t, []);
    assert s.Continue? && s.frame.name == "";
    assert Run(w, BLANK, s.frame, s.tracker, []).events == [];
  }

  /**
   * The run succeeds after its one call, and its only transition is persisted as running with a defined payload. The
   * row resolves to the call that failed, not to the end, and the resumed run makes it again.
   */
  lemma BlankCatchRunsAgain(w: World, e: Error, input: Json, row: Stored)
    requires e.kind.Ordinary? && forall p, x, at :: w.task("f", p, x, at) == Threw(e)
    requires w.placeError("", Some(input), e).Some?
    ensures var whole := Run(w, BLANK, Initial(BLANK, Some(input)), Begun(0), []);
      && Completes(whole) && |whole.events| == 1 && whole.events[0].status.Running? && whole.events[0].payload.Some?
      && var r := ResolveResumeState(w, BLANK, Persist(row, whole.events[0]));
         r.Resumed? && r.frame.name == "a" && |whole.frame.logs| == 1
         && |RunResumed(w, BLANK, r.frame, []).frame.logs| == 2
  {
    var f := Initial(BLANK, Some(input));
    BlankStep(w, e, f);
    var whole := RunResumed(w, BLANK, f, []);
    assert Lookup(BLANK.states, "a") == Some(BLANK.states[0].state);
    var r := ResolveResumeState(w, BLANK, Persist(row, whole.events[0]));
    BlankStep(w, e, r.frame);
  }
}
