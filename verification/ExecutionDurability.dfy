/**
 * The interpreter and the service together: however an execution is queued, dispatched, interrupted by crashes and
 * resumed among other executions, it ends as one uninterrupted run of its flow would (src/flows/FlowEngine.ts,
 * src/flows/FlowService.ts).
 */
module ExecutionDurability {
  import opened Strings
  import opened FlowEngine
  import opened FlowBudget
  import opened FlowResume
  import FlowBounds
  import opened ExecutionProtocol
  import Safety = ExecutionSafety

  /** One execution of a flow, with its input, which may be undefined. */
  datatype Job = Job(id: Id, flow: Flow, input: Payload)

  /** The state in which a direct call of executeFlow starts the engine. */
  function Start(job: Job): Frame {
    Initial(job.flow.definition, job.input)
  }

  /** The input column of the execution's row: an undefined input is stored as null. */
  function StoredInput(job: Job): Json {
    Read(job.input)
  }

  /** What the engine does with it when nothing interrupts it. */
  function Whole(job: Job): RunResult {
    job.flow.run(Start(job))
  }

  function LogsAfter(job: Job, k: nat): seq<Log>
    requires k <= |Whole(job).events|
  {
    if k == 0 then [] else Whole(job).events[k - 1].stepLogs
  }

  /** Running transitions, and then one success with the final output and log. */
  predicate EndsInSuccess(r: RunResult) {
    && r.outcome.Success? && r.events != []
    && (forall k :: 0 <= k < |r.events| - 1 ==> r.events[k].status.Running?)
    && var last := r.events[|r.events| - 1];
       last.status.Succeeded? && last.payload == r.outcome.output && last.stepLogs == r.frame.logs
  }

  /** The row has the first `k` transitions behind it, and resuming it does exactly the rest. */
  ghost predicate ResumesAt(job: Job, stored: Stored, k: nat) {
    && k <= |Whole(job).events| && stored.input == Some(StoredInput(job)) && stored.stepLogs == LogsAfter(job, k)
    && var r := Resolve(job.flow, stored);
       r.Resumed? && r.frame.logs == stored.stepLogs && SameEnding(Whole(job), job.flow.run(r.frame), k)
       && (!HasProgress(stored, job.flow.definition) ==> k == 0)
  }

  /** Every transition persisted as running leaves a row that resumes right after it. */
  ghost predicate Checkpointed(job: Job) {
    forall row: Stored, k: nat :: row.input == Some(StoredInput(job)) && k < |Whole(job).events| - 1 ==>
      ResumesAt(job, Persist(row, Whole(job).events[k]), k + 1)
  }

  /**
   * What the protocol needs of an execution: it would succeed, and it can be resumed from its start and after every
   * transition.
   */
  ghost predicate Durable(job: Job) {
    && EndsInSuccess(Whole(job)) && ResumesAt(job, Admitted(job.flow.definition, job.input), 0) && Checkpointed(job)
    && Safety.Lawful(job.flow)
  }

  // ---------------------------------------------------------------- the engine's executions

  /**
   * A successful run reports running transitions and then one success, if and only if it ends at a named state: one
   * that ends through a blank catch policy reports running transitions only.
   */
  lemma {:induction false} EventsOfSuccess(w: World, def: Definition, f: Frame, t: Tracker, at: seq<nat>)
    requires f.name != "" && |f.logs| <= f.stepCount && Run(w, def, f, t, at).outcome.Success?
    ensures EndsInSuccess(Run(w, def, f, t, at)) <==> Run(w, def, f, t, at).frame.name != ""
    ensures forall k :: 0 <= k < |Run(w, def, f, t, at).events| ==> AfterReached(w, def, f, t, at, k)
    decreases Fuel(t)
  {
    var s, r := Step(w, def, f, t, at), Run(w, def, f, t, at);
    FlowBounds.StepAppends(w, def, f, t, at);
    if s.Continue? {
      var rest := Run(w, def, s.frame, s.tracker, at);
      if s.frame.name != "" {
        EventsOfSuccess(w, def, s.frame, s.tracker, at);
        EndsLikeRest(s.event, rest, r);
      }
      forall k | 0 <= k < |r.events| ensures AfterReached(w, def, f, t, at, k) {
        if k > 0 { assert AfterReached(w, def, s.frame, s.tracker, at, k - 1); }
      }
    }
  }

  lemma EndsLikeRest(e: Event, rest: RunResult, r: RunResult)
    requires r == rest.(events := [e] + rest.events) && e.status.Running? && rest.events != []
    ensures EndsInSuccess(r) <==> EndsInSuccess(rest)
  {
    if EndsInSuccess(rest) {
      forall k | 0 <= k < |r.events| - 1 ensures r.events[k].status.Running? {
        if k > 0 { assert rest.events[k - 1].status.Running?; }
      }
    }
    if EndsInSuccess(r) {
      forall k | 0 <= k < |rest.events| - 1 ensures rest.events[k].status.Running? {
        assert r.events[k + 1].status.Running?;
      }
    }
  }

  predicate AfterReached(w: World, def: Definition, f: Frame, t: Tracker, at: seq<nat>, k: nat) {
    FlowResume.After(w, def, f, t, at, k).Some?
  }

  /**
   * A run of the engine that succeeds within the step limit, at a named state and with a defined payload at every
   * running transition.
   */
  predicate RunSucceeds(w: World, def: Definition, input: Payload) {
    Endures(Run(w, def, Initial(def, input), Begun(0), []))
  }

  lemma PersistedResumes(w: World, def: Definition, id: Id, input: Payload, row: Stored, k: nat)
    requires RunSucceeds(w, def, input) && row.input == Some(Read(input))
    requires k < |Run(w, def, Initial(def, input), Begun(0), []).events| - 1
    ensures var job := Job(id, EngineOn(w, def), input); ResumesAt(job, Persist(row, Whole(job).events[k]), k + 1)
  {
    var f, t := Initial(def, input), Begun(0);
    EventsOfSuccess(w, def, f, t, []);
    assert AfterReached(w, def, f, t, [], k + 1);
    AfterSplitsRun(w, def, f, t, [], k + 1);
    OneCrash(w, def, f, t, [], k + 1, row);
  }

  lemma AdmittedStarts(w: World, def: Definition, id: Id, input: Payload)
    requires RunSucceeds(w, def, input)
    ensures var job := Job(id, EngineOn(w, def), input);
      EndsInSuccess(Whole(job)) && ResumesAt(job, Admitted(def, input), 0)
  {
    var job, f := Job(id, EngineOn(w, def), input), Initial(def, input);
    EventsOfSuccess(w, def, f, Begun(0), []);
    SuccessFindsState(w, def, f, Begun(0), []);
    assert Resolve(job.flow, Admitted(def, input)) == Resumed(f);
    assert Whole(job).events[0..] == Whole(job).events;
  }

  /** Every run of the engine that succeeds in that sense is durable. */
  lemma EngineIsDurable(w: World, def: Definition, id: Id, input: Payload)
    requires RunSucceeds(w, def, input)
    ensures Durable(Job(id, EngineOn(w, def), input))
  {
    var job := Job(id, EngineOn(w, def), input);
    AdmittedStarts(w, def, id, input);
    Safety.EngineIsLawful(w, def);
    forall row: Stored, k: nat | row.input == Some(StoredInput(job)) && k < |Whole(job).events| - 1
      ensures ResumesAt(job, Persist(row, Whole(job).events[k]), k + 1)
    {
      PersistedResumes(w, def, id, input, row, k);
    }
  }

  /** For a definition whose catch policies are named: every successful run with defined payloads is. */
  lemma NamedFlowIsDurable(w: World, def: Definition, id: Id, input: Payload)
    requires def.startAt != "" && LimitPasses(def) && OwnCatchesNamed(def)
    requires var whole := Run(w, def, Initial(def, input), Begun(0), []);
      whole.outcome.Success? && AllDefined(whole.events)
    ensures RunSucceeds(w, def, input) && Durable(Job(id, EngineOn(w, def), input))
  {
    NamedRunCompletes(w, def, Initial(def, input), Begun(0), []);
    EngineIsDurable(w, def, id, input);
  }

  // ---------------------------------------------------------------- executions started without an input

  /**
   * An admitted row that is dispatched directly, or whose job is re-sent from it, starts the engine in the state in
   * which a direct call would, if and only if the execution had an input.
   */
  lemma DispatchStartsAlikeIff(job: Job, s: Service, token: Token)
    requires job.id in s.rows && s.rows[job.id].status.Queued? && job.id !in s.claims
    requires s.rows[job.id].stored == Admitted(job.flow.definition, job.input)
    ensures var g, claimed := Initial(job.flow.definition, Some(StoredInput(job))), ClaimRunning(s, job.id, token);
      && DispatchUnconstrained(s, job.id, job.flow, token) == Begin(claimed, job.id, token, job.flow, g)
      && ProcessQueuedFlowJob(s, job.id, Some(job.flow), Some(StoredInput(job)), false, token)
         == Begin(claimed, job.id, token, job.flow, g)
      && (g == Start(job) <==> job.input.Some?)
  {
    var g := Initial(job.flow.definition, Some(StoredInput(job)));
    assert job.input.None? ==> g.payload == Some(NULL_JSON) && Start(job).payload == Some(EMPTY_OBJECT);
    assert NULL_JSON[0] != EMPTY_OBJECT[0];
  }

  /** A flow of one state, which hands its input on. */
  const HANDING_ON := Definition("a", [Entry("a", State(Succeed, None, true, "", [], []))])

  /**
   * Where it can be seen: called directly without an input this flow answers with an empty object, dispatched with
   * null.
   */
  lemma MissingInputBecomesNull(w: World, id: Id)
    ensures var job := Job(id, EngineOn(w, HANDING_ON), None);
      && Whole(job).outcome == Success(Some(EMPTY_OBJECT))
      && job.flow.run(Initial(HANDING_ON, Some(StoredInput(job)))).outcome == Success(Some(NULL_JSON))
      && EMPTY_OBJECT != NULL_JSON
  {
    assert Lookup(HANDING_ON.states, "a") == Some(HANDING_ON.states[0].state);
    assert NULL_JSON[0] != EMPTY_OBJECT[0];
    HandsOn(w, Initial(HANDING_ON, None));
    HandsOn(w, Initial(HANDING_ON, Some(NULL_JSON)));
  }

  lemma HandsOn(w: World, f: Frame)
    requires f.name == "a" && f.stepCount == 0
    ensures EngineOn(w, HANDING_ON).run(f).outcome == Success(f.payload)
  {
    assert Lookup(HANDING_ON.states, "a") == Some(HANDING_ON.states[0].state);
    assert Step(w, HANDING_ON, f, Begun(0), []).Stop?;
  }

  // ---------------------------------------------------------------- rows and runners on the path of that run

  ghost predicate Resumable(job: Job, stored: Stored) {
    exists k: nat :: ResumesAt(job, stored, k)
  }

  ghost predicate RowOnPath(job: Job, row: Row) {
    match row.status
    case Succeeded => Whole(job).outcome == Success(row.stored.output) && row.stored.stepLogs == Whole(job).frame.logs
    case Queued => Resumable(job, row.stored)
    case Running => Resumable(job, row.stored)
    case Failed => row.claimToken.None? && Resumable(job, row.stored)
    case _ => false
  }

  ghost predicate ScriptFrom(job: Job, r: Runner, k: nat) {
    k <= |Whole(job).events| && r.script == Whole(job).events[k..] && r.logs == LogsAfter(job, k)
  }

  ghost predicate RunnerOnPath(job: Job, r: Runner) {
    r.outcome == Whole(job).outcome && !r.signalled && exists k: nat :: ScriptFrom(job, r, k)
  }

  ghost predicate OnPath(job: Job, s: Service) {
    && job.id !in s.suppressed
    && (job.id in s.rows ==> RowOnPath(job, s.rows[job.id]))
    && (job.id in s.dispatches ==> RowOnPath(job, s.dispatches[job.id]))
    && forall i :: 0 <= i < |s.runners| && s.runners[i].id == job.id ==> RunnerOnPath(job, s.runners[i])
  }

  lemma AdmittedResumes(job: Job)
    requires Durable(job)
    ensures Resumable(job, Admitted(job.flow.definition, job.input))
  {
    assert ResumesAt(job, Admitted(job.flow.definition, job.input), 0);
  }

  lemma MappedResumes(job: Job, stored: Stored)
    requires Resumable(job, stored)
    ensures Resumable(job, Mapped(stored))
  {
    var k: nat :| ResumesAt(job, stored, k);
    assert Resolve(job.flow, Mapped(stored)) == Resolve(job.flow, stored);
    assert ResumesAt(job, Mapped(stored), k);
  }

  function RunnerFrom(job: Job, token: Token, f: Frame): Runner {
    Runner(job.id, token, f.logs, job.flow.run(f).events, job.flow.run(f).outcome, false)
  }

  /** The runner that a resumable row starts. */
  lemma ResumedRunner(job: Job, stored: Stored, token: Token)
    requires Resumable(job, stored)
    ensures var r := Resolve(job.flow, stored); r.Resumed? && RunnerOnPath(job, RunnerFrom(job, token, r.frame))
  {
    var k: nat :| ResumesAt(job, stored, k);
    assert ScriptFrom(job, RunnerFrom(job, token, Resolve(job.flow, stored).frame), k);
  }

  lemma FreshRunner(job: Job, token: Token)
    ensures RunnerOnPath(job, RunnerFrom(job, token, Start(job)))
  {
    assert ScriptFrom(job, RunnerFrom(job, token, Start(job)), 0);
  }

  // ---------------------------------------------------------------- the actions

  /** A queued row that a dispatch would start from the beginning. */
  predicate StartsFresh(s: Service, id: Id, def: Definition) {
    id in s.rows && !HasProgress(s.rows[id].stored, def)
  }

  /**
   * The action leaves the execution to itself: no abort, deletion, failure of the database, timeout or edit of the
   * flow. A job that is re-sent from the row, and a direct dispatch, carry the row's input: where they start the run
   * afresh, that input has to be the original one.
   */
  ghost predicate Undisturbed(job: Job, s: Service, a: Action) {
    match a
    case Execute(id, flow, input, _, _) => id == job.id ==> flow == job.flow && input == job.input
    case QueuedJob(id, queued, input, isResume, _) => id == job.id ==>
      && queued == Some(job.flow)
      && (input == job.input
          || (input == Some(StoredInput(job)) && (isResume || !StartsFresh(s, id, job.flow.definition))))
    case Unconstrained(id, flow, _) => id == job.id ==>
      flow == job.flow && (job.input.Some? || !StartsFresh(s, id, job.flow.definition))
    case Resume(id, stored, _, _) => id == job.id ==> stored == Some(job.flow)
    case StorageFails(i) => i < |s.runners| ==> s.runners[i].id != job.id
    case CutShort(i, _, _, _) => i < |s.runners| ==> s.runners[i].id != job.id
    case Finish(i, ending) => i < |s.runners| && s.runners[i].id == job.id ==> ending.Succeeds?
    case Abort(id) => id != job.id
    case Clear(ids) => job.id !in ids
    case _ => true
  }

  /** What an action about another execution leaves alone. */
  ghost predicate SameFor(id: Id, s: Service, s': Service) {
    && (id in s'.rows ==> id in s.rows && s'.rows[id] == s.rows[id])
    && (id in s'.dispatches ==> id in s.dispatches && s'.dispatches[id] == s.dispatches[id])
    && (id in s'.suppressed ==> id in s.suppressed)
    && forall i :: 0 <= i < |s'.runners| && s'.runners[i].id == id ==> s'.runners[i] in s.runners
  }

  lemma ClaimElsewhere(s: Service, k: Id, token: Token, row: Row, id: Id)
    requires k != id && k in s.rows
    ensures var claimed := ClaimRunning(s, k, token);
      && SameFor(id, s, Save(claimed, k, row)) && SameFor(id, s, Release(Save(claimed, k, row), k, token))
      && SameFor(id, s, AbortExecution(claimed, k)) && SameFor(id, s, Release(AbortExecution(claimed, k), k, token))
  {
    AbortElsewhere(ClaimRunning(s, k, token), k, id);
  }

  lemma BeginElsewhere(s: Service, k: Id, token: Token, flow: Flow, f: Frame, id: Id)
    requires k != id && k in s.rows
    ensures SameFor(id, s, Begin(ClaimRunning(s, k, token), k, token, flow, f))
  {
  }

  lemma QueuedJobElsewhere(s: Service, a: Action, id: Id)
    requires a.QueuedJob? && a.id != id
    ensures SameFor(id, s, Next(s, a))
  {
    AbortElsewhere(s, a.id, id);
    if a.id in s.rows && a.job.Some? && a.id !in s.claims && s.rows[a.id].status.Queued? {
      var row, flow := s.rows[a.id], a.job.value;
      ClaimElsewhere(s, a.id, a.token, SucceededRow(row), id);
      if a.isResume || HasProgress(row.stored, flow.definition) {
        var r := Resolve(flow, row.stored);
        if r.Resumed? { BeginElsewhere(s, a.id, a.token, flow, r.frame, id); }
      } else {
        BeginElsewhere(s, a.id, a.token, flow, Initial(flow.definition, a.input), id);
      }
    }
  }

  lemma UnconstrainedElsewhere(s: Service, a: Action, id: Id)
    requires a.Unconstrained? && a.id != id
    ensures SameFor(id, s, Next(s, a))
  {
    if a.id in s.rows && s.rows[a.id].status.Queued? && a.id !in s.claims {
      var row := s.rows[a.id];
      ClaimElsewhere(s, a.id, a.token, SucceededRow(row), id);
      if HasProgress(row.stored, a.flow.definition) {
        var r := Resolve(a.flow, row.stored);
        if r.Resumed? { BeginElsewhere(s, a.id, a.token, a.flow, r.frame, id); }
      } else {
        BeginElsewhere(s, a.id, a.token, a.flow, Initial(a.flow.definition, Some(Read(row.stored.input))), id);
      }
    }
  }

  lemma ResumeElsewhere(s: Service, a: Action, id: Id)
    requires a.Resume? && a.id != id
    ensures SameFor(id, s, Next(s, a))
  {
  }

  lemma SaveElsewhere(s: Service, k: Id, row: Row, id: Id)
    requires k != id
    ensures SameFor(id, s, Save(s, k, row))
  {
  }

  lemma FinishElsewhere(s: Service, i: nat, ending: Ending, id: Id)
    requires i < |s.runners| && s.runners[i].id != id
    ensures SameFor(id, s, FinishRunner(s, i, ending))
  {
    if CanEnd(s.runners[i], ending) {
      assert SameFor(id, s, SaveEnding(s, s.runners[i], ending));
    }
  }

  lemma StorageElsewhere(s: Service, i: nat, id: Id)
    requires i < |s.runners| ==> s.runners[i].id != id
    ensures SameFor(id, s, FailTransition(s, i))
  {
  }

  lemma CutElsewhere(s: Service, i: nat, entry: Log, counters: map<string, nat>, stored: bool, id: Id)
    requires i < |s.runners| ==> s.runners[i].id != id
    ensures SameFor(id, s, CutStep(s, i, entry, counters, stored))
  {
  }

  lemma AbortElsewhere(s: Service, k: Id, id: Id)
    requires k != id
    ensures SameFor(id, s, AbortExecution(s, k))
  {
  }

  lemma ClearElsewhere(s: Service, ids: set<Id>, id: Id)
    requires id !in ids
    ensures SameFor(id, s, ClearExecutions(s, ids))
  {
  }

  lemma SameKeepsPath(job: Job, s: Service, s': Service)
    requires OnPath(job, s) && SameFor(job.id, s, s')
    ensures OnPath(job, s')
  {
  }

  lemma NewRowKeepsPath(job: Job, s: Service, row: Row)
    requires OnPath(job, s) && RowOnPath(job, row)
    ensures OnPath(job, Save(s, job.id, row))
  {
  }

  lemma NewRunnerKeepsPath(job: Job, s: Service, token: Token, f: Frame)
    requires OnPath(job, s) && RunnerOnPath(job, RunnerFrom(job, token, f))
    ensures OnPath(job, Begin(s, job.id, token, job.flow, f))
  {
  }

  lemma ExecuteElsewhere(s: Service, a: Action, id: Id)
    requires a.Execute? && a.id != id
    ensures SameFor(id, s, Next(s, a))
  {
  }

  lemma QueuedAdmission(job: Job, s: Service)
    requires Durable(job) && OnPath(job, s)
    ensures var row := Row(Queued, Admitted(job.flow.definition, job.input), None);
      OnPath(job, Save(s, job.id, row).(dispatches := s.dispatches[job.id := row.(status := RowStatus.Failed)]))
  {
    AdmittedResumes(job);
    NewRowKeepsPath(job, s, Row(Queued, Admitted(job.flow.definition, job.input), None));
  }

  lemma DirectAdmission(job: Job, s: Service, token: Token)
    requires Durable(job) && OnPath(job, s)
    ensures var row := Row(RowStatus.Running, Admitted(job.flow.definition, job.input), Some(token));
      OnPath(job, Begin(Save(s, job.id, row), job.id, token, job.flow, Start(job)))
  {
    var row := Row(RowStatus.Running, Admitted(job.flow.definition, job.input), Some(token));
    AdmittedResumes(job);
    NewRowKeepsPath(job, s, row);
    FreshRunner(job, token);
    NewRunnerKeepsPath(job, Save(s, job.id, row), token, Start(job));
  }

  lemma ExecuteOnPath(job: Job, s: Service, a: Action)
    requires Durable(job) && OnPath(job, s) && Undisturbed(job, s, a) && a.Execute?
    ensures OnPath(job, Next(s, a))
  {
    if a.id != job.id {
      ExecuteElsewhere(s, a, job.id);
      SameKeepsPath(job, s, Next(s, a));
    } else {
      var admitted := s.(pending := s.pending + {a.id});
      if a.limited {
        QueuedAdmission(job, admitted);
      } else {
        DirectAdmission(job, admitted.(claims := s.claims + {a.id}, controllers := s.controllers + {a.id}), a.token);
      }
    }
  }

  lemma ClaimKeepsPath(job: Job, s: Service, token: Token)
    requires OnPath(job, s) && job.id in s.rows && Resumable(job, s.rows[job.id].stored)
    ensures OnPath(job, ClaimRunning(s, job.id, token))
  {
  }

  lemma ClaimedOnPath(job: Job, s: Service, token: Token)
    requires Durable(job) && OnPath(job, s) && job.id in s.rows && Resumable(job, s.rows[job.id].stored)
    ensures var claimed, r := ClaimRunning(s, job.id, token), Resolve(job.flow, s.rows[job.id].stored);
      && OnPath(job, Begin(claimed, job.id, token, job.flow, Start(job)))
      && r.Resumed? && OnPath(job, Begin(claimed, job.id, token, job.flow, r.frame))
  {
    var claimed := ClaimRunning(s, job.id, token);
    ClaimKeepsPath(job, s, token);
    FreshRunner(job, token);
    NewRunnerKeepsPath(job, claimed, token, Start(job));
    ResumedRunner(job, s.rows[job.id].stored, token);
    NewRunnerKeepsPath(job, claimed, token, Resolve(job.flow, s.rows[job.id].stored).frame);
  }

  lemma QueuedJobOnPath(job: Job, s: Service, a: Action)
    requires Durable(job) && Safety.Inv(s) && OnPath(job, s) && Undisturbed(job, s, a) && a.QueuedJob?
    ensures OnPath(job, Next(s, a))
  {
    if a.id != job.id {
      QueuedJobElsewhere(s, a, job.id);
      SameKeepsPath(job, s, Next(s, a));
    } else if job.id in s.rows && s.rows[job.id].status.Queued? && job.id !in s.claims {
      ClaimedOnPath(job, s, a.token);
    }
  }

  lemma UnconstrainedOnPath(job: Job, s: Service, a: Action)
    requires Durable(job) && Safety.Inv(s) && OnPath(job, s) && Undisturbed(job, s, a) && a.Unconstrained?
    ensures OnPath(job, Next(s, a))
  {
    if a.id != job.id {
      UnconstrainedElsewhere(s, a, job.id);
      SameKeepsPath(job, s, Next(s, a));
    } else if job.id in s.rows && s.rows[job.id].status.Queued? && job.id !in s.claims {
      ClaimedOnPath(job, s, a.token);
      assert s.rows[job.id].stored.input == Some(StoredInput(job));
    }
  }

  lemma ResumeOnPath(job: Job, s: Service, a: Action)
    requires Durable(job) && Safety.Inv(s) && OnPath(job, s) && Undisturbed(job, s, a) && a.Resume?
    ensures OnPath(job, Next(s, a))
  {
    if a.id != job.id {
      ResumeElsewhere(s, a, job.id);
      SameKeepsPath(job, s, Next(s, a));
    } else if job.id !in s.claims && job.id !in s.pending && job.id in s.rows && s.rows[job.id].claimToken.None?
              && s.rows[job.id].status in {RowStatus.Running, RowStatus.Failed} {
      assert RowOnPath(job, s.rows[job.id]);
      ResumedRunner(job, s.rows[job.id].stored, a.token);
      if a.limited {
        RequeuedOnPath(job, s);
      } else {
        ClaimedOnPath(job, s.(pending := s.pending + {job.id}), a.token);
      }
    }
  }

  lemma RequeuedOnPath(job: Job, s: Service)
    requires OnPath(job, s) && job.id in s.rows && s.rows[job.id].claimToken.None?
    requires s.rows[job.id].status in {RowStatus.Running, RowStatus.Failed}
    ensures var row := s.rows[job.id];
      var queued := row.(status := Queued, claimToken := None);
      OnPath(job, s.(pending := s.pending + {job.id}, rows := s.rows[job.id := queued],
                     dispatches := s.dispatches[job.id := row.(stored := Mapped(row.stored))]))
  {
    assert RowOnPath(job, s.rows[job.id]);
    MappedResumes(job, s.rows[job.id].stored);
  }

  lemma TransitionOnPath(job: Job, s: Service, i: nat)
    requires Durable(job) && Safety.Inv(s) && OnPath(job, s)
    ensures OnPath(job, ReportTransition(s, i))
  {
    if i < |s.runners| && s.runners[i].script != [] {
      var r := s.runners[i];
      if r.id != job.id {
        SameKeepsPath(job, s.(runners := s.runners[i := ReportTransition(s, i).runners[i]]), ReportTransition(s, i));
      } else {
        Safety.TransitionRefusedIff(s, i);
        var k: nat :| ScriptFrom(job, r, k);
        StepOnPath(job, s, i, k);
      }
    }
  }

  lemma StepOnPath(job: Job, s: Service, i: nat, k: nat)
    requires Durable(job) && OnPath(job, s) && i < |s.runners| && s.runners[i].id == job.id
    requires ScriptFrom(job, s.runners[i], k) && s.runners[i].script != [] && !Refuses(s, s.runners[i])
    ensures OnPath(job, ReportTransition(s, i))
  {
    var r, s', e := s.runners[i], ReportTransition(s, i), Whole(job).events[k];
    assert e == r.script[0];
    assert ScriptFrom(job, s'.runners[i], k + 1);
    if job.id in s.rows && Accepts(s.rows[job.id], r.token) {
      PersistedOnPath(job, s.rows[job.id], k);
    }
  }

  /** The row after transition `k` of the uninterrupted run has been persisted. */
  lemma PersistedOnPath(job: Job, row: Row, k: nat)
    requires Durable(job) && k < |Whole(job).events| && row.status.Running? && RowOnPath(job, row)
    ensures var e := Whole(job).events[k];
        RowOnPath(job, Row(StatusOf(e.status), Persist(row.stored, e), row.claimToken))
  {
    if k < |Whole(job).events| - 1 {
      assert Whole(job).events[k].status.Running?;
      assert Checkpointed(job) && ResumesAt(job, Persist(row.stored, Whole(job).events[k]), k + 1);
    }
  }

  lemma EndOfScript(job: Job, r: Runner)
    requires Durable(job) && RunnerOnPath(job, r) && r.script == []
    ensures r.outcome == Whole(job).outcome && r.logs == Whole(job).frame.logs
  {
    var k: nat :| ScriptFrom(job, r, k);
    assert k == |Whole(job).events|;
  }

  lemma FinishOnPath(job: Job, s: Service, i: nat)
    requires Durable(job) && OnPath(job, s) && i < |s.runners| && s.runners[i].id == job.id
    ensures OnPath(job, FinishRunner(s, i, Succeeds))
  {
    if CanEnd(s.runners[i], Succeeds) {
      var r := s.runners[i];
      var gone := s.(runners := s.runners[..i] + s.runners[i + 1..]);
      EndOfScript(job, r);
      var input := if r.id in s.rows then s.rows[r.id].stored.input else None;
      var row := Row(RowStatus.Succeeded, Stored(input, r.outcome.output, r.logs, None), None);
      SameKeepsPath(job, s, gone);
      NewRowKeepsPath(job, gone, row);
      ReleaseOnPath(job, Save(gone, job.id, row), r.token);
    }
  }

  lemma ReleaseOnPath(job: Job, s: Service, token: Token)
    requires OnPath(job, s)
    ensures OnPath(job, Release(s, job.id, token))
  {
  }

  lemma {:induction false} NextOnPath(job: Job, s: Service, a: Action)
    requires Durable(job) && Safety.Inv(s) && OnPath(job, s) && Undisturbed(job, s, a)
    ensures OnPath(job, Next(s, a))
  {
    match a
    case Execute(_, _, _, _, _) => ExecuteOnPath(job, s, a);
    case QueuedJob(_, _, _, _, _) => QueuedJobOnPath(job, s, a);
    case Unconstrained(_, _, _) => UnconstrainedOnPath(job, s, a);
    case Resume(_, _, _, _) => ResumeOnPath(job, s, a);
    case Transition(i) => TransitionOnPath(job, s, i);
    case Finish(i, ending) =>
      if i < |s.runners| && s.runners[i].id == job.id {
        FinishOnPath(job, s, i);
      } else if i < |s.runners| {
        FinishElsewhere(s, i, ending, job.id);
        SameKeepsPath(job, s, Next(s, a));
      }
    case DispatchSent(id) => DispatchEndsOnPath(job, s, id, true);
    case DispatchFails(id) => DispatchEndsOnPath(job, s, id, false);
    case StorageFails(i) => StorageElsewhere(s, i, job.id); SameKeepsPath(job, s, Next(s, a));
    case CutShort(i, entry, counters, stored) =>
      CutElsewhere(s, i, entry, counters, stored, job.id);
      SameKeepsPath(job, s, Next(s, a));
    case Abort(id) => AbortElsewhere(s, id, job.id); SameKeepsPath(job, s, Next(s, a));
    case Clear(ids) => ClearElsewhere(s, ids, job.id); SameKeepsPath(job, s, Next(s, a));
    case AdmissionReturns(_) => SameKeepsPath(job, s, Next(s, a));
    case ReleaseOrphans => ReleaseTokensOnPath(job, s);
    case SuppressionExpires(_) => SameKeepsPath(job, s, Next(s, a));
    case Crash => SameKeepsPath(job, s, Next(s, a));
  }

  lemma DispatchEndsOnPath(job: Job, s: Service, id: Id, ok: bool)
    requires OnPath(job, s)
    ensures OnPath(job, DispatchEnds(s, id, ok))
  {
    if id in s.dispatches {
      if id == job.id {
        NewRowKeepsPath(job, s, s.dispatches[id]);
      } else {
        SaveElsewhere(s, id, s.dispatches[id], job.id);
        SameKeepsPath(job, s, Save(s, id, s.dispatches[id]));
      }
      var saved := if ok then s else Save(s, id, s.dispatches[id]);
      SameKeepsPath(job, saved, DispatchEnds(s, id, ok));
    }
  }

  lemma ReleaseTokensOnPath(job: Job, s: Service)
    requires OnPath(job, s)
    ensures OnPath(job, ReleaseTokens(s))
  {
  }

  ghost predicate UndisturbedRun(job: Job, s: Service, actions: seq<Action>)
    decreases |actions|
  {
    actions == [] || (Undisturbed(job, s, actions[0]) && UndisturbedRun(job, Next(s, actions[0]), actions[1..]))
  }

  lemma {:induction false} RunOnPath(job: Job, s: Service, actions: seq<Action>)
    requires Durable(job) && Safety.Inv(s) && OnPath(job, s) && UndisturbedRun(job, s, actions)
    requires Safety.LawfulActions(actions)
    ensures OnPath(job, Perform(s, actions))
    decreases |actions|
  {
    if actions != [] {
      NextOnPath(job, s, actions[0]);
      Safety.NextKeeps(s, actions[0]);
      RunOnPath(job, Next(s, actions[0]), actions[1..]);
    }
  }

  /** What the row of a durable execution holds, if there is one. */
  ghost predicate EndsLike(job: Job, s: Service) {
    job.id in s.rows ==>
      var row := s.rows[job.id];
      if row.status.Succeeded? then
        Success(row.stored.output) == Whole(job).outcome && row.stored.stepLogs == Whole(job).frame.logs
      else
        && row.status in {Queued, RowStatus.Running, RowStatus.Failed} && (row.status.Failed? ==> row.claimToken.None?)
        && row.stored.stepLogs <= Whole(job).frame.logs
        && Resolve(job.flow, row.stored).Resumed?
  }

  lemma {:induction false} DurableJobs(job: Job, rows: map<Id, Row>, actions: seq<Action>)
    requires Durable(job) && job.id !in rows && forall id :: id in rows ==> Safety.RowFits(rows[id])
    requires UndisturbedRun(job, Started(rows), actions) && Safety.LawfulActions(actions)
    ensures EndsLike(job, Perform(Started(rows), actions))
  {
    RunOnPath(job, Started(rows), actions);
    var s := Perform(Started(rows), actions);
    if job.id in s.rows && !s.rows[job.id].status.Succeeded? {
      var k: nat :| ResumesAt(job, s.rows[job.id].stored, k);
      LogsPrefix(job, k);
    }
  }

  /**
   * Durable execution: start a process over any rows, without this execution. Whatever is then done to all executions,
   * including any number of crashes, recoveries, resumes, queueings and failed dispatches of this one, its row never
   * fails, times out or is aborted for good, and once it has succeeded it holds the output and the log of the
   * uninterrupted run.
   */
  lemma DurableExecution(w: World, def: Definition, id: Id, input: Payload, rows: map<Id, Row>, actions: seq<Action>)
    requires RunSucceeds(w, def, input) && id !in rows && forall k :: k in rows ==> Safety.RowFits(rows[k])
    requires UndisturbedRun(Job(id, EngineOn(w, def), input), Started(rows), actions) && Safety.LawfulActions(actions)
    ensures var s, whole := Perform(Started(rows), actions), Run(w, def, Initial(def, input), Begun(0), []);
      id in s.rows ==>
        var row := s.rows[id];
        if row.status.Succeeded? then
          Success(row.stored.output) == whole.outcome && row.stored.stepLogs == whole.frame.logs
        else
          && row.status in {Queued, RowStatus.Running, RowStatus.Failed}
          && (row.status.Failed? ==> row.claimToken.None?)
          && ResolveResumeState(w, def, row.stored).Resumed?
  {
    var job := Job(id, EngineOn(w, def), input);
    EngineIsDurable(w, def, id, input);
    DurableJobs(job, rows, actions);
    assert Whole(job) == Run(w, def, Initial(def, input), Begun(0), []);
  }

  lemma LogsPrefix(job: Job, k: nat)
    requires Durable(job) && k <= |Whole(job).events|
    ensures LogsAfter(job, k) <= Whole(job).frame.logs
  {
    if k > 0 {
      assert FlowBounds.Grows(Start(job).logs, job.flow.run(Start(job)).events);
      GrowingPrefix([], Whole(job).events, k - 1);
    }
  }

  lemma {:induction false} GrowingPrefix(before: seq<Log>, events: seq<Event>, k: nat)
    requires FlowBounds.Grows(before, events) && k < |events|
    ensures events[k].stepLogs <= events[|events| - 1].stepLogs && before <= events[k].stepLogs
    decreases |events|
  {
    if |events| > 1 {
      GrowingPrefix(events[0].stepLogs, events[1..], if k == 0 then 0 else k - 1);
    }
  }

  // ---------------------------------------------------------------- recovery

  /** A crash, the start of recovery and a resume. */
  function Restarted(s: Service, id: Id, flow: Flow, token: Token): Service {
    Next(Next(Next(s, Crash), ReleaseOrphans), Resume(id, Some(flow), false, token))
  }

  /**
   * After a restart an interrupted execution can be resumed if and only if its row was still running, or had failed
   * without a claim. A crash right after a failure was persisted leaves a claim on a failed row, which recovery does
   * not release.
   */
  lemma RestartResumesIff(s: Service, id: Id, flow: Flow, token: Token)
    ensures Restarted(s, id, flow, token).runners != [] <==>
      && id in s.rows && Resolve(flow, s.rows[id].stored).Resumed?
      && (s.rows[id].status.Running? || (s.rows[id].status.Failed? && s.rows[id].claimToken.None?))
  {
  }

  /** The only runner reports the rest of its script and ends. */
  function Drained(s: Service): Service
    requires |s.runners| == 1
    decreases |s.runners[0].script|
  {
    if s.runners[0].script == [] then FinishRunner(s, 0, Succeeds) else Drained(ReportTransition(s, 0))
  }

  /** How a queued execution is started again: by its job in the queue, or directly when the flow's limit is gone. */
  datatype Route = ByQueue | Directly

  /**
   * A crash, the start of recovery, and whatever starts the execution again from its row: its job or a direct dispatch
   * if it is queued, a resume if it was running or has failed.
   */
  function Revived(job: Job, s: Service, route: Route, token: Token): Service
    requires job.id in s.rows
  {
    var released := Next(Next(s, Crash), ReleaseOrphans);
    Next(released, Revival(job, s.rows[job.id], route, token))
  }

  function Revival(job: Job, row: Row, route: Route, token: Token): Action {
    if !row.status.Queued? then Resume(job.id, Some(job.flow), false, token)
    else if route.ByQueue? then QueuedJob(job.id, Some(job.flow), job.input, false, token)
    else Unconstrained(job.id, job.flow, token)
  }

  /**
   * From every state that an undisturbed execution can be in and has not yet succeeded in, be its row running, queued
   * or failed: crash, restart and start it again, and it succeeds with the output and the log of the uninterrupted run.
   */
  lemma {:induction false} RecoveryCompletes(job: Job, s: Service, route: Route, token: Token)
    requires Durable(job) && Safety.Inv(s) && OnPath(job, s) && job.id in s.rows && !s.rows[job.id].status.Succeeded?
    requires Undisturbed(job, s, Revival(job, s.rows[job.id], route, token))
    ensures var s' := Revived(job, s, route, token);
      && |s'.runners| == 1 && job.id in Drained(s').rows
      && var row := Drained(s').rows[job.id];
         && row.status.Succeeded? && Success(row.stored.output) == Whole(job).outcome
         && row.stored.stepLogs == Whole(job).frame.logs
  {
    RevivedOnPath(job, s, route, token);
    RevivedIsRunning(job, s, route, token);
    DrainsToSuccess(job, Revived(job, s, route, token));
  }

  /** The rows after the crash and the release: what was stored stays, and a running row has no claim. */
  lemma ReleasedRows(job: Job, s: Service)
    requires OnPath(job, s) && job.id in s.rows
    ensures var row, s' := s.rows[job.id], Next(Next(s, Crash), ReleaseOrphans);
      && job.id in s'.rows && s'.rows[job.id].status == row.status && s'.rows[job.id].stored == row.stored
      && s'.claims == {} && s'.pending == {} && s'.runners == []
      && (!row.status.Succeeded? ==> s'.rows[job.id].claimToken.None?)
  {
    assert RowOnPath(job, s.rows[job.id]);
  }

  lemma RevivedOnPath(job: Job, s: Service, route: Route, token: Token)
    requires Durable(job) && Safety.Inv(s) && OnPath(job, s) && job.id in s.rows
    requires Undisturbed(job, s, Revival(job, s.rows[job.id], route, token))
    ensures Safety.Inv(Revived(job, s, route, token)) && OnPath(job, Revived(job, s, route, token))
  {
    var crashed, released := Next(s, Crash), Next(Next(s, Crash), ReleaseOrphans);
    var revival := Revival(job, s.rows[job.id], route, token);
    Safety.NextKeeps(s, Crash);
    NextOnPath(job, s, Crash);
    Safety.NextKeeps(crashed, ReleaseOrphans);
    NextOnPath(job, crashed, ReleaseOrphans);
    ReleasedRows(job, s);
    Safety.NextKeeps(released, revival);
    NextOnPath(job, released, revival);
  }

  /** A released row that can be resumed gets its runner by any of the three ways. */
  lemma RevivalBegins(job: Job, s: Service, route: Route, token: Token)
    requires job.id in s.rows && s.claims == {} && s.pending == {} && s.runners == []
    requires s.rows[job.id].claimToken.None? && Resolve(job.flow, s.rows[job.id].stored).Resumed?
    requires s.rows[job.id].status in {Queued, RowStatus.Running, RowStatus.Failed}
    ensures var s' := Next(s, Revival(job, s.rows[job.id], route, token));
      |s'.runners| == 1 && s'.runners[0].id == job.id && job.id in s'.rows
  {
  }

  lemma RevivedIsRunning(job: Job, s: Service, route: Route, token: Token)
    requires OnPath(job, s) && job.id in s.rows && !s.rows[job.id].status.Succeeded?
    ensures var s' := Revived(job, s, route, token);
      |s'.runners| == 1 && s'.runners[0].id == job.id && job.id in s'.rows
  {
    var row := s.rows[job.id];
    assert RowOnPath(job, row);
    ResumedRunner(job, row.stored, token);
    ReleasedRows(job, s);
    RevivalBegins(job, Next(Next(s, Crash), ReleaseOrphans), route, token);
  }

  lemma {:induction false} DrainsToSuccess(job: Job, s: Service)
    requires Durable(job) && Safety.Inv(s) && OnPath(job, s)
    requires |s.runners| == 1 && s.runners[0].id == job.id && job.id in s.rows
    ensures job.id in Drained(s).rows
    ensures var row := Drained(s).rows[job.id];
      && row.status.Succeeded? && Success(row.stored.output) == Whole(job).outcome
      && row.stored.stepLogs == Whole(job).frame.logs
    decreases |s.runners[0].script|
  {
    if s.runners[0].script == [] {
      FinishesWithSuccess(job, s);
    } else {
      var next := ReportTransition(s, 0);
      TransitionOnPath(job, s, 0);
      Safety.TransitionKeeps(s, 0);
      TransitionShrinks(s);
      DrainsToSuccess(job, next);
      assert Drained(s) == Drained(next);
    }
  }

  lemma TransitionShrinks(s: Service)
    requires |s.runners| == 1 && s.runners[0].script != []
    ensures var next := ReportTransition(s, 0);
      && |next.runners| == 1 && next.runners[0].id == s.runners[0].id && next.rows.Keys == s.rows.Keys
      && |next.runners[0].script| < |s.runners[0].script|
  {
  }

  lemma FinishesWithSuccess(job: Job, s: Service)
    requires Durable(job) && OnPath(job, s) && |s.runners| == 1 && s.runners[0].id == job.id && job.id in s.rows
    requires s.runners[0].script == []
    ensures var s' := FinishRunner(s, 0, Succeeds);
      job.id in s'.rows && s'.rows[job.id].status.Succeeded? && RowOnPath(job, s'.rows[job.id])
  {
    FinishOnPath(job, s, 0);
    assert RunnerOnPath(job, s.runners[0]);
    assert CanEnd(s.runners[0], Succeeds);
    assert RowOnPath(job, s.rows[job.id]);
  }
}
