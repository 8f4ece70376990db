/**
 * How src/flows/FlowService.ts admits, claims, checkpoints, aborts, resumes and recovers executions. JavaScript runs
 * each stretch between two awaits without interruption, so each stretch is one action on the state below.
 */
module ExecutionProtocol {
  import opened Strings
  import opened FlowEngine
  import opened FlowResume

  type Id = string
  type Token = nat

  datatype RowStatus = Queued | Running | Succeeded | Failed | Aborted | Timeout | Cancelled

  datatype Row = Row(status: RowStatus, stored: Stored, claimToken: Option<Token>)

  /**
   * A call of the engine in flight: what its log holds so far, the transitions it has yet to report and how it will
   * end when nothing interrupts it. `signalled` says that its abort controller has fired.
   */
  datatype Runner = Runner(id: Id, token: Token, logs: seq<Log>, script: seq<Event>, outcome: Outcome, signalled: bool)

  /**
   * The rows of `_flow_executions`, the in-memory sets of the service and, from its suspended calls, the queue
   * dispatches under way (each with the row that a failed dispatch puts back) and the runners.
   */
  datatype Service = Service(
    rows: map<Id, Row>,
    claims: set<Id>,
    pending: set<Id>,
    dispatches: map<Id, Row>,
    controllers: set<Id>,
    suppressed: set<Id>,
    runners: seq<Runner>)

  /**
   * A flow as the service hands it to the engine: its definition, the world its choices are evaluated in, and `run`,
   * what the engine's main loop does from a given state with a tracker of its own.
   */
  datatype Flow = Flow(definition: Definition, world: World, run: Frame -> RunResult)

  /** The engine itself. */
  function EngineOn(w: World, def: Definition): Flow {
    Flow(def, w, (f: Frame) => Run(w, def, f, Begun(f.stepCount), []))
  }

  function Resolve(flow: Flow, stored: Stored): Resolution {
    ResolveResumeState(flow.world, flow.definition, stored)
  }

  /** The engine's answer or exception at the end of a call; `extra` is a log entry whose transition was cut off. */
  datatype Ending =
    | Succeeds
    | Fails(status: RowStatus, extra: bool, output: Payload, checkpoint: Option<Checkpoint>)
    | Throws(fallback: Payload)

  datatype Action =
    | Execute(id: Id, flow: Flow, input: Payload, limited: bool, token: Token)
    | DispatchSent(id: Id)
    | DispatchFails(id: Id)
    | AdmissionReturns(id: Id)
    | QueuedJob(id: Id, job: Option<Flow>, input: Payload, isResume: bool, token: Token)
    | Unconstrained(id: Id, flow: Flow, token: Token)
    | Resume(id: Id, job: Option<Flow>, limited: bool, token: Token)
    | Transition(runner: nat)
    | StorageFails(runner: nat)
    | CutShort(runner: nat, entry: Log, counters: map<string, nat>, stored: bool)
    | Finish(runner: nat, ending: Ending)
    | Abort(id: Id)
    | Clear(ids: set<Id>)
    | ReleaseOrphans
    | SuppressionExpires(id: Id)
    | Crash

  // ---------------------------------------------------------------- writing rows

  predicate Active(status: RowStatus) {
    status.Running? || status.Queued?
  }

  /** saveExecution and its guards. */
  function Save(s: Service, id: Id, row: Row): Service {
    if id in s.suppressed then s
    else if !row.status.Aborted? && id in s.rows && s.rows[id].status.Aborted? then s
    else if !row.status.Aborted? && id !in s.rows && !Active(row.status) then s
    else s.(rows := s.rows[id := row])
  }

  /** A row read into an object: an SQL NULL becomes JavaScript's null, which is saved as such. */
  function Mapped(stored: Stored): Stored {
    stored.(input := Some(Read(stored.input)), output := Some(Read(stored.output)))
  }

  function SucceededRow(row: Row): Row {
    Row(RowStatus.Succeeded, Mapped(row.stored).(checkpoint := None), None)
  }

  function AbortedRow(row: Row): Row {
    Row(Aborted, Mapped(row.stored).(checkpoint := None), None)
  }

  function Signal(runners: seq<Runner>, ids: set<Id>): seq<Runner> {
    seq(|runners|, i requires 0 <= i < |runners| =>
      if runners[i].id in ids then runners[i].(signalled := true) else runners[i])
  }

  /** The abort controllers of these executions fire and are forgotten. */
  function FireControllers(s: Service, ids: set<Id>): Service {
    s.(controllers := s.controllers - ids, runners := Signal(s.runners, ids * s.controllers))
  }

  /** abortExecution */
  function AbortExecution(s: Service, id: Id): Service {
    var fired := FireControllers(s, {id});
    if id in s.rows && Active(s.rows[id].status) then Save(fired, id, AbortedRow(s.rows[id])) else fired
  }

  // ---------------------------------------------------------------- claims and runners

  function ClaimRunning(s: Service, id: Id, token: Token): Service
    requires id in s.rows
  {
    s.(claims := s.claims + {id}, controllers := s.controllers + {id},
       rows := s.rows[id := s.rows[id].(status := RowStatus.Running, claimToken := Some(token))])
  }

  /** releaseClaim, and what the `finally` around every engine call forgets. */
  function Release(s: Service, id: Id, token: Token): Service {
    var owned := id in s.rows && s.rows[id].claimToken == Some(token);
    s.(rows := if owned then s.rows[id := s.rows[id].(claimToken := None)] else s.rows,
       claims := s.claims - {id}, controllers := s.controllers - {id}, suppressed := s.suppressed - {id})
  }

  /** A call of the engine from the given state. */
  function Begin(s: Service, id: Id, token: Token, flow: Flow, start: Frame): Service {
    var run := flow.run(start);
    s.(runners := s.runners + [Runner(id, token, start.logs, run.events, run.outcome, false)])
  }

  /** Whether a queued row has a run to continue rather than one to start. */
  predicate HasProgress(stored: Stored, def: Definition) {
    || (stored.checkpoint.Some?
        && (stored.checkpoint.value.stepCount > 0 || stored.checkpoint.value.currentStateName != Some(def.startAt)))
    || stored.stepLogs != []
  }

  // ---------------------------------------------------------------- admission

  /** executeFlow, up to its first await. */
  function ExecuteFlow(s: Service, id: Id, flow: Flow, input: Payload, limited: bool, token: Token): Service {
    if id in s.claims || id in s.pending || id in s.rows then s
    else
      var row := Row(Queued, Admitted(flow.definition, input), None);
      var admitted := s.(pending := s.pending + {id});
      if limited then Save(admitted, id, row).(dispatches := s.dispatches[id := row.(status := RowStatus.Failed)])
      else
        var claimed := admitted.(claims := s.claims + {id}, controllers := s.controllers + {id});
        Begin(Save(claimed, id, row.(status := RowStatus.Running, claimToken := Some(token))), id, token, flow,
              Initial(flow.definition, input))
  }

  /** The row that a failed dispatch restores is saved before the admission is given up. */
  function DispatchEnds(s: Service, id: Id, ok: bool): Service {
    if id !in s.dispatches then s
    else
      var saved := if ok then s else Save(s, id, s.dispatches[id]);
      saved.(pending := s.pending - {id}, dispatches := s.dispatches - {id})
  }

  /** processQueuedFlowJob, up to its first await. `job` is absent when the flow is gone or disabled. */
  function ProcessQueuedFlowJob(s: Service, id: Id, job: Option<Flow>, input: Payload, isResume: bool,
      token: Token): Service
  {
    if id !in s.rows || s.rows[id].status in {Aborted, RowStatus.Cancelled, RowStatus.Succeeded} then s
    else if job.None? then AbortExecution(s, id)
    else if id in s.claims then s
    else if !s.rows[id].status.Queued? then s.(controllers := s.controllers - {id})
    else
      var row, flow, claimed := s.rows[id], job.value, ClaimRunning(s, id, token);
      if isResume || HasProgress(row.stored, flow.definition) then
        match Resolve(flow, row.stored)
        case Completed => Save(claimed, id, SucceededRow(row))
        case Unresolvable => AbortExecution(claimed, id)
        case Resumed(f) => Begin(claimed, id, token, flow, f)
      else Begin(claimed, id, token, flow, Initial(flow.definition, input))
  }

  /** dispatchUnconstrainedQueuedExecution, up to its first await. */
  function DispatchUnconstrained(s: Service, id: Id, flow: Flow, token: Token): Service {
    if id !in s.rows || !s.rows[id].status.Queued? || id in s.claims then s
    else
      var row, claimed := s.rows[id], ClaimRunning(s, id, token);
      if HasProgress(row.stored, flow.definition) then
        match Resolve(flow, row.stored)
        case Completed => Release(Save(claimed, id, SucceededRow(row)), id, token)
        case Unresolvable => Release(AbortExecution(claimed, id), id, token)
        case Resumed(f) => Begin(claimed, id, token, flow, f)
      else Begin(claimed, id, token, flow, Initial(flow.definition, Some(Read(row.stored.input))))
  }

  /** resumeExecution, up to its first await. */
  function ResumeExecution(s: Service, id: Id, job: Option<Flow>, limited: bool, token: Token): Service {
    if id in s.claims || id in s.pending || id !in s.rows then s
    else if s.rows[id].claimToken.Some? || !(s.rows[id].status in {RowStatus.Running, RowStatus.Failed}) then s
    else if job.None? then AbortExecution(s, id)
    else
      var row := s.rows[id];
      match Resolve(job.value, row.stored)
      case Completed => Save(s, id, SucceededRow(row))
      case Unresolvable => AbortExecution(s, id)
      case Resumed(f) =>
        var admitted := s.(pending := s.pending + {id});
        if limited then
          admitted.(rows := s.rows[id := row.(status := Queued, claimToken := None)],
                    dispatches := s.dispatches[id := row.(stored := Mapped(row.stored))])
        else Begin(ClaimRunning(admitted, id, token), id, token, job.value, f)
  }

  // ---------------------------------------------------------------- running

  function StatusOf(status: Status): RowStatus {
    match status
    case Running => RowStatus.Running
    case Succeeded => RowStatus.Succeeded
    case Failed => RowStatus.Failed
  }

  /** Whether the row still belongs to the runner, as the conditional update asks. */
  predicate Accepts(row: Row, token: Token) {
    row.status.Running? && (row.claimToken == Some(token) || row.claimToken.None?)
  }

  /** Whether persistCheckpoint throws. */
  predicate Refuses(s: Service, r: Runner) {
    || r.id in s.suppressed || (r.id in s.controllers && r.signalled)
    || (r.id in s.rows && !Accepts(s.rows[r.id], r.token)
        && (s.rows[r.id].status in {Aborted, RowStatus.Cancelled}
            || (s.rows[r.id].claimToken.Some? && s.rows[r.id].claimToken.value != r.token)))
  }

  /** The rows after persistCheckpoint. */
  function PersistCheckpoint(s: Service, r: Runner, e: Event): map<Id, Row> {
    if Refuses(s, r) || r.id !in s.rows || !Accepts(s.rows[r.id], r.token) then s.rows
    else s.rows[r.id := Row(StatusOf(e.status), Persist(s.rows[r.id].stored, e), s.rows[r.id].claimToken)]
  }

  function Interrupted(r: Runner, logs: seq<Log>): Runner {
    r.(logs := logs, script := [],
      outcome := Failure(Error(ErrorKind.Cancelled, "AppError", None, "Execution has been aborted")))
  }

  /** The next transition of a runner: its log has grown, and the transition is persisted or refused. */
  function ReportTransition(s: Service, i: nat): Service {
    if i >= |s.runners| || s.runners[i].script == [] then s
    else
      var r, e := s.runners[i], s.runners[i].script[0];
      var r' := if Refuses(s, r) then Interrupted(r, e.stepLogs) else r.(logs := e.stepLogs, script := r.script[1..]);
      s.(rows := PersistCheckpoint(s, r, e), runners := s.runners[i := r'])
  }

  /** What a database failure leaves of a runner's row: the checkpoint is dropped, whatever the row's status. */
  function DropCheckpoint(s: Service, r: Runner): map<Id, Row> {
    if Refuses(s, r) || r.id !in s.rows then s.rows
    else s.rows[r.id := s.rows[r.id].(stored := s.rows[r.id].stored.(checkpoint := None))]
  }

  /** The next transition when the database fails: nothing of it is stored, and the runner stops. */
  function FailTransition(s: Service, i: nat): Service {
    if i >= |s.runners| || s.runners[i].script == [] then s
    else
      var r, e := s.runners[i], s.runners[i].script[0];
      s.(rows := DropCheckpoint(s, r), runners := s.runners[i := Interrupted(r, e.stepLogs)])
  }

  /** The transition of a step that is cut short: one failed entry more, and the checkpoint of the step itself. */
  function CutEvent(r: Runner, entry: Log, counters: map<string, nat>): Event
    requires r.script != []
  {
    Event(Status.Failed, r.logs + [entry], entry.input,
          Checkpoint(Some(entry.step), entry.input, r.script[0].checkpoint.stepCount, counters))
  }

  /**
   * The step timer or a cancellation inside the handler ends the step under way: its failed entry is logged and
   * reported as a failed transition, which the database may or may not store, and the runner stops.
   */
  function CutStep(s: Service, i: nat, entry: Log, counters: map<string, nat>, stored: bool): Service {
    if i >= |s.runners| || s.runners[i].script == [] then s
    else
      var r, e := s.runners[i], CutEvent(s.runners[i], entry, counters);
      s.(rows := if stored then PersistCheckpoint(s, r, e) else DropCheckpoint(s, r),
         runners := s.runners[i := Interrupted(r, e.stepLogs)])
  }

  /** The logs that the engine hands back. */
  function FinalLogs(r: Runner, extra: bool): seq<Log> {
    if extra && r.script != [] then r.script[0].stepLogs else r.logs
  }

  /** What the engine can hand back: success only at the end of its script, a failure at any point. */
  predicate CanEnd(r: Runner, ending: Ending) {
    match ending
    case Succeeds => r.script == [] && r.outcome.Success?
    case Fails(status, extra, _, checkpoint) =>
      && status in {RowStatus.Failed, Timeout, RowStatus.Cancelled}
      && (checkpoint.Some? ==> |FinalLogs(r, extra)| <= checkpoint.value.stepCount)
    case Throws(_) => true
  }

  /** What is saved when the call of the engine ends. */
  function SaveEnding(s: Service, r: Runner, ending: Ending): Service
    requires CanEnd(r, ending)
  {
    var input := if r.id in s.rows then s.rows[r.id].stored.input else None;
    match ending
    case Succeeds => Save(s, r.id, Row(RowStatus.Succeeded, Stored(input, r.outcome.output, r.logs, None), None))
    case Fails(status, extra, output, checkpoint) =>
      Save(s, r.id, Row(status, Stored(input, output, FinalLogs(r, extra), checkpoint), None))
    case Throws(fallback) =>
      if r.id !in s.rows then s
      else
        var stored := s.rows[r.id].stored;
        var output := if Read(stored.output) != NULL_JSON then stored.output else fallback;
        Save(s, r.id, Row(RowStatus.Failed, stored.(output := output), None))
  }

  function FinishRunner(s: Service, i: nat, ending: Ending): Service {
    if i >= |s.runners| || !CanEnd(s.runners[i], ending) then s
    else
      var r := s.runners[i];
      Release(SaveEnding(s, r, ending), r.id, r.token).(runners := s.runners[..i] + s.runners[i + 1..])
  }

  // ---------------------------------------------------------------- administration

  /** clearExecutions and deleteFlow, for the rows of the given executions. */
  function ClearExecutions(s: Service, ids: set<Id>): Service {
    var active := set id | id in ids && id in s.rows && Active(s.rows[id].status);
    FireControllers(s, active).(suppressed := s.suppressed + active, rows := s.rows - ids)
  }

  /** The first stretch of recoverOrphanedExecutions; the rest of it aborts or resumes one execution at a time. */
  function ReleaseTokens(s: Service): Service {
    s.(rows := map id | id in s.rows ::
         var row := s.rows[id];
         if Active(row.status) && id !in s.claims && id !in s.pending then row.(claimToken := None) else row)
  }

  function Next(s: Service, a: Action): Service {
    match a
    case Execute(id, flow, input, limited, token) => ExecuteFlow(s, id, flow, input, limited, token)
    case DispatchSent(id) => DispatchEnds(s, id, true)
    case DispatchFails(id) => DispatchEnds(s, id, false)
    case AdmissionReturns(id) => if id in s.dispatches then s else s.(pending := s.pending - {id})
    case QueuedJob(id, job, input, isResume, token) => ProcessQueuedFlowJob(s, id, job, input, isResume, token)
    case Unconstrained(id, flow, token) => DispatchUnconstrained(s, id, flow, token)
    case Resume(id, job, limited, token) => ResumeExecution(s, id, job, limited, token)
    case Transition(i) => ReportTransition(s, i)
    case StorageFails(i) => FailTransition(s, i)
    case CutShort(i, entry, counters, stored) => CutStep(s, i, entry, counters, stored)
    case Finish(i, ending) => FinishRunner(s, i, ending)
    case Abort(id) => AbortExecution(s, id)
    case Clear(ids) => ClearExecutions(s, ids)
    case ReleaseOrphans => ReleaseTokens(s)
    case SuppressionExpires(id) => s.(suppressed := s.suppressed - {id})
    case Crash => Started(s.rows)
  }

  /** A process that has just started over the given rows. */
  function Started(rows: map<Id, Row>): Service {
    Service(rows, {}, {}, map[], {}, {}, [])
  }

  function Perform(s: Service, actions: seq<Action>): Service
    decreases |actions|
  {
    if actions == [] then s else Perform(Next(s, actions[0]), actions[1..])
  }
}
