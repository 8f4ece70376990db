/**
 * The service object of src/flows/FlowService.ts: its maps and sets are fields that the methods update, and every
 * method takes the state where the protocol says.
 */
module FlowService {
  import opened Strings
  import opened FlowEngine
  import opened FlowResume
  import opened ExecutionProtocol

  class Executions {
    var rows: map<Id, Row>
    var activeExecutionClaims: set<Id>
    var pendingExecutionAdmissions: set<Id>
    var dispatches: map<Id, Row>
    var activeAbortControllers: set<Id>
    var suppressedExecutionWrites: set<Id>
    var runners: seq<Runner>

    function View(): Service
      reads this
    {
      Service(rows, activeExecutionClaims, pendingExecutionAdmissions, dispatches, activeAbortControllers,
              suppressedExecutionWrites, runners)
    }

    constructor (rows: map<Id, Row>)
      ensures View() == Started(rows)
    {
      this.rows, dispatches := rows, map[];
      activeExecutionClaims, pendingExecutionAdmissions := {}, {};
      activeAbortControllers, suppressedExecutionWrites := {}, {};
      runners := [];
    }

    method SaveExecution(id: Id, row: Row)
      modifies this
      ensures View() == old(Save(View(), id, row))
    {
      if id in suppressedExecutionWrites {
        return;
      }
      if !row.status.Aborted? {
        if id in rows && rows[id].status.Aborted? {
          return;
        }
        if id !in rows && !row.status.Running? && !row.status.Queued? {
          return;
        }
      }
      rows := rows[id := row];
    }

    /** `controller.abort()`: the runner that listens to it is told, and the controller is forgotten. */
    method AbortController(id: Id)
      modifies this
      ensures View() == old(FireControllers(View(), {id}))
    {
      var k := 0;
      if id in activeAbortControllers {
        ghost var was := runners;
        while k < |runners|
          invariant 0 <= k <= |runners| == |was|
          invariant forall i :: 0 <= i < |runners| ==>
            runners[i] == if i < k && was[i].id == id then was[i].(signalled := true) else was[i]
          invariant View() == old(View()).(runners := runners)
        {
          if runners[k].id == id {
            runners := runners[k := runners[k].(signalled := true)];
          }
          k := k + 1;
        }
        activeAbortControllers := activeAbortControllers - {id};
      }
      assert runners == old(FireControllers(View(), {id})).runners;
    }

    method AbortExecution(id: Id) returns (found: bool)
      modifies this
      ensures View() == old(ExecutionProtocol.AbortExecution(View(), id))
      ensures found <==> id in old(rows)
    {
      AbortController(id);
      if id !in rows {
        return false;
      }
      var exec := rows[id];
      if exec.status.Running? || exec.status.Queued? {
        SaveExecution(id, AbortedRow(exec));
      }
      return true;
    }

    method Finally(id: Id, token: Token)
      modifies this
      ensures View() == old(Release(View(), id, token))
    {
      if id in rows && rows[id].claimToken == Some(token) {
        rows := rows[id := rows[id].(claimToken := None)];
      }
      activeExecutionClaims := activeExecutionClaims - {id};
      activeAbortControllers := activeAbortControllers - {id};
      suppressedExecutionWrites := suppressedExecutionWrites - {id};
    }

    method CallEngine(id: Id, token: Token, flow: Flow, start: Frame)
      modifies this
      ensures View() == old(Begin(View(), id, token, flow, start))
    {
      var run := flow.run(start);
      runners := runners + [Runner(id, token, start.logs, run.events, run.outcome, false)];
    }

    method ExecuteFlow(id: Id, flow: Flow, input: Payload, limited: bool, token: Token) returns (conflict: bool)
      modifies this
      ensures View() == old(ExecutionProtocol.ExecuteFlow(View(), id, flow, input, limited, token))
      ensures conflict <==> old(id in activeExecutionClaims || id in pendingExecutionAdmissions || id in rows)
    {
      if id in activeExecutionClaims || id in pendingExecutionAdmissions || id in rows {
        return true;
      }
      pendingExecutionAdmissions := pendingExecutionAdmissions + {id};
      var row := Row(Queued, Admitted(flow.definition, input), None);
      if limited {
        SaveExecution(id, row);
        dispatches := dispatches[id := row.(status := RowStatus.Failed)];
      } else {
        activeExecutionClaims := activeExecutionClaims + {id};
        activeAbortControllers := activeAbortControllers + {id};
        SaveExecution(id, row.(status := RowStatus.Running, claimToken := Some(token)));
        CallEngine(id, token, flow, Initial(flow.definition, input));
      }
      return false;
    }

    /** The rest of executeFlow and resumeExecution once the queue has answered. */
    method EndDispatch(id: Id, ok: bool)
      requires id in dispatches
      modifies this
      ensures View() == old(DispatchEnds(View(), id, ok))
    {
      if !ok {
        SaveExecution(id, dispatches[id]);
      }
      dispatches := dispatches - {id};
      pendingExecutionAdmissions := pendingExecutionAdmissions - {id};
    }

    /** The claim of a queued row: the in-memory sets first, then the conditional update. */
    method ClaimQueued(id: Id, token: Token) returns (changed: bool)
      modifies this
      ensures changed <==> id in old(rows) && old(rows)[id].status.Queued?
      ensures changed ==> View() == old(ClaimRunning(View(), id, token))
      ensures !changed ==>
        View() == old(View()).(claims := old(activeExecutionClaims) - {id},
          controllers := old(activeAbortControllers) - {id})
    {
      activeExecutionClaims := activeExecutionClaims + {id};
      activeAbortControllers := activeAbortControllers + {id};
      if id in rows && rows[id].status.Queued? {
        rows := rows[id := rows[id].(status := RowStatus.Running, claimToken := Some(token))];
        return true;
      }
      activeExecutionClaims := activeExecutionClaims - {id};
      activeAbortControllers := activeAbortControllers - {id};
      return false;
    }

    method ProcessQueuedFlowJob(id: Id, job: Option<Flow>, input: Payload, isResume: bool, token: Token)
      modifies this
      ensures View() == old(ExecutionProtocol.ProcessQueuedFlowJob(View(), id, job, input, isResume, token))
    {
      if id !in rows || rows[id].status.Aborted? || rows[id].status.Cancelled? || rows[id].status.Succeeded? {
        return;
      }
      var existing := rows[id];
      if job.None? {
        var _ := AbortExecution(id);
        return;
      }
      if id in activeExecutionClaims {
        return;
      }
      var flow := job.value;
      var changed := ClaimQueued(id, token);
      if !changed {
        return;
      }
      if isResume || HasProgress(existing.stored, flow.definition) {
        match Resolve(flow, existing.stored) {
          case Completed => SaveExecution(id, SucceededRow(existing));
          case Unresolvable => var _ := AbortExecution(id);
          case Resumed(f) => CallEngine(id, token, flow, f);
        }
      } else {
        CallEngine(id, token, flow, Initial(flow.definition, input));
      }
    }

    method DispatchUnconstrainedQueuedExecution(id: Id, flow: Flow, token: Token)
      requires id in rows && rows[id].status.Queued?
      modifies this
      ensures View() == old(DispatchUnconstrained(View(), id, flow, token))
    {
      var exec := rows[id];
      if id in activeExecutionClaims {
        return;
      }
      var changed := ClaimQueued(id, token);
      if HasProgress(exec.stored, flow.definition) {
        match Resolve(flow, exec.stored) {
          case Completed =>
            SaveExecution(id, SucceededRow(exec));
            Finally(id, token);
          case Unresolvable =>
            var _ := AbortExecution(id);
            Finally(id, token);
          case Resumed(f) => CallEngine(id, token, flow, f);
        }
      } else {
        CallEngine(id, token, flow, Initial(flow.definition, Some(Read(exec.stored.input))));
      }
    }

    method ResumeExecution(id: Id, job: Option<Flow>, limited: bool, token: Token) returns (refused: bool)
      modifies this
      ensures View() == old(ExecutionProtocol.ResumeExecution(View(), id, job, limited, token))
    {
      if id in activeExecutionClaims || id in pendingExecutionAdmissions || id !in rows || rows[id].claimToken.Some? {
        return true;
      }
      var exec := rows[id];
      if !exec.status.Running? && !exec.status.Failed? {
        return true;
      }
      if job.None? {
        var _ := AbortExecution(id);
        return true;
      }
      match Resolve(job.value, exec.stored) {
        case Completed => SaveExecution(id, SucceededRow(exec));
        case Unresolvable => var _ := AbortExecution(id);
        case Resumed(f) =>
          pendingExecutionAdmissions := pendingExecutionAdmissions + {id};
          if limited {
            rows := rows[id := exec.(status := Queued, claimToken := None)];
            dispatches := dispatches[id := exec.(stored := Mapped(exec.stored))];
          } else {
            activeExecutionClaims := activeExecutionClaims + {id};
            rows := rows[id := exec.(status := RowStatus.Running, claimToken := Some(token))];
            activeAbortControllers := activeAbortControllers + {id};
            CallEngine(id, token, job.value, f);
          }
      }
      return false;
    }

    /** persistCheckpoint for runner `i` and the event it reports; `thrown` says that it threw. */
    method PersistCheckpoint(i: nat, e: Event) returns (thrown: bool)
      requires i < |runners|
      modifies this`rows
      ensures thrown == old(Refuses(View(), runners[i]))
          && rows == old(ExecutionProtocol.PersistCheckpoint(View(), runners[i], e))
    {
      var r := runners[i];
      if r.id in suppressedExecutionWrites {
        return true;
      }
      if r.id in activeAbortControllers && r.signalled {
        return true;
      }
      if r.id in rows && rows[r.id].status.Running?
        && (rows[r.id].claimToken == Some(r.token) || rows[r.id].claimToken.None?) {
        rows := rows[r.id := Row(StatusOf(e.status), Persist(rows[r.id].stored, e), rows[r.id].claimToken)];
        return false;
      }
      if r.id in rows {
        var current := rows[r.id];
        if current.status.Aborted? || current.status.Cancelled? {
          return true;
        }
        return current.claimToken.Some? && current.claimToken.value != r.token;
      }
      return false;
    }

    method OnStepTransition(i: nat)
      requires i < |runners| && runners[i].script != []
      modifies this
      ensures View() == old(ReportTransition(View(), i))
    {
      var r := runners[i];
      var e := r.script[0];
      var thrown := PersistCheckpoint(i, e);
      r := if thrown then Interrupted(r, e.stepLogs) else r.(logs := e.stepLogs, script := r.script[1..]);
      runners := runners[i := r];
    }

    /** The step under way is cut short: its failed entry is logged and reported. `stored` is the database's answer. */
    method OnStepCutShort(i: nat, entry: Log, counters: map<string, nat>, stored: bool)
      requires i < |runners| && runners[i].script != []
      modifies this
      ensures View() == old(CutStep(View(), i, entry, counters, stored))
    {
      var r := runners[i];
      var e := CutEvent(r, entry, counters);
      if stored {
        var _ := PersistCheckpoint(i, e);
      } else if r.id in rows && !Refuses(View(), r) {
        rows := rows[r.id := rows[r.id].(stored := rows[r.id].stored.(checkpoint := None))];
      }
      runners := runners[i := Interrupted(r, e.stepLogs)];
    }

    /** Suppressed first, so the abort fires the controller but leaves the row for the deletion that follows. */
    method SuppressAndAbort(id: Id)
      modifies this
      ensures View() == old(FireControllers(View(), {id}).(suppressed := suppressedExecutionWrites + {id}))
    {
      suppressedExecutionWrites := suppressedExecutionWrites + {id};
      var _ := AbortExecution(id);
    }

    method SuppressAll(active: set<Id>)
      modifies this
      ensures View() == old(FireControllers(View(), active).(suppressed := suppressedExecutionWrites + active))
    {
      var todo, done := active, {};
      ghost var was := View();
      while todo != {}
        invariant todo !! done && todo + done == active
        invariant View() == FireControllers(was, done).(suppressed := was.suppressed + done)
        decreases |todo|
      {
        var id :| id in todo;
        SuppressAndAbort(id);
        FiredTogether(was, done, id);
        todo, done := todo - {id}, done + {id};
      }
      assert done == active;
    }

    method ClearExecutions(ids: set<Id>)
      modifies this
      ensures View() == old(ExecutionProtocol.ClearExecutions(View(), ids))
    {
      var active := set id | id in ids && id in rows && Active(rows[id].status);
      SuppressAll(active);
      rows := rows - ids;
    }

    method RecoverOrphanedExecutions()
      modifies this`rows
      ensures View() == old(ReleaseTokens(View()))
    {
      var activeIds := activeExecutionClaims + pendingExecutionAdmissions;
      rows := map id | id in rows ::
        if Active(rows[id].status) && id !in activeIds then rows[id].(claimToken := None) else rows[id];
    }
  }

  /** Firing one more controller after some others is firing them all. */
  lemma FiredTogether(s: Service, done: set<Id>, id: Id)
    requires id !in done
    ensures var suppressed := s.suppressed + done;
      FireControllers(FireControllers(s, done).(suppressed := suppressed), {id}).(suppressed := suppressed + {id})
      == FireControllers(s, done + {id}).(suppressed := s.suppressed + (done + {id}))
  {
    var one := FireControllers(FireControllers(s, done).(suppressed := s.suppressed + done), {id});
    var both := FireControllers(s, done + {id});
    assert one.controllers == both.controllers;
    assert one.runners == both.runners;
  }
}
