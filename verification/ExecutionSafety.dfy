/** What every interleaving of the actions of src/flows/FlowService.ts keeps. */
module ExecutionSafety {
  import opened Strings
  import opened FlowEngine
  import opened FlowResume
  import opened FlowBounds
  import opened ExecutionProtocol

  // ---------------------------------------------------------------- the invariant

  /** A stored history fits the limit and is no longer than the steps its checkpoint counts. */
  predicate StoredFits(stored: Stored) {
    && |stored.stepLogs| <= MAX_STEPS
    && (stored.checkpoint.Some? && stored.checkpoint.value.stepCount > 0
        ==> |stored.stepLogs| <= stored.checkpoint.value.stepCount)
  }

  predicate RowFits(row: Row) {
    StoredFits(row.stored) && (row.status.Aborted? ==> row.claimToken.None? && row.stored.checkpoint.None?)
  }

  /** What ties a live runner to the rest of the state. */
  predicate RunnerFits(s: Service, r: Runner) {
    && r.id in s.claims && |r.logs| <= MAX_STEPS && Grows(r.logs, r.script)
    && (r.signalled ==> r.id !in s.controllers)
    && (r.id in s.rows ==> RunnerOwns(r, s.rows[r.id]))
    && (r.id in s.dispatches ==> s.dispatches[r.id].stored.stepLogs <= r.logs)
  }

  predicate RunnerOwns(r: Runner, row: Row) {
    && row.stored.stepLogs <= r.logs && !row.status.Queued? && !row.status.Cancelled?
    && (row.claimToken == Some(r.token) || row.claimToken.None?)
  }

  /** A row that a failed dispatch would put back is an earlier one of the same execution. */
  predicate DispatchFits(s: Service, id: Id)
    requires id in s.dispatches
  {
    var row := s.dispatches[id];
    && (row.status.Running? || row.status.Failed?) && row.claimToken.None? && RowFits(row)
    && (id in s.rows ==> row.stored.stepLogs <= s.rows[id].stored.stepLogs)
  }

  predicate OneRunnerEach(s: Service) {
    forall i, j :: 0 <= i < j < |s.runners| ==> s.runners[i].id != s.runners[j].id
  }

  predicate RunnersFit(s: Service) {
    forall i :: 0 <= i < |s.runners| ==> RunnerFits(s, s.runners[i])
  }

  predicate RowsFit(s: Service) {
    forall id :: id in s.rows ==> RowFits(s.rows[id])
  }

  predicate DispatchesFit(s: Service) {
    forall id :: id in s.dispatches ==> DispatchFits(s, id)
  }

  predicate Inv(s: Service) {
    && OneRunnerEach(s) && RunnersFit(s) && RowsFit(s) && DispatchesFit(s)
    && s.controllers <= s.claims && s.dispatches.Keys <= s.pending
  }

  predicate Unclaimed(s: Service, id: Id) {
    forall i :: 0 <= i < |s.runners| ==> s.runners[i].id != id
  }

  lemma NoClaimNoRunner(s: Service, id: Id)
    requires RunnersFit(s) && id !in s.claims
    ensures Unclaimed(s, id)
  {
    forall i | 0 <= i < |s.runners| ensures s.runners[i].id != id {
      assert RunnerFits(s, s.runners[i]);
    }
  }

  /** What this needs to know of the engine: it only ever extends the log, within its limits. */
  ghost predicate Lawful(flow: Flow) {
    forall f: Frame :: |f.logs| <= f.stepCount ==> Grows(f.logs, flow.run(f).events)
  }

  lemma EngineIsLawful(w: World, def: Definition)
    ensures Lawful(EngineOn(w, def))
  {
    forall f: Frame | |f.logs| <= f.stepCount ensures Grows(f.logs, EngineOn(w, def).run(f).events) {
      HistoryGrows(w, def, f, Begun(f.stepCount), []);
    }
  }

  ghost predicate LawfulAction(a: Action) {
    match a
    case Execute(_, flow, _, _, _) => Lawful(flow)
    case QueuedJob(_, job, _, _, _) => job.Some? ==> Lawful(job.value)
    case Unconstrained(_, flow, _) => Lawful(flow)
    case Resume(_, job, _, _) => job.Some? ==> Lawful(job.value)
    case _ => true
  }

  ghost predicate LawfulActions(actions: seq<Action>) {
    forall i :: 0 <= i < |actions| ==> LawfulAction(actions[i])
  }

  lemma ResolvedFits(flow: Flow, stored: Stored)
    requires StoredFits(stored)
    ensures Resolve(flow, stored).Resumed? ==>
      var f := Resolve(flow, stored).frame; f.logs == stored.stepLogs && |f.logs| <= f.stepCount
  {
  }

  // ---------------------------------------------------------------- the pieces

  lemma SaveKeeps(s: Service, id: Id, row: Row)
    requires Inv(s) && RowFits(row)
    requires id in s.dispatches ==> s.dispatches[id].stored.stepLogs <= row.stored.stepLogs
    requires forall i :: 0 <= i < |s.runners| && s.runners[i].id == id ==> RunnerOwns(s.runners[i], row)
    ensures Inv(Save(s, id, row))
  {
    var s' := Save(s, id, row);
    forall i | 0 <= i < |s'.runners| ensures RunnerFits(s', s'.runners[i]) { assert RunnerFits(s, s.runners[i]); }
    forall k | k in s'.dispatches ensures DispatchFits(s', k) { assert DispatchFits(s, k); }
  }

  lemma FireKeeps(s: Service, ids: set<Id>)
    requires Inv(s)
    ensures Inv(FireControllers(s, ids))
  {
    var s' := FireControllers(s, ids);
    forall i | 0 <= i < |s'.runners| ensures RunnerFits(s', s'.runners[i]) { assert RunnerFits(s, s.runners[i]); }
    forall k | k in s'.dispatches ensures DispatchFits(s', k) { assert DispatchFits(s, k); }
  }

  lemma AbortKeeps(s: Service, id: Id)
    requires Inv(s)
    ensures Inv(AbortExecution(s, id))
  {
    FireKeeps(s, {id});
    if id in s.rows && Active(s.rows[id].status) {
      var fired := FireControllers(s, {id});
      assert RowFits(s.rows[id]);
      if id in s.dispatches { assert DispatchFits(s, id); }
      forall i | 0 <= i < |fired.runners| && fired.runners[i].id == id
        ensures RunnerOwns(fired.runners[i], AbortedRow(s.rows[id]))
      {
        assert RunnerFits(s, s.runners[i]);
      }
      SaveKeeps(fired, id, AbortedRow(s.rows[id]));
    }
  }

  lemma ClaimKeeps(s: Service, id: Id, token: Token)
    requires Inv(s) && id in s.rows && id !in s.claims && !s.rows[id].status.Aborted?
    ensures Inv(ClaimRunning(s, id, token))
  {
    NoClaimNoRunner(s, id);
    var s' := ClaimRunning(s, id, token);
    assert RowFits(s.rows[id]);
    forall i | 0 <= i < |s'.runners| ensures RunnerFits(s', s'.runners[i]) { assert RunnerFits(s, s.runners[i]); }
    forall k | k in s'.dispatches ensures DispatchFits(s', k) { assert DispatchFits(s, k); }
  }

  lemma ReleaseKeeps(s: Service, id: Id, token: Token)
    requires Inv(s) && Unclaimed(s, id)
    ensures Inv(Release(s, id, token))
  {
    var s' := Release(s, id, token);
    if id in s.rows { assert RowFits(s.rows[id]); }
    forall i | 0 <= i < |s'.runners| ensures RunnerFits(s', s'.runners[i]) { assert RunnerFits(s, s.runners[i]); }
    forall k | k in s'.dispatches ensures DispatchFits(s', k) { assert DispatchFits(s, k); }
  }

  lemma BeginKeeps(s: Service, id: Id, token: Token, flow: Flow, f: Frame)
    requires Inv(s) && Unclaimed(s, id) && id in s.claims && |f.logs| <= f.stepCount && |f.logs| <= MAX_STEPS
    requires Lawful(flow)
    requires id in s.rows ==>
      s.rows[id].stored.stepLogs == f.logs && s.rows[id].status.Running? && s.rows[id].claimToken == Some(token)
    requires id in s.dispatches ==> s.dispatches[id].stored.stepLogs <= f.logs
    ensures Inv(Begin(s, id, token, flow, f))
  {
    var s' := Begin(s, id, token, flow, f);
    assert Grows(f.logs, flow.run(f).events);
    forall i | 0 <= i < |s'.runners| ensures RunnerFits(s', s'.runners[i]) {
      if i < |s.runners| { assert RunnerFits(s, s.runners[i]); }
    }
    forall k | k in s'.dispatches ensures DispatchFits(s', k) { assert DispatchFits(s, k); }
  }

  // ---------------------------------------------------------------- the actions

  lemma ExecuteKeeps(s: Service, id: Id, flow: Flow, input: Payload, limited: bool, token: Token)
    requires Inv(s) && Lawful(flow)
    ensures Inv(ExecuteFlow(s, id, flow, input, limited, token))
  {
    if id !in s.claims && id !in s.pending && id !in s.rows {
      NoClaimNoRunner(s, id);
      var row := Row(Queued, Admitted(flow.definition, input), None);
      var admitted := s.(pending := s.pending + {id});
      PendingKeeps(s, id);
      if limited {
        SaveKeeps(admitted, id, row);
        DispatchKeeps(Save(admitted, id, row), id, row.(status := RowStatus.Failed));
      } else {
        var claimed := admitted.(claims := s.claims + {id}, controllers := s.controllers + {id});
        SetsKeep(admitted, id);
        var running := row.(status := RowStatus.Running, claimToken := Some(token));
        SaveKeeps(claimed, id, running);
        BeginKeeps(Save(claimed, id, running), id, token, flow, Initial(flow.definition, input));
      }
    }
  }

  lemma PendingKeeps(s: Service, id: Id)
    requires Inv(s)
    ensures Inv(s.(pending := s.pending + {id}))
  {
    var s' := s.(pending := s.pending + {id});
    forall i | 0 <= i < |s'.runners| ensures RunnerFits(s', s'.runners[i]) { assert RunnerFits(s, s.runners[i]); }
    forall k | k in s'.dispatches ensures DispatchFits(s', k) { assert DispatchFits(s, k); }
  }

  lemma SetsKeep(s: Service, id: Id)
    requires Inv(s) && Unclaimed(s, id)
    ensures Inv(s.(claims := s.claims + {id}, controllers := s.controllers + {id}))
  {
    var s' := s.(claims := s.claims + {id}, controllers := s.controllers + {id});
    forall i | 0 <= i < |s'.runners| ensures RunnerFits(s', s'.runners[i]) { assert RunnerFits(s, s.runners[i]); }
    forall k | k in s'.dispatches ensures DispatchFits(s', k) { assert DispatchFits(s, k); }
  }

  lemma DispatchKeeps(s: Service, id: Id, row: Row)
    requires Inv(s) && id in s.pending && Unclaimed(s, id)
    requires (row.status.Running? || row.status.Failed?) && row.claimToken.None? && RowFits(row)
    requires id in s.rows ==> row.stored.stepLogs <= s.rows[id].stored.stepLogs
    ensures Inv(s.(dispatches := s.dispatches[id := row]))
  {
    var s' := s.(dispatches := s.dispatches[id := row]);
    forall i | 0 <= i < |s'.runners| ensures RunnerFits(s', s'.runners[i]) { assert RunnerFits(s, s.runners[i]); }
    forall k | k in s'.dispatches ensures DispatchFits(s', k) { if k != id { assert DispatchFits(s, k); } }
  }

  lemma DispatchEndsKeeps(s: Service, id: Id, ok: bool)
    requires Inv(s)
    ensures Inv(DispatchEnds(s, id, ok))
  {
    if id in s.dispatches {
      assert DispatchFits(s, id);
      if !ok {
        forall i | 0 <= i < |s.runners| && s.runners[i].id == id ensures RunnerOwns(s.runners[i], s.dispatches[id]) {
          assert RunnerFits(s, s.runners[i]);
        }
        SaveKeeps(s, id, s.dispatches[id]);
      }
      var saved := if ok then s else Save(s, id, s.dispatches[id]);
      var s' := saved.(pending := s.pending - {id}, dispatches := s.dispatches - {id});
      forall i | 0 <= i < |s'.runners|
        ensures RunnerFits(s', s'.runners[i])
      {
        assert RunnerFits(saved, saved.runners[i]);
      }
      forall k | k in s'.dispatches ensures DispatchFits(s', k) { assert DispatchFits(saved, k); }
    }
  }

  /** Once a row has been claimed, everything that can follow keeps the invariant. */
  lemma ClaimedKeeps(s: Service, id: Id, flow: Flow, token: Token)
    requires Inv(s) && id in s.rows && id !in s.claims && !s.rows[id].status.Aborted? && Lawful(flow)
    ensures var claimed := ClaimRunning(s, id, token); var row := s.rows[id];
      && Inv(claimed) && Unclaimed(claimed, id)
      && Inv(Save(claimed, id, SucceededRow(row))) && Inv(AbortExecution(claimed, id))
      && (Resolve(flow, row.stored).Resumed? ==> Inv(Begin(claimed, id, token, flow, Resolve(flow, row.stored).frame)))
  {
    ClaimKeeps(s, id, token);
    NoClaimNoRunner(s, id);
    var claimed, row := ClaimRunning(s, id, token), s.rows[id];
    if id in s.dispatches { assert DispatchFits(s, id); }
    assert RowFits(row);
    SaveKeeps(claimed, id, SucceededRow(row));
    AbortKeeps(claimed, id);
    ResolvedFits(flow, row.stored);
    if Resolve(flow, row.stored).Resumed? {
      BeginKeeps(claimed, id, token, flow, Resolve(flow, row.stored).frame);
    }
  }

  lemma FreshKeeps(s: Service, id: Id, flow: Flow, input: Payload, token: Token)
    requires Inv(s) && id in s.rows && id !in s.claims && s.rows[id].status.Queued? && s.rows[id].stored.stepLogs == []
    requires Lawful(flow)
    ensures Inv(Begin(ClaimRunning(s, id, token), id, token, flow, Initial(flow.definition, input)))
  {
    ClaimKeeps(s, id, token);
    NoClaimNoRunner(s, id);
    if id in s.dispatches { assert DispatchFits(s, id); }
    BeginKeeps(ClaimRunning(s, id, token), id, token, flow, Initial(flow.definition, input));
  }

  lemma QueuedJobKeeps(s: Service, id: Id, job: Option<Flow>, input: Payload, isResume: bool, token: Token)
    requires Inv(s) && (job.Some? ==> Lawful(job.value))
    ensures Inv(ProcessQueuedFlowJob(s, id, job, input, isResume, token))
  {
    AbortKeeps(s, id);
    if id in s.rows && job.Some? && id !in s.claims {
      if s.rows[id].status.Queued? {
        ClaimedKeeps(s, id, job.value, token);
        if !(isResume || HasProgress(s.rows[id].stored, job.value.definition)) {
          FreshKeeps(s, id, job.value, input, token);
        }
      } else {
        assert s.controllers - {id} == s.controllers;
      }
    }
  }

  lemma UnconstrainedKeeps(s: Service, id: Id, flow: Flow, token: Token)
    requires Inv(s) && Lawful(flow)
    ensures Inv(DispatchUnconstrained(s, id, flow, token))
  {
    if id in s.rows && s.rows[id].status.Queued? && id !in s.claims {
      var row, claimed := s.rows[id], ClaimRunning(s, id, token);
      ClaimedKeeps(s, id, flow, token);
      if HasProgress(row.stored, flow.definition) {
        ReleaseKeeps(Save(claimed, id, SucceededRow(row)), id, token);
        ReleaseKeeps(AbortExecution(claimed, id), id, token);
      } else {
        FreshKeeps(s, id, flow, Some(Read(row.stored.input)), token);
      }
    }
  }

  /** The rows that resumeExecution works on. */
  predicate MayResume(s: Service, id: Id) {
    && id !in s.claims && id !in s.pending && id in s.rows && s.rows[id].claimToken.None?
    && s.rows[id].status in {RowStatus.Running, RowStatus.Failed}
  }

  lemma ResumeKeeps(s: Service, id: Id, job: Option<Flow>, limited: bool, token: Token)
    requires Inv(s) && (job.Some? ==> Lawful(job.value))
    ensures Inv(ResumeExecution(s, id, job, limited, token))
  {
    if MayResume(s, id) {
      AbortKeeps(s, id);
      if job.Some? {
        ResolvedKeeps(s, id, job.value, limited, token);
      }
    }
  }

  lemma ResolvedKeeps(s: Service, id: Id, flow: Flow, limited: bool, token: Token)
    requires Inv(s) && MayResume(s, id) && Lawful(flow)
    ensures Inv(ResumeExecution(s, id, Some(flow), limited, token))
  {
    var row := s.rows[id];
    NoClaimNoRunner(s, id);
    assert RowFits(row);
    if Resolve(flow, row.stored).Resumed? {
      var admitted := s.(pending := s.pending + {id});
      PendingKeeps(s, id);
      if limited {
        RequeueKeeps(admitted, id);
      } else {
        ClaimedKeeps(admitted, id, flow, token);
      }
    } else {
      AbortKeeps(s, id);
      SaveKeeps(s, id, SucceededRow(row));
    }
  }

  lemma RequeueKeeps(s: Service, id: Id)
    requires Inv(s) && id in s.rows && id in s.pending && Unclaimed(s, id) && s.rows[id].claimToken.None?
    requires s.rows[id].status.Running? || s.rows[id].status.Failed?
    ensures var row := s.rows[id];
      Inv(s.(rows := s.rows[id := row.(status := Queued, claimToken := None)],
             dispatches := s.dispatches[id := row.(stored := Mapped(row.stored))]))
  {
    var row := s.rows[id];
    QueueKeeps(s, id);
    assert RowFits(row);
    DispatchKeeps(s.(rows := s.rows[id := row.(status := Queued, claimToken := None)]), id,
      row.(stored := Mapped(row.stored)));
  }

  lemma QueueKeeps(s: Service, id: Id)
    requires Inv(s) && id in s.rows && Unclaimed(s, id)
    ensures Inv(s.(rows := s.rows[id := s.rows[id].(status := Queued, claimToken := None)]))
  {
    var s' := s.(rows := s.rows[id := s.rows[id].(status := Queued, claimToken := None)]);
    assert RowFits(s.rows[id]);
    forall i | 0 <= i < |s'.runners| ensures RunnerFits(s', s'.runners[i]) { assert RunnerFits(s, s.runners[i]); }
    forall k | k in s'.dispatches ensures DispatchFits(s', k) { assert DispatchFits(s, k); }
  }

  /** Replacing runner `i` and its row, both further on than before, keeps the invariant. */
  lemma AdvanceKeeps(s: Service, i: nat, r: Runner, rows: map<Id, Row>)
    requires Inv(s) && i < |s.runners| && r.id == s.runners[i].id && r.token == s.runners[i].token
    requires r.signalled == s.runners[i].signalled && s.runners[i].logs <= r.logs
    requires |r.logs| <= MAX_STEPS && Grows(r.logs, r.script)
    requires rows.Keys == s.rows.Keys && forall k :: k in rows && k != r.id ==> rows[k] == s.rows[k]
    requires r.id in rows ==>
      RowFits(rows[r.id]) && RunnerOwns(r, rows[r.id]) && s.rows[r.id].stored.stepLogs <= rows[r.id].stored.stepLogs
    ensures Inv(s.(rows := rows, runners := s.runners[i := r]))
  {
    var s' := s.(rows := rows, runners := s.runners[i := r]);
    assert RunnerFits(s, s.runners[i]);
    forall j | 0 <= j < |s'.runners| ensures RunnerFits(s', s'.runners[j]) { assert RunnerFits(s, s.runners[j]); }
    forall k | k in s'.dispatches ensures DispatchFits(s', k) { assert DispatchFits(s, k); }
    forall k | k in s'.rows ensures RowFits(s'.rows[k]) { if k != r.id { assert RowFits(s.rows[k]); } }
  }

  lemma TransitionKeeps(s: Service, i: nat)
    requires Inv(s)
    ensures Inv(ReportTransition(s, i))
  {
    if i < |s.runners| && s.runners[i].script != [] {
      var r, e := s.runners[i], s.runners[i].script[0];
      assert RunnerFits(s, r);
      if r.id in s.rows { assert RowFits(s.rows[r.id]); }
      AdvanceKeeps(s, i, ReportTransition(s, i).runners[i], PersistCheckpoint(s, r, e));
    }
  }

  lemma StorageFailsKeeps(s: Service, i: nat)
    requires Inv(s)
    ensures Inv(FailTransition(s, i))
  {
    if i < |s.runners| && s.runners[i].script != [] {
      var s' := FailTransition(s, i);
      assert RunnerFits(s, s.runners[i]);
      if s.runners[i].id in s.rows { assert RowFits(s.rows[s.runners[i].id]); }
      AdvanceKeeps(s, i, s'.runners[i], s'.rows);
    }
  }

  lemma CutKeeps(s: Service, i: nat, entry: Log, counters: map<string, nat>, stored: bool)
    requires Inv(s)
    ensures Inv(CutStep(s, i, entry, counters, stored))
  {
    if i < |s.runners| && s.runners[i].script != [] {
      var r, s' := s.runners[i], CutStep(s, i, entry, counters, stored);
      assert RunnerFits(s, r);
      if r.id in s.rows { assert RowFits(s.rows[r.id]); }
      AdvanceKeeps(s, i, s'.runners[i], s'.rows);
    }
  }

  lemma FinishKeeps(s: Service, i: nat, ending: Ending)
    requires Inv(s)
    ensures Inv(FinishRunner(s, i, ending))
  {
    if i < |s.runners| && CanEnd(s.runners[i], ending) {
      var r := s.runners[i];
      assert RunnerFits(s, r);
      var gone := s.(runners := s.runners[..i] + s.runners[i + 1..]);
      assert Inv(gone) && Unclaimed(gone, r.id) by { RemoveKeeps(s, i); }
      if r.id in s.dispatches { assert DispatchFits(s, r.id); }
      if r.id in s.rows { assert RowFits(s.rows[r.id]); }
      EndingKeeps(gone, r, ending);
      ReleaseKeeps(SaveEnding(gone, r, ending), r.id, r.token);
    }
  }

  lemma RemoveKeeps(s: Service, i: nat)
    requires Inv(s) && i < |s.runners|
    ensures var gone := s.(runners := s.runners[..i] + s.runners[i + 1..]);
        Inv(gone) && Unclaimed(gone, s.runners[i].id)
  {
    var gone := s.(runners := s.runners[..i] + s.runners[i + 1..]);
    forall j | 0 <= j < |gone.runners|
      ensures RunnerFits(gone, gone.runners[j]) && gone.runners[j].id != s.runners[i].id
    {
      assert gone.runners[j] == if j < i then s.runners[j] else s.runners[j + 1];
      assert RunnerFits(s, if j < i then s.runners[j] else s.runners[j + 1]);
    }
    forall j, k | 0 <= j < k < |gone.runners| ensures gone.runners[j].id != gone.runners[k].id {
      assert gone.runners[j] == if j < i then s.runners[j] else s.runners[j + 1];
      assert gone.runners[k] == if k < i then s.runners[k] else s.runners[k + 1];
    }
    forall k | k in gone.dispatches ensures DispatchFits(gone, k) { assert DispatchFits(s, k); }
  }

  lemma EndingKeeps(s: Service, r: Runner, ending: Ending)
    requires Inv(s) && Unclaimed(s, r.id) && CanEnd(r, ending) && |r.logs| <= MAX_STEPS && Grows(r.logs, r.script)
    requires r.id in s.rows ==> s.rows[r.id].stored.stepLogs <= r.logs
    requires r.id in s.dispatches ==> s.dispatches[r.id].stored.stepLogs <= r.logs
    ensures Inv(SaveEnding(s, r, ending))
  {
    var input := if r.id in s.rows then s.rows[r.id].stored.input else None;
    if r.id in s.rows { assert RowFits(s.rows[r.id]); }
    if r.id in s.dispatches { assert DispatchFits(s, r.id); }
    match ending
    case Succeeds => SaveKeeps(s, r.id, Row(RowStatus.Succeeded, Stored(input, r.outcome.output, r.logs, None), None));
    case Fails(status, extra, output, checkpoint) =>
      SaveKeeps(s, r.id, Row(status, Stored(input, output, FinalLogs(r, extra), checkpoint), None));
    case Throws(fallback) =>
      if r.id in s.rows {
        var stored := s.rows[r.id].stored;
        var output := if Read(stored.output) != NULL_JSON then stored.output else fallback;
        SaveKeeps(s, r.id, Row(RowStatus.Failed, stored.(output := output), None));
      }
  }

  lemma ClearKeeps(s: Service, ids: set<Id>)
    requires Inv(s)
    ensures Inv(ClearExecutions(s, ids))
  {
    var active := set id | id in ids && id in s.rows && Active(s.rows[id].status);
    FireKeeps(s, active);
    var fired, s' := FireControllers(s, active), ClearExecutions(s, ids);
    forall i | 0 <= i < |s'.runners|
      ensures RunnerFits(s', s'.runners[i])
    {
      assert RunnerFits(fired, fired.runners[i]);
    }
    forall k | k in s'.dispatches ensures DispatchFits(s', k) { assert DispatchFits(s, k); }
  }

  lemma ReleaseTokensKeeps(s: Service)
    requires Inv(s)
    ensures Inv(ReleaseTokens(s))
  {
    var s' := ReleaseTokens(s);
    forall i | 0 <= i < |s'.runners| ensures RunnerFits(s', s'.runners[i]) { assert RunnerFits(s, s.runners[i]); }
    forall k | k in s'.dispatches ensures DispatchFits(s', k) { assert DispatchFits(s, k); }
    forall k | k in s'.rows ensures RowFits(s'.rows[k]) { assert RowFits(s.rows[k]); }
  }

  lemma ForgetKeeps(s: Service, id: Id)
    requires Inv(s)
    ensures Inv(s.(suppressed := s.suppressed - {id}))
    ensures id !in s.dispatches ==> Inv(s.(pending := s.pending - {id}))
  {
    var s1, s2 := s.(suppressed := s.suppressed - {id}), s.(pending := s.pending - {id});
    forall i | 0 <= i < |s.runners| ensures RunnerFits(s1, s.runners[i]) && RunnerFits(s2, s.runners[i]) {
      assert RunnerFits(s, s.runners[i]);
    }
    forall k | k in s.dispatches ensures DispatchFits(s1, k) && DispatchFits(s2, k) { assert DispatchFits(s, k); }
  }

  lemma {:induction false} NextKeeps(s: Service, a: Action)
    requires Inv(s) && LawfulAction(a)
    ensures Inv(Next(s, a))
  {
    match a
    case Execute(id, flow, input, limited, token) => ExecuteKeeps(s, id, flow, input, limited, token);
    case DispatchSent(id) => DispatchEndsKeeps(s, id, true);
    case DispatchFails(id) => DispatchEndsKeeps(s, id, false);
    case AdmissionReturns(id) => ForgetKeeps(s, id);
    case QueuedJob(id, job, input, isResume, token) => QueuedJobKeeps(s, id, job, input, isResume, token);
    case Unconstrained(id, flow, token) => UnconstrainedKeeps(s, id, flow, token);
    case Resume(id, job, limited, token) => ResumeKeeps(s, id, job, limited, token);
    case Transition(i) => TransitionKeeps(s, i);
    case StorageFails(i) => StorageFailsKeeps(s, i);
    case CutShort(i, entry, counters, stored) => CutKeeps(s, i, entry, counters, stored);
    case Finish(i, ending) => FinishKeeps(s, i, ending);
    case Abort(id) => AbortKeeps(s, id);
    case Clear(ids) => ClearKeeps(s, ids);
    case ReleaseOrphans => ReleaseTokensKeeps(s);
    case SuppressionExpires(id) => ForgetKeeps(s, id);
    case Crash => 
  }

  // ---------------------------------------------------------------- the theorems

  /**
   * Over every sequence of actions since a start: one runner per execution, each of them claimed, and 500 entries at
   * most.
   */
  lemma {:induction false} RunsKeepInv(s: Service, actions: seq<Action>)
    requires Inv(s) && LawfulActions(actions)
    ensures Inv(Perform(s, actions))
    decreases |actions|
  {
    if actions != [] {
      NextKeeps(s, actions[0]);
      RunsKeepInv(Next(s, actions[0]), actions[1..]);
    }
  }

  lemma {:induction false} OneRunnerPerExecution(rows: map<Id, Row>, actions: seq<Action>)
    requires LawfulActions(actions) && forall id :: id in rows ==> RowFits(rows[id])
    ensures var s := Perform(Started(rows), actions);
      && (forall i, j :: 0 <= i < j < |s.runners| ==> s.runners[i].id != s.runners[j].id)
      && (forall i :: 0 <= i < |s.runners| ==> s.runners[i].id in s.claims)
      && (forall id :: id in s.rows ==> |s.rows[id].stored.stepLogs| <= MAX_STEPS)
  {
    RunsKeepInv(Started(rows), actions);
    var s := Perform(Started(rows), actions);
    forall i | 0 <= i < |s.runners| ensures s.runners[i].id in s.claims { assert RunnerFits(s, s.runners[i]); }
    forall id | id in s.rows ensures |s.rows[id].stored.stepLogs| <= MAX_STEPS { assert RowFits(s.rows[id]); }
  }

  // ---------------------------------------------------------------- what an action does to one row

  /** The row stays, its history is extended, and if it was aborted it is the very same row. */
  predicate Carried(before: Row, rows: map<Id, Row>, id: Id) {
    && id in rows && before.stored.stepLogs <= rows[id].stored.stepLogs
    && (before.status.Aborted? ==> rows[id] == before)
  }

  lemma AbortCarries(s: Service, k: Id, before: Row, id: Id)
    requires Carried(before, s.rows, id)
    ensures Carried(before, AbortExecution(s, k).rows, id)
  {
  }

  lemma ExecuteCarries(s: Service, a: Action, id: Id)
    requires a.Execute? && id in s.rows
    ensures Carried(s.rows[id], Next(s, a).rows, id)
  {
  }

  lemma QueuedJobCarries(s: Service, a: Action, id: Id)
    requires a.QueuedJob? && id in s.rows
    ensures Carried(s.rows[id], Next(s, a).rows, id)
  {
    AbortCarries(s, a.id, s.rows[id], id);
    if a.id in s.rows && s.rows[a.id].status.Queued? {
      AbortCarries(ClaimRunning(s, a.id, a.token), a.id, s.rows[id], id);
    }
  }

  lemma UnconstrainedCarries(s: Service, a: Action, id: Id)
    requires a.Unconstrained? && id in s.rows
    ensures Carried(s.rows[id], Next(s, a).rows, id)
  {
    if a.id in s.rows && s.rows[a.id].status.Queued? {
      AbortCarries(ClaimRunning(s, a.id, a.token), a.id, s.rows[id], id);
    }
  }

  lemma ResumeCarries(s: Service, a: Action, id: Id)
    requires a.Resume? && id in s.rows
    ensures Carried(s.rows[id], Next(s, a).rows, id)
  {
    AbortCarries(s, a.id, s.rows[id], id);
  }

  lemma TransitionCarries(s: Service, i: nat, id: Id)
    requires Inv(s) && id in s.rows
    ensures Carried(s.rows[id], ReportTransition(s, i).rows, id) && Carried(s.rows[id], FailTransition(s, i).rows, id)
  {
    if i < |s.runners| {
      assert RunnerFits(s, s.runners[i]);
    }
  }

  lemma CutCarries(s: Service, i: nat, entry: Log, counters: map<string, nat>, stored: bool, id: Id)
    requires Inv(s) && id in s.rows
    ensures Carried(s.rows[id], CutStep(s, i, entry, counters, stored).rows, id)
  {
    if i < |s.runners| {
      assert RunnerFits(s, s.runners[i]);
    }
  }

  lemma FinishCarries(s: Service, i: nat, ending: Ending, id: Id)
    requires Inv(s) && id in s.rows
    ensures Carried(s.rows[id], FinishRunner(s, i, ending).rows, id)
  {
    if i < |s.runners| && CanEnd(s.runners[i], ending) {
      assert RunnerFits(s, s.runners[i]) && RowFits(s.rows[id]);
      assert Carried(s.rows[id], SaveEnding(s, s.runners[i], ending).rows, id);
    }
  }

  /** Every action but a deletion and the rollback of the execution's own dispatch carries the row on. */
  lemma {:induction false} RowIsCarried(s: Service, a: Action, id: Id)
    requires Inv(s) && id in s.rows && !(a.Clear? && id in a.ids) && a != DispatchFails(id)
    ensures Carried(s.rows[id], Next(s, a).rows, id)
  {
    match a
    case Execute(_, _, _, _, _) => ExecuteCarries(s, a, id);
    case QueuedJob(_, _, _, _, _) => QueuedJobCarries(s, a, id);
    case Unconstrained(_, _, _) => UnconstrainedCarries(s, a, id);
    case Resume(_, _, _, _) => ResumeCarries(s, a, id);
    case Transition(i) => TransitionCarries(s, i, id);
    case StorageFails(i) => TransitionCarries(s, i, id);
    case CutShort(i, entry, counters, stored) => CutCarries(s, i, entry, counters, stored, id);
    case Finish(i, ending) => FinishCarries(s, i, ending, id);
    case Abort(k) => AbortCarries(s, k, s.rows[id], id);
    case ReleaseOrphans => assert RowFits(s.rows[id]);
    case _ =>
  }

  // ---------------------------------------------------------------- append-only history

  predicate Extends(before: map<Id, Row>, after: map<Id, Row>, id: Id) {
    id in before && id in after ==> before[id].stored.stepLogs <= after[id].stored.stepLogs
  }

  /**
   * No action but the rollback of a failed dispatch shortens the history of a row that it leaves in place, and that
   * one puts back an earlier history of the same execution.
   */
  lemma {:induction false} HistoryOnlyGrows(s: Service, a: Action, id: Id)
    requires Inv(s)
    ensures a != DispatchFails(id) ==> Extends(s.rows, Next(s, a).rows, id)
    ensures a == DispatchFails(id) && id in s.rows && id in Next(s, a).rows ==>
      Next(s, a).rows[id].stored.stepLogs <= s.rows[id].stored.stepLogs
  {
    if a == DispatchFails(id) {
      if id in s.dispatches { assert DispatchFits(s, id); }
    } else if id in s.rows && !(a.Clear? && id in a.ids) {
      RowIsCarried(s, a, id);
    }
  }

  /** The row is there after every action of the sequence, and none of them rolls its dispatch back. */
  predicate KeptThroughout(s: Service, actions: seq<Action>, id: Id)
    decreases |actions|
  {
    id in s.rows
      && (actions == [] || (actions[0] != DispatchFails(id) && KeptThroughout(Next(s, actions[0]), actions[1..], id)))
  }

  /** Across any sequence of steps, failures, crashes, aborts and resumes the history is only ever extended. */
  lemma {:induction false} HistoryIsAppendOnly(s: Service, actions: seq<Action>, id: Id)
    requires Inv(s) && LawfulActions(actions) && KeptThroughout(s, actions, id)
    ensures Extends(s.rows, Perform(s, actions).rows, id) && id in Perform(s, actions).rows
    decreases |actions|
  {
    if actions != [] {
      NextKeeps(s, actions[0]);
      HistoryOnlyGrows(s, actions[0], id);
      HistoryIsAppendOnly(Next(s, actions[0]), actions[1..], id);
    }
  }

  // ---------------------------------------------------------------- aborted is absorbing

  predicate AbortedAt(s: Service, id: Id) {
    id in s.rows && s.rows[id].status.Aborted?
  }

  /** No action gives an aborted row another status, a claim token, a checkpoint or anything else. */
  lemma {:induction false} AbortedIsAbsorbing(s: Service, a: Action, id: Id)
    requires Inv(s) && AbortedAt(s, id)
    ensures id in Next(s, a).rows ==> Next(s, a).rows[id] == s.rows[id]
    ensures !(a.Clear? && id in a.ids) ==> id in Next(s, a).rows
    ensures s.rows[id].claimToken.None? && s.rows[id].stored.checkpoint.None?
  {
    assert RowFits(s.rows[id]);
    if a == DispatchFails(id) {
      if id in s.dispatches { assert DispatchFits(s, id); }
    } else if !(a.Clear? && id in a.ids) {
      RowIsCarried(s, a, id);
    }
  }

  /** Over whole runs: as long as nobody deletes the row, it is the row that the abort wrote. */
  lemma {:induction false} AbortedForGood(s: Service, actions: seq<Action>, id: Id)
    requires Inv(s) && LawfulActions(actions) && AbortedAt(s, id)
    requires forall i :: 0 <= i < |actions| ==> !(actions[i].Clear? && id in actions[i].ids)
    ensures id in Perform(s, actions).rows && Perform(s, actions).rows[id] == s.rows[id]
    decreases |actions|
  {
    if actions != [] {
      NextKeeps(s, actions[0]);
      AbortedIsAbsorbing(s, actions[0], id);
      AbortedForGood(Next(s, actions[0]), actions[1..], id);
    }
  }

  /** The runner of an aborted execution commits nothing more: its next transition is refused and ends its script. */
  lemma AbortedRunnerCommitsNothing(s: Service, i: nat)
    requires Inv(s) && i < |s.runners| && AbortedAt(s, s.runners[i].id)
    ensures ReportTransition(s, i).rows == s.rows && ReportTransition(s, i).runners[i].script == []
    ensures FailTransition(s, i).rows == s.rows && FailTransition(s, i).runners[i].script == []
  {
  }

  /**
   * A step that times out ends the log with its own entry: the row of the execution, once the engine has handed the
   * timeout back, holds the log before the step and that one entry.
   */
  lemma TimedOutStepIsLogged(s: Service, i: nat, entry: Log, counters: map<string, nat>, stored: bool, output: Payload)
    requires Inv(s) && i < |s.runners| && s.runners[i].script != []
    requires s.runners[i].id in s.rows && !s.rows[s.runners[i].id].status.Aborted? && s.runners[i].id !in s.suppressed
    ensures var r, cut := s.runners[i], CutStep(s, i, entry, counters, stored);
      var ended := FinishRunner(cut, i, Fails(Timeout, false, output, None));
      && r.id in ended.rows && ended.rows[r.id].status.Timeout?
      && ended.rows[r.id].stored.stepLogs == r.logs + [entry] && ended.rows[r.id].claimToken.None?
  {
    var r, cut := s.runners[i], CutStep(s, i, entry, counters, stored);
    assert RunnerFits(s, r);
    assert CanEnd(cut.runners[i], Fails(Timeout, false, output, None));
  }

  // ---------------------------------------------------------------- a failed row with a claim

  /** The row has failed with a claim on it, and neither a runner nor a dispatch of it is left. */
  predicate Stuck(s: Service, id: Id) {
    id in s.rows && s.rows[id].status.Failed? && s.rows[id].claimToken.Some? && id !in s.dispatches && Unclaimed(s, id)
  }

  lemma StuckThroughAbort(s: Service, k: Id, id: Id)
    requires Stuck(s, id)
    ensures Stuck(AbortExecution(s, k), id) && AbortExecution(s, k).rows[id] == s.rows[id]
  {
  }

  lemma StuckThroughExecute(s: Service, a: Action, id: Id)
    requires Stuck(s, id) && a.Execute?
    ensures Stuck(Next(s, a), id) && Next(s, a).rows[id] == s.rows[id]
  {
  }

  lemma StuckThroughClaim(s: Service, k: Id, token: Token, row: Row, id: Id)
    requires Stuck(s, id) && k != id && k in s.rows
    ensures var claimed := ClaimRunning(s, k, token);
      && Stuck(claimed, id) && claimed.rows[id] == s.rows[id]
      && Stuck(Save(claimed, k, row), id) && Save(claimed, k, row).rows[id] == s.rows[id]
  {
  }

  lemma StuckThroughQueuedJob(s: Service, a: Action, id: Id)
    requires Stuck(s, id) && a.QueuedJob?
    ensures Stuck(Next(s, a), id) && Next(s, a).rows[id] == s.rows[id]
  {
    StuckThroughAbort(s, a.id, id);
    if a.id != id && a.id in s.rows {
      StuckThroughClaim(s, a.id, a.token, SucceededRow(s.rows[a.id]), id);
      StuckThroughAbort(ClaimRunning(s, a.id, a.token), a.id, id);
    }
  }

  lemma StuckThroughRelease(s: Service, k: Id, token: Token, id: Id)
    requires Stuck(s, id) && k != id
    ensures Stuck(Release(s, k, token), id) && Release(s, k, token).rows[id] == s.rows[id]
  {
  }

  lemma StuckThroughBegin(s: Service, k: Id, token: Token, flow: Flow, f: Frame, id: Id)
    requires Stuck(s, id) && k != id
    ensures Stuck(Begin(s, k, token, flow, f), id) && Begin(s, k, token, flow, f).rows[id] == s.rows[id]
  {
  }

  lemma StuckThroughUnconstrained(s: Service, a: Action, id: Id)
    requires Stuck(s, id) && a.Unconstrained?
    ensures Stuck(Next(s, a), id) && Next(s, a).rows[id] == s.rows[id]
  {
    if a.id != id && a.id in s.rows {
      var row, claimed := s.rows[a.id], ClaimRunning(s, a.id, a.token);
      StuckThroughClaim(s, a.id, a.token, SucceededRow(row), id);
      StuckThroughAbort(claimed, a.id, id);
      StuckThroughRelease(Save(claimed, a.id, SucceededRow(row)), a.id, a.token, id);
      StuckThroughRelease(AbortExecution(claimed, a.id), a.id, a.token, id);
      var start := Initial(a.flow.definition, Some(Read(row.stored.input)));
      StuckThroughBegin(claimed, a.id, a.token, a.flow, start, id);
    }
  }

  lemma StuckThroughResume(s: Service, a: Action, id: Id)
    requires Stuck(s, id) && a.Resume?
    ensures Stuck(Next(s, a), id) && Next(s, a).rows[id] == s.rows[id]
  {
    StuckThroughAbort(s, a.id, id);
  }

  lemma StuckThroughStep(s: Service, a: Action, id: Id)
    requires Stuck(s, id) && (a.Transition? || a.StorageFails? || a.CutShort?)
    ensures Stuck(Next(s, a), id) && Next(s, a).rows[id] == s.rows[id]
  {
    if a.runner < |s.runners| {
      assert s.runners[a.runner].id != id;
    }
  }

  lemma StuckThroughFinish(s: Service, i: nat, ending: Ending, id: Id)
    requires Stuck(s, id)
    ensures Stuck(FinishRunner(s, i, ending), id) && FinishRunner(s, i, ending).rows[id] == s.rows[id]
  {
    if i < |s.runners| && CanEnd(s.runners[i], ending) {
      var r := s.runners[i];
      assert r.id != id;
      var saved := SaveEnding(s, r, ending);
      assert Stuck(saved, id) && saved.rows[id] == s.rows[id];
      StuckThroughRelease(saved, r.id, r.token, id);
    }
  }

  /** Nothing but its deletion changes such a row: no action releases the claim, resumes it or gives it a runner. */
  lemma StuckStays(s: Service, a: Action, id: Id)
    requires Stuck(s, id) && !(a.Clear? && id in a.ids)
    ensures Stuck(Next(s, a), id) && Next(s, a).rows[id] == s.rows[id]
  {
    match a
    case Execute(_, _, _, _, _) => StuckThroughExecute(s, a, id);
    case QueuedJob(_, _, _, _, _) => StuckThroughQueuedJob(s, a, id);
    case Unconstrained(_, _, _) => StuckThroughUnconstrained(s, a, id);
    case Resume(_, _, _, _) => StuckThroughResume(s, a, id);
    case Transition(_) => StuckThroughStep(s, a, id);
    case StorageFails(_) => StuckThroughStep(s, a, id);
    case CutShort(_, _, _, _) => StuckThroughStep(s, a, id);
    case Finish(i, ending) => StuckThroughFinish(s, i, ending, id);
    case Abort(k) => StuckThroughAbort(s, k, id);
    case _ =>
  }

  lemma {:induction false} StuckForGood(s: Service, actions: seq<Action>, id: Id)
    requires Stuck(s, id) && forall i :: 0 <= i < |actions| ==> !(actions[i].Clear? && id in actions[i].ids)
    ensures Stuck(Perform(s, actions), id) && Perform(s, actions).rows[id] == s.rows[id]
    decreases |actions|
  {
    if actions != [] {
      StuckStays(s, actions[0], id);
      StuckForGood(Next(s, actions[0]), actions[1..], id);
    }
  }

  // ---------------------------------------------------------------- a live runner is in charge

  /**
   * Within one process a runner is never superseded: its transition is refused exactly when the row was aborted or
   * its writes are suppressed, and otherwise it is stored if the row is there and still running.
   */
  lemma TransitionRefusedIff(s: Service, i: nat)
    requires Inv(s) && i < |s.runners| && s.runners[i].script != []
    ensures var r, e := s.runners[i], s.runners[i].script[0];
      && (Refuses(s, r) <==> r.id in s.suppressed || AbortedAt(s, r.id))
      && (!Refuses(s, r) && r.id in s.rows && s.rows[r.id].status.Running? ==>
            ReportTransition(s, i).rows[r.id].stored == Persist(s.rows[r.id].stored, e))
  {
    assert RunnerFits(s, s.runners[i]);
    if s.runners[i].id in s.rows { assert RowFits(s.rows[s.runners[i].id]); }
  }
}
