/** How much one run of the interpreter can do (src/flows/FlowEngine.ts). */
module FlowBounds {
  import opened Strings
  import opened FlowEngine

  /** Steps that the shared tracker still admits. */
  function Room(t: Tracker): nat {
    if t.count >= MAX_STEPS then 0 else MAX_STEPS - t.count
  }

  /** No state of the tree is granted more than `k` attempts. */
  predicate AtMostAttempts(def: Definition, k: nat)
    decreases def, 1
  {
    forall i :: 0 <= i < |def.states| ==> StateAtMost(def.states[i].state, k)
  }

  predicate StateAtMost(state: State, k: nat)
    decreases state, 1
  {
    && MostAttempts(state.retry) <= k
    && match state.kind
       case Map(each) => AtMostAttempts(each, k)
       case Parallel(branches) => forall i :: 0 <= i < |branches| ==> AtMostAttempts(branches[i], k)
       case _ => true
  }

  predicate SubsAtMost(subs: seq<SubFlow>, k: nat) {
    forall i :: 0 <= i < |subs| ==> AtMostAttempts(subs[i].def, k)
  }

  lemma {:induction false} LookupAtMost(states: seq<Entry>, name: string, k: nat)
    requires Lookup(states, name).Some? && forall i :: 0 <= i < |states| ==> StateAtMost(states[i].state, k)
    ensures StateAtMost(Lookup(states, name).value, k)
  {
    assert StateAtMost(states[0].state, k);
    if states[0].name != name {
      forall i | 0 <= i < |states[1..]| ensures StateAtMost(states[1..][i].state, k) {
        assert StateAtMost(states[i + 1].state, k);
      }
      LookupAtMost(states[1..], name, k);
    }
  }

  /** From `t` to `t'`: steps started fit the room used up, and calls fit `k` per step plus `extra`. */
  predicate Spends(t: Tracker, t': Tracker, k: nat, extra: nat) {
    && t.steps <= t'.steps && t'.steps + Room(t') <= t.steps + Room(t)
    && t'.calls <= t.calls + extra + k * (t'.steps - t.steps)
  }

  lemma SpendsThen(a: Tracker, b: Tracker, c: Tracker, k: nat, x: nat, y: nat)
    requires Spends(a, b, k, x) && Spends(b, c, k, y)
    ensures Spends(a, c, k, x + y)
  {
    assert k * (c.steps - a.steps) == k * (b.steps - a.steps) + k * (c.steps - b.steps);
  }

  lemma {:induction false} RunSpends(w: World, def: Definition, f: Frame, t: Tracker, at: seq<nat>, k: nat)
    requires AtMostAttempts(def, k)
    ensures Spends(t, Run(w, def, f, t, at).tracker, k, 0)
    decreases Fuel(t), 1, 0, 0
  {
    if f.name != "" {
      StepSpends(w, def, f, t, at, k);
      var s := Step(w, def, f, t, at);
      if s.Continue? {
        RunSpends(w, def, s.frame, s.tracker, at, k);
        SpendsThen(t, s.tracker, Run(w, def, s.frame, s.tracker, at).tracker, k, 0, 0);
      }
    }
  }

  /** Counting a step pays for its first `k` calls. */
  lemma OneMoreStep(t: Tracker, started: Tracker, t': Tracker, k: nat)
    requires started == t.(count := t.count + 1, steps := t.steps + 1) && t.count < MAX_STEPS
        && Spends(started, t', k, k)
    ensures Spends(t, t', k, 0)
  {
    assert k * (t'.steps - t.steps) == k * (t'.steps - started.steps) + k;
  }

  lemma {:induction false} StepSpends(w: World, def: Definition, f: Frame, t: Tracker, at: seq<nat>, k: nat)
    requires f.name != "" && AtMostAttempts(def, k)
    ensures Spends(t, Step(w, def, f, t, at).tracker, k, 0)
    decreases Fuel(t), 0, 0, 0
  {
    var t1 := t.(count := t.count + 1);
    var found := Lookup(def.states, f.name);
    if f.stepCount + 1 <= MAX_STEPS && t1.count <= MAX_STEPS && found.Some? {
      LookupAtMost(def.states, f.name, k);
      var t2 := t1.(steps := t1.steps + 1);
      AttemptSpends(w, found.value, f.name, f.payload, f.counters, t2, at + [f.stepCount + 1], 0, k);
      var h := Attempt(w, found.value, f.name, f.payload, f.counters, t2, at + [f.stepCount + 1], 0);
      OneMoreStep(t, t2, h.tracker, k);
    }
  }

  lemma {:induction false} AttemptSpends(w: World, state: State, name: string, payload: Payload,
      counters: map<string, nat>, t: Tracker, at: seq<nat>, attempt: nat, k: nat)
    requires StateAtMost(state, k) && attempt < k
    ensures Spends(t, Attempt(w, state, name, payload, counters, t, at, attempt).tracker, k, k - attempt)
    decreases Fuel(t), 5, if attempt < MostAttempts(state.retry) then MostAttempts(state.retry) - attempt else 0, 0
  {
    var t1 := t.(calls := t.calls + 1);
    HandleSpends(w, state, name, payload, counters, t1, at + [attempt], k);
    var h := Handle(w, state, name, payload, counters, t1, at + [attempt]);
    assert Spends(t, h.tracker, k, 1);
    if Retries(state, h.reply, attempt) {
      RetriesWithinMost(state, h.reply, attempt);
      AttemptSpends(w, state, name, payload, h.counters, h.tracker, at, attempt + 1, k);
      var h' := Attempt(w, state, name, payload, h.counters, h.tracker, at, attempt + 1);
      SpendsThen(t, h.tracker, h'.tracker, k, 1, k - attempt - 1);
    }
  }

  lemma {:induction false} HandleSpends(w: World, state: State, name: string, payload: Payload,
      counters: map<string, nat>, t: Tracker, at: seq<nat>, k: nat)
    requires StateAtMost(state, k)
    ensures Spends(t, Handle(w, state, name, payload, counters, t, at).tracker, k, 0)
    decreases Fuel(t), 4, 0, 0
  {
    if state.kind.Map? || state.kind.Parallel? {
      RunAllSpends(w, SubFlows(w, state, payload), t, at, k);
    }
  }

  lemma {:induction false} RunAllSpends(w: World, subs: seq<SubFlow>, t: Tracker, at: seq<nat>, k: nat)
    requires SubsAtMost(subs, k)
    ensures Spends(t, RunAll(w, subs, t, at).tracker, k, 0)
    decreases Fuel(t), 3, |subs|, 0
  {
    if subs != [] {
      assert AtMostAttempts(subs[0].def, k);
      var f := Initial(subs[0].def, subs[0].input);
      RunSpends(w, subs[0].def, f, t, at + [|subs|], k);
      var r := Run(w, subs[0].def, f, t, at + [|subs|]);
      if r.outcome.Success? {
        assert SubsAtMost(subs[1..], k) by {
          forall i | 0 <= i < |subs[1..]| ensures AtMostAttempts(subs[1..][i].def, k) {
            assert AtMostAttempts(subs[i + 1].def, k);
          }
        }
        RunAllSpends(w, subs[1..], r.tracker, at, k);
        SpendsThen(t, r.tracker, RunAll(w, subs[1..], r.tracker, at).tracker, k, 0, 0);
      }
    }
  }

  /**
   * One execution, counting every step of every nested sub-flow, starts at most 500 steps and makes at most `k`
   * handler calls per step, where `k` is the most attempts that any state of the tree is granted.
   */
  lemma {:induction false} ExecutionIsBounded(w: World, def: Definition, input: Payload, k: nat)
    requires AtMostAttempts(def, k)
    ensures var t := Run(w, def, Initial(def, input), Begun(0), []).tracker;
      t.steps <= MAX_STEPS && t.calls <= k * MAX_STEPS
  {
    var start := Begun(0);
    RunSpends(w, def, Initial(def, input), start, [], k);
    WithinLimit(start, Run(w, def, Initial(def, input), start, []).tracker, k);
  }

  lemma WithinLimit(start: Tracker, t: Tracker, k: nat)
    requires start == Begun(0) && Spends(start, t, k, 0)
    ensures t.steps <= MAX_STEPS && t.calls <= k * MAX_STEPS
  {
    assert k * t.steps <= k * MAX_STEPS;
  }

  // ---------------------------------------------------------------- the log

  /** One step appends at most one entry, and only within the step limit. */
  lemma {:induction false} StepAppends(w: World, def: Definition, f: Frame, t: Tracker, at: seq<nat>)
    requires f.name != "" && |f.logs| <= f.stepCount
    ensures var s := Step(w, def, f, t, at);
      && f.logs <= s.frame.logs && |s.frame.logs| <= s.frame.stepCount
      && (|s.frame.logs| == |f.logs| || (|s.frame.logs| == |f.logs| + 1 && |s.frame.logs| <= MAX_STEPS))
      && (s.Continue? ==> s.event.stepLogs == s.frame.logs && |s.frame.logs| == |f.logs| + 1)
      && (s.Stop? ==> forall i :: 0 <= i < |s.events| ==> s.events[i].stepLogs == s.frame.logs)
  {
  }

  /** Every event carries a log that extends the one before it by an entry, within 500 and the steps it counts. */
  predicate Grows(before: seq<Log>, events: seq<Event>)
    decreases |events|
  {
    events == [] || (
      && before <= events[0].stepLogs && |events[0].stepLogs| == |before| + 1 && |events[0].stepLogs| <= MAX_STEPS
      && |events[0].stepLogs| <= events[0].checkpoint.stepCount
      && Grows(events[0].stepLogs, events[1..]))
  }

  /** The history that a run reports is append-only and never exceeds 500 entries. */
  lemma {:induction false} HistoryGrows(w: World, def: Definition, f: Frame, t: Tracker, at: seq<nat>)
    requires |f.logs| <= f.stepCount
    ensures var r := Run(w, def, f, t, at);
      && Grows(f.logs, r.events) && f.logs <= r.frame.logs
      && |r.frame.logs| == |f.logs| + |r.events|
      && (r.events != [] ==> r.frame.logs == r.events[|r.events| - 1].stepLogs)
    decreases Fuel(t)
  {
    if f.name != "" {
      StepAppends(w, def, f, t, at);
      var s := Step(w, def, f, t, at);
      if s.Continue? {
        HistoryGrows(w, def, s.frame, s.tracker, at);
        var rest := Run(w, def, s.frame, s.tracker, at).events;
        assert ([s.event] + rest)[1..] == rest;
      } else if s.events != [] {
        assert s.events[1..] == [];
      }
    }
  }
}
