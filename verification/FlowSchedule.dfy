/**
 * The step budget when sub-flows run side by side (src/flows/FlowEngine.ts, src/flows/runtime/StateHandlers.ts): the
 * branches of a Parallel state and the items of a Map are separate loops over one shared tracker, advance in any
 * order, and go on after a sibling has failed and its parent has been answered.
 */
module FlowSchedule {
  import opened Strings
  import opened FlowEngine
  import opened FlowBounds

  /** Where one loop stands: before its next turn, waiting for the given call of its handler, or ended. */
  datatype Phase = AtTop | Calling(state: State, attempt: nat) | Ended

  /** One call of execute: the flow itself or a sub-flow at any depth. */
  datatype Activity = Activity(def: Definition, frame: Frame, phase: Phase)

  datatype Pool = Pool(tracker: Tracker, activities: seq<Activity>)

  /**
   * What happens next, each without an await in it: a loop takes its next turn, a handler starts one of its sub-flows,
   * or a handler's promise is settled, by any answer at all, whether or not its sub-flows have ended.
   */
  datatype Action =
    | Turn(i: nat)
    | Start(i: nat, sub: SubFlow)
    | Settle(i: nat, reply: Reply, counters: map<string, nat>)

  function Alone(def: Definition, input: Payload): Pool {
    Pool(Begun(0), [Activity(def, Initial(def, input), AtTop)])
  }

  function Perform(w: World, p: Pool, a: Action): Pool {
    if a.i >= |p.activities| then p
    else
      var me := p.activities[a.i];
      match a
      case Turn(i) =>
        if !me.phase.AtTop? then p
        else
          var (phase, frame, tracker) := TakeTurn(me, p.tracker);
          Pool(tracker, p.activities[i := me.(phase := phase, frame := frame)])
      case Start(_, sub) =>
        if !me.phase.Calling? || sub !in SubFlows(w, me.phase.state, me.frame.payload) then p
        else p.(activities := p.activities + [Activity(sub.def, Initial(sub.def, sub.input), AtTop)])
      case Settle(i, reply, counters) =>
        if !me.phase.Calling? then p
        else
          var (phase, frame, tracker) := TakeReply(w, me, reply, counters, p.tracker);
          Pool(tracker, p.activities[i := me.(phase := phase, frame := frame)])
  }

  /** The top of the loop, up to the call of the handler. */
  function TakeTurn(me: Activity, t: Tracker): (Phase, Frame, Tracker) {
    if me.frame.name == "" then (Ended, me.frame, t)
    else
      var f1, t1 := me.frame.(stepCount := me.frame.stepCount + 1), t.(count := t.count + 1);
      if f1.stepCount > MAX_STEPS || t1.count > MAX_STEPS then (Ended, f1, t1)
      else
        var found := Lookup(me.def.states, f1.name);
        if found.None? then (Ended, f1, t1.(missing := t1.missing + [Missing(f1.name, ScopeOf(me.def))]))
        else (Calling(found.value, 0), f1, t1.(steps := t1.steps + 1, calls := t1.calls + 1))
  }

  /** What a reply leads to: another attempt, the next turn, or the end. */
  function TakeReply(w: World, me: Activity, reply: Reply, counters: map<string, nat>, t: Tracker)
    : (Phase, Frame, Tracker)
    requires me.phase.Calling?
  {
    var state, attempt := me.phase.state, me.phase.attempt;
    if Retries(state, reply, attempt) then (Calling(state, attempt + 1), me.frame, t.(calls := t.calls + 1))
    else
      match Conclude(w, state, me.frame, HandlerResult(reply, counters, t))
      case Stop(_, frame, _, _) => (Ended, frame, t)
      case Continue(frame, _, _) => (AtTop, frame, t)
  }

  function PerformAll(w: World, p: Pool, actions: seq<Action>): Pool
    decreases |actions|
  {
    if actions == [] then p else PerformAll(w, Perform(w, p, actions[0]), actions[1..])
  }

  // ---------------------------------------------------------------- the bound

  /** The calls that a loop may still make in the step it is in. */
  function Owed(me: Activity, k: nat): nat {
    if me.phase.Calling? && me.phase.attempt < k then k - me.phase.attempt - 1 else 0
  }

  function AllOwed(activities: seq<Activity>, k: nat): nat {
    if activities == [] then 0 else Owed(activities[0], k) + AllOwed(activities[1..], k)
  }

  lemma {:induction false} OwedAfterUpdate(activities: seq<Activity>, i: nat, me: Activity, k: nat)
    requires i < |activities|
    ensures AllOwed(activities[i := me], k) == AllOwed(activities, k) - Owed(activities[i], k) + Owed(me, k)
    decreases i
  {
    if i > 0 {
      assert activities[i := me][1..] == activities[1..][i - 1 := me];
      OwedAfterUpdate(activities[1..], i - 1, me, k);
    } else {
      assert activities[i := me][1..] == activities[1..];
    }
  }

  lemma {:induction false} OwedAfterAppend(activities: seq<Activity>, me: Activity, k: nat)
    ensures AllOwed(activities + [me], k) == AllOwed(activities, k) + Owed(me, k)
  {
    if activities == [] {
      assert ([] + [me])[1..] == [];
    } else {
      assert (activities + [me])[1..] == activities[1..] + [me];
      OwedAfterAppend(activities[1..], me, k);
    }
  }

  predicate Granted(me: Activity, k: nat) {
    && AtMostAttempts(me.def, k)
    && (me.phase.Calling? ==> StateAtMost(me.phase.state, k) && me.phase.attempt < k)
  }

  /** Steps are covered by the shared count, and calls, made and still owed, by the steps. */
  predicate WithinBudget(p: Pool, k: nat) {
    && 0 <= p.tracker.steps <= p.tracker.count && p.tracker.steps <= MAX_STEPS
    && p.tracker.calls + AllOwed(p.activities, k) <= k * p.tracker.steps
    && forall i :: 0 <= i < |p.activities| ==> Granted(p.activities[i], k)
  }

  /** One loop's move: it pays for its calls, made and owed, from the steps it starts. */
  predicate Pays(me: Activity, t: Tracker, me': Activity, t': Tracker, k: nat) {
    && Granted(me', k)
    && t.steps <= t'.steps && t'.steps - t.steps <= t'.count - t.count && (t'.steps > t.steps ==> t'.count <= MAX_STEPS)
    && t'.calls + Owed(me', k) <= t.calls + Owed(me, k) + k * (t'.steps - t.steps)
  }

  lemma MoveKeeps(p: Pool, i: nat, me: Activity, t: Tracker, k: nat)
    requires WithinBudget(p, k) && i < |p.activities| && Pays(p.activities[i], p.tracker, me, t, k)
    ensures WithinBudget(Pool(t, p.activities[i := me]), k)
  {
    var after := p.activities[i := me];
    OwedAfterUpdate(p.activities, i, me, k);
    PaidBy(k, p.tracker.calls + AllOwed(p.activities, k), t.calls + AllOwed(after, k), p.tracker.steps, t.steps);
    forall j | 0 <= j < |after| ensures Granted(after[j], k) {
      assert Granted(p.activities[j], k);
    }
  }

  lemma PaidBy(k: nat, due: int, due': int, steps: int, steps': int)
    requires due <= k * steps && due' <= due + k * (steps' - steps)
    ensures due' <= k * steps'
  {
    assert k * steps + k * (steps' - steps) == k * steps';
  }

  lemma TurnPays(me: Activity, t: Tracker, k: nat)
    requires Granted(me, k) && me.phase.AtTop?
    ensures var (phase, frame, t') := TakeTurn(me, t); Pays(me, t, me.(phase := phase, frame := frame), t', k)
  {
    var found := Lookup(me.def.states, me.frame.name);
    if found.Some? {
      LookupAtMost(me.def.states, me.frame.name, k);
    }
  }

  lemma {:induction false} StartKeeps(w: World, p: Pool, i: nat, sub: SubFlow, k: nat)
    requires WithinBudget(p, k) && i < |p.activities|
    ensures WithinBudget(Perform(w, p, Start(i, sub)), k)
  {
    var me := p.activities[i];
    assert Granted(me, k);
    if me.phase.Calling? && sub in SubFlows(w, me.phase.state, me.frame.payload) {
      var started := Activity(sub.def, Initial(sub.def, sub.input), AtTop);
      assert Granted(started, k);
      OwedAfterAppend(p.activities, started, k);
    }
  }

  lemma ReplyPays(w: World, me: Activity, reply: Reply, counters: map<string, nat>, t: Tracker, k: nat)
    requires Granted(me, k) && me.phase.Calling?
    ensures var (phase, frame, t') := TakeReply(w, me, reply, counters, t);
      Pays(me, t, me.(phase := phase, frame := frame), t', k)
  {
    if Retries(me.phase.state, reply, me.phase.attempt) {
      RetriesWithinMost(me.phase.state, reply, me.phase.attempt);
    }
  }

  lemma PerformKeeps(w: World, p: Pool, a: Action, k: nat)
    requires WithinBudget(p, k) && a.i < |p.activities|
    ensures WithinBudget(Perform(w, p, a), k)
  {
    var me := p.activities[a.i];
    assert Granted(me, k);
    match a
    case Turn(i) =>
      if me.phase.AtTop? {
        TurnPays(me, p.tracker, k);
        var (phase, frame, t) := TakeTurn(me, p.tracker);
        MoveKeeps(p, i, me.(phase := phase, frame := frame), t, k);
      }
    case Start(i, sub) => StartKeeps(w, p, i, sub, k);
    case Settle(i, reply, counters) =>
      if me.phase.Calling? {
        ReplyPays(w, me, reply, counters, p.tracker, k);
        var (phase, frame, t) := TakeReply(w, me, reply, counters, p.tracker);
        MoveKeeps(p, i, me.(phase := phase, frame := frame), t, k);
      }
  }

  lemma {:induction false} PerformAllKeeps(w: World, p: Pool, actions: seq<Action>, k: nat)
    requires WithinBudget(p, k)
    ensures WithinBudget(PerformAll(w, p, actions), k)
    decreases |actions|
  {
    if actions != [] {
      var a := actions[0];
      if a.i < |p.activities| {
        PerformKeeps(w, p, a, k);
      }
      PerformAllKeeps(w, Perform(w, p, a), actions[1..], k);
    }
  }

  /**
   * In whatever order the loops of the tree advance and whatever their handlers answer, one execution starts at most
   * 500 steps, nested sub-flows included, and makes at most `k` handler calls per step.
   */
  lemma InterleavedIsBounded(w: World, def: Definition, input: Payload, actions: seq<Action>, k: nat)
    requires AtMostAttempts(def, k)
    ensures var t := PerformAll(w, Alone(def, input), actions).tracker;
      t.steps <= MAX_STEPS && t.calls <= k * MAX_STEPS
  {
    var p := Alone(def, input);
    assert Granted(p.activities[0], k);
    assert p.activities[1..] == [];
    PerformAllKeeps(w, p, actions, k);
    var t := PerformAll(w, p, actions).tracker;
    assert t.calls <= k * t.steps <= k * MAX_STEPS;
  }
}
