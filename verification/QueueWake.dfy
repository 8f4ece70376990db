/**
 * How src/queue/QueueService.ts coalesces wakes and drains: two sets of queue names, callbacks waiting in
 * `setImmediate`, and drains suspended at an await. Each stretch between awaits is one action.
 */
module QueueWake {
  import opened Strings

  type Queue = string

  /**
   * `scheduled` holds a queue once per callback that has not fired, `drains` once per drain that has started and not
   * finished. `owed` remembers the queues woken since their last drain started.
   */
  datatype Coordinator = Coordinator(
    pendingWake: set<Queue>,
    drainingQueues: set<Queue>,
    isDisposed: bool,
    scheduled: multiset<Queue>,
    drains: multiset<Queue>,
    owed: set<Queue>)

  /** `available` is the answer of the database when the callback asks for it. */
  datatype Action =
    | Wake(queue: Queue)
    | Fire(queue: Queue, available: bool)
    | DrainFinishes(queue: Queue)
    | Delete(queue: Queue)
    | Reset
    | Dispose
    | Start

  function Idle(): Coordinator {
    Coordinator({}, {}, false, multiset{}, multiset{}, {})
  }

  /** wakeWorker */
  function WakeWorker(s: Coordinator, q: Queue): Coordinator {
    if s.isDisposed then s
    else if q in s.pendingWake then s.(owed := s.owed + {q})
    else s.(pendingWake := s.pendingWake + {q}, scheduled := s.scheduled + multiset{q}, owed := s.owed + {q})
  }

  /** drainQueue up to its first await. */
  function StartDrain(s: Coordinator, q: Queue): Coordinator {
    if s.isDisposed then s
    else if q in s.drainingQueues then s.(pendingWake := s.pendingWake + {q})
    else s.(drainingQueues := s.drainingQueues + {q}, drains := s.drains + multiset{q}, owed := s.owed - {q})
  }

  /** The callback that wakeWorker hands to setImmediate. */
  function FireCallback(s: Coordinator, q: Queue, available: bool): Coordinator {
    if s.scheduled[q] == 0 then s
    else
      var fired := s.(scheduled := s.scheduled - multiset{q}, pendingWake := s.pendingWake - {q});
      if s.isDisposed || !available then fired else StartDrain(fired, q)
  }

  /** The `finally` of drainQueue. */
  function FinishDrain(s: Coordinator, q: Queue): Coordinator {
    if s.drains[q] == 0 then s
    else
      var ended := s.(drains := s.drains - multiset{q}, drainingQueues := s.drainingQueues - {q});
      if q in s.pendingWake && !s.isDisposed then WakeWorker(ended.(pendingWake := s.pendingWake - {q}), q) else ended
  }

  function Next(s: Coordinator, a: Action): Coordinator {
    match a
    case Wake(q) => WakeWorker(s, q)
    case Fire(q, available) => FireCallback(s, q, available)
    case DrainFinishes(q) => FinishDrain(s, q)
    case Delete(q) => s.(pendingWake := s.pendingWake - {q}, drainingQueues := s.drainingQueues - {q})
    case Reset => s.(isDisposed := false, pendingWake := {}, drainingQueues := {})
    case Dispose => s.(isDisposed := true, pendingWake := {}, drainingQueues := {})
    case Start => s.(isDisposed := false)
  }

  function Perform(s: Coordinator, actions: seq<Action>): Coordinator
    decreases |actions|
  {
    if actions == [] then s else Perform(Next(s, actions[0]), actions[1..])
  }

  // ---------------------------------------------------------------- a flag always has somebody to clear it

  predicate FlagBacked(s: Coordinator, q: Queue) {
    q in s.pendingWake ==> s.scheduled[q] > 0 || s.drains[q] > 0
  }

  ghost predicate Inv(s: Coordinator) {
    && (s.isDisposed ==> s.pendingWake == {} && s.drainingQueues == {})
    && (forall q :: q in s.drainingQueues ==> s.drains[q] > 0)
    && (forall q :: FlagBacked(s, q))
  }

  lemma NextKeeps(s: Coordinator, a: Action)
    requires Inv(s)
    ensures Inv(Next(s, a))
  {
    var s' := Next(s, a);
    forall q ensures FlagBacked(s', q) && (q in s'.drainingQueues ==> s'.drains[q] > 0) {
      assert FlagBacked(s, q) && (q in s.drainingQueues ==> s.drains[q] > 0);
    }
  }

  /**
   * In every reachable interleaving, deletions, resets and disposals included, a set flag has a callback or a drain.
   */
  lemma {:induction false} FlagsAreBacked(s: Coordinator, actions: seq<Action>)
    requires Inv(s)
    ensures Inv(Perform(s, actions))
    decreases |actions|
  {
    if actions != [] {
      NextKeeps(s, actions[0]);
      FlagsAreBacked(Next(s, actions[0]), actions[1..]);
    }
  }

  /** And whichever of the two comes first takes the flag away or hands it on to a callback. */
  lemma FlagIsCleared(s: Coordinator, q: Queue, available: bool)
    requires Inv(s) && q in s.pendingWake
    ensures s.scheduled[q] > 0 ==>
      var s' := FireCallback(s, q, available); q !in s'.pendingWake || s'.drains[q] > 0
    ensures s.drains[q] > 0 ==> FinishDrain(s, q).scheduled[q] == s.scheduled[q] + 1
  {
  }

  // ---------------------------------------------------------------- no wake is lost

  /** A callback is scheduled, or a running drain will look again. */
  predicate Served(s: Coordinator, q: Queue) {
    s.scheduled[q] > 0 || (s.drains[q] > 0 && q in s.pendingWake)
  }

  /**
   * The actions that forget a wake: a callback that finds no database, and clearing a flag that only a drain would see.
   */
  predicate Forgets(s: Coordinator, a: Action, q: Queue) {
    match a
    case Fire(k, available) => k == q && s.scheduled[q] == 1 && (s.isDisposed || !available)
    case Delete(k) => k == q && s.scheduled[q] == 0
    case Reset => s.scheduled[q] == 0
    case Dispose => s.scheduled[q] == 0
    case _ => false
  }

  /** One action loses the wake of a served queue if and only if it is one of those. */
  lemma WakeLostIff(s: Coordinator, a: Action, q: Queue)
    requires Inv(s) && q in s.owed && Served(s, q)
    ensures q in Next(s, a).owed && !Served(Next(s, a), q) <==> Forgets(s, a, q)
  {
    match a
    case Wake(k) =>
    case Fire(k, available) => FireLosesIff(s, k, available, q);
    case DrainFinishes(k) => FinishLosesNothing(s, k, q);
    case _ =>
  }

  lemma FireLosesIff(s: Coordinator, k: Queue, available: bool, q: Queue)
    requires Inv(s) && q in s.owed && Served(s, q)
    ensures var s' := FireCallback(s, k, available);
      q in s'.owed && !Served(s', q) <==> k == q && s.scheduled[q] == 1 && (s.isDisposed || !available)
  {
    if k == q && s.scheduled[k] > 0 {
      assert FireCallback(s, k, available).scheduled[q] == s.scheduled[q] - 1;
    }
  }

  lemma FinishLosesNothing(s: Coordinator, k: Queue, q: Queue)
    requires Inv(s) && q in s.owed && Served(s, q)
    ensures Served(FinishDrain(s, k), q)
  {
  }

  predicate Undisturbed(a: Action) {
    match a
    case Fire(_, available) => available
    case Delete(_) => false
    case Reset => false
    case Dispose => false
    case _ => true
  }

  predicate OwedAreServed(s: Coordinator) {
    forall q :: q in s.owed ==> Served(s, q)
  }

  /** With no deletion, reset, disposal or locked database, a queue woken since its last drain start is still served. */
  lemma {:induction false} NoWakeIsLost(s: Coordinator, actions: seq<Action>)
    requires Inv(s) && !s.isDisposed && OwedAreServed(s)
    requires forall i :: 0 <= i < |actions| ==> Undisturbed(actions[i])
    ensures OwedAreServed(Perform(s, actions)) && !Perform(s, actions).isDisposed
    decreases |actions|
  {
    if actions != [] {
      var a := actions[0];
      NextKeeps(s, a);
      forall q | q in Next(s, a).owed ensures Served(Next(s, a), q) {
        assert FlagBacked(s, q) && Undisturbed(a);
        if q in s.owed { assert Served(s, q); WakeLostIff(s, a, q); }
      }
      NoWakeIsLost(Next(s, a), actions[1..]);
    }
  }

  // ---------------------------------------------------------------- quiescence

  /** Callbacks and drains of one queue: nothing but a wake adds to them. */
  function Load(s: Coordinator, q: Queue): nat {
    s.scheduled[q] + s.drains[q]
  }

  function Phase(s: Coordinator, q: Queue): nat {
    if q in s.pendingWake then Load(s, q) + 1 + s.drains[q] else s.scheduled[q]
  }

  /** What the queue can still do by itself. */
  function Work(s: Coordinator, q: Queue): nat {
    Load(s, q) * (Load(s, q) + 1) + Phase(s, q)
  }

  predicate Turns(s: Coordinator, a: Action, q: Queue) {
    (a.Fire? && a.queue == q && s.scheduled[q] > 0) || (a == DrainFinishes(q) && s.drains[q] > 0)
  }

  /** A turn lowers the phase at the same load, or the load. */
  lemma TurnLowers(s: Coordinator, a: Action, q: Queue)
    requires Inv(s) && Turns(s, a, q)
    ensures var s' := Next(s, a);
      || (Load(s', q) == Load(s, q) && Phase(s', q) < Phase(s, q))
      || (Load(s', q) == Load(s, q) - 1 && Phase(s', q) <= 2 * Load(s', q) + 1)
  {
    assert FlagBacked(s, q);
  }

  lemma LowerLoad(n: nat, p: nat, p': nat)
    requires n > 0 && p' <= 2 * n - 1
    ensures (n - 1) * n + p' < n * (n + 1) + p
  {
    assert n * (n + 1) == (n - 1) * n + 2 * n;
  }

  /**
   * Every callback that fires and every drain that finishes leaves the queue with less to do, in every reachable state.
   */
  lemma WorkDecreases(s: Coordinator, a: Action, q: Queue)
    requires Inv(s) && Turns(s, a, q)
    ensures Work(Next(s, a), q) < Work(s, q)
  {
    TurnLowers(s, a, q);
    if Load(Next(s, a), q) < Load(s, q) {
      LowerLoad(Load(s, q), Phase(s, q), Phase(Next(s, a), q));
    }
  }

  lemma WorkKept(s: Coordinator, a: Action, q: Queue)
    requires Inv(s) && !Turns(s, a, q) && a != Wake(q)
    ensures Work(Next(s, a), q) <= Work(s, q)
  {
  }

  function TurnsTaken(s: Coordinator, actions: seq<Action>, q: Queue): nat
    decreases |actions|
  {
    if actions == [] then 0
    else (if Turns(s, actions[0], q) then 1 else 0) + TurnsTaken(Next(s, actions[0]), actions[1..], q)
  }

  /** Without new wakes of a queue, whatever else happens, its callbacks and drains stop after finitely many turns. */
  lemma {:induction false} BurstsEnd(s: Coordinator, actions: seq<Action>, q: Queue)
    requires Inv(s) && forall i :: 0 <= i < |actions| ==> actions[i] != Wake(q)
    ensures TurnsTaken(s, actions, q) + Work(Perform(s, actions), q) <= Work(s, q)
    decreases |actions|
  {
    if actions != [] {
      NextKeeps(s, actions[0]);
      if Turns(s, actions[0], q) {
        WorkDecreases(s, actions[0], q);
      } else {
        WorkKept(s, actions[0], q);
      }
      BurstsEnd(Next(s, actions[0]), actions[1..], q);
    }
  }

  /** As long as drains do not overlap, three turns per callback and four or two per drain bound the turns to come. */
  function Tokens(s: Coordinator, q: Queue): nat {
    3 * s.scheduled[q] + (if q !in s.drainingQueues then 0 else if q in s.pendingWake then 4 else 2)
  }

  predicate Single(s: Coordinator, q: Queue) {
    s.drains[q] == if q in s.drainingQueues then 1 else 0
  }

  lemma TokensDecrease(s: Coordinator, a: Action, q: Queue)
    requires Inv(s) && Single(s, q) && Turns(s, a, q)
    ensures Single(Next(s, a), q) && Tokens(Next(s, a), q) < Tokens(s, q)
  {
  }

  /** Once nothing of a queue is scheduled or running, no wake of it is outstanding. */
  lemma QuiescentOwesNothing(s: Coordinator, actions: seq<Action>, q: Queue)
    requires Inv(s) && !s.isDisposed && OwedAreServed(s)
    requires forall i :: 0 <= i < |actions| ==> Undisturbed(actions[i])
    ensures Work(Perform(s, actions), q) == 0 ==> q !in Perform(s, actions).owed
    ensures q in Perform(s, actions).owed ==> Work(Perform(s, actions), q) > 0
  {
    NoWakeIsLost(s, actions);
    NoWorkIsIdle(Perform(s, actions), q);
  }

  lemma NoWorkIsIdle(s: Coordinator, q: Queue)
    ensures Work(s, q) == 0 ==> s.scheduled[q] == 0 && s.drains[q] == 0
  {
    var n := Load(s, q);
    assert n > 0 ==> n * (n + 1) > 0;
  }

  // ---------------------------------------------------------------- the delayed timer

  /** Whether a timer is armed, and the remembered target, which a disposal leaves behind. */
  datatype Timer = Timer(armed: bool, target: Option<int>)

  /** scheduleDelayedAt, on a service that is not disposed. */
  function ScheduleAt(t: Timer, target: int): Timer {
    if t.target.Some? && t.target.value <= target && t.armed then t else Timer(true, Some(target))
  }

  function ScheduleAll(t: Timer, targets: seq<int>): Timer
    decreases |targets|
  {
    if targets == [] then t else ScheduleAll(ScheduleAt(t, targets[0]), targets[1..])
  }

  /** Between two firings the timer is armed for the earliest of all requested targets, and for no other. */
  lemma {:induction false} EarliestTargetWins(t: Timer, targets: seq<int>)
    requires t.armed ==> t.target.Some?
    requires t.armed || targets != []
    ensures var t' := ScheduleAll(t, targets);
      && t'.armed && t'.target.Some?
      && (forall i :: 0 <= i < |targets| ==> t'.target.value <= targets[i])
      && (t.armed ==> t'.target.value <= t.target.value)
      && (t'.target.value in targets || (t.armed && t'.target == t.target))
    decreases |targets|
  {
    if targets != [] {
      EarliestTargetWins(ScheduleAt(t, targets[0]), targets[1..]);
      forall i | 0 <= i < |targets| ensures ScheduleAll(t, targets).target.value <= targets[i] {
        if i > 0 { assert targets[i] == targets[1..][i - 1]; }
      }
    }
  }
}
