/**
 The durable queue of runtime operations: first in, first out for each runtime, taken in
 rotation by a cursor, and recovered after a crash (src/fleet.rs `enqueue_operation`,
 `tick`, `recover_operations`). Rows addressed to the local runtime are served elsewhere
 and never share a runtime with these, so the queue holds remote rows only.
 */
module FleetQueue {
  import opened Options

  datatype Kind = Reconcile | Update | SkillsUpdate | Lifecycle

  datatype OpState = Pending | Waiting | Running | Succeeded | Failed | Uncertain

  datatype Op = Op(id: string, runtime: string, kind: Kind, args: string, state: OpState)

  /** Row `i` has rowid `i + 1`; `current` is the row whose operation is in flight, and `advanced`
      says whether its tick has moved the cursor yet. */
  datatype Queue = Queue(ops: seq<Op>, cursor: nat, paused: bool, current: Option<nat>, advanced: bool)

  const EMPTY := Queue([], 0, false, None, false)

  datatype Action =
    | Enqueue(id: string, runtime: string, kind: Kind, args: string)
    | Mark
    | Advance
    | Settle(outcome: OpState)
    | Crash
    | Pause(on: bool)

  predicate Live(state: OpState) {
    state.Pending? || state.Waiting?
  }

  predicate Settled(state: OpState) {
    state.Succeeded? || state.Failed? || state.Uncertain?
  }

  /** The WHERE clause of the tick's query. */
  predicate Eligible(q: Queue, i: nat) {
    && i < |q.ops|
    && Live(q.ops[i].state)
    && !(q.paused && q.ops[i].kind.Update?)
    && (q.ops[i].kind.Reconcile? ||
        forall j :: 0 <= j < i && q.ops[j].runtime == q.ops[i].runtime ==> Settled(q.ops[j].state))
  }

  /** What the query is for: a row not settled and not in flight, that is not a paused update, and
      that either reconciles or is the first of its runtime not to be settled. */
  ghost predicate MayBeTaken(q: Queue, i: nat) {
    && i < |q.ops|
    && (q.ops[i].state == Pending || q.ops[i].state == Waiting)
    && (q.ops[i].kind == Update ==> !q.paused)
    && (q.ops[i].kind == Reconcile ||
        forall j :: 0 <= j < i && q.ops[j].runtime == q.ops[i].runtime ==>
          q.ops[j].state == Succeeded || q.ops[j].state == Failed || q.ops[j].state == Uncertain)
  }

  lemma EligibleIff(q: Queue, i: nat)
    ensures Eligible(q, i) <==> MayBeTaken(q, i)
  {
  }

  /** The ORDER BY clause: rows past the cursor first, then by rowid. */
  predicate Before(cursor: nat, i: nat, j: nat) {
    var fi, fj := i + 1 > cursor, j + 1 > cursor;
    if fi == fj then i < j else fi
  }

  ghost predicate Next(q: Queue, i: nat) {
    && Eligible(q, i)
    && forall j :: 0 <= j < |q.ops| && Eligible(q, j) && j != i ==> Before(q.cursor, i, j)
  }

  lemma NextIsUnique(q: Queue, i: nat, j: nat)
    requires Next(q, i) && Next(q, j)
    ensures i == j
  {
  }

  function WithState(ops: seq<Op>, i: nat, state: OpState): seq<Op>
    requires i < |ops|
  {
    ops[i := ops[i].(state := state)]
  }

  function Recovered(op: Op): Op {
    if !op.state.Running? then op
    else op.(state := if op.kind.SkillsUpdate? then Waiting else Uncertain)
  }

  function Find(ops: seq<Op>, id: string): Option<nat> {
    if ops == [] then None
    else match Find(ops[..|ops| - 1], id)
      case Some(i) => Some(i)
      case None => if ops[|ops| - 1].id == id then Some(|ops| - 1) else None
  }

  /** The search finds the first row of that id. */
  lemma {:induction false} FindIsFirst(ops: seq<Op>, id: string)
    ensures Find(ops, id) == None <==> forall i :: 0 <= i < |ops| ==> ops[i].id != id
    ensures Find(ops, id).Some? ==>
              var i := Find(ops, id).value;
              i < |ops| && ops[i].id == id && forall j :: 0 <= j < i ==> ops[j].id != id
  {
    if ops == [] {
    } else {
      FindIsFirst(ops[..|ops| - 1], id);
    }
  }

  /** Row `i` is marked as running. */
  function Marked(q: Queue, i: nat): Queue
    requires i < |q.ops|
  {
    q.(ops := WithState(q.ops, i, Running), current := Some(i), advanced := false)
  }

  /** One step of the queue. `Mark` leaves everything as it was when nothing is eligible. */
  ghost predicate Step(q: Queue, a: Action, after: Queue) {
    match a
    case Enqueue(id, runtime, kind, args) =>
      after == if Find(q.ops, id).Some? then q
               else q.(ops := q.ops + [Op(id, runtime, kind, args, Pending)])
    case Mark =>
      if q.current.Some? || forall i: nat :: i < |q.ops| ==> !Eligible(q, i) then after == q
      else exists i :: 0 <= i < |q.ops| && Next(q, i) && after == Marked(q, i)
    case Advance =>
      after == if q.current.Some? && !q.advanced then q.(cursor := q.current.value + 1, advanced := true) else q
    case Settle(outcome) =>
      if q.current.None? || !q.advanced || q.current.value >= |q.ops| || outcome.Pending? || outcome.Running?
      then after == q
      else after == q.(
             ops := WithState(q.ops, q.current.value, outcome), current := None,
             paused := q.paused || (q.ops[q.current.value].kind.Update? && (outcome.Failed? || outcome.Uncertain?)))
    case Crash =>
      after == q.(
        ops := seq(|q.ops|, i requires 0 <= i < |q.ops| => Recovered(q.ops[i])), current := None,
        paused := q.paused || exists i :: 0 <= i < |q.ops| && q.ops[i].state.Running? && q.ops[i].kind.Update?)
    case Pause(on) => after == q.(paused := on)
  }

  ghost predicate IsRun(run: seq<Queue>, actions: seq<Action>) {
    && |run| == |actions| + 1
    && run[0] == EMPTY
    && forall i {:trigger actions[i]} :: 0 <= i < |actions| ==> Step(run[i], actions[i], run[i + 1])
  }

  /** The query's order leaves the queue no choice. */
  lemma StepIsDeterministic(q: Queue, a: Action, t: Queue, u: Queue)
    requires Step(q, a, t) && Step(q, a, u)
    ensures t == u
  {
    if a.Mark? && t != q && u != q {
      var i :| 0 <= i < |q.ops| && Next(q, i) && t == Marked(q, i);
      var j :| 0 <= j < |q.ops| && Next(q, j) && u == Marked(q, j);
      NextIsUnique(q, i, j);
    }
  }

  // ---------------------------------------------------------------- order and recovery

  predicate HasStarted(op: Op) {
    !op.state.Pending? && !op.kind.Reconcile?
  }

  /** An operation that has ever started, unless it reconciles, has every earlier operation
      of its runtime settled; and only the current operation is running. */
  ghost predicate InOrder(q: Queue) {
    && q.cursor <= |q.ops|
    && (q.current.Some? ==> q.current.value < |q.ops|)
    && (forall i :: 0 <= i < |q.ops| ==> (q.ops[i].state.Running? <==> q.current == Some(i)))
    && (forall i, j ::
          0 <= j < i < |q.ops| && q.ops[j].runtime == q.ops[i].runtime && HasStarted(q.ops[i]) ==>
            Settled(q.ops[j].state))
  }

  /** What a step does to the rows there were: kinds and runtimes stay, settled rows stay whole. */
  ghost predicate Carries(ops: seq<Op>, after: seq<Op>) {
    && |ops| <= |after|
    && forall i :: 0 <= i < |ops| ==>
         after[i].kind == ops[i].kind && after[i].runtime == ops[i].runtime
         && (Settled(ops[i].state) ==> after[i] == ops[i])
  }

  lemma MarkKeepsOrder(q: Queue, i: nat)
    requires InOrder(q) && Next(q, i) && i < |q.ops| && q.current.None?
    ensures InOrder(Marked(q, i)) && Carries(q.ops, Marked(q, i).ops)
  {
  }

  lemma SettleKeepsOrder(q: Queue, outcome: OpState, paused: bool)
    requires InOrder(q) && q.current.Some? && !outcome.Pending? && !outcome.Running?
    ensures var after := q.(ops := WithState(q.ops, q.current.value, outcome), current := None, paused := paused);
            InOrder(after) && Carries(q.ops, after.ops)
  {
  }

  lemma CrashKeepsOrder(q: Queue, after: Queue)
    requires InOrder(q) && Step(q, Crash, after)
    ensures InOrder(after) && Carries(q.ops, after.ops)
  {
  }

  lemma StepKeepsOrder(q: Queue, a: Action, after: Queue)
    requires InOrder(q) && Step(q, a, after)
    ensures InOrder(after) && Carries(q.ops, after.ops)
  {
    match a
    case Enqueue(_, _, _, _) =>
    case Mark =>
      if after != q {
        var i :| 0 <= i < |q.ops| && Next(q, i) && after == Marked(q, i);
        MarkKeepsOrder(q, i);
      }
    case Advance =>
    case Settle(outcome) => if after != q { SettleKeepsOrder(q, outcome, after.paused); }
    case Crash => CrashKeepsOrder(q, after);
    case Pause(_) =>
  }

  lemma {:induction false} RunsKeepOrder(run: seq<Queue>, actions: seq<Action>, k: nat)
    requires IsRun(run, actions) && k <= |actions|
    ensures InOrder(run[k])
  {
    if k == 0 {
    } else {
      RunsKeepOrder(run, actions, k - 1);
      StepKeepsOrder(run[k - 1], actions[k - 1], run[k]);
    }
  }

  /** In every state of every run, a running or once-started operation that does not reconcile
      has every earlier operation of its runtime out of pending, waiting and running. */
  lemma FirstInFirstOut(run: seq<Queue>, actions: seq<Action>, k: nat, i: nat, j: nat)
    requires IsRun(run, actions) && k <= |actions|
    requires j < i < |run[k].ops| && run[k].ops[j].runtime == run[k].ops[i].runtime
    requires !run[k].ops[i].state.Pending? && !run[k].ops[i].kind.Reconcile?
    ensures var state := run[k].ops[j].state; state.Succeeded? || state.Failed? || state.Uncertain?
  {
    RunsKeepOrder(run, actions, k);
  }

  lemma {:induction false} SettledStays(run: seq<Queue>, actions: seq<Action>, k: nat, m: nat, i: nat)
    requires IsRun(run, actions) && k <= m <= |actions|
    requires i < |run[k].ops|
    requires var state := run[k].ops[i].state; state.Succeeded? || state.Failed? || state.Uncertain?
    ensures i < |run[m].ops| && run[m].ops[i] == run[k].ops[i]
    decreases m
  {
    if m <= k {
    } else {
      SettledStays(run, actions, k, m - 1, i);
      RunsKeepOrder(run, actions, m - 1);
      StepKeepsOrder(run[m - 1], actions[m - 1], run[m]);
    }
  }

  /** An operation interrupted by a crash is never taken again unless it is a skills update,
      and an interrupted runtime update also pauses further updates. */
  lemma InterruptedStaysUncertain(run: seq<Queue>, actions: seq<Action>, k: nat, m: nat, i: nat)
    requires IsRun(run, actions) && k < m <= |actions| && actions[k].Crash?
    requires i < |run[k].ops| && run[k].ops[i].state.Running? && !run[k].ops[i].kind.SkillsUpdate?
    ensures i < |run[m].ops| && run[m].ops[i] == run[k].ops[i].(state := Uncertain) && run[m].current != Some(i)
    ensures run[k].ops[i].kind.Update? ==> run[k + 1].paused
  {
    SettledStays(run, actions, k + 1, m, i);
    RunsKeepOrder(run, actions, m);
  }

  // ---------------------------------------------------------------- rotation

  ghost function LiveRows(q: Queue): set<nat> {
    set i | 0 <= i < |q.ops| && Live(q.ops[i].state)
  }

  /** Live operations the rotation reaches before `x`. */
  ghost function Ahead(q: Queue, x: nat): set<nat> {
    set i | 0 <= i < |q.ops| && Live(q.ops[i].state) && i != x && Before(q.cursor, i, x)
  }

  lemma Fewer(a: set<nat>, b: set<nat>, y: nat)
    requires a <= b - {y} && y in b
    ensures |a| < |b|
  {
    assert b == a + (b - a) && y in b - a;
  }

  /** How far the rotation still is from `x`: the live operations it reaches first, and the tick
      in flight until it has moved the cursor. */
  ghost function Distance(q: Queue, x: nat): nat {
    |Ahead(q, x)| + if q.current.Some? && !q.advanced then 1 else 0
  }

  /** Whatever is waiting for `x`: it can be selected as soon as nothing is in flight, and the
      tick in flight, if it has moved the cursor, has moved it just past its own row. */
  ghost predicate Waits(q: Queue, x: nat) {
    && InOrder(q) && q.current != Some(x) && Eligible(q.(paused := false), x)
    && (q.current.Some? && q.advanced ==> q.cursor == q.current.value + 1)
    && (q.current.Some? && !q.advanced ==> Before(q.cursor, q.current.value, x))
  }

  /** Selecting another row takes one operation out of the way and puts one tick in it. */
  lemma MarkKeepsDistance(q: Queue, y: nat, x: nat)
    requires Waits(q, x) && Eligible(q, x) && q.current.None? && Next(q, y) && y < |q.ops| && y != x
    ensures Waits(Marked(q, y), x) && Distance(Marked(q, y), x) == Distance(q, x)
  {
    var after := Marked(q, y);
    assert y in Ahead(q, x);
    assert Ahead(after, x) == Ahead(q, x) - {y};
    MarkKeepsOrder(q, y);
  }

  lemma NoMore(a: set<nat>, b: set<nat>)
    requires a <= b
    ensures |a| <= |b|
  {
    assert b == a + (b - a);
  }

  /** Moving the cursor past it brings the rotation strictly closer. */
  lemma AdvanceApproaches(q: Queue, x: nat)
    requires Waits(q, x) && q.current.Some? && !q.advanced
    ensures var after := q.(cursor := q.current.value + 1, advanced := true);
            Waits(after, x) && Distance(after, x) < Distance(q, x)
  {
    var after := q.(cursor := q.current.value + 1, advanced := true);
    assert Ahead(after, x) <= Ahead(q, x);
    NoMore(Ahead(after, x), Ahead(q, x));
  }

  /** Settling leaves the row behind the cursor, whatever its outcome. */
  lemma SettleKeepsDistance(q: Queue, outcome: OpState, paused: bool, x: nat)
    requires Waits(q, x) && q.current.Some? && q.advanced && !outcome.Pending? && !outcome.Running?
    ensures var after := q.(ops := WithState(q.ops, q.current.value, outcome), current := None, paused := paused);
            Waits(after, x) && Distance(after, x) == Distance(q, x)
  {
    SettleKeepsOrder(q, outcome, paused);
    var after := q.(ops := WithState(q.ops, q.current.value, outcome), current := None, paused := paused);
    assert Ahead(after, x) == Ahead(q, x);
  }

  /** A crash can only put the operation in flight back where it was. */
  lemma CrashKeepsDistance(q: Queue, after: Queue, x: nat)
    requires Waits(q, x) && Step(q, Crash, after)
    ensures Waits(after, x) && Distance(after, x) <= Distance(q, x)
  {
    CrashKeepsOrder(q, after);
    if q.current.None? {
      assert Ahead(after, x) == Ahead(q, x);
    } else {
      var y := q.current.value;
      assert Ahead(after, x) <= Ahead(q, x) + {y};
      if q.advanced {
        assert Ahead(after, x) <= Ahead(q, x);
        NoMore(Ahead(after, x), Ahead(q, x));
      } else {
        NoMore(Ahead(after, x), Ahead(q, x) + {y});
      }
    }
  }

  predicate MovesCursor(q: Queue, a: Action) {
    a.Advance? && q.current.Some? && !q.advanced
  }

  lemma StepApproaches(q: Queue, a: Action, after: Queue, x: nat)
    requires Waits(q, x) && Step(q, a, after) && !a.Enqueue?
    requires x < |q.ops| && (q.ops[x].kind.Update? ==> !q.paused)
    ensures after.current == Some(x) || Waits(after, x)
    ensures after.current != Some(x) ==>
              Distance(after, x) + (if MovesCursor(q, a) then 1 else 0) <= Distance(q, x)
    ensures |after.ops| == |q.ops| && after.ops[x].kind == q.ops[x].kind
  {
    match a
    case Mark =>
      if after != q {
        var y :| 0 <= y < |q.ops| && Next(q, y) && after == Marked(q, y);
        if y != x { MarkKeepsDistance(q, y, x); }
      }
    case Advance => if after != q { AdvanceApproaches(q, x); }
    case Settle(outcome) => if after != q { SettleKeepsDistance(q, outcome, after.paused, x); }
    case Crash => CrashKeepsDistance(q, after, x);
    case Pause(_) => assert Ahead(after, x) == Ahead(q, x);
  }

  /** The ticks of the first `k` steps that got as far as moving the cursor. */
  function Ticks(run: seq<Queue>, actions: seq<Action>, k: nat): nat
    requires k <= |actions| < |run|
  {
    if k == 0 then 0 else Ticks(run, actions, k - 1) + if MovesCursor(run[k - 1], actions[k - 1]) then 1 else 0
  }

  /** A stretch of a run without arrivals. An update waits only while updates are not paused. */
  ghost predicate Quiet(run: seq<Queue>, actions: seq<Action>, x: nat) {
    && |run| == |actions| + 1
    && (forall i {:trigger actions[i]} :: 0 <= i < |actions| ==>
          Step(run[i], actions[i], run[i + 1]) && !actions[i].Enqueue?)
    && (x < |run[0].ops| && run[0].ops[x].kind.Update? ==> forall i :: 0 <= i < |run| ==> !run[i].paused)
  }

  lemma StepCounts(q: Queue, a: Action, after: Queue, x: nat, ticks: nat, bound: nat)
    requires Waits(q, x) && Step(q, a, after) && !a.Enqueue?
    requires x < |q.ops| && (q.ops[x].kind.Update? ==> !q.paused)
    requires ticks + Distance(q, x) <= bound && after.current != Some(x)
    ensures Waits(after, x) && |after.ops| == |q.ops| && after.ops[x].kind == q.ops[x].kind
    ensures ticks + (if MovesCursor(q, a) then 1 else 0) + Distance(after, x) <= bound
  {
    StepApproaches(q, a, after, x);
  }

  lemma {:induction false} TicksAreBounded(run: seq<Queue>, actions: seq<Action>, x: nat, k: nat)
    requires Quiet(run, actions, x) && k <= |actions| && Waits(run[0], x) && x < |run[0].ops|
    requires forall i :: 0 <= i <= k ==> run[i].current != Some(x)
    ensures Waits(run[k], x) && x < |run[k].ops| && run[k].ops[x].kind == run[0].ops[x].kind
    ensures Ticks(run, actions, k) + Distance(run[k], x) <= Distance(run[0], x)
  {
    if k == 0 {
    } else {
      TicksAreBounded(run, actions, x, k - 1);
      var q, a, after := run[k - 1], actions[k - 1], run[k];
      assert Step(q, a, after) && !a.Enqueue?;
      StepCounts(q, a, after, x, Ticks(run, actions, k - 1), Distance(run[0], x));
    }
  }

  /** In any stretch of any run without arrivals, from a state with nothing in flight, an eligible
      operation is taken before as many ticks move the cursor as there are live operations:
      whatever the outcomes, crashes and pauses, it can be overtaken by each at most once. */
  lemma ServedWithinLiveCount(run: seq<Queue>, actions: seq<Action>, x: nat)
    requires Quiet(run, actions, x) && InOrder(run[0]) && run[0].current.None? && Eligible(run[0], x)
    requires Ticks(run, actions, |actions|) >= |LiveRows(run[0])|
    ensures exists k :: 0 <= k < |run| && run[k].current == Some(x)
  {
    if forall k :: 0 <= k < |run| ==> run[k].current != Some(x) {
      TicksAreBounded(run, actions, x, |actions|);
      assert Ahead(run[0], x) <= LiveRows(run[0]) - {x};
      assert x in LiveRows(run[0]);
      Fewer(Ahead(run[0], x), LiveRows(run[0]), x);
      assert false;
    }
  }

  /**
   Every stretch of every run is such a stretch. From any state with nothing in flight, a row that
   may be taken is taken before as many ticks have moved the cursor as there were rows pending or
   waiting, if no operation arrives and updates are not paused while an update waits.
   */
  lemma ServedInEveryRun(run: seq<Queue>, actions: seq<Action>, from: nat, x: nat)
    requires IsRun(run, actions) && from <= |actions| && run[from].current.None? && MayBeTaken(run[from], x)
    requires forall i :: from <= i < |actions| ==> !actions[i].Enqueue?
    requires run[from].ops[x].kind == Update ==> forall i :: from <= i < |run| ==> !run[i].paused
    requires var ops := run[from].ops;
             Ticks(run[from..], actions[from..], |actions| - from) >=
               |set i | 0 <= i < |ops| && (ops[i].state == Pending || ops[i].state == Waiting)|
    ensures exists k :: from <= k < |run| && run[k].current == Some(x)
  {
    var q := run[from];
    EligibleIff(q, x);
    assert LiveRows(q) == set i | 0 <= i < |q.ops| && (q.ops[i].state == Pending || q.ops[i].state == Waiting);
    RunsKeepOrder(run, actions, from);
    ServedWithinLiveCount(run[from..], actions[from..], x);
    var k :| 0 <= k < |run[from..]| && run[from..][k].current == Some(x);
    assert run[from + k].current == Some(x);
  }

  // ---------------------------------------------------------------- the tables

  class Store {
    var queue: Queue

    constructor ()
      ensures queue == EMPTY && InOrder(queue)
    {
      queue := EMPTY;
    }

    /** A request id names one operation for ever: repeating it is a receipt or an error. */
    method EnqueueOperation(id: string, runtime: string, kind: Kind, args: string) returns (ok: bool)
      modifies this
      ensures Step(old(queue), Enqueue(id, runtime, kind, args), queue)
      ensures old(queue).current == queue.current
      ensures match Find(old(queue).ops, id)
              case None => ok && queue == old(queue).(ops := old(queue).ops + [Op(id, runtime, kind, args, Pending)])
              case Some(i) =>
                && queue == old(queue) && i < |queue.ops|
                && (ok <==> queue.ops[i].kind == kind && queue.ops[i].args == args)
    {
      FindIsFirst(queue.ops, id);
      var prior := Find(queue.ops, id);
      if prior.Some? {
        return prior.value < |queue.ops| && queue.ops[prior.value].kind == kind && queue.ops[prior.value].args == args;
      }
      queue := queue.(ops := queue.ops + [Op(id, runtime, kind, args, Pending)]);
      ok := true;
    }

    /** The tick's query: the first eligible row in rotation order. */
    method Select() returns (next: Option<nat>)
      ensures next.Some? ==> next.value < |queue.ops| && Next(queue, next.value)
      ensures next.None? ==> forall i: nat :: i < |queue.ops| ==> !Eligible(queue, i)
      // The first row past the cursor that may be taken, or failing that the first of all.
      ensures next.Some? ==> MayBeTaken(queue, next.value)
      ensures forall i: nat :: MayBeTaken(queue, i) ==>
                && next.Some?
                && if i + 1 > queue.cursor then next.value + 1 > queue.cursor && next.value <= i
                   else next.value + 1 > queue.cursor || next.value <= i
    {
      next := None;
      forall i: nat ensures Eligible(queue, i) <==> MayBeTaken(queue, i) { EligibleIff(queue, i); }
      for i := 0 to |queue.ops|
        invariant next.None? ==> forall j: nat :: j < i ==> !Eligible(queue, j)
        invariant next.Some? ==> next.value < i && Eligible(queue, next.value)
        invariant next.Some? ==> forall j: nat :: j < i && Eligible(queue, j) && j != next.value ==>
                                   Before(queue.cursor, next.value, j)
      {
        if Eligible(queue, i) && (next.None? || Before(queue.cursor, i, next.value)) {
          next := Some(i);
        }
      }
    }

    /** The tick's first write: the selected row is running. */
    method MarkNext() returns (taken: Option<nat>)
      requires InOrder(queue) && queue.current.None?
      modifies this
      ensures Step(old(queue), Mark, queue) && InOrder(queue) && taken == queue.current
      ensures taken.None? ==> queue == old(queue)
      ensures taken.Some? ==>
                var ops, i := old(queue).ops, taken.value;
                && i < |ops|
                && queue == old(queue).(ops := ops[i := ops[i].(state := Running)], current := taken, advanced := false)
    {
      ghost var before := queue;
      taken := Select();
      if taken.Some? {
        assert Next(queue, taken.value);
        queue := queue.(ops := WithState(queue.ops, taken.value, Running), current := taken, advanced := false);
        assert queue == Marked(before, taken.value);
        StepKeepsOrder(before, Mark, queue);
      }
    }

    /** The second: the cursor moves past it, even though the operation may have to wait. */
    method AdvanceCursor()
      requires InOrder(queue) && queue.current.Some? && !queue.advanced
      modifies this
      ensures Step(old(queue), Advance, queue) && InOrder(queue)
      ensures queue == old(queue).(cursor := old(queue).current.value + 1, advanced := true)
    {
      queue := queue.(cursor := queue.current.value + 1, advanced := true);
    }

    method SettleCurrent(outcome: OpState)
      requires InOrder(queue) && queue.current.Some? && queue.advanced && !outcome.Pending? && !outcome.Running?
      modifies this
      ensures Step(old(queue), Settle(outcome), queue) && InOrder(queue)
      ensures var i := old(queue).current.value;
              queue == old(queue).(
                ops := old(queue).ops[i := old(queue).ops[i].(state := outcome)], current := None,
                paused := old(queue).paused ||
                          (old(queue).ops[i].kind == Update && (outcome == Failed || outcome == Uncertain)))
    {
      ghost var before := queue;
      var i := queue.current.value;
      if queue.ops[i].kind.Update? && (outcome.Failed? || outcome.Uncertain?) {
        queue := queue.(paused := true);
      }
      queue := queue.(ops := WithState(queue.ops, i, outcome), current := None);
      StepKeepsOrder(before, Settle(outcome), queue);
    }

    method RecoverOperations()
      modifies this
      ensures Step(old(queue), Crash, queue) && (InOrder(old(queue)) ==> InOrder(queue))
      ensures |queue.ops| == |old(queue).ops| && queue.current == None && queue.cursor == old(queue).cursor
      ensures forall i :: 0 <= i < |queue.ops| ==>
                queue.ops[i] == if old(queue).ops[i].state != Running then old(queue).ops[i]
                                else old(queue).ops[i].(state := if old(queue).ops[i].kind == SkillsUpdate
                                                                 then Waiting else Uncertain)
      ensures queue.paused <==>
                old(queue).paused ||
                exists i :: 0 <= i < |old(queue).ops| &&
                  old(queue).ops[i].state == Running && old(queue).ops[i].kind == Update
    {
      ghost var before := queue;
      var ops := queue.ops;
      var interrupted := false;
      for i := 0 to |ops|
        invariant interrupted <==> exists j :: 0 <= j < i && ops[j].state.Running? && ops[j].kind.Update?
      {
        if ops[i].state.Running? && ops[i].kind.Update? { interrupted := true; }
      }
      if interrupted { queue := queue.(paused := true); }
      queue := queue.(ops := seq(|ops|, i requires 0 <= i < |ops| => Recovered(ops[i])), current := None);
      if InOrder(before) { StepKeepsOrder(before, Crash, queue); }
    }
  }
}
