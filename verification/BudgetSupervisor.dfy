/**
 The loop that supervises one attempt against its progress budget (src/budget.rs,
 `supervise`), run against an environment that waits, suspends the attempt, and writes
 progress reports between any two of its steps.

 The loop keeps its own instants on an active clock (wall time minus the time the
 pressure control says it was paused). The log keeps wall stamps. The invariant `Good`
 says the two always agree, and the theorems below speak only of the log.
 */
module BudgetSupervisor {
  import opened Options
  import opened Budget

  /** Wall time, the attempt's events, and the pressure control's pause accounting. */
  datatype World = World(now: nat, log: Log, suspended: Option<nat>, banked: nat)

  /** A workspace sample the loop asked for before ruling: when, on both clocks, the
      deadline it was past, and the progress that deadline was counted from. */
  datatype Sample = Sample(wall: nat, at: int, deadline: int, mark: nat)

  datatype Phase =
    | Watching
    | Finishing(wall: nat, finished: int) // the work is done but late; a sample is awaited
    | Completed
    | Exhausted(wall: nat, sample: Sample)

  datatype State = State(world: World, budget: nat, lastMs: nat, lastProgress: int,
                         sample: Option<Sample>, phase: Phase)

  datatype Action =
    | Wait(ms: nat) | Suspend | Unsuspend // the host
    | Observed                            // a workspace change, recorded whenever it is seen
    | SelfReport                          // the worker's own report, refused once the budget ran out
    | Timer | SampleReturns | WorkReturns | Tick

  predicate Environmental(a: Action) {
    a.Wait? || a.Suspend? || a.Unsuspend? || a.Observed? || a.SelfReport?
  }

  // ---------------------------------------------------------------- the two clocks

  function PausedDuration(w: World): nat {
    w.banked + match w.suspended case None => 0 case Some(since) => MonusNat(w.now, since)
  }

  function ActiveNow(w: World): int {
    w.now - PausedDuration(w)
  }

  /** Running milliseconds since the log's last start or report. */
  ghost function Idle(w: World): nat {
    RunningIn(w.log, Mark(w.log), w.now)
  }

  /** The pressure control's running totals describe the pause events in the log. */
  ghost predicate Coupled(w: World) {
    && Ordered(w.log) && Live(w.log)
    && (forall i :: 0 <= i < |w.log| ==> w.log[i].at <= w.now)
    && (w.suspended.Some? ==> w.suspended.value <= w.now)
    && (forall t: nat :: t >= w.now ==> (PausedAt(w.log, t) <==> w.suspended.Some?))
    && RunningIn(w.log, 0, w.now) == ActiveNow(w)
  }

  /** Before the attempt starts its log holds pause events at most. */
  ghost predicate Untouched(w: World) {
    Coupled(w) && forall i :: 0 <= i < |w.log| ==> w.log[i].Paused? || w.log[i].Resumed?
  }

  // ---------------------------------------------------------------- one step

  ghost function ApplyWorld(w: World, a: Action): World
    requires Environmental(a)
  {
    match a
    case Wait(ms) => w.(now := w.now + ms)
    case Suspend =>
      if w.suspended.Some? then w
      else w.(suspended := Some(w.now), log := w.log + [Paused(w.now)])
    case Unsuspend =>
      if w.suspended.None? then w
      else w.(suspended := None, banked := PausedDuration(w), log := w.log + [Resumed(w.now)])
    case Observed => w.(log := w.log + [Progress(w.now)])
    case SelfReport =>
      // The caller's budget is the start event's own figure.
      if Begun(w.log) && Start(w.log).budget.Some? && Idle(w) < Start(w.log).budget.value
      then w.(log := w.log + [Progress(w.now)]) else w
  }

  function LatestProgress(log: Log): Option<nat> {
    if log == [] then None
    else if Final(log).Progress? then Some(Final(log).at)
    else LatestProgress(But(log))
  }

  ghost function Renewed(s: State): State {
    var at := match LatestProgress(s.world.log) case Some(at) => at case None => s.lastMs;
    if at <= s.lastMs then s
    else s.(lastMs := at, lastProgress := ActiveNow(s.world) - Idle(s.world))
  }

  function Overdue(s: State, instant: int): bool {
    instant - s.lastProgress >= s.budget
  }

  function FreshSample(s: State): Sample {
    Sample(s.world.now, ActiveNow(s.world), s.lastProgress + s.budget, s.lastMs)
  }

  ghost function Apply(s: State, a: Action): State {
    if s.phase.Completed? || s.phase.Exhausted? then s
    else if Environmental(a) then s.(world := ApplyWorld(s.world, a))
    else match a
      case Timer =>
        if s.phase.Finishing? || s.sample.Some? then s
        else
          var r := Renewed(s);
          if r.world.suspended.Some? || !Overdue(r, ActiveNow(r.world)) then r
          else r.(sample := Some(FreshSample(r)))
      case SampleReturns =>
        if s.sample.None? then s
        else
          var r := Renewed(s).(sample := None);
          if s.phase.Finishing? then
            r.(phase := if Overdue(r, s.phase.finished) then Exhausted(s.phase.wall, s.sample.value) else Completed)
          else if r.world.suspended.Some? || !Overdue(r, ActiveNow(r.world)) then r
          else r.(phase := Exhausted(r.world.now, s.sample.value))
      case WorkReturns =>
        if s.phase.Finishing? then s
        else
          var r := Renewed(s);
          if !Overdue(r, ActiveNow(r.world)) then r.(phase := Completed)
          else r.(phase := Finishing(r.world.now, ActiveNow(r.world)),
                  sample := if r.sample.Some? then r.sample else Some(FreshSample(r)))
      case _ => if s.phase.Watching? then Renewed(s) else s
  }

  function Begin(w: World, budget: nat): State {
    State(w.(log := w.log + [Started(w.now, Some(budget))]), budget, w.now, ActiveNow(w), None, Watching)
  }

  ghost function Run(s: State, actions: seq<Action>): State {
    if actions == [] then s else Apply(Run(s, actions[..|actions| - 1]), actions[|actions| - 1])
  }

  // ---------------------------------------------------------------- the invariant

  ghost predicate SampleGood(s: State, p: Sample) {
    && p.mark <= p.wall <= s.world.now
    && p.at == RunningIn(s.world.log, 0, p.wall)
    && p.deadline == RunningIn(s.world.log, 0, p.mark) + s.budget
    && p.deadline <= p.at
    && (Mark(s.world.log) == p.mark || p.wall <= Mark(s.world.log))
  }

  ghost predicate Good(s: State) {
    && s.budget > 0
    && Coupled(s.world)
    && Begun(s.world.log) && Start(s.world.log).budget == Some(s.budget)
    && s.lastMs <= Mark(s.world.log) <= s.world.now
    && s.lastProgress == RunningIn(s.world.log, 0, s.lastMs)
    && (match LatestProgress(s.world.log)
        case Some(at) => at == Mark(s.world.log)
        case None => s.lastMs == Mark(s.world.log))
    && (s.sample.Some? ==> SampleGood(s, s.sample.value))
    && match s.phase
       case Watching => true
       case Completed => true
       case Finishing(wall, finished) =>
         s.sample.Some? && wall <= s.world.now && finished == RunningIn(s.world.log, 0, wall)
       case Exhausted(wall, sample) =>
         && wall <= s.world.now && SampleGood(s, sample)
         && RunningIn(s.world.log, Mark(s.world.log), wall) >= s.budget
  }

  /** Re-reading the log leaves the loop's instant at the log's own last mark. */
  lemma RenewedGood(s: State)
    requires Good(s)
    ensures Good(Renewed(s))
    ensures Renewed(s).lastMs == Mark(s.world.log)
    ensures ActiveNow(s.world) - Renewed(s).lastProgress == Idle(s.world)
  {
    RunningSplits(s.world.log, 0, Mark(s.world.log), s.world.now);
  }

  /** Lateness by the loop's instants is lateness by the log's own clock. */
  lemma OverdueIsIdle(s: State, wall: nat)
    requires Good(s) && s.lastMs == Mark(s.world.log)
    ensures Overdue(s, RunningIn(s.world.log, 0, wall)) <==> RunningIn(s.world.log, Mark(s.world.log), wall) >= s.budget
  {
    var mark := Mark(s.world.log);
    if mark <= wall {
      RunningSplits(s.world.log, 0, mark, wall);
    } else {
      RunningSplits(s.world.log, 0, wall, mark);
    }
  }

  /** An event stamped now changes the log's readings from now on, and only those. */
  lemma AppendKeeps(w: World, e: Event)
    requires Coupled(w) && !e.Finished? && e.at == w.now
    ensures var log := w.log + [e];
            && Ordered(log) && Live(log)
            && RunningIn(log, 0, w.now) == RunningIn(w.log, 0, w.now)
            && (forall t: nat :: t >= w.now ==>
                  (PausedAt(log, t) <==> e.Paused? || (!e.Resumed? && w.suspended.Some?)))
            && Mark(log) == (if e.Started? || e.Progress? then e.at else Mark(w.log))
            && LatestProgress(log) == (if e.Progress? then Some(e.at) else LatestProgress(w.log))
  {
    assert But(w.log + [e]) == w.log;
    HistoryIsStable(w.log, e, 0, w.now);
  }

  lemma {:induction false} WaitKeeps(w: World, ms: nat)
    requires Coupled(w)
    ensures Coupled(w.(now := w.now + ms))
  {
    if ms == 0 {
    } else {
      WaitKeeps(w, ms - 1);
    }
  }

  lemma WorldKeepsCoupled(w: World, a: Action)
    requires Coupled(w) && Environmental(a)
    ensures Coupled(ApplyWorld(w, a))
  {
    match a
    case Wait(ms) => WaitKeeps(w, ms);
    case Suspend => AppendKeeps(w, Paused(w.now));
    case Unsuspend => AppendKeeps(w, Resumed(w.now));
    case Observed => AppendKeeps(w, Progress(w.now));
    case SelfReport => AppendKeeps(w, Progress(w.now));
  }

  lemma AppendKeepsGood(s: State, e: Event, w: World)
    requires Good(s) && !s.phase.Exhausted?
    requires !e.Finished? && !e.Started? && e.at == s.world.now
    requires w.log == s.world.log + [e] && w.now == s.world.now && Coupled(w)
    ensures Good(s.(world := w))
  {
    AppendKeeps(s.world, e);
    StartStep(s.world.log, e);
    HistoryIsStable(s.world.log, e, 0, s.lastMs);
    if s.sample.Some? {
      HistoryIsStable(s.world.log, e, 0, s.sample.value.wall);
      HistoryIsStable(s.world.log, e, 0, s.sample.value.mark);
    }
    if s.phase.Finishing? {
      HistoryIsStable(s.world.log, e, 0, s.phase.wall);
    }
  }

  lemma EnvironmentKeepsGood(s: State, a: Action)
    requires Good(s) && Environmental(a) && !s.phase.Exhausted?
    ensures Good(s.(world := ApplyWorld(s.world, a)))
  {
    WorldKeepsCoupled(s.world, a);
    var w := ApplyWorld(s.world, a);
    if w.log == s.world.log {
    } else {
      assert exists e :: w.log == s.world.log + [e] && !e.Finished? && !e.Started? && e.at == s.world.now;
      var e :| w.log == s.world.log + [e] && !e.Finished? && !e.Started? && e.at == s.world.now;
      AppendKeepsGood(s, e, w);
    }
  }

  lemma LateRuledGood(s: State, r: State)
    requires Good(s) && Good(r) && r == Renewed(s) && r.lastMs == Mark(s.world.log) && s.phase.Finishing?
    ensures Good(Apply(s, SampleReturns))
  {
    OverdueIsIdle(r, s.phase.wall);
  }

  lemma RuledNowGood(s: State, r: State)
    requires Good(s) && Good(r) && r == Renewed(s) && r.lastMs == Mark(s.world.log) && s.phase.Watching?
    ensures Good(Apply(s, SampleReturns))
  {
    OverdueIsIdle(r, s.world.now);
  }

  lemma WorkRuledGood(s: State, r: State)
    requires Good(s) && Good(r) && r == Renewed(s) && r.lastMs == Mark(s.world.log) && s.phase.Watching?
    ensures Good(Apply(s, WorkReturns))
  {
    OverdueIsIdle(r, s.world.now);
  }

  lemma RuledGood(s: State, r: State, a: Action)
    requires Good(s) && Good(r) && r == Renewed(s) && r.lastMs == Mark(s.world.log)
    requires !Environmental(a) && !s.phase.Completed? && !s.phase.Exhausted?
    ensures Good(Apply(s, a))
  {
    match a
    case SampleReturns => if s.phase.Finishing? { LateRuledGood(s, r); } else { RuledNowGood(s, r); }
    case WorkReturns => if !s.phase.Finishing? { WorkRuledGood(s, r); }
    case _ =>
  }

  lemma ApplyKeepsGood(s: State, a: Action)
    requires Good(s)
    ensures Good(Apply(s, a))
  {
    if s.phase.Completed? || s.phase.Exhausted? {
    } else if Environmental(a) {
      EnvironmentKeepsGood(s, a);
    } else {
      RenewedGood(s);
      RuledGood(s, Renewed(s), a);
    }
  }

  lemma {:induction false} NoReports(log: Log)
    requires forall i :: 0 <= i < |log| ==> log[i].Paused? || log[i].Resumed?
    ensures LatestProgress(log) == None
  {
    if log == [] {
    } else {
      NoReports(But(log));
    }
  }

  lemma BeginIsGood(w: World, budget: nat)
    requires Untouched(w) && budget > 0
    ensures Good(Begin(w, budget))
  {
    var e := Started(w.now, Some(budget));
    AppendKeeps(w, e);
    StartStep(w.log, e);
    NoReports(w.log);
    assert Begin(w, budget).world.log == w.log + [e];
  }

  lemma {:induction false} RunIsGood(s: State, actions: seq<Action>)
    requires Good(s)
    ensures Good(Run(s, actions))
  {
    if actions == [] {
    } else {
      RunIsGood(s, actions[..|actions| - 1]);
      ApplyKeepsGood(Run(s, actions[..|actions| - 1]), actions[|actions| - 1]);
    }
  }

  // ---------------------------------------------------------------- the theorems

  lemma {:induction false} BudgetIsKept(s: State, actions: seq<Action>)
    ensures Run(s, actions).budget == s.budget
  {
    if actions == [] {
    } else {
      BudgetIsKept(s, actions[..|actions| - 1]);
    }
  }

  /**
   Exhaustion is earned. Whatever the schedule, a verdict of exhaustion means that in the
   log as re-read for the ruling, a full budget of running milliseconds separates the last
   report from the instant ruled on (the ruling itself, or the moment the work finished),
   and that a sample had been asked for once a full budget had passed since the progress
   then known.
   */
  lemma ExhaustionIsEarned(w: World, budget: nat, actions: seq<Action>)
    requires Untouched(w) && budget > 0
    ensures var s := Run(Begin(w, budget), actions);
            s.phase.Exhausted? ==>
              var log, sample := s.world.log, s.phase.sample;
              && s.phase.wall <= s.world.now
              && RunningIn(log, Mark(log), s.phase.wall) >= budget
              && sample.wall <= s.world.now
              && RunningIn(log, sample.mark, sample.wall) >= budget
  {
    BeginIsGood(w, budget);
    RunIsGood(Begin(w, budget), actions);
    BudgetIsKept(Begin(w, budget), actions);
    var s := Run(Begin(w, budget), actions);
    if s.phase.Exhausted? {
      RunningSplits(s.world.log, 0, s.phase.sample.mark, s.phase.sample.wall);
    }
  }

  /** Work polled complete with budget left completes at once, sample in flight or not. */
  lemma WorkInTimeCompletes(s: State)
    requires Good(s) && s.phase.Watching? && Idle(s.world) < s.budget
    ensures Apply(s, WorkReturns).phase.Completed?
  {
    RenewedGood(s);
  }

  lemma LateRuling(t: State)
    requires Good(t) && t.phase.Finishing?
    ensures var phase := Apply(t, SampleReturns).phase;
            && (phase.Exhausted? <==> RunningIn(t.world.log, Mark(t.world.log), t.phase.wall) >= t.budget)
            && (phase.Completed? <==> !phase.Exhausted?)
            && (Mark(t.world.log) >= t.phase.wall ==> phase.Completed?)
  {
    RenewedGood(t);
    OverdueIsIdle(Renewed(t), t.phase.wall);
  }

  lemma {:induction false} WaitingKeepsPhase(s: State, wait: seq<Action>)
    requires forall i :: 0 <= i < |wait| ==> Environmental(wait[i])
    ensures Run(s, wait).phase == s.phase && Run(s, wait).sample == s.sample
  {
    if wait == [] {
    } else {
      WaitingKeepsPhase(s, wait[..|wait| - 1]);
    }
  }

  /**
   Late work is ruled on the moment it finished. However long the sample takes and
   whatever the host does meanwhile, the ruling counts the running time between the last
   report then in the log and the finish, so waiting for the sample is never charged and
   a change it reveals always saves the work.
   */
  lemma LateSampleChargesNothing(s: State, wait: seq<Action>)
    requires Good(s) && s.phase.Finishing?
    requires forall i :: 0 <= i < |wait| ==> Environmental(wait[i])
    ensures var t := Run(s, wait);
            var ruled := Apply(t, SampleReturns);
            && (ruled.phase.Exhausted? <==> RunningIn(t.world.log, Mark(t.world.log), s.phase.wall) >= s.budget)
            && (ruled.phase.Completed? <==> !ruled.phase.Exhausted?)
            && (Mark(t.world.log) >= s.phase.wall ==> ruled.phase.Completed?)
  {
    WaitingKeepsPhase(s, wait);
    RunIsGood(s, wait);
    BudgetIsKept(s, wait);
    LateRuling(Run(s, wait));
  }

  /** What may happen while a sample is in flight without bringing it back or landing a report. */
  predicate Unreported(a: Action) {
    !a.Observed? && !a.SampleReturns?
  }

  /** A running total no report interrupts only grows, so the worker's own reports stay refused. */
  lemma UnreportedKeepsMark(w: World, a: Action, budget: nat)
    requires Coupled(w) && Environmental(a) && Unreported(a)
    requires Begun(w.log) && Start(w.log).budget == Some(budget)
    requires Mark(w.log) <= w.now && Idle(w) >= budget
    ensures var v := ApplyWorld(w, a);
            && Mark(v.log) == Mark(w.log) && w.now <= v.now && Idle(v) >= Idle(w)
            && RunningIn(v.log, Mark(v.log), w.now) == RunningIn(w.log, Mark(w.log), w.now)
  {
    match a
    case Wait(ms) => RunningSplits(w.log, Mark(w.log), w.now, w.now + ms);
    case Suspend => AppendKeeps(w, Paused(w.now)); HistoryIsStable(w.log, Paused(w.now), Mark(w.log), w.now);
    case Unsuspend => AppendKeeps(w, Resumed(w.now)); HistoryIsStable(w.log, Resumed(w.now), Mark(w.log), w.now);
    case SelfReport =>
  }

  /** The instants a pending verdict counts between stay put while nothing is reported. */
  lemma UnreportedKeepsCount(w: World, a: Action, budget: nat, wall: nat)
    requires Coupled(w) && Environmental(a) && Unreported(a)
    requires Begun(w.log) && Start(w.log).budget == Some(budget)
    requires Mark(w.log) <= w.now && Idle(w) >= budget && wall <= w.now
    ensures var v := ApplyWorld(w, a);
            RunningIn(v.log, Mark(v.log), wall) == RunningIn(w.log, Mark(w.log), wall)
  {
    UnreportedKeepsMark(w, a, budget);
    match a
    case Suspend => HistoryIsStable(w.log, Paused(w.now), Mark(w.log), wall);
    case Unsuspend => HistoryIsStable(w.log, Resumed(w.now), Mark(w.log), wall);
    case _ =>
  }

  /** Late work waits for its sample, and what it will be ruled on does not change. */
  lemma {:induction false} LateWorkWaits(s: State, wait: seq<Action>)
    requires Good(s) && s.phase.Finishing?
    requires RunningIn(s.world.log, Mark(s.world.log), s.phase.wall) >= s.budget
    requires forall i :: 0 <= i < |wait| ==> Unreported(wait[i])
    ensures var t := Run(s, wait);
            && Good(t) && t.phase == s.phase && t.budget == s.budget
            && RunningIn(t.world.log, Mark(t.world.log), t.phase.wall) >= s.budget
  {
    if wait == [] {
    } else {
      var before, a := wait[..|wait| - 1], wait[|wait| - 1];
      LateWorkWaits(s, before);
      var t := Run(s, before);
      ApplyKeepsGood(t, a);
      if Environmental(a) {
        if t.phase.wall >= Mark(t.world.log) {
          RunningSplits(t.world.log, Mark(t.world.log), t.phase.wall, t.world.now);
        }
        UnreportedKeepsCount(t.world, a, s.budget, t.phase.wall);
      }
    }
  }

  lemma LateWorkIsSampled(s: State)
    requires Good(s) && s.phase.Watching? && Idle(s.world) >= s.budget
    ensures var late := Apply(s, WorkReturns);
            && Good(late) && late.world == s.world && late.budget == s.budget
            && late.phase.Finishing? && late.phase.wall == s.world.now && late.sample.Some?
  {
    RenewedGood(s);
    ApplyKeepsGood(s, WorkReturns);
  }

  lemma LateWorkIsRuled(s: State, wait: seq<Action>)
    requires Good(s) && s.phase.Finishing?
    requires RunningIn(s.world.log, Mark(s.world.log), s.phase.wall) >= s.budget
    requires forall i :: 0 <= i < |wait| ==> Unreported(wait[i])
    ensures var ruled := Apply(Run(s, wait), SampleReturns).phase; ruled.Exhausted? && ruled.wall == s.phase.wall
  {
    LateWorkWaits(s, wait);
    LateRuling(Run(s, wait));
  }

  /**
   Late work is not simply completed. Work that returned after a full idle budget, with no
   report landing while its sample is in flight, is ruled exhausted when the sample is in,
   whatever the host and the loop's other branches do meanwhile.
   */
  lemma LateWorkIsExhausted(w: World, budget: nat, before: seq<Action>, wait: seq<Action>)
    requires Untouched(w) && budget > 0
    requires var s := Run(Begin(w, budget), before); s.phase.Watching? && Idle(s.world) >= budget
    requires forall i :: 0 <= i < |wait| ==> Unreported(wait[i])
    ensures var s := Apply(Run(Begin(w, budget), before), WorkReturns);
            && s.phase.Finishing? && s.phase.wall == s.world.now && s.sample.Some?
            && var ruled := Apply(Run(s, wait), SampleReturns).phase;
               ruled.Exhausted? && ruled.wall == s.phase.wall
  {
    BeginIsGood(w, budget);
    RunIsGood(Begin(w, budget), before);
    BudgetIsKept(Begin(w, budget), before);
    var s := Run(Begin(w, budget), before);
    LateWorkIsSampled(s);
    LateWorkIsRuled(Apply(s, WorkReturns), wait);
  }

  /** An attempt that does nothing stays past its deadline. */
  lemma {:induction false} IdleAttemptWaits(s: State, wait: seq<Action>)
    requires Good(s) && s.phase.Watching? && s.sample.Some? && Idle(s.world) >= s.budget
    requires forall i :: 0 <= i < |wait| ==> Unreported(wait[i]) && !wait[i].WorkReturns?
    ensures var t := Run(s, wait);
            && Good(t) && t.phase.Watching? && t.sample == s.sample && t.budget == s.budget
            && Idle(t.world) >= s.budget
  {
    if wait == [] {
    } else {
      var before, a := wait[..|wait| - 1], wait[|wait| - 1];
      IdleAttemptWaits(s, before);
      var t := Run(s, before);
      ApplyKeepsGood(t, a);
      if Environmental(a) {
        UnreportedKeepsMark(t.world, a, s.budget);
      } else {
        RenewedGood(t);
      }
    }
  }

  lemma IdleAttemptIsSampled(s: State)
    requires Good(s) && s.phase.Watching? && s.sample.None?
    requires s.world.suspended.None? && Idle(s.world) >= s.budget
    ensures var t := Apply(s, Timer);
            && Good(t) && t.phase.Watching? && t.world == s.world && t.budget == s.budget
            && t.sample.Some? && t.sample.value.wall == s.world.now
  {
    RenewedGood(s);
    ApplyKeepsGood(s, Timer);
  }

  lemma IdleAttemptIsRuled(s: State, wait: seq<Action>)
    requires Good(s) && s.phase.Watching? && s.sample.Some? && Idle(s.world) >= s.budget
    requires forall i :: 0 <= i < |wait| ==> Unreported(wait[i]) && !wait[i].WorkReturns?
    ensures var t := Run(s, wait); Apply(t, SampleReturns).phase.Exhausted? <==> t.world.suspended.None?
  {
    IdleAttemptWaits(s, wait);
    RenewedGood(Run(s, wait));
  }

  /**
   Idle attempts are stopped. Once a full budget has run with nothing reported, the timer
   begins a sample, and if nothing is reported and no work returns before it does, its
   return rules the attempt exhausted, unless the host has it suspended just then.
   */
  lemma IdleAttemptIsExhausted(w: World, budget: nat, before: seq<Action>, wait: seq<Action>)
    requires Untouched(w) && budget > 0
    requires var s := Run(Begin(w, budget), before);
             s.phase.Watching? && s.sample.None? && s.world.suspended.None? && Idle(s.world) >= budget
    requires forall i :: 0 <= i < |wait| ==> Unreported(wait[i]) && !wait[i].WorkReturns?
    ensures var s := Apply(Run(Begin(w, budget), before), Timer);
            && s.sample.Some? && s.sample.value.wall == s.world.now
            && var t := Run(s, wait);
               (Apply(t, SampleReturns).phase.Exhausted? <==> t.world.suspended.None?)
  {
    BeginIsGood(w, budget);
    RunIsGood(Begin(w, budget), before);
    BudgetIsKept(Begin(w, budget), before);
    var s := Run(Begin(w, budget), before);
    IdleAttemptIsSampled(s);
    IdleAttemptIsRuled(Apply(s, Timer), wait);
  }

  /**
   Whether the sample behind a verdict also postdates the deadline the verdict enforces.
   It does exactly when no report landed while the sample was in flight; a report that
   did moves the deadline past the sample's start without renewing the sample.
   */
  lemma SampleFreshIff(w: World, budget: nat, actions: seq<Action>)
    requires Untouched(w) && budget > 0
    ensures var s := Run(Begin(w, budget), actions);
            s.phase.Exhausted? ==>
              var log, sample := s.world.log, s.phase.sample;
              (RunningIn(log, Mark(log), sample.wall) >= budget <==> Mark(log) == sample.mark)
  {
    ExhaustionIsEarned(w, budget, actions);
    BeginIsGood(w, budget);
    RunIsGood(Begin(w, budget), actions);
  }

  /** A log of one start, at 0, and perhaps one report, a whole budget later. */
  function StaleLog(budget: nat, reported: bool): Log {
    if reported then [Started(0, Some(budget))] + [Progress(budget)] else [Started(0, Some(budget))]
  }

  function StaleAt(budget: nat, now: nat, reported: bool): World {
    World(now, StaleLog(budget, reported), None, 0)
  }

  lemma StaleFacts(budget: nat)
    ensures LatestProgress(StaleLog(budget, false)) == None && Mark(StaleLog(budget, false)) == 0
    ensures LatestProgress(StaleLog(budget, true)) == Some(budget) && Mark(StaleLog(budget, true)) == budget
    ensures RunningIn(StaleLog(budget, true), budget, budget) == 0
  {
    assert But(StaleLog(budget, false)) == [];
    assert But(StaleLog(budget, true)) == StaleLog(budget, false);
  }

  lemma RunStep(s: State, before: seq<Action>, a: Action)
    ensures Run(s, before + [a]) == Apply(Run(s, before), a)
  {
    assert (before + [a])[..|before|] == before;
  }

  /** The deadline passes with nothing reported, and the loop begins a sample. */
  lemma StaleSamples(start: State, first: seq<Action>, budget: nat) returns (actions: seq<Action>)
    requires budget > 0 && Run(start, first) == State(StaleAt(budget, budget, false), budget, 0, 0, None, Watching)
    ensures Run(start, actions)
         == State(StaleAt(budget, budget, false), budget, 0, 0, Some(Sample(budget, budget, budget, 0)), Watching)
  {
    StaleFacts(budget);
    RunStep(start, first, Timer);
    actions := first + [Timer];
  }

  /** A report lands while the sample is in flight. */
  lemma StaleReports(start: State, first: seq<Action>, budget: nat, p: Sample) returns (actions: seq<Action>)
    requires Run(start, first) == State(StaleAt(budget, budget, false), budget, 0, 0, Some(p), Watching)
    ensures Run(start, actions) == State(StaleAt(budget, budget, true), budget, 0, 0, Some(p), Watching)
  {
    RunStep(start, first, Observed);
    actions := first + [Observed];
  }

  /** The loop adopts the report, which moves the deadline. */
  lemma StaleRenews(start: State, first: seq<Action>, budget: nat, p: Sample) returns (actions: seq<Action>)
    requires budget > 0 && Run(start, first) == State(StaleAt(budget, budget, true), budget, 0, 0, Some(p), Watching)
    ensures Run(start, actions) == State(StaleAt(budget, budget, true), budget, budget, budget, Some(p), Watching)
  {
    StaleFacts(budget);
    RunStep(start, first, Tick);
    actions := first + [Tick];
  }

  lemma StaleWaits(start: State, first: seq<Action>, budget: nat, s: State) returns (actions: seq<Action>)
    requires Run(start, first) == s && s.phase.Watching?
    ensures Run(start, actions) == s.(world := s.world.(now := s.world.now + budget))
  {
    RunStep(start, first, Wait(budget));
    actions := first + [Wait(budget)];
  }

  /** The old sample returns a budget later and the loop rules on it. */
  lemma StaleRules(start: State, first: seq<Action>, budget: nat, p: Sample) returns (actions: seq<Action>)
    requires Run(start, first) == State(StaleAt(budget, 2 * budget, true), budget, budget, budget, Some(p), Watching)
    ensures Run(start, actions)
         == State(StaleAt(budget, 2 * budget, true), budget, budget, budget, None, Exhausted(2 * budget, p))
  {
    StaleFacts(budget);
    RunStep(start, first, SampleReturns);
    actions := first + [SampleReturns];
  }

  lemma StaleRun(start: State, budget: nat) returns (actions: seq<Action>)
    requires budget > 0 && start == State(StaleAt(budget, 0, false), budget, 0, 0, None, Watching)
    ensures Run(start, actions) == State(StaleAt(budget, 2 * budget, true), budget, budget, budget, None,
                                         Exhausted(2 * budget, Sample(budget, budget, budget, 0)))
  {
    var p := Sample(budget, budget, budget, 0);
    assert Run(start, []) == start;
    actions := StaleWaits(start, [], budget, start);
    actions := StaleSamples(start, actions, budget);
    actions := StaleReports(start, actions, budget, p);
    actions := StaleRenews(start, actions, budget, p);
    actions := StaleWaits(start, actions, budget,
                          State(StaleAt(budget, budget, true), budget, budget, budget, Some(p), Watching));
    actions := StaleRules(start, actions, budget, p);
  }

  lemma QuietWorld(budget: nat) returns (w: World)
    ensures Untouched(w) && Begin(w, budget) == State(StaleAt(budget, 0, false), budget, 0, 0, None, Watching)
  {
    w := World(0, [], None, 0);
    assert w.log + [Started(0, Some(budget))] == StaleLog(budget, false);
  }

  /** For every budget there is a run ruled exhausted on a sample begun before its own deadline. */
  lemma StaleSampleExists(budget: nat) returns (w: World, actions: seq<Action>)
    requires budget > 0
    ensures Untouched(w)
    ensures var s := Run(Begin(w, budget), actions);
            && s.phase.Exhausted?
            && RunningIn(s.world.log, Mark(s.world.log), s.phase.sample.wall) == 0
  {
    w := QuietWorld(budget);
    actions := StaleRun(Begin(w, budget), budget);
    StaleFacts(budget);
  }

  // ---------------------------------------------------------------- the loop itself

  class Supervision {
    var world: World
    var budget: nat
    var lastMs: nat
    var lastProgress: int
    var sample: Option<Sample>
    var phase: Phase

    ghost function View(): State
      reads this
    {
      State(world, budget, lastMs, lastProgress, sample, phase)
    }

    constructor (w: World, budget: nat)
      requires Untouched(w) && budget > 0
      ensures View() == Begin(w, budget) && Good(View())
      ensures world == w.(log := w.log + [Started(w.now, Some(budget))]) && this.budget == budget
      ensures phase == Watching && sample == None
    {
      this.world := w.(log := w.log + [Started(w.now, Some(budget))]);
      this.budget := budget;
      lastMs := w.now;
      lastProgress := ActiveNow(w);
      sample := None;
      phase := Watching;
      new;
      BeginIsGood(w, budget);
    }

    /** Adopt the newest report, placing it on the active clock by the log's own idle time. */
    method Renew()
      requires Good(View())
      modifies this`lastMs, this`lastProgress
      ensures View() == Renewed(old(View())) && Good(View())
      ensures lastMs == Mark(world.log) && ActiveNow(world) - lastProgress == Idle(world)
    {
      RenewedGood(View());
      var latest := LatestProgress(world.log);
      var at := if latest.Some? then latest.value else lastMs;
      if at > lastMs {
        lastMs := at;
        var timing := Status(world.log, None, world.now);
        lastProgress := ActiveNow(world) - timing.value.idle;
      }
    }

    method Environment(a: Action)
      requires Good(View()) && Environmental(a) && !phase.Exhausted?
      modifies this`world
      ensures View() == old(View()).(world := ApplyWorld(old(world), a)) && Good(View())
      ensures a.Wait? ==> world == old(world).(now := old(world).now + a.ms)
      ensures a.Observed? ==> world == old(world).(log := old(world).log + [Progress(world.now)])
      ensures a.SelfReport? ==>
                world == if old(Idle(world)) < budget
                         then old(world).(log := old(world).log + [Progress(world.now)]) else old(world)
      ensures a.Suspend? ==>
                && world.suspended.Some? && world.banked == old(world).banked
                && world.log == old(world).log + if old(world).suspended.None? then [Paused(world.now)] else []
      ensures a.Unsuspend? ==>
                && world.suspended.None?
                && world.log == old(world).log + if old(world).suspended.Some? then [Resumed(world.now)] else []
    {
      EnvironmentKeepsGood(View(), a);
      match a
      case Wait(ms) => world := world.(now := world.now + ms);
      case Suspend =>
        if world.suspended.None? {
          world := world.(suspended := Some(world.now), log := world.log + [Paused(world.now)]);
        }
      case Unsuspend =>
        if world.suspended.Some? {
          world := world.(suspended := None, banked := PausedDuration(world),
                          log := world.log + [Resumed(world.now)]);
        }
      case Observed => world := world.(log := world.log + [Progress(world.now)]);
      case SelfReport =>
        var timing := Status(world.log, None, world.now);
        if timing.value.remaining > 0 {
          world := world.(log := world.log + [Progress(world.now)]);
        }
    }

    /** The deadline passed: re-read the log, and sample the workspace before ruling. */
    method OnTimer()
      requires Good(View()) && phase.Watching?
      modifies this`lastMs, this`lastProgress, this`sample
      ensures View() == Apply(old(View()), Timer)
      ensures old(sample).Some? ==> sample == old(sample)
      ensures old(sample).None? ==> (sample.Some? <==> world.suspended.None? && Idle(world) >= budget)
      ensures old(sample).None? && sample.Some? ==>
                sample.value.wall == world.now && sample.value.mark == Mark(world.log)
    {
      if sample.None? {
        Renew();
        if world.suspended.None? && ActiveNow(world) - lastProgress >= budget {
          sample := Some(Sample(world.now, ActiveNow(world), lastProgress + budget, lastMs));
        }
      }
    }

    /** The sample is in: re-read the log once more, then rule. */
    method OnSample()
      requires Good(View()) && sample.Some? && (phase.Watching? || phase.Finishing?)
      modifies this`lastMs, this`lastProgress, this`sample, this`phase
      ensures View() == Apply(old(View()), SampleReturns)
      ensures sample == None
      ensures old(phase).Watching? ==>
                phase == if world.suspended.None? && Idle(world) >= budget
                         then Exhausted(world.now, old(sample).value) else Watching
      ensures old(phase).Finishing? ==>
                phase == if RunningIn(world.log, Mark(world.log), old(phase).wall) >= budget
                         then Exhausted(old(phase).wall, old(sample).value) else Completed
    {
      var taken := sample.value;
      Renew();
      if phase.Finishing? { OverdueIsIdle(View(), phase.wall); }
      sample := None;
      if phase.Finishing? {
        if phase.finished - lastProgress >= budget {
          phase := Exhausted(phase.wall, taken);
        } else {
          phase := Completed;
        }
      } else if world.suspended.None? && ActiveNow(world) - lastProgress >= budget {
        phase := Exhausted(world.now, taken);
      }
    }

    /** The work is done: it completes if it was in time, and is sampled for if it was late. */
    method OnWork()
      requires Good(View()) && phase.Watching?
      modifies this`lastMs, this`lastProgress, this`sample, this`phase
      ensures View() == Apply(old(View()), WorkReturns)
      ensures Idle(world) < budget ==> phase == Completed && sample == old(sample)
      ensures Idle(world) >= budget ==>
                && phase.Finishing? && phase.wall == world.now && sample.Some?
                && if old(sample).Some? then sample == old(sample)
                   else sample.value.wall == world.now && sample.value.mark == Mark(world.log)
    {
      var finished := ActiveNow(world);
      Renew();
      if finished - lastProgress >= budget {
        phase := Finishing(world.now, finished);
        if sample.None? {
          sample := Some(Sample(world.now, finished, lastProgress + budget, lastMs));
        }
      } else {
        phase := Completed;
      }
    }

    /** Serve one ready branch of the loop's select, or let the host act. */
    method Serve(a: Action)
      requires Good(View())
      modifies this
      ensures View() == Apply(old(View()), a) && Good(View())
    {
      ApplyKeepsGood(View(), a);
      if phase.Completed? || phase.Exhausted? {
      } else if Environmental(a) {
        Environment(a);
      } else if a.Timer? {
        if phase.Watching? { OnTimer(); }
      } else if a.SampleReturns? {
        if sample.Some? { OnSample(); }
      } else if a.WorkReturns? {
        if phase.Watching? { OnWork(); }
      } else if phase.Watching? {
        Renew();
      }
    }

    /** The whole loop, under any schedule. */
    method Supervise(schedule: seq<Action>)
      requires Good(View())
      modifies this
      ensures View() == Run(old(View()), schedule) && Good(View())
    {
      for i := 0 to |schedule|
        invariant View() == Run(old(View()), schedule[..i]) && Good(View())
      {
        RunStep(old(View()), schedule[..i], schedule[i]);
        assert schedule[..i] + [schedule[i]] == schedule[..i + 1];
        Serve(schedule[i]);
      }
      assert schedule[..|schedule|] == schedule;
    }
  }
}
