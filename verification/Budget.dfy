/**
 The event log behind a step's progress budget, and the fold that turns it into
 elapsed, paused, idle and remaining time (src/budget.rs).

 Times are whole milliseconds. The reference the fold is measured against is a clock
 that looks at one millisecond at a time: `PausedAt` asks of a single instant whether
 the attempt was suspended, and the totals are counts of such instants.
 */
module Budget {
  import opened Options

  datatype Event =
    | Started(at: nat, budget: Option<nat>) // None: the step is exempt from budgets
    | Progress(at: nat)
    | Finished(timing: Timing)
    | Paused(at: nat)
    | Resumed(at: nat)

  datatype Timing =
    | Exempt(elapsed: nat, paused: nat)
    | Timed(elapsed: nat, paused: nat, idle: nat, budget: nat, remaining: nat)

  type Log = seq<Event>

  // ---------------------------------------------------------------- vocabulary

  predicate Ordered(log: Log) {
    forall i, j :: 0 <= i < j < |log| && !log[i].Finished? && !log[j].Finished? ==> log[i].at <= log[j].at
  }

  predicate Live(log: Log) {
    forall i :: 0 <= i < |log| ==> !log[i].Finished?
  }

  predicate Begun(log: Log) {
    exists i :: 0 <= i < |log| && log[i].Started?
  }

  function But(log: Log): Log
    requires log != []
  {
    log[..|log| - 1]
  }

  function Final(log: Log): Event
    requires log != []
  {
    log[|log| - 1]
  }

  /** Millisecond `t` is suspended when the latest switch stamped at or before it is a pause. */
  ghost predicate PausedAt(log: Log, t: nat) {
    if log == [] then false
    else match Final(log)
      case Paused(at) => at <= t || PausedAt(But(log), t)
      case Resumed(at) => t < at && PausedAt(But(log), t)
      case _ => PausedAt(But(log), t)
  }

  /** Suspended milliseconds of [from, upto). */
  ghost function PausedIn(log: Log, from: nat, upto: nat): nat {
    if upto <= from then 0
    else PausedIn(log, from, upto - 1) + if PausedAt(log, upto - 1) then 1 else 0
  }

  /** Running milliseconds of [from, upto). */
  ghost function RunningIn(log: Log, from: nat, upto: nat): nat {
    if upto <= from then 0
    else RunningIn(log, from, upto - 1) + if PausedAt(log, upto - 1) then 0 else 1
  }

  /** The instant idleness is counted from: the last start or progress report. */
  function Mark(log: Log): nat {
    if log == [] then 0
    else match Final(log)
      case Started(at, _) => at
      case Progress(at) => at
      case _ => Mark(But(log))
  }

  /** The start the report is about: the last one. */
  function Start(log: Log): Event
    requires Begun(log)
    ensures Start(log).Started? && Start(log) in log
  {
    if Final(log).Started? then Final(log)
    else
      assert forall i :: 0 <= i < |log| && log[i].Started? ==> log[i] == But(log)[i];
      Start(But(log))
  }

  function MonusNat(a: nat, b: nat): nat {
    if a < b then 0 else a - b
  }

  // ---------------------------------------------------------------- the fold

  type Span = (nat, nat)

  function Clip(p: Span, since: nat, end: nat): nat {
    MonusNat(if p.1 < end then p.1 else end, if p.0 > since then p.0 else since)
  }

  ghost function SumClipped(pauses: seq<Span>, since: nat, end: nat): nat {
    if pauses == [] then 0
    else SumClipped(pauses[..|pauses| - 1], since, end) + Clip(pauses[|pauses| - 1], since, end)
  }

  /** How many of the recorded intervals contain millisecond `t`. */
  ghost function Hits(pauses: seq<Span>, t: nat): nat {
    if pauses == [] then 0
    else Hits(pauses[..|pauses| - 1], t) +
         if pauses[|pauses| - 1].0 <= t < pauses[|pauses| - 1].1 then 1 else 0
  }

  lemma {:induction false} SumGrowsByHits(pauses: seq<Span>, since: nat, end: nat)
    requires since <= end
    ensures SumClipped(pauses, since, end + 1) == SumClipped(pauses, since, end) + Hits(pauses, end)
  {
    if pauses == [] {
    } else {
      SumGrowsByHits(pauses[..|pauses| - 1], since, end);
    }
  }

  lemma {:induction false} SumStartsEmpty(pauses: seq<Span>, since: nat, end: nat)
    requires end <= since
    ensures SumClipped(pauses, since, end) == 0
  {
    if pauses == [] {
    } else {
      SumStartsEmpty(pauses[..|pauses| - 1], since, end);
    }
  }

  /** Clipping intervals and adding their lengths counts suspended milliseconds, provided
      each millisecond lies in at most one interval and lies in one exactly when suspended. */
  lemma {:induction false} SumIsCount(log: Log, pauses: seq<Span>, since: nat, end: nat)
    requires forall t: nat | t < end :: Hits(pauses, t) == if PausedAt(log, t) then 1 else 0
    ensures SumClipped(pauses, since, end) == PausedIn(log, since, end)
  {
    if end <= since {
      SumStartsEmpty(pauses, since, end);
    } else {
      SumIsCount(log, pauses, since, end - 1);
      SumGrowsByHits(pauses, since, end - 1);
    }
  }

  /** What a status report must say about an unfinished log read at `end`. */
  ghost predicate ReportsPointwise(log: Log, end: nat, timing: Timing)
    requires Begun(log)
  {
    var start := Start(log);
    && timing.elapsed == MonusNat(end, start.at)
    && timing.paused == PausedIn(log, start.at, end)
    && timing.Exempt? == start.budget.None?
    && (timing.Timed? ==>
          && timing.budget == start.budget.value
          && timing.idle == RunningIn(log, Mark(log), end)
          && timing.remaining == MonusNat(timing.budget, timing.idle))
  }

  /** The `paused_since` closure of the report. */
  method PausedSince(pauses: seq<Span>, since: nat, end: nat) returns (total: nat)
    ensures total == SumClipped(pauses, since, end)
  {
    total := 0;
    for i := 0 to |pauses|
      invariant total == SumClipped(pauses[..i], since, end)
    {
      assert pauses[..i + 1][..i] == pauses[..i];
      total := total + Clip(pauses[i], since, end);
    }
    assert pauses[..|pauses|] == pauses;
  }

  /** The intervals recorded so far, with the open one, hit `t` exactly when it is suspended. */
  ghost predicate Tracks(log: Log, pauses: seq<Span>, open: Option<nat>, t: nat) {
    Hits(pauses, t) + (if open.Some? && open.value <= t then 1 else 0) == if PausedAt(log, t) then 1 else 0
  }

  /** What one event does to the recorded intervals. */
  function Recorded(e: Event, pauses: seq<Span>, open: Option<nat>): (seq<Span>, Option<nat>) {
    match e
    case Paused(at) => (pauses, if open.None? then Some(at) else open)
    case Resumed(at) => if open.Some? then (pauses + [(open.value, at)], None) else (pauses, open)
    case _ => (pauses, open)
  }

  lemma HitsOneMore(pauses: seq<Span>, p: Span, t: nat)
    ensures Hits(pauses + [p], t) == Hits(pauses, t) + if p.0 <= t < p.1 then 1 else 0
  {
    assert (pauses + [p])[..|pauses|] == pauses;
  }

  /** Folding one event keeps the recorded intervals in agreement with the pointwise clock. */
  lemma TrackStep(log: Log, pauses: seq<Span>, open: Option<nat>, e: Event, t: nat)
    requires !e.Finished?
    requires Tracks(log, pauses, open, t)
    requires e.at <= t ==> (PausedAt(log, t) <==> open.Some?)
    requires open.Some? ==> open.value <= e.at
    ensures var (more, now) := Recorded(e, pauses, open); Tracks(log + [e], more, now, t)
  {
    assert But(log + [e]) == log;
    if e.Resumed? && open.Some? { HitsOneMore(pauses, (open.value, e.at), t); }
  }

  /** What the loop over a prefix of an ordered log has found. */
  ghost predicate Agrees(log: Log, last: nat, pauses: seq<Span>, open: Option<nat>)
    requires Live(log)
  {
    && last == Mark(log)
    && (forall t: nat :: Tracks(log, pauses, open, t))
    && (log == [] ==> open.None?)
    && (log != [] ==>
          && last <= Final(log).at
          && (open.Some? ==> open.value <= Final(log).at)
          && forall t: nat :: Final(log).at <= t ==> (PausedAt(log, t) <==> open.Some?))
  }

  lemma AgreeStep(log: Log, e: Event, last: nat, pauses: seq<Span>, open: Option<nat>)
    requires Live(log) && !e.Finished? && Agrees(log, last, pauses, open)
    requires log != [] ==> Final(log).at <= e.at
    ensures Live(log + [e])
    ensures var (more, now) := Recorded(e, pauses, open);
            Agrees(log + [e], if e.Started? || e.Progress? then e.at else last, more, now)
  {
    var (more, now) := Recorded(e, pauses, open);
    assert But(log + [e]) == log;
    forall t: nat ensures Tracks(log + [e], more, now, t) {
      assert Tracks(log, pauses, open, t);
      assert log == [] ==> !PausedAt(log, t);
      TrackStep(log, pauses, open, e, t);
    }
  }

  /** Closing the open interval at the end of the report makes the sums count the window. */
  lemma ClosingCounts(log: Log, closed: seq<Span>, open: Option<nat>, pauses: seq<Span>, since: nat, end: nat)
    requires forall t: nat :: Tracks(log, closed, open, t)
    requires pauses == if open.Some? then closed + [(open.value, end)] else closed
    ensures SumClipped(pauses, since, end) == PausedIn(log, since, end)
  {
    forall t: nat | t < end ensures Hits(pauses, t) == if PausedAt(log, t) then 1 else 0 {
      assert Tracks(log, closed, open, t);
      if open.Some? { HitsOneMore(closed, (open.value, end), t); }
    }
    SumIsCount(log, pauses, since, end);
  }

  lemma StartStep(log: Log, e: Event)
    ensures Begun(log + [e]) <==> Begun(log) || e.Started?
    ensures Begun(log + [e]) ==> Start(log + [e]) == if e.Started? then e else Start(log)
  {
    assert But(log + [e]) == log;
    if e.Started? { assert (log + [e])[|log|].Started?; }
    if Begun(log) {
      var i :| 0 <= i < |log| && log[i].Started?;
      assert (log + [e])[i].Started?;
    }
  }

  /** Every millisecond is either suspended or running. */
  lemma {:induction false} Partition(log: Log, from: nat, upto: nat)
    ensures PausedIn(log, from, upto) + RunningIn(log, from, upto) == MonusNat(upto, from)
  {
    if upto <= from {
    } else {
      Partition(log, from, upto - 1);
    }
  }

  /** The counts are cardinalities: one for every suspended, or running, millisecond of the window. */
  lemma {:induction false} CountsMilliseconds(log: Log, from: nat, upto: nat, suspended: set<nat>, running: set<nat>)
    requires forall t :: t in suspended <==> from <= t < upto && PausedAt(log, t)
    requires forall t :: t in running <==> from <= t < upto && !PausedAt(log, t)
    ensures PausedIn(log, from, upto) == |suspended|
    ensures RunningIn(log, from, upto) == |running|
  {
    if upto <= from {
      assert suspended == {} && running == {};
    } else {
      var last := upto - 1;
      CountsMilliseconds(log, from, last, suspended - {last}, running - {last});
      assert last in suspended <==> last !in running;
    }
  }

  lemma {:induction false} PauseHolds(log: Log, t: nat, i: nat)
    requires i < |log| && log[i].Paused? && log[i].at <= t
    requires forall j :: i < j < |log| && log[j].Resumed? ==> t < log[j].at
    ensures PausedAt(log, t)
  {
    if i == |log| - 1 {
    } else {
      PauseHolds(But(log), t, i);
    }
  }

  lemma {:induction false} PauseBehind(log: Log, t: nat) returns (i: nat)
    requires PausedAt(log, t)
    ensures i < |log| && log[i].Paused? && log[i].at <= t
    ensures forall j :: i < j < |log| && log[j].Resumed? ==> t < log[j].at
  {
    if Final(log).Paused? && Final(log).at <= t {
      i := |log| - 1;
    } else {
      i := PauseBehind(But(log), t);
      assert forall j :: 0 <= j < |log| - 1 ==> But(log)[j] == log[j];
    }
  }

  /** A millisecond is suspended exactly when some pause at or before it has no later
      resume at or before it. */
  lemma PausedAtMeans(log: Log, t: nat)
    ensures PausedAt(log, t) <==>
            exists i: nat :: i < |log| && log[i].Paused? && log[i].at <= t &&
                             forall j :: i < j < |log| && log[j].Resumed? ==> t < log[j].at
  {
    if PausedAt(log, t) { var _ := PauseBehind(log, t); }
    if i: nat :| i < |log| && log[i].Paused? && log[i].at <= t &&
                 forall j :: i < j < |log| && log[j].Resumed? ==> t < log[j].at {
      PauseHolds(log, t, i);
    }
  }

  /** Idleness is counted from the latest start or report, and the report is about the latest start. */
  lemma {:induction false} LatestDecides(log: Log, i: nat)
    requires i < |log|
    ensures (log[i].Started? || log[i].Progress?)
            && (forall j :: i < j < |log| ==> !log[j].Started? && !log[j].Progress?)
            ==> Mark(log) == log[i].at
    ensures log[i].Started? && (forall j :: i < j < |log| ==> !log[j].Started?)
            ==> Begun(log) && Start(log) == log[i]
  {
    if i == |log| - 1 {
    } else {
      LatestDecides(But(log), i);
      assert log == But(log) + [Final(log)];
      assert log[i] == But(log)[i] && forall j :: i < j < |log| - 1 ==> But(log)[j] == log[j];
      StartStep(But(log), Final(log));
    }
  }

  /**
   Read an attempt's log at `now`, or at the finish time its row records. For a log whose
   stamps never decrease the answer is the pointwise one; a finished log answers with
   the timing it was closed with, and one that never started answers nothing.
   */
  method Status(log: Log, finished: Option<nat>, now: nat) returns (report: Option<Timing>)
    ensures !Live(log) ==>
              exists k :: 0 <= k < |log| && log[k].Finished? && Live(log[..k]) && report == Some(log[k].timing)
    ensures Live(log) && !Begun(log) ==> report == None
    ensures Live(log) && Begun(log) && Ordered(log) ==>
              report.Some? && ReportsPointwise(log, if finished.Some? then finished.value else now, report.value)
    ensures Live(log) && Begun(log) && Ordered(log) ==>
              var end := if finished.Some? then finished.value else now;
              && report.Some?
              && report.value.elapsed == (if Start(log).at <= end then end - Start(log).at else 0)
              && report.value.paused == PausedIn(log, Start(log).at, end)
              && (report.value.Exempt? <==> Start(log).budget.None?)
              && (report.value.Timed? ==>
                    && report.value.budget == Start(log).budget.value
                    && report.value.idle == RunningIn(log, Mark(log), end)
                    && report.value.remaining == (if report.value.idle <= report.value.budget
                                                  then report.value.budget - report.value.idle else 0))
  {
    var started: Option<Event> := None;
    var last: nat := 0;
    var pauses: seq<Span> := [];
    var pausedAt: Option<nat> := None;
    for i := 0 to |log|
      invariant Live(log[..i])
      invariant started.Some? <==> Begun(log[..i])
      invariant started.Some? ==> started.value == Start(log[..i])
      invariant Ordered(log) ==> Agrees(log[..i], last, pauses, pausedAt)
    {
      assert log[..i + 1] == log[..i] + [log[i]];
      if Ordered(log) && !log[i].Finished? {
        assert i > 0 ==> !log[..i][i - 1].Finished? && Final(log[..i]) == log[i - 1];
        AgreeStep(log[..i], log[i], last, pauses, pausedAt);
      }
      StartStep(log[..i], log[i]);
      match log[i] {
        case Started(at, budget) =>
          last := at;
          started := Some(log[i]);
        case Progress(at) =>
          last := if at > last then at else last;
        case Finished(timing) =>
          return Some(timing);
        case Paused(at) =>
          if pausedAt.None? { pausedAt := Some(at); }
        case Resumed(at) =>
          if pausedAt.Some? {
            pauses := pauses + [(pausedAt.value, at)];
            pausedAt := None;
          }
      }
    }
    assert log[..|log|] == log;
    if started.None? { return None; }
    var end := if finished.Some? then finished.value else now;
    var elapsed := MonusNat(end, started.value.at);
    ghost var closed, open := pauses, pausedAt;
    if pausedAt.Some? { pauses := pauses + [(pausedAt.value, end)]; }
    if Ordered(log) {
      ClosingCounts(log, closed, open, pauses, started.value.at, end);
      ClosingCounts(log, closed, open, pauses, last, end);
      Partition(log, last, end);
    }
    var paused := PausedSince(pauses, started.value.at, end);
    if started.value.budget.None? { return Some(Exempt(elapsed, paused)); }
    var pausedIdle := PausedSince(pauses, last, end);
    var idle := MonusNat(MonusNat(end, last), pausedIdle);
    var budget := started.value.budget.value;
    report := Some(Timed(elapsed, paused, idle, budget, MonusNat(budget, idle)));
  }

  // ---------------------------------------------------------------- laws of the clock

  lemma {:induction false} RunningSplits(log: Log, a: nat, b: nat, c: nat)
    requires a <= b <= c
    ensures RunningIn(log, a, c) == RunningIn(log, a, b) + RunningIn(log, b, c)
    decreases c
  {
    if c <= b {
    } else {
      RunningSplits(log, a, b, c - 1);
    }
  }

  lemma {:induction false} MarkFollowsStart(log: Log)
    requires Live(log) && Begun(log) && Ordered(log)
    ensures Start(log).at <= Mark(log) <= Final(log).at
  {
    StartStep(But(log), Final(log));
    assert log == But(log) + [Final(log)];
    if !Final(log).Started? {
      MarkFollowsStart(But(log));
    }
  }

  /** Idle and suspended time never overlap, so no subtraction in a report underflows. */
  lemma IdleAndPausedFit(log: Log, end: nat, timing: Timing)
    requires Live(log) && Begun(log) && Ordered(log)
    requires timing.Timed? && ReportsPointwise(log, end, timing)
    ensures timing.idle + timing.paused <= timing.elapsed
    ensures timing.idle + timing.paused == timing.elapsed <==>
            end <= Start(log).at || RunningIn(log, Start(log).at, if Mark(log) < end then Mark(log) else end) == 0
  {
    MarkFollowsStart(log);
    var start := Start(log).at;
    Partition(log, start, end);
    if Mark(log) <= end { RunningSplits(log, start, Mark(log), end); }
  }

  lemma {:induction false} Uniform(log: Log, from: nat, upto: nat)
    requires from <= upto
    ensures (forall t: nat | from <= t < upto :: PausedAt(log, t)) ==> RunningIn(log, from, upto) == 0
    ensures (forall t: nat | from <= t < upto :: !PausedAt(log, t)) ==> RunningIn(log, from, upto) == upto - from
    decreases upto
  {
    if upto <= from {
    } else {
      Uniform(log, from, upto - 1);
    }
  }

  /** Waiting adds to idle exactly the running milliseconds waited: none while suspended
      throughout, and one per millisecond while never suspended. */
  lemma {:induction false} IdleOverWindow(log: Log, from: nat, upto: nat, before: Timing, after: Timing)
    requires Begun(log) && Mark(log) <= from <= upto
    requires before.Timed? && ReportsPointwise(log, from, before)
    requires after.Timed? && ReportsPointwise(log, upto, after)
    ensures after.idle == before.idle + RunningIn(log, from, upto)
    ensures (forall t: nat | from <= t < upto :: PausedAt(log, t)) ==>
              after.idle == before.idle && after.remaining == before.remaining
    ensures (forall t: nat | from <= t < upto :: !PausedAt(log, t)) ==>
              after.idle == before.idle + (upto - from)
  {
    RunningSplits(log, Mark(log), from, upto);
    Uniform(log, from, upto);
  }

  /** Events stamped now or later never rewrite what was read before now. */
  lemma {:induction false} HistoryIsStable(log: Log, e: Event, from: nat, upto: nat)
    requires e.Finished? || upto <= e.at
    ensures PausedIn(log + [e], from, upto) == PausedIn(log, from, upto)
    ensures RunningIn(log + [e], from, upto) == RunningIn(log, from, upto)
    decreases upto
  {
    if upto <= from {
    } else {
      HistoryIsStable(log, e, from, upto - 1);
      assert But(log + [e]) == log;
    }
  }
}
