/**
 The AX worker process (scripts/ax_runner.py `Worker`): HTTP threads deliver the bootstrap
 packet, the main loop restarts a crashed daemon, and a signal stops everything.

 Each action is one block under the worker's lock. What Docker's state is at the moment it is
 read, and whether a file or process call succeeds, is chosen afresh for every action, so every
 interleaving with the Docker threads is covered. `validate` is the packet check.
 */
module AxWorker {
  import opened Options

  /** Docker as `launch` reads it. */
  datatype Gate = Open | Waiting | Shut

  /** Saving the packet can fail before it replaces the file, or after, when it is made durable. */
  datatype Saving = Saved | Unconfirmed | Lost

  /** The packet check, and whether a packet can be handed to a process in its environment: it must
      be UTF-8 without null characters, which the check does not ask for. */
  datatype Rules = Rules(validate: string -> Option<string>, passable: string -> bool)

  /** How `launch` ends: it returns, or raises one of two kinds of exception. */
  datatype Outcome = Returned | OsError | ValueError

  /** Processes are numbered in the order they are started; `exits` holds their exit status. */
  datatype State = State(stored: Option<string>, child: Option<nat>, pending: Option<string>, pendingRetry: nat,
                         stopping: bool, reported: bool, restartAt: Option<nat>,
                         launched: seq<string>, exits: map<nat, int>, doomed: Option<nat>, crashed: bool)

  datatype Action =
    | Accept(raw: string, saving: Saving, gate: Gate, starts: bool)
    | Observe(now: nat, pendingGate: Gate, pendingStarts: bool, restartGate: Gate, restartStarts: bool, readable: bool)
    | Exit(process: nat, code: int)
    | StopMark
    | StopKill(code: int)

  datatype Reply = Stored | Existing | Rejected | Conflicting | Draining | Unavailable

  const BACKOFF := 2000

  function Fresh(stored: Option<string>): State {
    State(stored, None, None, 0, false, false, None, [], map[], None, false)
  }

  predicate Live(s: State, p: nat) {
    p < |s.launched| && p !in s.exits
  }

  function Launched(rules: Rules, s: State, raw: string, gate: Gate, starts: bool): (State, Outcome) {
    if s.child.Some? then (s, Returned)
    else match gate
      case Shut => (s, OsError)
      case Waiting => (s.(pending := if s.pending.None? then Some(raw) else s.pending), Returned)
      case Open =>
        if !rules.passable(raw) then (s, ValueError)
        else if !starts then (s, OsError)
        else (s.(child := Some(|s.launched|), launched := s.launched + [raw], pending := None), Returned)
  }

  function ReplyAfter(outcome: Outcome, existed: bool): Reply {
    match outcome
    case OsError => Unavailable
    case ValueError => Rejected
    case Returned => if existed then Existing else Stored
  }

  function Accepted(rules: Rules, s: State, a: Action): (State, Reply)
    requires a.Accept?
  {
    if rules.validate(a.raw).None? then (s, Rejected)
    else if s.stopping then (s, Draining)
    else if s.stored.Some? && rules.validate(s.stored.value).None? then (s, Rejected)
    else if s.stored.Some? && rules.validate(s.stored.value) != rules.validate(a.raw) then (s, Conflicting)
    else if s.stored.None? && a.saving.Lost? then (s, Unavailable)
    else if s.stored.None? && a.saving.Unconfirmed? then (s.(stored := Some(a.raw)), Unavailable)
    else
      var raw := if s.stored.Some? then s.stored.value else a.raw;
      var (t, outcome) := Launched(rules, s.(stored := Some(raw)), raw, a.gate, a.starts);
      (t, ReplyAfter(outcome, s.stored.Some?))
  }

  /** A launch that waited for Docker. Only an operating system error is caught; any other ends the
      main loop, and with it the worker process. */
  function PendingLaunched(rules: Rules, s: State, a: Action): State
    requires a.Observe?
  {
    if s.stopping || s.pending.None? || a.now < s.pendingRetry then s
    else
      var (t, outcome) := Launched(rules, s, s.pending.value, a.pendingGate, a.pendingStarts);
      match outcome
      case Returned => t
      case OsError => t.(pendingRetry := a.now + BACKOFF)
      case ValueError => t.(crashed := true)
  }

  function ExitReported(s: State, now: nat): State
    requires s.child.Some? && s.child.value in s.exits
  {
    if s.reported then s
    else s.(reported := true, restartAt := if s.exits[s.child.value] != 0 then Some(now + BACKOFF) else None)
  }

  function Restarted(rules: Rules, s: State, a: Action): State
    requires a.Observe? && s.child.Some? && s.child.value in s.exits
  {
    if s.restartAt.None? || a.now < s.restartAt.value then s
    else if !a.readable || s.stored.None? || rules.validate(s.stored.value).None?
    then s.(restartAt := Some(a.now + BACKOFF))
    else
      var (t, outcome) := Launched(rules, s.(child := None), s.stored.value, a.restartGate, a.restartStarts);
      if outcome.Returned? then t.(reported := false, restartAt := None)
      else t.(child := s.child, restartAt := Some(a.now + BACKOFF))
  }

  function Observed(rules: Rules, s: State, a: Action): State
    requires a.Observe?
  {
    var t := PendingLaunched(rules, s, a);
    if t.crashed || t.stopping || t.child.None? || t.child.value !in t.exits then t
    else Restarted(rules, ExitReported(t, a.now), a)
  }

  function Apply(rules: Rules, s: State, a: Action): State {
    if s.crashed && !a.Exit? then s
    else match a
    case Accept(_, _, _, _) => Accepted(rules, s, a).0
    case Observe(_, _, _, _, _, _) => Observed(rules, s, a)
    case Exit(p, code) => if Live(s, p) then s.(exits := s.exits[p := code]) else s
    case StopMark => s.(stopping := true, pending := None, doomed := s.child)
    case StopKill(code) =>
      if s.doomed.Some? && Live(s, s.doomed.value) then s.(exits := s.exits[s.doomed.value := code]) else s
  }

  function Run(rules: Rules, s: State, actions: seq<Action>): State {
    if actions == [] then s
    else Apply(rules, Run(rules, s, actions[..|actions| - 1]), actions[|actions| - 1])
  }

  // ---------------------------------------------------------------- what every step keeps

  ghost predicate Good(s: State) {
    && (s.child.Some? ==> s.child.value < |s.launched|)
    && (forall p: nat :: Live(s, p) ==> s.child == Some(p))
    && (forall raw :: raw in s.launched ==> s.stored == Some(raw))
    && (s.pending.Some? ==> s.pending == s.stored)
    && (s.stopping ==> s.doomed == s.child && s.pending.None?)
    && (s.reported ==> s.child.Some? && s.child.value in s.exits)
    && (s.restartAt.Some? ==> s.reported && s.exits[s.child.value] != 0)
    && (s.crashed ==> !s.stopping && s.child.None?)
    && (forall p :: p in s.exits ==> p < |s.launched|)
  }

  lemma LaunchKeepsGood(rules: Rules, s: State, raw: string, gate: Gate, starts: bool)
    requires Good(s) && s.stored == Some(raw) && !s.stopping && !s.crashed
    requires s.child.None? ==> !s.reported
    ensures var t := Launched(rules, s, raw, gate, starts).0; Good(t) && s.launched <= t.launched
  {
    var t := Launched(rules, s, raw, gate, starts).0;
    forall p: nat | Live(t, p) ensures t.child == Some(p) {
      if p < |s.launched| { assert Live(s, p); }
    }
    assert forall p: nat :: p in t.exits ==> p in s.exits;
  }

  /** With the dead child forgotten, nothing is live. */
  lemma ClearedKeepsGood(s: State)
    requires Good(s) && !s.stopping && s.child.Some? && s.child.value in s.exits
    ensures Good(s.(child := None, reported := false, restartAt := None))
  {
    var cleared := s.(child := None, reported := false, restartAt := None);
    forall p: nat ensures !Live(cleared, p) {
      assert Live(s, p) || !Live(cleared, p);
    }
  }

  /** A failed relaunch leaves everything as it was; a successful one is a launch with the dead
      child forgotten. */
  lemma RelaunchCases(rules: Rules, s: State, raw: string, gate: Gate, starts: bool)
    ensures var (t, outcome) := Launched(rules, s.(child := None), raw, gate, starts);
            && (!outcome.Returned? ==> t.(child := s.child) == s)
            && t.(reported := false, restartAt := None)
               == Launched(rules, s.(child := None, reported := false, restartAt := None), raw, gate, starts).0
  {
  }

  lemma BackoffKeepsGood(s: State, at: nat)
    requires Good(s) && s.restartAt.Some?
    ensures Good(s.(restartAt := Some(at)))
  {
    var t := s.(restartAt := Some(at));
    forall p: nat ensures Live(t, p) == Live(s, p) {}
  }

  lemma RestartKeepsGood(rules: Rules, s: State, a: Action)
    requires Good(s) && !s.stopping && a.Observe? && s.child.Some? && s.child.value in s.exits && s.reported
    ensures var t := Restarted(rules, s, a); Good(t) && s.launched <= t.launched
  {
    if s.restartAt.Some? {
      BackoffKeepsGood(s, a.now + BACKOFF);
      if s.stored.Some? {
        ClearedKeepsGood(s);
        RelaunchCases(rules, s, s.stored.value, a.restartGate, a.restartStarts);
        LaunchKeepsGood(rules, s.(child := None, reported := false, restartAt := None), s.stored.value,
                        a.restartGate, a.restartStarts);
      }
    }
  }

  lemma PendingKeepsGood(rules: Rules, s: State, a: Action)
    requires Good(s) && a.Observe? && !s.crashed
    ensures var t := PendingLaunched(rules, s, a); Good(t) && s.launched <= t.launched && t.stored == s.stored
  {
    if s.pending.Some? && !s.stopping {
      LaunchKeepsGood(rules, s, s.pending.value, a.pendingGate, a.pendingStarts);
    }
  }

  lemma ReportKeepsGood(s: State, now: nat)
    requires Good(s) && s.child.Some? && s.child.value in s.exits
    ensures Good(ExitReported(s, now))
  {
    var t := ExitReported(s, now);
    forall p: nat ensures Live(t, p) == Live(s, p) {}
  }

  lemma ObserveKeepsGood(rules: Rules, s: State, a: Action)
    requires Good(s) && a.Observe? && !s.crashed
    ensures var t := Observed(rules, s, a); Good(t) && s.launched <= t.launched && t.stored == s.stored
  {
    PendingKeepsGood(rules, s, a);
    var t := PendingLaunched(rules, s, a);
    if !t.crashed && !t.stopping && t.child.Some? && t.child.value in t.exits {
      ReportKeepsGood(t, a.now);
      RestartKeepsGood(rules, ExitReported(t, a.now), a);
    }
  }

  lemma ExitKeepsGood(s: State, p: nat, code: int)
    requires Good(s) && Live(s, p)
    ensures Good(s.(exits := s.exits[p := code]))
  {
    var t := s.(exits := s.exits[p := code]);
    forall q: nat | Live(t, q) ensures t.child == Some(q) { assert Live(s, q); }
  }

  lemma StopMarkKeepsGood(s: State)
    requires Good(s) && !s.crashed
    ensures Good(s.(stopping := true, pending := None, doomed := s.child))
  {
    var t := s.(stopping := true, pending := None, doomed := s.child);
    forall p: nat ensures Live(t, p) == Live(s, p) {}
  }

  lemma ApplyKeepsGood(rules: Rules, s: State, a: Action)
    requires Good(s)
    ensures var t := Apply(rules, s, a);
            Good(t) && s.launched <= t.launched && (s.stored.Some? ==> t.stored == s.stored)
  {
    if s.crashed && !a.Exit? { return; }
    match a
    case Accept(raw, saving, gate, starts) =>
      if Apply(rules, s, a) != s {
        var kept := if s.stored.Some? then s.stored.value else raw;
        var saved := s.(stored := Some(kept));
        forall p: nat ensures Live(saved, p) == Live(s, p) {}
        LaunchKeepsGood(rules, saved, kept, gate, starts);
      }
    case Observe(_, _, _, _, _, _) => ObserveKeepsGood(rules, s, a);
    case Exit(p, code) => if Live(s, p) { ExitKeepsGood(s, p, code); }
    case StopMark => StopMarkKeepsGood(s);
    case StopKill(code) =>
      if s.doomed.Some? && Live(s, s.doomed.value) { ExitKeepsGood(s, s.doomed.value, code); }
  }

  lemma {:induction false} RunIsGood(rules: Rules, s: State, actions: seq<Action>)
    requires Good(s)
    ensures var t := Run(rules, s, actions);
            Good(t) && s.launched <= t.launched && (s.stored.Some? ==> t.stored == s.stored)
  {
    if actions == [] {
    } else {
      RunIsGood(rules, s, actions[..|actions| - 1]);
      ApplyKeepsGood(rules, Run(rules, s, actions[..|actions| - 1]), actions[|actions| - 1]);
    }
  }

  lemma {:induction false} RunSplits(rules: Rules, s: State, first: seq<Action>, rest: seq<Action>)
    ensures Run(rules, s, first + rest) == Run(rules, Run(rules, s, first), rest)
  {
    if rest == [] {
      assert first + rest == first;
    } else {
      var front := rest[..|rest| - 1];
      assert (first + rest)[..|first + rest| - 1] == first + front;
      RunSplits(rules, s, first, front);
    }
  }

  /** However the threads interleave, two daemons are never live together, every daemon was
      started from the stored packet, and a stored packet never changes. */
  lemma OneDaemonOnePacket(rules: Rules, stored: Option<string>, first: seq<Action>,
                           rest: seq<Action>)
    ensures var s, t := Run(rules, Fresh(stored), first), Run(rules, Fresh(stored), first + rest);
            && (forall p: nat, q: nat :: Live(t, p) && Live(t, q) ==> p == q)
            && (forall raw :: raw in t.launched ==> t.stored == Some(raw))
            && (s.stored.Some? ==> t.stored == s.stored)
  {
    RunIsGood(rules, Fresh(stored), first);
    RunSplits(rules, Fresh(stored), first, rest);
    RunIsGood(rules, Run(rules, Fresh(stored), first), rest);
  }

  // ---------------------------------------------------------------- stopping

  lemma {:induction false} NothingLaunchedAfterStop(rules: Rules, s: State, actions: seq<Action>)
    requires Good(s) && s.stopping
    ensures var t := Run(rules, s, actions);
            && Good(t) && t.stopping && t.launched == s.launched && t.child == s.child
            && forall p :: p in s.exits ==> p in t.exits
  {
    if actions == [] {
    } else {
      NothingLaunchedAfterStop(rules, s, actions[..|actions| - 1]);
      ApplyKeepsGood(rules, Run(rules, s, actions[..|actions| - 1]), actions[|actions| - 1]);
    }
  }

  /** Once `stop` has terminated the child it saw, no daemon is live and none ever will be. */
  lemma StopIsFinal(rules: Rules, s: State, code: int, actions: seq<Action>)
    requires Good(s) && s.stopping
    ensures var t := Run(rules, Apply(rules, s, StopKill(code)), actions);
            t.launched == s.launched && forall p: nat :: !Live(t, p)
  {
    var killed := Apply(rules, s, StopKill(code));
    ApplyKeepsGood(rules, s, StopKill(code));
    forall p: nat ensures !Live(killed, p) {
      assert Live(s, p) || !Live(killed, p);
    }
    NothingLaunchedAfterStop(rules, killed, actions);
    var t := Run(rules, killed, actions);
    forall p: nat ensures !Live(t, p) {
      assert Live(killed, p) || !Live(t, p);
    }
  }

  // ---------------------------------------------------------------- clean exits

  /** The worker's daemon finished with status 0. */
  ghost predicate Finished(s: State) {
    && Good(s) && s.child.Some? && s.child.value in s.exits && s.exits[s.child.value] == 0
    && s.restartAt.None?
  }

  lemma NothingLive(s: State)
    requires Good(s) && s.child.Some? && s.child.value in s.exits
    ensures forall p: nat :: !Live(s, p)
  {
    forall p: nat ensures !Live(s, p) {
      if Live(s, p) { assert false; }
    }
  }

  lemma FinishedStep(rules: Rules, s: State, a: Action)
    requires Finished(s)
    ensures var t := Apply(rules, s, a);
            Finished(t) && t.launched == s.launched && t.child == s.child && t.exits == s.exits
  {
    ApplyKeepsGood(rules, s, a);
    NothingLive(s);
    if a.Observe? {
      assert s.stopping || s.pending.None? || PendingLaunched(rules, s, a) == s;
      assert Restarted(rules, ExitReported(s, a.now), a) == ExitReported(s, a.now);
    }
  }

  /** A daemon that finished with status 0 is never started again by this worker. */
  lemma {:induction false} CleanExitIsFinal(rules: Rules, s: State, actions: seq<Action>)
    requires Good(s) && s.child.Some? && s.child.value in s.exits && s.exits[s.child.value] == 0
    ensures var t := Run(rules, s, actions);
            Finished(t) && t.launched == s.launched && t.child == s.child && s.exits == t.exits
  {
    if actions == [] {
    } else {
      var front := actions[..|actions| - 1];
      CleanExitIsFinal(rules, s, front);
      FinishedStep(rules, Run(rules, s, front), actions[|actions| - 1]);
    }
  }

  // ---------------------------------------------------------------- restarts

  /** The worker's daemon died with an error; its packet is good and its restart is due at `at`. */
  ghost predicate RestartDue(rules: Rules, s: State, at: nat) {
    && Good(s) && !s.stopping && !s.crashed && s.child.Some? && s.child.value in s.exits
    && s.reported && s.restartAt == Some(at)
    && s.stored.Some? && rules.validate(s.stored.value).Some? && rules.passable(s.stored.value)
  }

  lemma RestartWaitsStep(rules: Rules, s: State, at: nat, a: Action)
    requires RestartDue(rules, s, at) && !a.StopMark? && (a.Observe? ==> a.now < at)
    ensures var t := Apply(rules, s, a); RestartDue(rules, t, at) && t.launched == s.launched && t.stored == s.stored
  {
    ApplyKeepsGood(rules, s, a);
    NothingLive(s);
  }

  lemma {:induction false} RestartWaits(rules: Rules, s: State, at: nat, wait: seq<Action>)
    requires RestartDue(rules, s, at)
    requires forall a :: a in wait ==> !a.StopMark? && (a.Observe? ==> a.now < at)
    ensures var t := Run(rules, s, wait);
            RestartDue(rules, t, at) && t.launched == s.launched && t.stored == s.stored
  {
    if wait == [] {
    } else {
      var front := wait[..|wait| - 1];
      RestartWaits(rules, s, at, front);
      assert wait[|wait| - 1] in wait;
      RestartWaitsStep(rules, Run(rules, s, front), at, wait[|wait| - 1]);
    }
  }

  lemma RestartHappens(rules: Rules, s: State, at: nat, again: Action)
    requires RestartDue(rules, s, at)
    requires again.Observe? && again.now >= at && again.readable && again.restartGate.Open? && again.restartStarts
    ensures var u := Apply(rules, s, again);
            && u.launched == s.launched + [s.stored.value] && u.child == Some(|s.launched|)
            && Live(u, |s.launched|) && !u.reported && u.restartAt == None
  {
    ApplyKeepsGood(rules, s, again);
    NothingLive(s);
  }

  /**
   A crashed daemon is started again. Two seconds after the turn that found it dead with a status
   other than 0, and no sooner, a turn of the main loop starts a new daemon from the stored packet,
   whatever came between, unless the worker is stopped or the attempt itself fails: the packet
   cannot be read, Docker is not up, or the process does not start.
   */
  lemma CrashedDaemonIsRestarted(rules: Rules, s: State, found: Action, wait: seq<Action>, again: Action)
    requires Good(s) && !s.stopping && !s.crashed && !s.reported
    requires s.child.Some? && s.child.value in s.exits && s.exits[s.child.value] != 0
    requires s.stored.Some? && rules.validate(s.stored.value).Some? && rules.passable(s.stored.value)
    requires found.Observe? && again.Observe? && again.now >= found.now + 2000
    requires again.readable && again.restartGate.Open? && again.restartStarts
    requires forall a :: a in wait ==> !a.StopMark? && (a.Observe? ==> a.now < found.now + 2000)
    ensures var t := Run(rules, Apply(rules, s, found), wait);
            var u := Apply(rules, t, again);
            && t.launched == s.launched
            && u.launched == s.launched + [s.stored.value] && u.child == Some(|s.launched|) && Live(u, |s.launched|)
  {
    ApplyKeepsGood(rules, s, found);
    var t := Apply(rules, s, found);
    assert RestartDue(rules, t, found.now + 2000) && t.launched == s.launched && t.stored == s.stored;
    RestartWaits(rules, t, found.now + 2000, wait);
    RestartHappens(rules, Run(rules, t, wait), found.now + 2000, again);
  }

  // ---------------------------------------------------------------- packets that cannot be passed on

  /** A turn of the main loop ends the worker exactly when a launch that waited for Docker is due,
      Docker has settled, and the packet, though it passed the check, cannot be handed on. */
  lemma ObserveCrashesIff(rules: Rules, s: State, a: Action)
    requires Good(s) && !s.crashed && a.Observe?
    ensures Apply(rules, s, a).crashed <==>
              && !s.stopping && s.child.None? && s.pending.Some? && a.now >= s.pendingRetry
              && a.pendingGate.Open? && !rules.passable(s.pending.value)
  {
  }

  lemma CrashStep(rules: Rules, s: State, a: Action)
    requires Good(s) && (s.crashed ==> s.stored.Some? && !rules.passable(s.stored.value))
    ensures var t := Apply(rules, s, a); t.crashed ==> t.stored.Some? && !rules.passable(t.stored.value)
  {
    ApplyKeepsGood(rules, s, a);
    if a.Observe? && !s.crashed { ObserveCrashesIff(rules, s, a); }
  }

  /** In every run, a worker that ended did so on a stored packet that cannot be handed on: one
      restricted to packets that can never ends by itself. */
  lemma {:induction false} OnlyUnpassableCrashes(rules: Rules, stored: Option<string>, actions: seq<Action>)
    ensures var t := Run(rules, Fresh(stored), actions);
            t.crashed ==> t.stored.Some? && !rules.passable(t.stored.value)
  {
    if actions == [] {
    } else {
      var front := actions[..|actions| - 1];
      OnlyUnpassableCrashes(rules, stored, front);
      RunIsGood(rules, Fresh(stored), front);
      CrashStep(rules, Run(rules, Fresh(stored), front), actions[|actions| - 1]);
    }
  }

  /** Any such packet ends the worker in some run, and since it is stored, in each life after. */
  lemma UnpassableCrashes(rules: Rules, stored: Option<string>, raw: string) returns (actions: seq<Action>)
    requires rules.validate(raw).Some? && !rules.passable(raw) && (stored.Some? ==> stored == Some(raw))
    ensures var t := Run(rules, Fresh(stored), actions); t.crashed && t.stored == Some(raw)
  {
    var deliver, turn := Accept(raw, Saved, Waiting, true), Observe(0, Open, true, Open, true, true);
    actions := [deliver, turn];
    assert actions[..1] == [deliver] && [deliver][..0] == [];
    assert Run(rules, Fresh(stored), []) == Fresh(stored);
    var waiting := Run(rules, Fresh(stored), [deliver]);
    assert waiting == Fresh(stored).(stored := Some(raw), pending := Some(raw));
  }

  // ---------------------------------------------------------------- the worker

  class Worker {
    const rules: Rules
    var stored: Option<string>
    var child: Option<nat>
    var pending: Option<string>
    var pendingRetry: nat
    var stopping: bool
    var reported: bool
    var restartAt: Option<nat>
    // The processes and the target of a stop in progress, outside the object in the program.
    var launched: seq<string>
    var exits: map<nat, int>
    var doomed: Option<nat>
    var crashed: bool

    ghost function View(): State
      reads this
    {
      State(stored, child, pending, pendingRetry, stopping, reported, restartAt, launched, exits, doomed, crashed)
    }

    constructor (rules: Rules, stored: Option<string>)
      ensures View() == Fresh(stored) && Good(View()) && this.rules == rules
    {
      this.rules, this.stored := rules, stored;
      child, pending, pendingRetry, stopping, reported, restartAt := None, None, 0, false, false, None;
      launched, exits, doomed, crashed := [], map[], None, false;
    }

    method Launch(raw: string, gate: Gate, starts: bool) returns (outcome: Outcome)
      modifies this
      ensures (View(), outcome) == Launched(rules, old(View()), raw, gate, starts)
      // A child is never replaced. Without one, what happens is Docker's, the packet's and the system's say.
      ensures old(child).Some? ==> outcome == Returned && View() == old(View())
      ensures old(child).None? ==>
                match gate
                case Shut => outcome == OsError && View() == old(View())
                case Waiting =>
                  && outcome == Returned
                  && View() == old(View()).(pending := if old(pending).None? then Some(raw) else old(pending))
                case Open =>
                  if !rules.passable(raw) then outcome == ValueError && View() == old(View())
                  else if !starts then outcome == OsError && View() == old(View())
                  else
                    && outcome == Returned
                    && View() == old(View()).(child := Some(|old(launched)|), launched := old(launched) + [raw],
                                              pending := None)
    {
      if child.Some? { return Returned; }
      if gate == Shut { return OsError; }
      if gate == Waiting {
        if pending.None? { pending := Some(raw); }
        return Returned;
      }
      if !rules.passable(raw) { return ValueError; }
      if !starts { return OsError; }
      child := Some(|launched|);
      launched := launched + [raw];
      pending := None;
      outcome := Returned;
    }

    method AcceptPacket(raw: string, saving: Saving, gate: Gate, starts: bool) returns (reply: Reply)
      requires Good(View()) && !crashed
      modifies this
      ensures (View(), reply) == Accepted(rules, old(View()), Accept(raw, saving, gate, starts)) && Good(View())
      ensures reply.Stored? || reply.Existing? ==> stored.Some? && rules.validate(stored.value) == rules.validate(raw)
      // A bad packet, a stopping worker and another packet than the stored one change nothing.
      ensures rules.validate(raw) == None ==> reply == Rejected && View() == old(View())
      ensures rules.validate(raw) != None && stopping ==> reply == Draining && View() == old(View())
      ensures rules.validate(raw) != None && !stopping && old(stored).Some? &&
              rules.validate(old(stored).value) != rules.validate(raw) ==>
                && View() == old(View())
                && reply == if rules.validate(old(stored).value) == None then Rejected else Conflicting
      // The first packet is stored before anything is started from it.
      ensures rules.validate(raw) != None && !stopping && old(stored).None? && saving != Saved ==>
                reply == Unavailable && View() == old(View()).(stored := if saving == Lost then None else Some(raw))
      // The stored packet is started unless a daemon was started already.
      ensures rules.validate(raw) != None && !stopping &&
              (if old(stored).Some? then rules.validate(old(stored).value) == rules.validate(raw)
               else saving == Saved) ==>
                var packet, done := if old(stored).Some? then old(stored).value else raw,
                                    if old(stored).Some? then Existing else Stored;
                && stored == Some(packet)
                && if old(child).Some? then reply == done && child == old(child) && launched == old(launched)
                   else if gate == Waiting
                   then reply == done && child == None && launched == old(launched) && pending.Some?
                   else if gate == Open && rules.passable(packet) && starts
                   then reply == done && child == Some(|old(launched)|) && launched == old(launched) + [packet]
                   else
                     && child == None && launched == old(launched)
                     && reply == if gate == Open && !rules.passable(packet) then Rejected else Unavailable
    {
      ApplyKeepsGood(rules, View(), Accept(raw, saving, gate, starts));
      var value := rules.validate(raw);
      if value.None? { return Rejected; }
      if stopping { return Draining; }
      var existed := stored.Some?;
      var packet := raw;
      if existed {
        var kept := rules.validate(stored.value);
        if kept.None? { return Rejected; }
        if kept != value { return Conflicting; }
        packet := stored.value;
      } else {
        if saving.Lost? { return Unavailable; }
        stored := Some(raw);
        if saving.Unconfirmed? { return Unavailable; }
      }
      var outcome := Launch(packet, gate, starts);
      reply := ReplyAfter(outcome, existed);
    }

    method RetryPending(a: Action)
      requires Good(View()) && a.Observe? && !crashed
      modifies this
      ensures View() == PendingLaunched(rules, old(View()), a) && Good(View())
      ensures stopping || old(pending).None? || a.now < old(pendingRetry) || old(child).Some? ==>
                View() == old(View())
      ensures !stopping && old(pending).Some? && a.now >= old(pendingRetry) && old(child).None? ==>
                match a.pendingGate
                case Waiting => View() == old(View())
                case Shut => View() == old(View()).(pendingRetry := a.now + 2000)
                case Open =>
                  if !rules.passable(old(pending).value) then View() == old(View()).(crashed := true)
                  else if !a.pendingStarts then View() == old(View()).(pendingRetry := a.now + 2000)
                  else View() == old(View()).(child := Some(|old(launched)|), pending := None,
                                              launched := old(launched) + [old(pending).value])
    {
      PendingKeepsGood(rules, View(), a);
      if !stopping && pending.Some? && a.now >= pendingRetry {
        var outcome := Launch(pending.value, a.pendingGate, a.pendingStarts);
        match outcome {
          case Returned =>
          case OsError => pendingRetry := a.now + BACKOFF;
          case ValueError => crashed := true; // not caught: the main loop ends
        }
      }
    }

    method Restart(a: Action)
      requires Good(View()) && !stopping && a.Observe? && child.Some? && child.value in exits && reported
      modifies this
      ensures View() == Restarted(rules, old(View()), a) && Good(View())
      // Not before it is due; then the stored packet, if it can be read and is good, is started as in
      // `Launch`; a failure keeps the dead child and backs off again.
      ensures old(restartAt).None? || a.now < old(restartAt.value) ==> View() == old(View())
      ensures old(restartAt).Some? && a.now >= old(restartAt.value) ==>
                var good := a.readable && stored.Some? && rules.validate(stored.value) != None;
                if good && a.restartGate == Open && rules.passable(stored.value) && a.restartStarts then
                  View() == old(View()).(child := Some(|old(launched)|), launched := old(launched) + [stored.value],
                                         pending := None, reported := false, restartAt := None)
                else if good && a.restartGate == Waiting then
                  View() == old(View()).(child := None, reported := false, restartAt := None,
                                         pending := if old(pending).None? then stored else old(pending))
                else View() == old(View()).(restartAt := Some(a.now + 2000))
    {
      RestartKeepsGood(rules, View(), a);
      if restartAt.None? || a.now < restartAt.value { return; }
      var previous := child;
      child := None;
      var outcome := OsError;
      if a.readable && stored.Some? && rules.validate(stored.value).Some? {
        outcome := Launch(stored.value, a.restartGate, a.restartStarts);
      }
      if outcome.Returned? {
        reported, restartAt := false, None;
      } else {
        child, restartAt := previous, Some(a.now + BACKOFF);
      }
    }

    /** One turn of the main loop, under the lock. */
    method ObserveExit(a: Action)
      requires Good(View()) && a.Observe? && !crashed
      modifies this
      ensures View() == Apply(rules, old(View()), a) && Good(View())
      // A death is noticed once; only a status other than 0 asks for a restart, two seconds on.
      ensures !stopping && old(child).Some? && old(child.value) in exits && !old(reported) ==>
                View() == old(View()).(reported := true,
                                       restartAt := if exits[old(child).value] != 0 then Some(a.now + 2000) else None)
      ensures old(child).Some? && old(child.value) !in exits ==> View() == old(View())
      ensures stopping ==> View() == old(View())
    {
      ApplyKeepsGood(rules, View(), a);
      RetryPending(a);
      if crashed || stopping || child.None? || child.value !in exits { return; }
      ReportKeepsGood(View(), a.now);
      if !reported {
        reported := true;
        restartAt := if exits[child.value] != 0 then Some(a.now + BACKOFF) else None;
      }
      Restart(a);
    }

    /** The first half of `stop`, under the lock. */
    method BeginStop()
      requires Good(View()) && !crashed
      modifies this
      ensures View() == Apply(rules, old(View()), StopMark) && Good(View())
      ensures View() == old(View()).(stopping := true, pending := None, doomed := old(child))
    {
      ApplyKeepsGood(rules, View(), StopMark);
      stopping, pending, doomed := true, None, child;
    }

    /** The second half, which waits for the group to die without holding the lock. */
    method FinishStop(code: int)
      requires Good(View()) && stopping
      modifies this
      ensures View() == Apply(rules, old(View()), StopKill(code)) && Good(View())
      ensures forall p: nat :: !Live(View(), p)
    {
      ApplyKeepsGood(rules, View(), StopKill(code));
      StopIsFinal(rules, View(), code, []);
      if doomed.Some? && doomed.value < |launched| && doomed.value !in exits { exits := exits[doomed.value := code]; }
    }
  }
}
