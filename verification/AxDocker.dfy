/**
 Docker supervised inside an AX worker (scripts/ax_docker.py `DockerService`): the HTTP and
 monitor threads start and check it, one prepare thread brings it up, and a stop thread ends it.

 Steps are as fine as the program's locking allows: a cancellation may be raised by the stop
 thread inside another thread's critical section, because `cancel` is set without the lock.
 Processes are numbered in the order they are started.
 */
module AxDocker {
  import opened Options

  datatype Phase = Idle | Starting | Ready | Failed | Stopped

  /** A critical section of the prepare thread, entered after it looked at `cancel`. */
  datatype Section = Spawning(daemon: bool) | MarkingReady | MarkingFailed

  /** The prepare thread: setting up, possibly with one command running; cleaning up; finished. */
  datatype Prepare = NotStarted | Working(command: Option<nat>) | Cleaning(left: set<nat>) | Finished

  datatype Stop = NotCalled | Cancelling | Marked | Reaping(targets: set<nat>) | Done

  datatype State = State(phase: Phase, cancel: bool, children: set<nat>, daemon: Option<nat>, section: Option<Section>,
                         prepare: Prepare, stop: Stop, spawned: nat, dockerds: set<nat>, reaped: set<nat>,
                         abandoned: set<nat>)

  datatype Who = Preparer | Stopper

  datatype Action =
    | Start
    | EnterSpawn(dockerd: bool) | FinishSpawn(succeeds: bool)
    | CommandEnds | CommandOutlives | ForgetCommand
    | EnterReady | FinishReady
    | Break // any other exception in the prepare thread
    | Terminate(who: Who, child: nat, dies: bool)
    | EnterFailed | FinishFailed
    | Check(dockerdDead: bool)
    | StopCancel | StopMark | StopTake | StopEnd

  const FRESH := State(Idle, false, {}, None, None, NotStarted, NotCalled, 0, {}, {}, {})

  /** The prepare thread takes over the tracked children when it fails. */
  function Clean(s: State): State {
    s.(prepare := Cleaning(s.children), children := {})
  }

  predicate Idling(s: State) {
    s.section.None? && s.prepare == Working(None)
  }

  function Spawned(s: State, daemon: bool): State {
    var child := s.spawned;
    var t := s.(spawned := child + 1, children := s.children + {child}, section := None);
    if daemon then t.(daemon := Some(child), dockerds := s.dockerds + {child})
    else t.(prepare := Working(Some(child)))
  }

  /** One `terminate_group`. When the process outlives its last wait, the exception ends the
      whole clean-up and the children still on the list are dropped with it. */
  function Terminated(s: State, who: Who, child: nat, dies: bool): State {
    match (who, s.prepare, s.stop)
    case (Preparer, Cleaning(left), _) =>
      if child !in left then s
      else if dies then s.(prepare := Cleaning(left - {child}), reaped := s.reaped + {child})
      else s.(prepare := Finished, abandoned := s.abandoned + left)
    case (Stopper, _, Reaping(targets)) =>
      if child !in targets then s
      else if dies then s.(stop := Reaping(targets - {child}), reaped := s.reaped + {child})
      else s.(stop := Done, abandoned := s.abandoned + targets)
    case _ => s
  }

  function Apply(s: State, a: Action): State {
    match a
    case Start =>
      if s.section.None? && s.phase.Idle? then s.(phase := Starting, prepare := Working(None)) else s
    case EnterSpawn(dockerd) =>
      if !Idling(s) || (dockerd && s.daemon.Some?) then s
      else if s.cancel then s.(prepare := Finished)
      else s.(section := Some(Spawning(dockerd)))
    case FinishSpawn(succeeds) =>
      (match s.section
       case Some(Spawning(daemon)) =>
         if succeeds then Spawned(s, daemon) else s.(section := None)
       case _ => s)
    case CommandEnds =>
      (match s.prepare
       case Working(Some(child)) => s.(reaped := s.reaped + {child})
       case _ => s)
    case CommandOutlives =>
      (match s.prepare
       case Working(Some(child)) =>
         if s.section.None? && child !in s.reaped
         then s.(abandoned := s.abandoned + {child}, children := s.children - {child}, prepare := Working(None)) else s
       case _ => s)
    case ForgetCommand =>
      (match s.prepare
       case Working(Some(child)) =>
         if s.section.None? && child in s.reaped
         then s.(children := s.children - {child}, prepare := Working(None)) else s
       case _ => s)
    case EnterReady =>
      if !Idling(s) || s.daemon.None? then s
      else if s.cancel then s.(prepare := Finished)
      else s.(section := Some(MarkingReady))
    case FinishReady =>
      if s.section == Some(MarkingReady) then s.(phase := Ready, section := None, prepare := Finished) else s
    case Break => if Idling(s) then Clean(s) else s
    case Terminate(who, child, dies) => Terminated(s, who, child, dies)
    case EnterFailed =>
      if s.section.None? && s.prepare == Cleaning({})
      then (if s.cancel then s.(prepare := Finished) else s.(section := Some(MarkingFailed)))
      else s
    case FinishFailed =>
      if s.section == Some(MarkingFailed) then s.(phase := Failed, section := None, prepare := Finished) else s
    case Check(dead) =>
      if s.section.None? && s.phase.Ready? && s.daemon.Some? && dead
      then s.(phase := Failed, reaped := s.reaped + {s.daemon.value}) else s
    case StopCancel => if s.stop.NotCalled? then s.(cancel := true, stop := Cancelling) else s
    case StopMark =>
      if s.section.None? && s.stop.Cancelling? then s.(phase := Stopped, stop := Marked) else s
    case StopTake =>
      if s.section.None? && s.stop.Marked? then s.(stop := Reaping(s.children), children := {}) else s
    case StopEnd => if s.stop == Reaping({}) then s.(stop := Done) else s
  }

  function Run(s: State, actions: seq<Action>): State {
    if actions == [] then s else Apply(Run(s, actions[..|actions| - 1]), actions[|actions| - 1])
  }

  // ---------------------------------------------------------------- what every step keeps

  /** Who is still responsible for a process. */
  ghost predicate Tracked(s: State, child: nat) {
    || child in s.children || child in s.reaped || child in s.abandoned
    || (s.prepare.Cleaning? && child in s.prepare.left)
    || (s.stop.Reaping? && child in s.stop.targets)
  }

  /** Only processes that were started are tracked or given up. */
  ghost predicate Known(s: State) {
    && (forall c :: c in s.children || c in s.abandoned ==> c < s.spawned)
    && (s.prepare.Cleaning? ==> forall c :: c in s.prepare.left ==> c < s.spawned)
    && (s.prepare.Working? && s.prepare.command.Some? ==> s.prepare.command.value < s.spawned)
    && (s.stop.Reaping? ==> forall c :: c in s.stop.targets ==> c < s.spawned)
  }

  /** The part of the invariant about who may be doing what. */
  ghost predicate Staged(s: State) {
    && (s.stop.NotCalled? <==> !s.cancel)
    && (s.phase.Stopped? <==> s.stop.Marked? || s.stop.Reaping? || s.stop.Done?)
    && (s.section.Some? ==> !s.phase.Stopped? && !s.phase.Idle?)
    && (s.section.Some? ==>
          s.prepare == if s.section.value.MarkingFailed? then Cleaning({}) else Working(None))
    && (s.section == Some(Spawning(true)) ==> s.daemon.None?)
    && (s.phase.Idle? ==> s.prepare.NotStarted?)
    && (s.prepare.Working? || s.prepare.Cleaning? ==> s.phase.Starting? || s.phase.Stopped?)
    && (s.phase.Ready? || s.phase.Failed? ==> s.prepare.Finished?)
    && (forall d :: d in s.dockerds ==> s.daemon == Some(d))
    && (s.stop.Reaping? || s.stop.Done? ==> s.children == {})
  }

  ghost predicate Good(s: State) {
    Staged(s) && Known(s) && forall child: nat :: child < s.spawned ==> Tracked(s, child)
  }

  function Rank(p: Phase): nat {
    match p case Idle => 0 case Starting => 1 case Ready => 2 case Failed => 3 case Stopped => 4
  }

  lemma TerminateKeepsGood(s: State, who: Who, child: nat, dies: bool)
    requires Good(s)
    ensures Good(Terminated(s, who, child, dies))
  {
    var t := Terminated(s, who, child, dies);
    forall c: nat | c < t.spawned ensures Tracked(t, c) { assert Tracked(s, c); }
  }

  lemma ApplyKeepsGood(s: State, a: Action)
    requires Good(s)
    ensures var t := Apply(s, a);
            && Good(t) && Rank(s.phase) <= Rank(t.phase) && (s.phase.Stopped? ==> t.spawned == s.spawned)
            && (s.stop.Reaping? || s.stop.Done? ==> t.stop.Reaping? || t.stop.Done?)
  {
    var t := Apply(s, a);
    if a.Terminate? {
      TerminateKeepsGood(s, a.who, a.child, a.dies);
    } else {
      forall c: nat | c < t.spawned ensures Tracked(t, c) {
        if c < s.spawned { assert Tracked(s, c); }
      }
    }
  }

  lemma {:induction false} RunIsGood(s: State, actions: seq<Action>)
    requires Good(s)
    ensures var t := Run(s, actions);
            && Good(t) && Rank(s.phase) <= Rank(t.phase) && (s.phase.Stopped? ==> t.spawned == s.spawned)
            && (s.stop.Reaping? || s.stop.Done? ==> t.stop.Reaping? || t.stop.Done?)
  {
    if actions == [] {
    } else {
      RunIsGood(s, actions[..|actions| - 1]);
      ApplyKeepsGood(Run(s, actions[..|actions| - 1]), actions[|actions| - 1]);
    }
  }

  lemma {:induction false} RunSplits(s: State, first: seq<Action>, rest: seq<Action>)
    ensures Run(s, first + rest) == Run(Run(s, first), rest)
  {
    if rest == [] {
      assert first + rest == first;
    } else {
      var front := rest[..|rest| - 1];
      assert (first + rest)[..|first + rest| - 1] == first + front;
      RunSplits(s, first, front);
    }
  }

  /** The service never goes back: not from failed to ready, and from stopped nowhere. After it
      is stopped no process is spawned, once the stop thread has taken the children none is tracked
      again, and there was at most one Docker daemon in all. */
  lemma StoppedIsFinal(first: seq<Action>, rest: seq<Action>)
    ensures var s, t := Run(FRESH, first), Run(FRESH, first + rest);
            && Rank(s.phase) <= Rank(t.phase)
            && (s.phase.Stopped? ==> t.phase.Stopped? && t.spawned == s.spawned)
            && (s.stop.Reaping? || s.stop.Done? ==> t.children == {})
            && (forall d, e :: d in t.dockerds && e in t.dockerds ==> d == e)
  {
    RunIsGood(FRESH, first);
    RunSplits(FRESH, first, rest);
    RunIsGood(Run(FRESH, first), rest);
  }

  // ---------------------------------------------------------------- reaping

  /** `stop` has returned from its clean-up and the prepare thread has ended. */
  predicate Quiet(s: State) {
    s.stop.Done? && (s.prepare.NotStarted? || s.prepare.Finished?)
  }

  /** Some process outlived the last wait of its `terminate_group`. */
  predicate TimedOut(a: Action) {
    a.CommandOutlives? || (a.Terminate? && !a.dies)
  }

  lemma {:induction false} NothingAbandoned(actions: seq<Action>)
    requires forall a :: a in actions ==> !TimedOut(a)
    ensures Run(FRESH, actions).abandoned == {}
  {
    if actions == [] {
    } else {
      assert actions[|actions| - 1] in actions;
      NothingAbandoned(actions[..|actions| - 1]);
    }
  }

  /** When the outstanding clean-ups are over, a process is unreaped only if a clean-up gave it up,
      and all processes are reaped exactly when those given up were reaped elsewhere. When every
      terminated group died within its wait, that is always so. */
  lemma EveryChildIsReaped(actions: seq<Action>)
    requires Quiet(Run(FRESH, actions))
    ensures var s := Run(FRESH, actions);
            && (forall child: nat :: child < s.spawned && child !in s.reaped ==> child in s.abandoned)
            && ((forall child: nat :: child < s.spawned ==> child in s.reaped) <==> s.abandoned <= s.reaped)
            && ((forall a :: a in actions ==> !TimedOut(a)) ==> s.abandoned == {})
  {
    RunIsGood(FRESH, actions);
    var s := Run(FRESH, actions);
    forall child: nat | child < s.spawned && child !in s.reaped ensures child in s.abandoned {
      assert Tracked(s, child);
    }
    if forall a :: a in actions ==> !TimedOut(a) { NothingAbandoned(actions); }
  }

  lemma Extend(first: seq<Action>, s: State, a: Action) returns (actions: seq<Action>, t: State)
    requires Run(FRESH, first) == s
    ensures t == Apply(s, a) == Run(FRESH, actions)
    ensures forall x :: x in actions <==> x in first || x == a
  {
    actions, t := first + [a], Apply(s, a);
    assert actions[..|first|] == first;
  }

  /** Docker is up and one command is running. */
  lemma BusyIsReachable() returns (actions: seq<Action>, s: State)
    ensures s == Run(FRESH, actions) && forall a :: a in actions ==> !TimedOut(a)
    ensures s == State(Starting, false, {0, 1}, Some(0), None, Working(Some(1)), NotCalled, 2, {0}, {}, {})
  {
    actions, s := Extend([], FRESH, Start);
    actions, s := Extend(actions, s, EnterSpawn(true));
    actions, s := Extend(actions, s, FinishSpawn(true));
    actions, s := Extend(actions, s, EnterSpawn(false));
    actions, s := Extend(actions, s, FinishSpawn(true));
  }

  /** One stubborn process makes a clean-up drop others that would have died: Docker itself is
      left unreaped although only the command outlived its wait. */
  lemma OneTimeoutLosesTheRest() returns (actions: seq<Action>, s: State)
    ensures s == Run(FRESH, actions) && s.stop.Done? && s.spawned == 2 && 0 in s.abandoned && s.reaped == {}
    ensures forall a :: a in actions && TimedOut(a) ==> a == Terminate(Stopper, 1, false)
  {
    actions, s := BusyIsReachable();
    actions, s := Extend(actions, s, StopCancel);
    actions, s := Extend(actions, s, StopMark);
    actions, s := Extend(actions, s, StopTake);
    actions, s := Extend(actions, s, Terminate(Stopper, 1, false));
  }

  lemma ReapedKeepsGood(s: State, dead: set<nat>, left: set<nat>)
    requires Good(s) && s.stop.Reaping? && s.stop.targets == left + dead
    ensures Good(s.(stop := Done, reaped := s.reaped + dead, abandoned := s.abandoned + left))
  {
    var t := s.(stop := Done, reaped := s.reaped + dead, abandoned := s.abandoned + left);
    forall c: nat | c < t.spawned ensures Tracked(t, c) { assert Tracked(s, c); }
  }

  /** How far the clean-up has come: who died, who is left, and whether it has given up. */
  ghost predicate SplitAt(targets: set<nat>, left: set<nat>, dead: set<nat>, outlives: set<nat>, ok: bool) {
    left + dead == targets && dead !! outlives && (ok || !(left !! outlives))
  }

  lemma OneMoreDead(targets: set<nat>, left: set<nat>, dead: set<nat>, outlives: set<nat>, child: nat)
    requires SplitAt(targets, left, dead, outlives, true) && child in left && child !in outlives
    ensures SplitAt(targets, left - {child}, dead + {child}, outlives, true)
  {
  }

  lemma SplitDecides(targets: set<nat>, left: set<nat>, dead: set<nat>, outlives: set<nat>, ok: bool)
    requires SplitAt(targets, left, dead, outlives, ok) && (left == {} || !ok)
    ensures ok <==> targets !! outlives
    ensures ok ==> left == {} && dead == targets
    ensures !ok ==> exists child :: child in targets && child in outlives && child in left
  {
    if !ok {
      var child :| child in left && child in outlives;
      assert child in targets;
    } else {
      assert left == {};
    }
  }

  // ---------------------------------------------------------------- the service

  class Service {
    var phase: Phase
    var cancel: bool
    var children: set<nat>
    var daemon: Option<nat>
    // Where the threads stand and what became of the processes, outside the object in the program.
    var section: Option<Section>
    var prepare: Prepare
    var stop: Stop
    var spawned: nat
    var dockerds: set<nat>
    var reaped: set<nat>
    var abandoned: set<nat>

    ghost function View(): State
      reads this
    {
      State(phase, cancel, children, daemon, section, prepare, stop, spawned, dockerds, reaped, abandoned)
    }

    constructor ()
      ensures View() == FRESH && Good(View())
    {
      phase, cancel, children, daemon, section, prepare, stop := Idle, false, {}, None, None, NotStarted, NotCalled;
      spawned, dockerds, reaped, abandoned := 0, {}, {}, {};
    }

    method StartThread()
      requires Good(View()) && section.None?
      modifies this
      ensures View() == Apply(old(View()), Start) && Good(View())
      ensures View() == if old(phase) == Idle then old(View()).(phase := Starting, prepare := Working(None))
                        else old(View())
    {
      ApplyKeepsGood(View(), Start);
      if !phase.Idle? { return; }
      phase := Starting;
      prepare := Working(None);
    }

    /** The second half of `spawn`: the process is started, or fails to, and the lock released. */
    method FinishSpawning(dockerd: bool, succeeds: bool)
      requires section == Some(Spawning(dockerd))
      modifies this
      ensures View() == Apply(old(View()), FinishSpawn(succeeds))
    {
      section := None;
      if !succeeds { return; }
      var child := spawned;
      spawned := child + 1;
      children := children + {child};
      if dockerd {
        daemon, dockerds := Some(child), dockerds + {child};
      } else {
        prepare := Working(Some(child));
      }
    }

    /** `spawn`, from taking the lock to releasing it. `cancelled` says whether the stop thread
        set `cancel` after the check; the process is started all the same. */
    method Spawn(dockerd: bool, succeeds: bool, cancelled: bool)
      requires Good(View()) && section.None? && prepare == Working(None) && (dockerd ==> daemon.None?)
      requires cancelled ==> stop.NotCalled?
      modifies this
      ensures View() == if cancelled && !old(cancel)
                        then Apply(Apply(Apply(old(View()), EnterSpawn(dockerd)), StopCancel), FinishSpawn(succeeds))
                        else Apply(Apply(old(View()), EnterSpawn(dockerd)), FinishSpawn(succeeds))
      ensures old(phase).Stopped? || old(cancel) ==> spawned == old(spawned)
      ensures if old(cancel) then View() == old(View()).(prepare := Finished)
              else
                && section == None && phase == old(phase) && stop == (if cancelled then Cancelling else old(stop))
                && if !succeeds
                   then spawned == old(spawned) && children == old(children) && daemon == old(daemon)
                   else
                     && spawned == old(spawned) + 1 && children == old(children) + {old(spawned)}
                     && if dockerd then daemon == Some(old(spawned)) && prepare == old(prepare)
                        else daemon == old(daemon) && prepare == Working(Some(old(spawned)))
    {
      if cancel {
        prepare := Finished;
        return;
      }
      section := Some(Spawning(dockerd));
      if cancelled { cancel, stop := true, Cancelling; }
      FinishSpawning(dockerd, succeeds);
    }

    /** Docker answered: the prepare thread marks the service as ready unless it was cancelled before
        it took the lock, and ends. A cancellation after that look comes too late to prevent it. */
    method MarkReady(cancelled: bool)
      requires Good(View()) && section.None? && prepare == Working(None) && daemon.Some?
      requires cancelled ==> stop.NotCalled?
      modifies this
      ensures Good(View())
      ensures View() == if cancelled && !old(cancel)
                        then Apply(Apply(Apply(old(View()), EnterReady), StopCancel), FinishReady)
                        else Apply(Apply(old(View()), EnterReady), FinishReady)
      ensures prepare == Finished && phase == (if old(cancel) then old(phase) else Ready)
      ensures children == old(children) && daemon == old(daemon) && section == None
    {
      ApplyKeepsGood(View(), EnterReady);
      if cancel {
        prepare := Finished;
        return;
      }
      section := Some(MarkingReady);
      if cancelled {
        ApplyKeepsGood(View(), StopCancel);
        cancel, stop := true, Cancelling;
      }
      ApplyKeepsGood(View(), FinishReady);
      phase, section, prepare := Ready, None, Finished;
    }

    /** Its clean-up over, a prepare thread that failed marks the service as failed, unless stopped. */
    method MarkFailed(cancelled: bool)
      requires Good(View()) && section.None? && prepare == Cleaning({})
      requires cancelled ==> stop.NotCalled?
      modifies this
      ensures Good(View())
      ensures View() == if cancelled && !old(cancel)
                        then Apply(Apply(Apply(old(View()), EnterFailed), StopCancel), FinishFailed)
                        else Apply(Apply(old(View()), EnterFailed), FinishFailed)
      ensures prepare == Finished && phase == (if old(cancel) then old(phase) else Failed)
      ensures children == old(children) && daemon == old(daemon) && section == None
    {
      ApplyKeepsGood(View(), EnterFailed);
      if cancel {
        prepare := Finished;
        return;
      }
      section := Some(MarkingFailed);
      if cancelled {
        ApplyKeepsGood(View(), StopCancel);
        cancel, stop := true, Cancelling;
      }
      ApplyKeepsGood(View(), FinishFailed);
      phase, section, prepare := Failed, None, Finished;
    }

    method CheckDaemon(dead: bool)
      requires Good(View()) && section.None?
      modifies this
      ensures View() == Apply(old(View()), Check(dead)) && Good(View())
      ensures if old(phase) == Ready && daemon.Some? && dead
              then View() == old(View()).(phase := Failed, reaped := old(reaped) + {daemon.value})
              else View() == old(View())
    {
      ApplyKeepsGood(View(), Check(dead));
      if phase.Ready? && daemon.Some? && dead {
        phase := Failed;
        reaped := reaped + {daemon.value};
      }
    }

    method MarkStopped()
      requires Good(View()) && section.None? && stop.Cancelling?
      modifies this
      ensures View() == Apply(old(View()), StopMark) && Good(View())
      ensures View() == old(View()).(phase := Stopped, stop := Marked)
    {
      ApplyKeepsGood(View(), StopMark);
      phase := Stopped;
      stop := Marked;
    }

    /** The first half of the stop thread's clean-up, in a critical section of its own. */
    method TakeChildren()
      requires Good(View()) && section.None? && stop.Marked?
      modifies this
      ensures View() == Apply(old(View()), StopTake) && Good(View())
      ensures View() == old(View()).(children := {}, stop := Reaping(old(children)))
    {
      ApplyKeepsGood(View(), StopTake);
      stop := Reaping(children);
      children := {};
    }

    /** The rest of it. `outlives` are the processes that survive their last wait. */
    method Reap(outlives: set<nat>) returns (ok: bool)
      requires Good(View()) && stop.Reaping?
      modifies this
      ensures Good(View()) && stop.Done? && phase.Stopped?
      ensures ok <==> old(stop.targets) !! outlives
      ensures ok ==> reaped == old(reaped) + old(stop.targets) && abandoned == old(abandoned)
      ensures !ok ==> exists child :: child in old(stop.targets) && child in outlives && child in abandoned
      ensures old(reaped) <= reaped && old(stop.targets) <= reaped + abandoned
      ensures spawned == old(spawned) && prepare == old(prepare) && children == {}
    {
      var targets := stop.targets;
      var left, dead: set<nat> := targets, {};
      ok := true;
      while left != {} && ok
        invariant View() == old(View()) && SplitAt(targets, left, dead, outlives, ok)
        decreases |left|, ok
      {
        var child :| child in left;
        if child in outlives {
          ok := false;
        } else {
          OneMoreDead(targets, left, dead, outlives, child);
          dead := dead + {child};
          left := left - {child};
        }
      }
      SplitDecides(targets, left, dead, outlives, ok);
      ReapedKeepsGood(View(), dead, left);
      reaped, abandoned, stop := reaped + dead, abandoned + left, Done;
    }
  }
}
