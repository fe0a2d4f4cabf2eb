/**
 The phased update of a container runtime's image (src/fleet.rs `container_update`, with
 the settling of its result in `tick` and of interrupted rows in `recover_operations`).

 The row keeps what was saved; everything else is lost when the process dies. Commands to
 the provider are counted when issued, whether or not they are ever seen to finish.
 */
module ContainerUpdate {
  import opened Options
  import opened FleetQueue

  datatype Phase = Draining | Replacing | Health(replacedAt: nat)

  /** The row's saved result, once the release manifest has been fetched. */
  datatype Progress = Progress(phase: Phase, rollbackSafe: bool)

  /** Where a tick in flight stands between its awaits. */
  datatype Stage = Entered | Marked | Commanded | RollingBack

  datatype Command = NewImage | OldImage

  datatype State = State(row: OpState, saved: Option<Progress>, stage: Option<Stage>, held: Option<Progress>,
                         issued: seq<Command>)

  datatype Action =
    | Enter
    | Manifest(rollbackSafe: bool)
    | DrainDeadline(waited: nat) | DrainReply(drained: bool)
    | Issue | Replaced(at: nat)
    | Healthy | Unhealthy(now: nat)
    | RolledBack
    | Error // any failing await
    | Crash

  const DRAIN_SECONDS := 1800
  const HEALTH_SECONDS := 120
  const QUEUED := State(Pending, None, None, None, [])

  function Close(s: State, row: OpState): State {
    s.(row := row, stage := None, held := None)
  }

  function Apply(s: State, a: Action): State {
    match (a, s.stage)
    case (Enter, None) =>
      if Live(s.row) then s.(row := Running, stage := Some(Entered), held := s.saved) else s
    case (Manifest(safe), Some(Entered)) =>
      if s.held.Some? then s
      else
        var progress := Some(Progress(Draining, safe));
        s.(saved := progress, held := progress)
    case (DrainDeadline(waited), Some(Entered)) =>
      if s.held.Some? && s.held.value.phase.Draining? && waited > DRAIN_SECONDS then Close(s, Failed) else s
    case (DrainReply(drained), Some(Entered)) =>
      if s.held.None? || !s.held.value.phase.Draining? then s
      else if !drained then Close(s.(saved := s.held), Waiting)
      else
        var marked := Some(s.held.value.(phase := Replacing));
        // Saved before the provider is told anything.
        s.(saved := marked, held := marked, stage := Some(Marked))
    case (Issue, Some(Marked)) => s.(stage := Some(Commanded), issued := s.issued + [NewImage])
    case (Replaced(at), Some(Commanded)) =>
      if s.held.None? then s
      else Close(s.(saved := Some(s.held.value.(phase := Health(at)))), Waiting)
    case (Healthy, Some(Entered)) =>
      if s.held.Some? && s.held.value.phase.Health? then Close(s, Succeeded) else s
    case (Unhealthy(now), Some(Entered)) =>
      if s.held.None? then s
      else (match s.held.value.phase
            case Draining => s
            case Replacing => Close(s, Uncertain)
            case Health(replacedAt) =>
              if now <= replacedAt + HEALTH_SECONDS then Close(s.(saved := s.held), Waiting)
              else if !s.held.value.rollbackSafe then Close(s, Failed)
              else s.(stage := Some(RollingBack), issued := s.issued + [OldImage]))
    case (RolledBack, Some(RollingBack)) => Close(s, Failed)
    case (Error, Some(_)) => Close(s, Uncertain)
    case (Crash, _) => if s.row.Running? then Close(s, Uncertain) else s
    case _ => s
  }

  function Run(s: State, actions: seq<Action>): State {
    if actions == [] then s else Apply(Run(s, actions[..|actions| - 1]), actions[|actions| - 1])
  }

  /** What has been issued is decided by what has been saved, as long as the row can run again. */
  ghost predicate Good(s: State) {
    && (s.stage.Some? <==> s.row.Running?)
    && (s.stage.None? ==> s.held.None?)
    && (s.stage.Some? ==> s.held == s.saved)
    && (s.saved.None? ==> s.issued == [])
    && (s.saved.Some? ==>
          match s.saved.value.phase
          case Draining => s.issued == []
          case Replacing => (s.issued == [] || s.issued == [NewImage]) && !Live(s.row)
          case Health(_) =>
            || s.issued == [NewImage]
            || (s.issued == [NewImage, OldImage] && s.saved.value.rollbackSafe && !Live(s.row)))
    && (s.stage == Some(Entered) ==> s.issued == [] || (s.issued == [NewImage] && s.saved.value.phase.Health?))
    && (s.stage == Some(Marked) ==> s.saved.Some? && s.saved.value.phase.Replacing? && s.issued == [])
    && (s.stage == Some(Commanded) ==> s.saved.Some? && s.saved.value.phase.Replacing? && s.issued == [NewImage])
  }

  lemma ApplyKeepsGood(s: State, a: Action)
    requires Good(s)
    ensures Good(Apply(s, a))
  {
  }

  lemma {:induction false} RunIsGood(s: State, actions: seq<Action>)
    requires Good(s)
    ensures Good(Run(s, actions))
  {
    if actions == [] {
    } else {
      RunIsGood(s, actions[..|actions| - 1]);
      ApplyKeepsGood(Run(s, actions[..|actions| - 1]), actions[|actions| - 1]);
    }
  }

  /**
   However often the update is entered, crashes or fails, the new image is installed at most
   once, and the old image at most once, only after the new one, and only when the release
   permits rolling back.
   */
  lemma InstallsAtMostOnce(actions: seq<Action>)
    ensures var s := Run(QUEUED, actions);
            || s.issued == []
            || s.issued == [NewImage]
            || (s.issued == [NewImage, OldImage] && s.saved.Some? && s.saved.value.rollbackSafe)
  {
    RunIsGood(QUEUED, actions);
  }

  /** The runtime reported itself drained while the update was asking it to drain. */
  ghost predicate Drained(actions: seq<Action>, k: nat) {
    && k < |actions| && actions[k] == DrainReply(true)
    && var s := Run(QUEUED, actions[..k]);
       s.stage == Some(Entered) && s.held.Some? && s.held.value.phase.Draining? && s.issued == []
  }

  /** No image is ever installed but after a drained report, answered to a tick that was draining
      and before anything had been installed. */
  lemma {:induction false} InstallsOnlyAfterDrain(actions: seq<Action>)
    ensures var s := Run(QUEUED, actions);
            s.issued != [] || (s.saved.Some? && !s.saved.value.phase.Draining?) ==> exists k: nat :: Drained(actions, k)
  {
    if actions == [] {
    } else {
      var front, last := actions[..|actions| - 1], actions[|actions| - 1];
      InstallsOnlyAfterDrain(front);
      RunIsGood(QUEUED, front);
      if k: nat :| Drained(front, k) {
        assert actions[..k] == front[..k];
        assert Drained(actions, k);
      } else if last == DrainReply(true) && Run(QUEUED, actions) != Run(QUEUED, front) {
        assert Drained(actions, |front|);
      }
    }
  }

  lemma RunOne(s: State, a: Action)
    ensures Run(s, [a]) == Apply(s, a)
  {
    assert [a][..0] == [];
    assert Run(s, []) == s;
  }

  lemma {:induction false} RunSplits(s: State, first: seq<Action>, rest: seq<Action>)
    ensures Run(s, first + rest) == Run(Run(s, first), rest)
  {
    if rest == [] {
      assert first + rest == first;
    } else {
      var front := rest[..|rest| - 1];
      assert (first + rest)[..|first + rest| - 1] == first + front;
      RunSplits(s, first, front);
    }
  }

  lemma RunThen(s: State, t: State, u: State, first: seq<Action>, rest: seq<Action>)
    requires t == Run(s, first) && u == Run(t, rest) && Good(s)
    ensures u == Run(s, first + rest) && Good(u)
  {
    RunSplits(s, first, rest);
    RunIsGood(s, first);
    RunIsGood(t, rest);
  }

  // ---------------------------------------------------------------- one tick of the update

  /** What the outside world says in the course of one tick. */
  datatype Replies = Replies(rollbackSafe: bool, waited: nat, drained: Option<bool>, replaced: Option<nat>,
                             healthy: bool, resumed: bool, now: nat, restored: bool)

  class Update {
    var row: OpState
    var saved: Option<Progress>
    var stage: Option<Stage>
    var held: Option<Progress>
    var issued: seq<Command>

    ghost function View(): State
      reads this
    {
      State(row, saved, stage, held, issued)
    }

    constructor ()
      ensures View() == QUEUED && Good(View())
    {
      row, saved, stage, held, issued := Pending, None, None, None, [];
    }

    /** The tick ends and the row is settled, or waits for the next one. */
    method Leave(state: OpState)
      modifies this`row, this`stage, this`held
      ensures View() == Close(old(View()), state)
      ensures row == state && stage == None && held == None
    {
      row, stage, held := state, None, None;
    }

    /** Ask the runtime to drain; once it has, save the mark. */
    method Drain(waited: nat, reply: Option<bool>) returns (ghost a: Action)
      requires stage == Some(Entered) && held.Some? && held.value.phase.Draining?
      modifies this
      ensures View() == Apply(old(View()), a) && (a == DrainDeadline(waited) || a == DrainReply(reply == Some(true)))
      ensures stage == Some(Marked) || stage == None
      ensures issued == old(issued)
      ensures if waited > 1800 then row == Failed && stage == None && saved == old(saved)
              else if reply != Some(true) then row == Waiting && stage == None && saved == old(held)
              else
                && row == old(row) && stage == Some(Marked)
                && saved == held == Some(old(held).value.(phase := Replacing))
    {
      if waited > DRAIN_SECONDS {
        Leave(Failed);
        return DrainDeadline(waited);
      }
      a := DrainReply(reply == Some(true));
      if reply != Some(true) {
        saved := held;
        Leave(Waiting);
        return;
      }
      held := Some(held.value.(phase := Replacing));
      saved := held;
      stage := Some(Marked);
    }

    /** Install the new image, the mark being saved. */
    method Install()
      requires stage == Some(Marked) && held.Some?
      modifies this`stage, this`issued
      ensures View() == Apply(old(View()), Issue) && stage == Some(Commanded)
      ensures saved == old(saved) && issued == old(issued) + [NewImage]
    {
      stage := Some(Commanded);
      issued := issued + [NewImage];
    }

    /** The replacement command answered, or failed. */
    method Replace(replaced: Option<nat>) returns (ghost a: Action)
      requires stage == Some(Commanded) && held.Some?
      modifies this
      ensures View() == Apply(old(View()), a) && a == (if replaced.Some? then Replaced(replaced.value) else Error)
      ensures stage == None && issued == old(issued)
      ensures if replaced.Some? then row == Waiting && saved == Some(old(held).value.(phase := Health(replaced.value)))
              else row == Uncertain && saved == old(saved)
    {
      if replaced.None? {
        Leave(Uncertain);
        return Error;
      }
      saved := Some(held.value.(phase := Health(replaced.value)));
      Leave(Waiting);
      a := Replaced(replaced.value);
    }

    /** Watch the new image; when it stays unhealthy, put the old one back if that is safe. */
    method Watch(healthy: bool, resumed: bool, now: nat) returns (ghost a: Action)
      requires stage == Some(Entered) && held.Some? && !held.value.phase.Draining?
      modifies this
      ensures View() == Apply(old(View()), a)
      // A replacement that never answered is left for inspection, whatever the runtime says.
      ensures old(held).value.phase.Replacing? ==> row == Uncertain && stage == None && issued == old(issued)
      // A healthy new image is resumed and the update has succeeded.
      ensures old(held).value.phase.Health? && healthy ==>
                row == (if resumed then Succeeded else Uncertain) && stage == None && issued == old(issued)
      // An unhealthy one has two minutes; then the old image is put back, unless that is unsafe.
      ensures old(held).value.phase.Health? && !healthy ==>
                if now <= old(held).value.phase.replacedAt + 120
                then row == Waiting && stage == None && issued == old(issued) && saved == old(held)
                else if !old(held).value.rollbackSafe then row == Failed && stage == None && issued == old(issued)
                else row == old(row) && stage == Some(RollingBack) && issued == old(issued) + [OldImage]
    {
      if held.value.phase.Replacing? {
        Leave(Uncertain);
        return Unhealthy(now);
      }
      if healthy {
        if !resumed {
          Leave(Uncertain);
          return Error;
        }
        Leave(Succeeded);
        return Healthy;
      }
      a := Unhealthy(now);
      if now <= held.value.phase.replacedAt + HEALTH_SECONDS {
        saved := held;
        Leave(Waiting);
      } else if !held.value.rollbackSafe {
        Leave(Failed);
      } else {
        stage := Some(RollingBack);
        issued := issued + [OldImage];
      }
    }

    /** What a tick that got as far as the saved progress leaves, by its phase: the row, what is
        saved when the row can run again, and the image installed, if any. */
    ghost predicate TickEnds(was: Progress, before: seq<Command>, r: Replies)
      reads this
    {
      match was.phase
      case Draining =>
        if r.waited > 1800 then row == Failed && issued == before
        else if r.drained != Some(true) then row == Waiting && saved == Some(was) && issued == before
        else
          && issued == before + [NewImage]
          && if r.replaced.Some? then row == Waiting && saved == Some(was.(phase := Health(r.replaced.value)))
             else row == Uncertain
      case Replacing => row == Uncertain && issued == before
      case Health(replacedAt) =>
        if r.healthy then row == (if r.resumed then Succeeded else Uncertain) && issued == before
        else if r.now <= replacedAt + 120 then row == Waiting && saved == Some(was) && issued == before
        else if !was.rollbackSafe then row == Failed && issued == before
        else row == (if r.restored then Failed else Uncertain) && issued == before + [OldImage]
    }

    /** From the saved phase to the end of the tick. */
    method Proceed(r: Replies) returns (ghost trace: seq<Action>)
      requires Good(View()) && stage == Some(Entered) && held.Some?
      modifies this
      ensures View() == Run(old(View()), trace) && Good(View())
      ensures stage.None? && TickEnds(old(held).value, old(issued), r)
    {
      ghost var start, a, b := View(), Enter, Enter;
      if held.value.phase.Draining? {
        a := Drain(r.waited, r.drained);
      } else {
        a := Watch(r.healthy, r.resumed, r.now);
      }
      RunOne(start, a);
      trace := [a];
      RunIsGood(start, trace);
      if stage.None? { return; }
      ghost var middle := View();
      if stage == Some(Marked) {
        Install();
        RunOne(middle, Issue);
        RunThen(start, middle, View(), trace, [Issue]);
        trace := trace + [Issue];
        middle := View();
        b := Replace(r.replaced);
      } else if r.restored {
        b := RolledBack;
        Leave(Failed);
      } else {
        b := Error;
        Leave(Uncertain);
      }
      RunOne(middle, b);
      RunThen(start, middle, View(), trace, [b]);
      trace := trace + [b];
    }

    /** The update's control flow for one tick: at most one image is installed, and the row is
        saved before the command whose repetition it must prevent. */
    method Attempt(r: Replies) returns (ghost trace: seq<Action>)
      requires Good(View()) && (row == Pending || row == Waiting)
      modifies this
      ensures View() == Run(old(View()), trace) && Good(View())
      ensures TickEnds(if old(saved).Some? then old(saved).value else Progress(Draining, r.rollbackSafe),
                       old(issued), r)
    {
      ghost var start := View();
      row, stage, held := Running, Some(Entered), saved;
      RunOne(start, Enter);
      trace := [Enter];
      RunIsGood(start, trace);
      if held.None? {
        ghost var before := View();
        saved := Some(Progress(Draining, r.rollbackSafe));
        held := saved;
        RunOne(before, Manifest(r.rollbackSafe));
        RunThen(start, before, View(), trace, [Manifest(r.rollbackSafe)]);
        trace := trace + [Manifest(r.rollbackSafe)];
      }
      ghost var entered := View();
      ghost var rest := Proceed(r);
      RunThen(start, entered, View(), trace, rest);
      trace := trace + rest;
    }
  }
}
