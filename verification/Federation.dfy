/**
 The submission protocol between the runtime that owns a delegated task and the runtime
 that works on it (src/federation.rs `tick` on the owner, `handle` on the worker).

 One remote link at a time: links share no rows, and letting them interleave freely only
 adds schedules. The owner's tick can be cut short at every await, by a lost reply, an
 error or a crash; requests once sent may be handled late, more than once, or never; and
 both runtimes' users change task state between any two steps.
 */
module Federation {
  import opened Options
  import opened TaskTree

  datatype LinkState = Pending | Sending | Active | Closed

  /** What a status reply says: the worker's task status, context version and cleanup. */
  datatype Report = Report(status: Status, context: nat, clean: bool)

  /** A submission as sent: the prepared packet, and how its snapshot was encoded. */
  datatype Wire = Wire(packet: nat, encoding: nat)

  /** The link row and task status as read when the tick began, before anything it awaits. */
  datatype Row = Row(link: LinkState, status: Status)

  datatype Tick =
    | Idle
    | RowRead(row: Row) // what else the tick serves first may keep it here for a while
    | AwaitCapabilities(row: Row)
    | AwaitAccept
    | AwaitRevoke(row: Row, handled: bool)
    | AwaitCancel(row: Row, handled: bool)
    | AwaitStatus(row: Row, cancelled: bool, taken: Option<Report>)
    | Ruling(row: Row, cancelled: bool, report: Report, ownerCancelled: bool, checks: Checks)

  /** What a tick ruling on a reply has read so far, one row at a time, before its transaction:
      whether every nested child is accepted, then the context version. */
  datatype Checks = Unchecked | NestedRead(nested: bool) | AllRead(seen: Seen)

  datatype Seen = Seen(nested: bool, version: nat)

  /** Why a link was closed: `ownerCancelled` and `seen` are as read, `status` and `version` as
      they stood at the commit. */
  datatype Closing =
    | NeverSent
    | Reported(report: Report, ownerCancelled: bool, cancelFirst: bool, seen: Option<Seen>,
               status: Status, version: nat, recorded: Status)

  datatype State = State(
    // the owner's rows
    link: LinkState, remoteId: Option<nat>, status: Status, version: nat, nested: bool,
    packet: Option<nat>, tick: Tick, closing: Option<Closing>,
    // requests ever sent and accept replies ever given
    accepts: set<Wire>, replies: set<nat>,
    // the worker's rows for this owner task
    origin: Option<nat>, digest: Option<Wire>, tasks: seq<Report>)

  datatype Action =
    // owner
    | ReadRow
    | StartTick(allowed: bool, capacity: bool)
    | CapabilitiesArrive(content: nat, encoding: nat)
    | AcceptArrives(id: nat)
    | RevokeArrives | CancelArrives | StatusArrives
    | CheckNested | CheckVersion | Conclude
    | Cut // a lost reply, an error, or a crash of the owner
    // worker
    | DeliverAccept(wire: Wire, sawOrigin: bool)
    | HandleCancel | HandleStatus
    // users and children on either side
    | OwnerStatus(status: Status) | OwnerContext(version: nat, nested: bool) | WorkerChange(report: Report)

  function Submitted(status: Status, version: nat): State {
    State(Pending, None, status, version, true, None, Idle, None, {}, {}, None, None, [])
  }

  predicate Terminal(status: Status) {
    status.Succeeded? || status.Failed? || status.Cancelled?
  }

  // ---------------------------------------------------------------- the owner's tick

  /** The tick reaches this link. The row may be out of date; the grant and, once the link is
      running, the task's status are read now. */
  function Started(s: State, row: Row, allowed: bool, capacity: bool): State {
    match row.link
    case Closed => s.(tick := Idle)
    case Pending =>
      if row.status.Cancelled? then s.(link := Closed, closing := Some(NeverSent), tick := Idle)
      else if row.status.Waiting? || !capacity || !allowed then s.(tick := Idle)
      else s.(tick := AwaitCapabilities(row))
    case Sending => s.(tick := if allowed then AwaitCapabilities(row) else Idle)
    case Active =>
      if s.remoteId.None? then s.(tick := Idle)
      else if !allowed && !s.status.Cancelled? then s.(tick := AwaitRevoke(row, false))
      else s.(tick := if row.status.Cancelled? then AwaitCancel(row, false) else AwaitStatus(row, false, None))
  }

  /** The packet is prepared once and kept; only its encoding depends on the peer's features. */
  function Sent(s: State, content: nat, encoding: nat): State {
    var packet := if s.packet.Some? then s.packet.value else content;
    s.(packet := Some(packet), link := Sending,
       accepts := s.accepts + {Wire(packet, encoding)}, tick := AwaitAccept)
  }

  /** The reply is here and the task's status read. */
  function Replied(s: State, row: Row, cancelSent: bool, report: Report): State {
    if s.status.Cancelled? && !row.status.Cancelled? then s.(tick := Idle)
    else s.(tick := Ruling(row, cancelSent, report, s.status.Cancelled?, Unchecked))
  }

  /** Success not cancelled by the owner is checked against the nested children and the version. */
  predicate NeedsChecks(tick: Tick)
    requires tick.Ruling?
  {
    !tick.ownerCancelled && tick.report.status.Succeeded?
  }

  function NestedChecked(s: State): State
    requires s.tick.Ruling?
  {
    if s.nested then s.(tick := s.tick.(checks := NestedRead(s.nested))) else s.(tick := Idle)
  }

  function VersionChecked(s: State): State
    requires s.tick.Ruling? && s.tick.checks.NestedRead?
  {
    if s.tick.report.context != s.version then s.(status := Blocked, tick := Idle)
    else s.(tick := s.tick.(checks := AllRead(Seen(s.tick.checks.nested, s.version))))
  }

  /** The transaction, on what was read. */
  function Concluded(s: State): State
    requires s.tick.Ruling?
  {
    var report, cancelled := s.tick.report, s.tick.ownerCancelled;
    if !Terminal(report.status) || !report.clean then s.(tick := Idle)
    else
      var recorded := if cancelled then Cancelled else report.status;
      var seen := if s.tick.checks.AllRead? then Some(s.tick.checks.seen) else None;
      s.(tick := Idle, link := Closed, status := recorded,
         closing := Some(Reported(report, cancelled, s.tick.cancelled, seen, s.status, s.version, recorded)))
  }

  // ---------------------------------------------------------------- the worker

  /** What the accept handler answers, if it does not refuse. `sawOrigin` is what it read before
      its transaction; the read may be stale, and then the unique owner column refuses the insert. */
  function ReplyTo(s: State, wire: Wire, sawOrigin: bool): Option<nat> {
    if sawOrigin then (if s.digest == Some(wire) then s.origin else None)
    else if s.origin.Some? then None
    else Some(|s.tasks|)
  }

  function Accepted(s: State, wire: Wire, sawOrigin: bool): State {
    match ReplyTo(s, wire, sawOrigin)
    case None => s
    case Some(id) =>
      var t := if sawOrigin then s
               else s.(tasks := s.tasks + [Report(Running, 0, true)], origin := Some(id), digest := Some(wire));
      t.(replies := t.replies + {id})
  }

  function CancelTasks(tasks: seq<Report>): seq<Report> {
    seq(|tasks|, i requires 0 <= i < |tasks| => tasks[i].(status := Cancelled))
  }

  function Apply(s: State, a: Action): State {
    match a
    case ReadRow => if s.tick.Idle? && !s.link.Closed? then s.(tick := RowRead(Row(s.link, s.status))) else s
    case StartTick(allowed, capacity) => if s.tick.RowRead? then Started(s, s.tick.row, allowed, capacity) else s
    case CapabilitiesArrive(content, encoding) =>
      if s.tick.AwaitCapabilities? then Sent(s, content, encoding) else s
    case AcceptArrives(id) =>
      if s.tick.AwaitAccept? && id in s.replies then s.(link := Active, remoteId := Some(id), tick := Idle) else s
    case RevokeArrives =>
      if s.tick.AwaitRevoke? && s.tick.handled
      then s.(status := Cancelled,
              tick := if s.tick.row.status.Cancelled? then AwaitCancel(s.tick.row, false)
                      else AwaitStatus(s.tick.row, false, None))
      else s
    case CancelArrives =>
      if s.tick.AwaitCancel? && s.tick.handled then s.(tick := AwaitStatus(s.tick.row, true, None)) else s
    case StatusArrives =>
      if s.tick.AwaitStatus? && s.tick.taken.Some?
      then Replied(s, s.tick.row, s.tick.cancelled, s.tick.taken.value) else s
    case CheckNested =>
      if s.tick.Ruling? && NeedsChecks(s.tick) && s.tick.checks.Unchecked? then NestedChecked(s) else s
    case CheckVersion => if s.tick.Ruling? && s.tick.checks.NestedRead? then VersionChecked(s) else s
    case Conclude =>
      if s.tick.Ruling? && (NeedsChecks(s.tick) ==> s.tick.checks.AllRead?) then Concluded(s) else s
    case Cut => s.(tick := Idle)
    case DeliverAccept(wire, sawOrigin) => if wire in s.accepts then Accepted(s, wire, sawOrigin) else s
    case HandleCancel =>
      (match s.tick
       case AwaitRevoke(row, _) => s.(tasks := CancelTasks(s.tasks), tick := AwaitRevoke(row, true))
       case AwaitCancel(row, _) => s.(tasks := CancelTasks(s.tasks), tick := AwaitCancel(row, true))
       case _ => s)
    case HandleStatus =>
      if s.tick.AwaitStatus? && s.remoteId.Some? && s.remoteId.value < |s.tasks|
      then s.(tick := s.tick.(taken := Some(s.tasks[s.remoteId.value]))) else s
    case OwnerStatus(status) => s.(status := status)
    case OwnerContext(version, nested) => s.(version := version, nested := nested)
    case WorkerChange(report) => if s.origin.Some? && s.origin.value < |s.tasks|
                                 then s.(tasks := s.tasks[s.origin.value := report]) else s
  }

  function Run(s: State, actions: seq<Action>): State {
    if actions == [] then s else Apply(Run(s, actions[..|actions| - 1]), actions[|actions| - 1])
  }

  // ---------------------------------------------------------------- the invariant

  /** At most one worker task, known to the worker by the owner's name for it; nobody is
      ever told another id; and every submission sent carries the one prepared packet. */
  ghost predicate OneTask(s: State) {
    && |s.tasks| <= 1
    && (s.origin.Some? <==> |s.tasks| == 1) && (s.origin.Some? ==> s.origin.value == 0)
    && (s.origin.Some? <==> s.digest.Some?)
    && (s.digest.Some? ==> s.digest.value in s.accepts)
    && (forall id :: id in s.replies ==> s.origin == Some(id))
    && (s.remoteId.Some? ==> s.origin == s.remoteId)
    && (forall wire :: wire in s.accepts ==> s.packet == Some(wire.packet))
  }

  ghost predicate LinkGood(s: State) {
    && (s.link.Pending? ==> s.accepts == {} && s.closing.None?)
    && (s.link.Sending? ==> s.closing.None?)
    && (s.link.Active? ==> s.remoteId.Some? && s.closing.None?)
    && (s.link.Closed? ==> s.tick.Idle? && s.closing.Some? && (s.closing.value.NeverSent? ==> s.accepts == {}))
    && (s.closing.Some? && s.closing.value.Reported? ==> s.remoteId.Some?)
  }

  ghost predicate TickGood(s: State) {
    match s.tick
    case Idle => true
    case RowRead(row) => row.link == s.link && !s.link.Closed?
    case AwaitCapabilities(row) => row.link == s.link && (s.link.Pending? || s.link.Sending?)
    case AwaitAccept => s.link.Sending?
    case AwaitRevoke(_, _) => s.link.Active?
    case AwaitCancel(row, _) => s.link.Active? && row.status.Cancelled?
    case AwaitStatus(row, cancelled, _) => s.link.Active? && (row.status.Cancelled? <==> cancelled)
    case Ruling(row, cancelled, report, ownerCancelled, checks) =>
      && s.link.Active? && (row.status.Cancelled? <==> cancelled) && (ownerCancelled ==> cancelled)
      && (!checks.Unchecked? ==> NeedsChecks(s.tick))
      && (checks.NestedRead? ==> checks.nested)
      && (checks.AllRead? ==> checks.seen == Seen(true, report.context))
  }

  /** A link is closed on a report only when that report settles the task. */
  ghost predicate ClosingGood(c: Closing) {
    c.Reported? ==>
      && Terminal(c.report.status) && c.report.clean
      && (c.ownerCancelled ==> c.cancelFirst && c.recorded.Cancelled?)
      && (!c.ownerCancelled ==> c.recorded == c.report.status)
      && (c.recorded.Succeeded? ==> c.seen == Some(Seen(true, c.report.context)))
  }

  ghost predicate Good(s: State) {
    OneTask(s) && LinkGood(s) && TickGood(s) && (s.closing.Some? ==> ClosingGood(s.closing.value))
  }

  lemma StartKeepsGood(s: State, allowed: bool, capacity: bool)
    requires Good(s) && s.tick.RowRead?
    ensures Good(Started(s, s.tick.row, allowed, capacity))
  {
  }

  lemma SendKeepsGood(s: State, content: nat, encoding: nat)
    requires Good(s) && s.tick.AwaitCapabilities?
    ensures Good(Sent(s, content, encoding))
  {
  }

  lemma ConcludeKeepsGood(s: State)
    requires Good(s) && s.tick.Ruling? && (NeedsChecks(s.tick) ==> s.tick.checks.AllRead?)
    ensures Good(Concluded(s))
  {
  }

  lemma RulingKeepsGood(s: State, a: Action)
    requires Good(s) && (a.StatusArrives? || a.CheckNested? || a.CheckVersion?)
    ensures Good(Apply(s, a))
  {
  }

  lemma AcceptKeepsGood(s: State, wire: Wire, sawOrigin: bool)
    requires Good(s) && wire in s.accepts
    ensures Good(Accepted(s, wire, sawOrigin))
  {
  }

  lemma ApplyKeepsGood(s: State, a: Action)
    requires Good(s)
    ensures Good(Apply(s, a))
  {
    match a
    case StartTick(allowed, capacity) => if s.tick.RowRead? { StartKeepsGood(s, allowed, capacity); }
    case CapabilitiesArrive(content, encoding) => if s.tick.AwaitCapabilities? { SendKeepsGood(s, content, encoding); }
    case StatusArrives => RulingKeepsGood(s, a);
    case CheckNested => RulingKeepsGood(s, a);
    case CheckVersion => RulingKeepsGood(s, a);
    case Conclude =>
      if s.tick.Ruling? && (NeedsChecks(s.tick) ==> s.tick.checks.AllRead?) { ConcludeKeepsGood(s); }
    case DeliverAccept(wire, sawOrigin) => if wire in s.accepts { AcceptKeepsGood(s, wire, sawOrigin); }
    case _ =>
  }

  lemma {:induction false} RunIsGood(s: State, actions: seq<Action>)
    requires Good(s)
    ensures Good(Run(s, actions))
  {
    if actions == [] {
    } else {
      RunIsGood(s, actions[..|actions| - 1]);
      ApplyKeepsGood(Run(s, actions[..|actions| - 1]), actions[|actions| - 1]);
    }
  }

  // ---------------------------------------------------------------- the theorems

  /**
   Whatever is lost, repeated, retried or cut short, an owner task yields at most one worker
   task; every accept reply names it; and the id the owner stores is that task.
   */
  lemma AtMostOneWorkerTask(status: Status, version: nat, actions: seq<Action>)
    ensures var s := Run(Submitted(status, version), actions);
            && |s.tasks| <= 1
            && (forall id :: id in s.replies ==> id < |s.tasks|)
            && (s.remoteId.Some? ==> s.remoteId.value < |s.tasks|)
  {
    RunIsGood(Submitted(status, version), actions);
  }

  /** A worker task exists only under a link that is being sent, is running, or was closed by
      a report; a link closed while pending never had anything sent for it. */
  lemma WorkerTasksAreTracked(status: Status, version: nat, actions: seq<Action>)
    ensures var s := Run(Submitted(status, version), actions);
            && (s.tasks != [] ==> s.link.Sending? || s.link.Active? ||
                                  (s.link.Closed? && s.closing.Some? && s.closing.value.Reported?))
            && (s.closing == Some(NeverSent) ==> s.link.Closed? && s.accepts == {} && s.tasks == [])
  {
    RunIsGood(Submitted(status, version), actions);
  }

  /**
   A link that left `pending` closes only on a terminal report with cleanup complete. If the
   owner task was read as cancelled, a cancel call had completed before that report was taken; if
   not, success is recorded only where the version was read equal to the report's after every
   nested child was read accepted.
   */
  lemma ClosedOnlyWhenSettled(status: Status, version: nat, actions: seq<Action>)
    ensures var s := Run(Submitted(status, version), actions);
            s.link.Closed? && s.accepts != {} ==>
              && s.closing.Some? && s.closing.value.Reported?
              && var c := s.closing.value;
                 && (c.report.status.Succeeded? || c.report.status.Failed? || c.report.status.Cancelled?)
                 && c.report.clean && c.recorded == (if c.ownerCancelled then Cancelled else c.report.status)
                 && (c.ownerCancelled ==> c.cancelFirst && c.recorded.Cancelled?)
                 && (c.recorded.Succeeded? ==> !c.ownerCancelled && c.seen == Some(Seen(true, c.report.context)))
  {
    RunIsGood(Submitted(status, version), actions);
  }

  /** What the reads miss. Success is recorded at the version current at the commit exactly when the
      version did not move after it was read; and a cancellation is overwritten exactly when it was
      committed after the status was read and the worker had not been cancelled either. */
  lemma ClosedOnCurrentRowsIff(status: Status, version: nat, actions: seq<Action>)
    ensures var s := Run(Submitted(status, version), actions);
            s.closing.Some? && s.closing.value.Reported? ==>
              var c := s.closing.value;
              && (c.recorded.Succeeded? ==>
                    c.seen.Some? && (c.report.context == c.version <==> c.seen.value.version == c.version))
              && (c.status.Cancelled? ==>
                    (!c.recorded.Cancelled? <==> !c.ownerCancelled && !c.report.status.Cancelled?))
  {
    RunIsGood(Submitted(status, version), actions);
  }

  lemma FinalStep(s: State, a: Action)
    requires Good(s)
    ensures s.link.Closed? ==> Apply(s, a).link.Closed? && Apply(s, a).closing == s.closing
    ensures s.remoteId.Some? ==> Apply(s, a).remoteId == s.remoteId
  {
  }

  /** Closing is final, and an id once stored never changes. */
  lemma {:induction false} ClosedIsFinal(s: State, actions: seq<Action>)
    requires Good(s)
    ensures s.link.Closed? ==> Run(s, actions).link.Closed? && Run(s, actions).closing == s.closing
    ensures s.remoteId.Some? ==> Run(s, actions).remoteId == s.remoteId
  {
    if actions == [] {
    } else {
      ClosedIsFinal(s, actions[..|actions| - 1]);
      RunIsGood(s, actions[..|actions| - 1]);
      FinalStep(Run(s, actions[..|actions| - 1]), actions[|actions| - 1]);
    }
  }

  /** Once the worker has the task, a resubmission is answered exactly when the handler's first read
      saw the task and the snapshot is encoded as the first one was. A handler that read too early,
      beside the one that created the task, is refused by the owner column; a snapshot encoded
      otherwise is refused as another assignment. Either way nothing changes. */
  lemma ResendAnsweredIff(s: State, wire: Wire, sawOrigin: bool)
    requires Good(s) && s.digest.Some? && wire in s.accepts
    ensures ReplyTo(s, wire, sawOrigin).Some? <==> sawOrigin && wire.encoding == s.digest.value.encoding
    ensures Apply(s, DeliverAccept(wire, sawOrigin)) ==
            if ReplyTo(s, wire, sawOrigin).Some? then s.(replies := s.replies + {s.origin.value}) else s
  {
    assert s.digest.value in s.accepts;
    assert wire.packet == s.digest.value.packet;
  }

  lemma Extend(start: State, first: seq<Action>, s: State, a: Action) returns (actions: seq<Action>, t: State)
    requires Run(start, first) == s
    ensures t == Apply(s, a) == Run(start, actions)
  {
    actions, t := first + [a], Apply(s, a);
    assert actions[..|first|] == first;
  }

  /** The worker has just created the task for a submission the owner has sent. */
  ghost predicate JustAccepted(s: State, wire: Wire) {
    && Good(s) && s.packet == Some(wire.packet) && s.digest == Some(wire) && wire in s.accepts
    && s.link.Sending? && s.tick.AwaitAccept? && s.replies == {0} && s.status.Running? && s.nested
  }

  /** A submission of the accepted task has been sent, and its handler refuses it. */
  predicate Refused(s: State, wire: Wire, sawOrigin: bool) {
    s.digest.Some? && wire in s.accepts && ReplyTo(s, wire, sawOrigin).None?
  }

  lemma SubmissionArrives(version: nat, wire: Wire) returns (actions: seq<Action>)
    ensures JustAccepted(Run(Submitted(Running, version), actions), wire)
    ensures Run(Submitted(Running, version), actions).version == version
  {
    var start, s := Submitted(Running, version), Submitted(Running, version);
    actions, s := Extend(start, [], start, ReadRow);
    actions, s := Extend(start, actions, s, StartTick(true, true));
    actions, s := Extend(start, actions, s, CapabilitiesArrive(wire.packet, wire.encoding));
    actions, s := Extend(start, actions, s, DeliverAccept(wire, false));
    RunIsGood(start, actions);
  }

  /** A duplicate handled on a read older than the task is refused in some run, though encoded alike. */
  lemma EarlyReadIsRefused(version: nat, wire: Wire) returns (actions: seq<Action>)
    ensures Refused(Run(Submitted(Running, version), actions), wire, false)
  {
    actions := SubmissionArrives(version, wire);
  }

  /** A retry encoded otherwise, as when the peer's features changed, is refused in some run
      however fresh the handler's read. */
  lemma ChangedEncodingIsRefused(version: nat, wire: Wire, encoding: nat) returns (actions: seq<Action>)
    requires encoding != wire.encoding
    ensures Refused(Run(Submitted(Running, version), actions), Wire(wire.packet, encoding), true)
  {
    var start := Submitted(Running, version);
    actions := SubmissionArrives(version, wire);
    var s := Run(start, actions);
    actions, s := Extend(start, actions, s, Cut);
    actions, s := Extend(start, actions, s, ReadRow);
    actions, s := Extend(start, actions, s, StartTick(true, true));
    actions, s := Extend(start, actions, s, CapabilitiesArrive(wire.packet, encoding));
  }

  // ---------------------------------------------------------------- cancellation

  /** The owner's task is cancelled; no cancel call of this tick has completed, and no tick read the
      status before the cancellation and has still to rule on it. */
  predicate CancelOwed(s: State) {
    s.link.Active? && s.status.Cancelled? && !(s.tick.AwaitStatus? && s.tick.cancelled) && !s.tick.Ruling?
  }

  lemma OwedStep(s: State, a: Action)
    requires Good(s) && CancelOwed(s) && !a.CancelArrives? && (a.OwnerStatus? ==> a.status.Cancelled?)
    ensures Good(Apply(s, a)) && CancelOwed(Apply(s, a))
  {
    ApplyKeepsGood(s, a);
  }

  /** From the moment the owner's task is cancelled, whatever call is in flight and however often
      the tick is cut short, the link stays open until a cancel call completes. */
  lemma {:induction false} CancelIsNotOvertaken(s: State, actions: seq<Action>)
    requires Good(s) && CancelOwed(s)
    requires forall a :: a in actions ==> !a.CancelArrives? && (a.OwnerStatus? ==> a.status.Cancelled?)
    ensures Good(Run(s, actions)) && CancelOwed(Run(s, actions))
  {
    if actions == [] {
    } else {
      var front := actions[..|actions| - 1];
      CancelIsNotOvertaken(s, front);
      assert actions[|actions| - 1] in actions;
      OwedStep(Run(s, front), actions[|actions| - 1]);
    }
  }

  /** The owner knows the worker's task, and the worker has succeeded. */
  ghost predicate Delivered(s: State, version: nat) {
    && s.link.Active? && s.tick.Idle? && s.status.Running? && s.nested && s.version == version
    && s.remoteId == Some(0) && s.tasks == [Report(Succeeded, version, true)]
  }

  lemma DeliveryIsReachable(wire: Wire, version: nat) returns (actions: seq<Action>)
    ensures Delivered(Run(Submitted(Running, version), actions), version)
  {
    var start := Submitted(Running, version);
    actions := SubmissionArrives(version, wire);
    var s := Run(start, actions);
    assert s.origin == Some(0) && |s.tasks| == 1;
    actions, s := Extend(start, actions, s, AcceptArrives(0));
    actions, s := Extend(start, actions, s, WorkerChange(Report(Succeeded, version, true)));
  }

  /** The owner has read all it needs to record the success. */
  ghost predicate AboutToRecord(s: State, version: nat) {
    && s.tick.Ruling? && s.tick.report == Report(Succeeded, version, true) && !s.tick.ownerCancelled
    && s.tick.checks == AllRead(Seen(true, version)) && s.version == version && s.link.Active?
  }

  lemma RulingIsReachable(wire: Wire, version: nat) returns (actions: seq<Action>)
    ensures AboutToRecord(Run(Submitted(Running, version), actions), version)
  {
    var start := Submitted(Running, version);
    actions := DeliveryIsReachable(wire, version);
    var s := Run(start, actions);
    actions, s := Extend(start, actions, s, ReadRow);
    actions, s := Extend(start, actions, s, StartTick(true, true));
    actions, s := Extend(start, actions, s, HandleStatus);
    actions, s := Extend(start, actions, s, StatusArrives);
    actions, s := Extend(start, actions, s, CheckNested);
    actions, s := Extend(start, actions, s, CheckVersion);
  }

  predicate RecordedOverRaces(s: State) {
    && s.link.Closed? && s.closing.Some? && s.closing.value.Reported?
    && s.closing.value.status.Cancelled? && s.closing.value.recorded.Succeeded?
    && s.closing.value.version != s.closing.value.report.context
  }

  /** Both races are reachable: in some run a success is recorded over a cancellation and over a
      revision, both committed after the rows they changed were read. */
  lemma RulingRaceIsReachable(wire: Wire, version: nat) returns (actions: seq<Action>)
    ensures RecordedOverRaces(Run(Submitted(Running, version), actions))
  {
    var start := Submitted(Running, version);
    actions := RulingIsReachable(wire, version);
    var s := Run(start, actions);
    actions, s := Extend(start, actions, s, OwnerStatus(Cancelled));
    actions, s := Extend(start, actions, s, OwnerContext(version + 1, true));
    actions, s := Extend(start, actions, s, Conclude);
  }

  // ---------------------------------------------------------------- revoked grants

  /** For the first `k` actions the tick does nothing but wait for its cancel call. */
  ghost predicate WaitsFor(s: State, more: seq<Action>, k: nat)
    requires k <= |more|
  {
    forall j :: 0 <= j <= k ==> Run(s, more[..j]).tick.AwaitRevoke?
  }

  ghost predicate StillRevoking(s: State, more: seq<Action>) {
    && WaitsFor(s, more, |more|)
    && var t := Run(s, more);
       && t.tick.AwaitRevoke? && (t.tick.handled ==> HandleCancel in more)
  }

  /** The task is cancelled and the tick has taken no status yet. */
  predicate Revoked(s: State) {
    s.status.Cancelled? && s.link.Active? && (s.tick.AwaitCancel? || (s.tick.AwaitStatus? && s.tick.taken.None?))
  }

  /** Action `k` is the reply to a cancel call the worker has handled; it leaves the task cancelled,
      and until then the tick did nothing but wait for it. */
  ghost predicate RevokedAt(s: State, more: seq<Action>, k: nat) {
    && k < |more| && more[k].RevokeArrives? && HandleCancel in more[..k]
    && WaitsFor(s, more, k) && Revoked(Run(s, more[..k + 1]))
  }

  lemma RevokingStep(s: State, a: Action)
    requires Good(s) && s.tick.AwaitRevoke? && !a.Cut?
    ensures var t := Apply(s, a);
            if a.RevokeArrives? && s.tick.handled then Revoked(t)
            else t.tick.AwaitRevoke? && (t.tick.handled ==> s.tick.handled || a.HandleCancel?)
  {
  }

  lemma WaitsExtends(s: State, front: seq<Action>, a: Action)
    requires WaitsFor(s, front, |front|)
    ensures WaitsFor(s, front + [a], |front|) && Run(s, front + [a]) == Apply(Run(s, front), a)
  {
    var more := front + [a];
    assert more[..|front|] == front;
    forall j | 0 <= j <= |front| ensures Run(s, more[..j]).tick.AwaitRevoke? {
      assert more[..j] == front[..j];
    }
  }

  lemma RevokingGoesOn(s: State, front: seq<Action>, a: Action)
    requires Good(s) && StillRevoking(s, front) && !a.Cut?
    ensures var more := front + [a]; StillRevoking(s, more) || RevokedAt(s, more, |front|)
  {
    var more := front + [a];
    RunIsGood(s, front);
    RevokingStep(Run(s, front), a);
    WaitsExtends(s, front, a);
    assert more[..|front|] == front && more[..|more|] == more && more[|front|] == a;
    if Revoked(Run(s, more)) && a.RevokeArrives? && Run(s, front).tick.handled {
      assert RevokedAt(s, more, |front|);
    } else {
      assert WaitsFor(s, more, |more|);
      assert HandleCancel in more <==> HandleCancel in front || a == HandleCancel;
    }
  }

  lemma {:induction false} RevokingRun(s: State, more: seq<Action>)
    requires Good(s) && s.tick.AwaitRevoke? && !s.tick.handled && Cut !in more
    ensures StillRevoking(s, more) || exists k: nat :: RevokedAt(s, more, k)
  {
    if more == [] {
      assert WaitsFor(s, more, 0);
    } else {
      var n := |more| - 1;
      var front := more[..n];
      assert more == front + [more[n]] && more[n] in more;
      RevokingRun(s, front);
      if StillRevoking(s, front) {
        RevokingGoesOn(s, front, more[n]);
      } else {
        var k: nat :| RevokedAt(s, front, k);
        assert more[..k] == front[..k] && more[..k + 1] == front[..k + 1];
        assert forall j :: 0 <= j <= k ==> more[..j] == front[..j];
        assert RevokedAt(s, more, k);
      }
    }
  }

  /**
   A tick that reaches a running link after the runtime's grant was revoked, and whose owner task
   is not cancelled, asks the worker to cancel first. In every run in which it is not cut short,
   either it is still waiting for that call, or the call was handled, its reply left the task
   cancelled, and only then did the tick go on to anything else, having taken no status.
   */
  lemma RevokedGrantCancelsFirst(s: State, capacity: bool, more: seq<Action>)
    requires Good(s) && s.link.Active? && s.tick.RowRead? && !s.status.Cancelled? && Cut !in more
    ensures var t := Apply(s, StartTick(false, capacity));
            && t == s.(tick := AwaitRevoke(s.tick.row, false))
            && (StillRevoking(t, more) || exists k: nat :: RevokedAt(t, more, k))
  {
    var t := Apply(s, StartTick(false, capacity));
    StartKeepsGood(s, false, capacity);
    RevokingRun(t, more);
  }

  /** The owner's task is cancelled, and no ruling in progress read it otherwise. */
  ghost predicate CancelKnown(s: State) {
    && Good(s) && s.status.Cancelled? && (s.tick.Ruling? ==> s.tick.ownerCancelled)
    && (s.closing.Some? && s.closing.value.Reported? ==> s.closing.value.recorded.Cancelled?)
  }

  lemma CancelKnownStep(s: State, a: Action)
    requires CancelKnown(s) && (a.OwnerStatus? ==> a.status.Cancelled?)
    ensures CancelKnown(Apply(s, a))
  {
    ApplyKeepsGood(s, a);
  }

  /** A cancelled task, as after a revocation, stays cancelled whatever the worker reports, unless
      the owner's side itself gives it another status. */
  lemma {:induction false} CancelledIsNotOverruled(s: State, actions: seq<Action>)
    requires CancelKnown(s)
    requires forall a :: a in actions ==> (a.OwnerStatus? ==> a.status.Cancelled?)
    ensures CancelKnown(Run(s, actions))
  {
    if actions == [] {
    } else {
      var front := actions[..|actions| - 1];
      CancelledIsNotOverruled(s, front);
      assert actions[|actions| - 1] in actions;
      CancelKnownStep(Run(s, front), actions[|actions| - 1]);
    }
  }

  // ---------------------------------------------------------------- progress

  /** Undisturbed, a tick that has the worker's settled report records it: success needs every nested
      child accepted and an equal context version, and failure and cancellation need nothing more. */
  lemma SettledReportIsRecorded(s: State, report: Report)
    requires s.tick.AwaitStatus? && s.tick.taken == Some(report) && report.clean
    requires report.status.Succeeded? || report.status.Failed? || report.status.Cancelled?
    requires s.status.Cancelled? ==> s.tick.row.status.Cancelled?
    requires report.status.Succeeded? && !s.status.Cancelled? ==> s.nested && s.version == report.context
    ensures var replied := Apply(s, StatusArrives);
            var checked := if report.status.Succeeded? && !s.status.Cancelled?
                           then Apply(Apply(replied, CheckNested), CheckVersion) else replied;
            var t := Apply(checked, Conclude);
            t.link.Closed? && t.status == if s.status.Cancelled? then Cancelled else report.status
  {
    var replied := Apply(s, StatusArrives);
    assert replied == s.(tick := Ruling(s.tick.row, s.tick.cancelled, report, s.status.Cancelled?, Unchecked));
  }

  // ---------------------------------------------------------------- the handlers

  /** The owner's and the worker's rows for one task, and the handlers that rewrite them. */
  class Submission {
    var link: LinkState
    var remoteId: Option<nat>
    var status: Status
    var version: nat
    var nested: bool
    var packet: Option<nat>
    var tick: Tick
    var closing: Option<Closing>
    var accepts: set<Wire>
    var replies: set<nat>
    var origin: Option<nat>
    var digest: Option<Wire>
    var tasks: seq<Report>

    ghost function View(): State
      reads this
    {
      State(link, remoteId, status, version, nested, packet, tick, closing, accepts, replies, origin, digest, tasks)
    }

    constructor (status: Status, version: nat)
      ensures View() == Submitted(status, version) && Good(View())
    {
      link, remoteId, this.status, this.version, nested := Pending, None, status, version, true;
      packet, tick, closing, accepts, replies := None, Idle, None, {}, {};
      origin, digest, tasks := None, None, [];
    }

    /** The rows a tick begins with, for a link not yet done. */
    method ReadRow()
      requires Good(View())
      modifies this`tick
      ensures View() == Apply(old(View()), Action.ReadRow) && Good(View())
      ensures tick == if old(tick).Idle? && !link.Closed? then RowRead(Row(link, status)) else old(tick)
    {
      if tick.Idle? && !link.Closed? { tick := RowRead(Row(link, status)); }
    }

    /** The tick reaches the link, and goes up to its first await. */
    method StartTick(allowed: bool, capacity: bool)
      requires Good(View()) && tick.RowRead?
      modifies this`link, this`closing, this`tick
      ensures View() == Apply(old(View()), Action.StartTick(allowed, capacity)) && Good(View())
      // A cancelled task that was never sent is done with; otherwise it is sent when it may be.
      ensures old(link).Pending? && old(tick).row.status.Cancelled? ==>
                link.Closed? && closing == Some(NeverSent) && tick.Idle?
      ensures old(link).Pending? && !old(tick).row.status.Cancelled? ==>
                link.Pending? && tick == if !old(tick).row.status.Waiting? && capacity && allowed
                                         then AwaitCapabilities(old(tick).row) else Idle
      ensures old(link).Sending? ==>
                link.Sending? && tick == if allowed then AwaitCapabilities(old(tick).row) else Idle
      // A running task whose runtime lost its grant is cancelled before its status is asked for.
      ensures old(link).Active? ==>
                link.Active? &&
                tick == if !allowed && !status.Cancelled? then AwaitRevoke(old(tick).row, false)
                        else if old(tick).row.status.Cancelled? then AwaitCancel(old(tick).row, false)
                        else AwaitStatus(old(tick).row, false, None)
    {
      var row := tick.row;
      tick := Idle;
      if row.link.Pending? && row.status.Cancelled? {
        link, closing := Closed, Some(NeverSent);
        return;
      }
      if row.link.Pending? || row.link.Sending? {
        if row.link.Pending? && row.status.Waiting? { return; }
        if row.link.Pending? && !capacity { return; }
        if allowed { tick := AwaitCapabilities(row); }
        return;
      }
      if !allowed && !status.Cancelled? {
        tick := AwaitRevoke(row, false);
      } else if row.status.Cancelled? {
        tick := AwaitCancel(row, false);
      } else {
        tick := AwaitStatus(row, false, None);
      }
    }

    /** Prepare the packet, mark the link as sending, and send. */
    method CapabilitiesReply(content: nat, encoding: nat)
      requires Good(View()) && tick.AwaitCapabilities?
      modifies this`packet, this`link, this`accepts, this`tick
      ensures View() == Apply(old(View()), CapabilitiesArrive(content, encoding)) && Good(View())
      ensures packet == (if old(packet).Some? then old(packet) else Some(content)) && packet.Some?
      ensures link.Sending? && tick.AwaitAccept? && accepts == old(accepts) + {Wire(packet.value, encoding)}
    {
      if packet.None? { packet := Some(content); }
      link := Sending;
      accepts := accepts + {Wire(packet.value, encoding)};
      tick := AwaitAccept;
    }

    method AcceptReply(id: nat)
      requires Good(View()) && tick.AwaitAccept? && id in replies
      modifies this`link, this`remoteId, this`tick
      ensures View() == Apply(old(View()), AcceptArrives(id)) && Good(View())
      ensures link.Active? && tick.Idle? && remoteId == Some(id) && remoteId == origin
    {
      link, remoteId := Active, Some(id);
      tick := Idle;
    }

    method CancelReply()
      requires Good(View()) && ((tick.AwaitCancel? && tick.handled) || (tick.AwaitRevoke? && tick.handled))
      modifies this`status, this`tick
      ensures View() == Apply(old(View()), if old(tick).AwaitCancel? then CancelArrives else RevokeArrives)
      ensures Good(View())
      ensures old(tick).AwaitRevoke? ==>
                status.Cancelled? && tick == if old(tick).row.status.Cancelled? then AwaitCancel(old(tick).row, false)
                                             else AwaitStatus(old(tick).row, false, None)
      ensures old(tick).AwaitCancel? ==> status == old(status) && tick == AwaitStatus(old(tick).row, true, None)
    {
      if tick.AwaitRevoke? {
        status := Cancelled;
        tick := if tick.row.status.Cancelled? then AwaitCancel(tick.row, false)
                else AwaitStatus(tick.row, false, None);
      } else {
        tick := AwaitStatus(tick.row, true, None);
      }
    }

    /** A status reply: read the task's status, and stop if it was cancelled since the tick began. */
    method StatusReply()
      requires Good(View()) && tick.AwaitStatus? && tick.taken.Some?
      modifies this`tick
      ensures View() == Apply(old(View()), StatusArrives) && Good(View())
      ensures var was := old(tick);
              tick == if status.Cancelled? && !was.row.status.Cancelled? then Idle
                      else Ruling(was.row, was.cancelled, was.taken.value, status.Cancelled?, Unchecked)
    {
      RulingKeepsGood(View(), StatusArrives);
      var cancelled := status.Cancelled?;
      if cancelled && !tick.row.status.Cancelled? {
        tick := Idle;
      } else {
        tick := Ruling(tick.row, tick.cancelled, tick.taken.value, cancelled, Unchecked);
      }
    }

    /** The two further reads that success needs. */
    method ReadNested()
      requires Good(View()) && tick.Ruling? && NeedsChecks(tick) && tick.checks.Unchecked?
      modifies this`tick
      ensures View() == Apply(old(View()), CheckNested) && Good(View())
      ensures tick == if nested then old(tick).(checks := NestedRead(true)) else Idle
    {
      RulingKeepsGood(View(), CheckNested);
      if nested { tick := tick.(checks := NestedRead(nested)); } else { tick := Idle; }
    }

    method ReadVersion()
      requires Good(View()) && tick.Ruling? && tick.checks.NestedRead?
      modifies this`tick, this`status
      ensures View() == Apply(old(View()), CheckVersion) && Good(View())
      ensures if old(tick).report.context == version
              then status == old(status) && tick == old(tick).(checks := AllRead(Seen(true, version)))
              else tick.Idle? && status.Blocked?
    {
      RulingKeepsGood(View(), CheckVersion);
      if tick.report.context != version {
        status := Blocked;
        tick := Idle;
      } else {
        tick := tick.(checks := AllRead(Seen(tick.checks.nested, version)));
      }
    }

    /** The transaction that ends the tick. */
    method CommitReport()
      requires Good(View()) && tick.Ruling? && (NeedsChecks(tick) ==> tick.checks.AllRead?)
      modifies this`status, this`link, this`closing, this`tick
      ensures View() == Apply(old(View()), Conclude) && Good(View()) && tick.Idle?
      ensures var report := old(tick).report;
              if report.clean && (report.status.Succeeded? || report.status.Failed? || report.status.Cancelled?) then
                && link == Closed && closing.Some? && closing.value.Reported? && closing.value.report == report
                && status == if old(tick).ownerCancelled then Cancelled else report.status
              else link == old(link) && status == old(status) && closing == old(closing)
    {
      ConcludeKeepsGood(View());
      var report, cancelled := tick.report, tick.ownerCancelled;
      var cancelSent, seen := tick.cancelled, if tick.checks.AllRead? then Some(tick.checks.seen) else None;
      tick := Idle;
      if !Terminal(report.status) || !report.clean { return; }
      var was := status;
      status := if cancelled then Cancelled else report.status;
      link := Closed;
      closing := Some(Reported(report, cancelled, cancelSent, seen, was, version, status));
    }

    /** The worker's accept handler, whose first read may be older than its transaction. */
    method HandleAccept(wire: Wire, sawOrigin: bool) returns (reply: Option<nat>)
      requires Good(View()) && wire in accepts
      modifies this`tasks, this`origin, this`digest, this`replies
      ensures View() == Apply(old(View()), DeliverAccept(wire, sawOrigin)) && Good(View())
      ensures reply == ReplyTo(old(View()), wire, sawOrigin)
      ensures reply.Some? ==> reply == origin && reply.value < |tasks|
      ensures if !sawOrigin && old(origin).None? then
                && reply == Some(|old(tasks)|) && origin == reply && digest == Some(wire)
                && tasks == old(tasks) + [Report(Running, 0, true)]
              else
                && (reply.Some? <==> sawOrigin && old(digest) == Some(wire))
                && tasks == old(tasks) && origin == old(origin) && digest == old(digest)
      ensures replies == if reply.Some? then old(replies) + {reply.value} else old(replies)
    {
      reply := None;
      if sawOrigin {
        if origin.Some? && digest == Some(wire) { reply := origin; }
      } else if origin.None? {
        reply := Some(|tasks|);
        tasks := tasks + [Report(Running, 0, true)];
        origin, digest := reply, Some(wire);
      }
      if reply.Some? { replies := replies + {reply.value}; }
    }

    /** The worker's cancel handler. */
    method HandleCancel()
      requires Good(View()) && (tick.AwaitRevoke? || tick.AwaitCancel?)
      modifies this`tasks, this`tick
      ensures View() == Apply(old(View()), Action.HandleCancel) && Good(View())
      ensures |tasks| == |old(tasks)|
      ensures forall i :: 0 <= i < |tasks| ==> tasks[i] == old(tasks)[i].(status := Cancelled)
      ensures tick == old(tick).(handled := true)
    {
      ApplyKeepsGood(View(), Action.HandleCancel);
      tasks := CancelTasks(tasks);
      tick := tick.(handled := true);
    }

    /** The worker's status handler. */
    method HandleStatus()
      requires Good(View()) && tick.AwaitStatus?
      modifies this`tick
      ensures View() == Apply(old(View()), Action.HandleStatus) && Good(View())
      ensures remoteId.Some? && remoteId.value < |tasks| && tick == old(tick).(taken := Some(tasks[remoteId.value]))
    {
      tick := tick.(taken := Some(tasks[remoteId.value]));
    }
  }
}
