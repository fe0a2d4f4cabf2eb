/**
 Bounded task trees with one versioned context, and questions routed up the tree
 (src/delegation.rs). Each operation is one transaction: it either commits the state its
 specification gives or is refused and changes nothing. What a caller reads before its
 transaction opens is kept from the moment it is read, so it may be out of date when used.
 */
module Delegation {
  import opened Options
  import opened TaskTree

  /** Primary keys of context_records. The source spells the first two "objective:TASK" and
      "answer:QUESTION"; a caller of update_context may name any of the three. */
  datatype RecordId = ObjectiveOf(task: nat) | AnswerTo(question: nat) | Named(name: string)

  datatype Record = Record(root: nat, version: nat, kind: string, content: string, mandatory: bool)

  datatype Question = Question(origin: nat, request: string, envelope: string, humanOnly: bool,
                               target: Option<nat>, answer: Option<string>, answerer: Option<string>)

  datatype Pin = Pin(root: nat, version: nat)

  /** The columns of a question that `question_action` reads before its transaction. */
  datatype Route = Route(target: Option<nat>, answer: Option<string>)

  /** The last two components are the reads made so far: of tasks' versions and of questions' routes. */
  datatype State = State(nodes: seq<Node>, versions: seq<nat>, status: seq<Status>,
                         records: map<RecordId, Record>, questions: seq<Question>,
                         escalations: map<(nat, nat), string>, pins: map<string, Pin>,
                         versionReads: set<(nat, nat)>, routeReads: set<(nat, Route)>)

  const EMPTY := State([], [], [], map[], [], map[], map[], {}, {})
  const OBJECTIVE := "objective"

  datatype Action =
    | Submit(objective: string, limits: Limits)
    | Delegate(parent: nat, request: Request, worker: Option<string>, peer: Option<string>, read: nat)
    | Update(root: nat, id: RecordId, supersedes: seq<RecordId>, kind: string, content: string, mandatory: bool)
    | PinAttempt(attempt: string, task: nat)
    | Ask(origin: nat, key: string, envelope: string, humanOnly: bool, worker: Option<string>)
    | Escalate(caller: nat, question: nat, worker: Option<string>, commentary: string, seen: Route)
    | Answer(caller: nat, question: nat, worker: Option<string>, answer: string, human: bool, seen: Route)
    | ReadVersion(task: nat)
    | ReadRoute(question: nat)

  // ---------------------------------------------------------------- SQL updates

  function SetVersions(nodes: seq<Node>, versions: seq<nat>, root: nat, version: nat): (r: seq<nat>)
    requires |versions| == |nodes|
  {
    seq(|nodes|, i requires 0 <= i < |nodes| => if nodes[i].root == root then version else versions[i])
  }

  function BlockSucceeded(nodes: seq<Node>, status: seq<Status>, root: nat): (r: seq<Status>)
    requires |status| == |nodes|
  {
    seq(|nodes|, i requires 0 <= i < |nodes| =>
      if nodes[i].root == root && status[i].Succeeded? then Blocked else status[i])
  }

  function Supersedable(records: map<RecordId, Record>, root: nat, id: RecordId): bool {
    id in records && records[id].root == root && records[id].kind != OBJECTIVE
  }

  /** `UPDATE context_records SET mandatory=0` for the named records. */
  function Demoted(records: map<RecordId, Record>, ids: set<RecordId>): map<RecordId, Record> {
    map id | id in records :: if id in ids then records[id].(mandatory := false) else records[id]
  }

  function WithoutRoot(records: map<RecordId, Record>, root: nat): map<RecordId, Record> {
    map id | id in records && records[id].root != root :: records[id]
  }

  function Ids(ids: seq<RecordId>): set<RecordId> {
    set id | id in ids
  }

  // ---------------------------------------------------------------- the operations

  predicate Shaped(s: State) {
    |s.versions| == |s.status| == |s.nodes|
  }

  function Submitted(s: State, objective: string, limits: Limits): Option<State> {
    var task := |s.nodes|;
    if limits.children > 256 || limits.depth > 8 || ObjectiveOf(task) in s.records then None
    else Some(s.(
      nodes := s.nodes + [Node(task, None, None, 0, None, limits)],
      versions := s.versions + [1],
      status := s.status + [Running],
      records := s.records[ObjectiveOf(task) := Record(task, 1, OBJECTIVE, objective, true)]))
  }

  function Earlier(nodes: seq<Node>, parent: nat, request: string): Option<nat> {
    if nodes == [] then None
    else
      var k := |nodes| - 1;
      match Earlier(nodes[..k], parent, request)
      case Some(task) => Some(task)
      case None =>
        if nodes[k].parent == Some(parent) && nodes[k].request.Some? && nodes[k].request.value.id == request
        then Some(k) else None
  }

  lemma {:induction false} NoneEarlier(nodes: seq<Node>, parent: nat, request: string)
    requires forall k :: 0 <= k < |nodes| ==>
               !(nodes[k].parent == Some(parent) && nodes[k].request.Some? && nodes[k].request.value.id == request)
    ensures Earlier(nodes, parent, request) == None
  {
    if nodes == [] {
    } else {
      NoneEarlier(nodes[..|nodes| - 1], parent, request);
    }
  }

  /** The search finds the oldest child delegated under that request id. */
  lemma {:induction false} EarlierIsFirst(nodes: seq<Node>, parent: nat, request: string, k: nat)
    requires k < |nodes| && nodes[k].parent == Some(parent)
    requires nodes[k].request.Some? && nodes[k].request.value.id == request
    requires forall j :: 0 <= j < k ==>
               !(nodes[j].parent == Some(parent) && nodes[j].request.Some? && nodes[j].request.value.id == request)
    ensures Earlier(nodes, parent, request) == Some(k)
  {
    var n := |nodes| - 1;
    if k == n {
      NoneEarlier(nodes[..n], parent, request);
    } else {
      EarlierIsFirst(nodes[..n], parent, request, k);
    }
  }

  lemma FirstIsEarlier(nodes: seq<Node>, parent: nat, request: string)
    ensures (forall k :: 0 <= k < |nodes| ==>
               !(nodes[k].parent == Some(parent) && nodes[k].request.Some? && nodes[k].request.value.id == request))
            ==> Earlier(nodes, parent, request) == None
    ensures forall k ::
              0 <= k < |nodes| && nodes[k].parent == Some(parent) &&
              nodes[k].request.Some? && nodes[k].request.value.id == request &&
              (forall j :: 0 <= j < k ==>
                 !(nodes[j].parent == Some(parent) && nodes[j].request.Some? && nodes[j].request.value.id == request))
              ==> Earlier(nodes, parent, request) == Some(k)
  {
    if forall k :: 0 <= k < |nodes| ==>
         !(nodes[k].parent == Some(parent) && nodes[k].request.Some? && nodes[k].request.value.id == request) {
      NoneEarlier(nodes, parent, request);
    }
    forall k |
      0 <= k < |nodes| && nodes[k].parent == Some(parent) &&
      nodes[k].request.Some? && nodes[k].request.value.id == request &&
      forall j :: 0 <= j < k ==>
        !(nodes[j].parent == Some(parent) && nodes[j].request.Some? && nodes[j].request.value.id == request)
      ensures Earlier(nodes, parent, request) == Some(k)
    {
      EarlierIsFirst(nodes, parent, request, k);
    }
  }

  /** The writes of an admitted delegation. */
  function Adopted(s: State, parent: nat, request: Request, worker: Option<string>,
                   peer: Option<string>, read: nat): State
    requires |s.status| == |s.nodes| && parent < |s.nodes|
  {
    var row := s.nodes[parent];
    s.(nodes := s.nodes + [Node(row.root, Some(parent), worker, row.depth + 1, Some(request), row.limits)],
       versions := s.versions + [read],
       status := (if s.status[parent].Succeeded? then s.status[parent := Running] else s.status) +
                 [if peer.Some? then Remote else Running],
       records := WithoutRoot(s.records, |s.nodes|))
  }

  /** What an admitted delegation writes: the child's row, its version and its state, and the parent's
      state if it had succeeded. */
  ghost predicate DelegatedRows(was: State, parent: nat, request: Request, worker: Option<string>,
                                peer: Option<string>, read: nat, now: State)
    requires |was.status| == |was.nodes| && parent < |was.nodes|
  {
    var row := was.nodes[parent];
    && now.nodes == was.nodes + [Node(row.root, Some(parent), worker, row.depth + 1, Some(request), row.limits)]
    && now.versions == was.versions + [read]
    && |now.status| == |was.status| + 1 && now.status[|was.status|] == (if peer.Some? then Remote else Running)
    && (forall k :: 0 <= k < |was.status| ==>
          now.status[k] == if k == parent && was.status[k].Succeeded? then Running else was.status[k])
    && (forall id :: id in now.records <==> id in was.records && was.records[id].root != |was.nodes|)
    && (forall id :: id in now.records ==> now.records[id] == was.records[id])
    && now.questions == was.questions && now.escalations == was.escalations && now.pins == was.pins
  }

  lemma AdoptedWrites(s: State, parent: nat, request: Request, worker: Option<string>, peer: Option<string>, read: nat)
    requires |s.status| == |s.nodes| && parent < |s.nodes|
    ensures DelegatedRows(s, parent, request, worker, peer, read, Adopted(s, parent, request, worker, peer, read))
  {
  }

  /** `read` is the parent's version as the caller read it before its transaction opened. */
  function Delegated(s: State, parent: nat, request: Request, worker: Option<string>,
                     peer: Option<string>, read: nat): Option<State>
    requires |s.versions| == |s.status| == |s.nodes|
  {
    if parent >= |s.nodes| || (parent, read) !in s.versionReads then None
    else match Earlier(s.nodes, parent, request.id)
      case Some(task) =>
        if task < |s.nodes| && s.nodes[task].request == Some(request) then Some(s) else None
      case None =>
        var row, child := s.nodes[parent], |s.nodes|;
        if row.limits.children <= Members(s.nodes, row.root) - 1 || row.limits.depth <= row.depth
           || ObjectiveOf(child) in s.records
        then None
        else Some(Adopted(s, parent, request, worker, peer, read))
  }

  function Updated(s: State, root: nat, id: RecordId, supersedes: seq<RecordId>, kind: string,
                   content: string, mandatory: bool): Option<State>
    requires |s.versions| == |s.status| == |s.nodes|
  {
    if root >= |s.nodes| || s.nodes[root].root != root then None
    else if exists prior :: prior in supersedes && !Supersedable(s.records, root, prior) then None
    else if id in s.records then None
    else
      var version := s.versions[root] + 1;
      Some(s.(
        records := Demoted(s.records, Ids(supersedes))[id := Record(root, version, kind, content, mandatory)],
        versions := SetVersions(s.nodes, s.versions, root, version),
        status := BlockSucceeded(s.nodes, s.status, root)))
  }

  /** A revision is refused unless it is made at a root, under a new name, and supersedes only records of
      that root other than an objective. */
  lemma RevisionAdmittedIff(s: State, root: nat, id: RecordId, supersedes: seq<RecordId>, kind: string,
                            content: string, mandatory: bool)
    requires Shaped(s)
    ensures Updated(s, root, id, supersedes, kind, content, mandatory).Some? <==>
              && root < |s.nodes| && s.nodes[root].root == root && id !in s.records
              && forall i :: 0 <= i < |supersedes| ==>
                   && supersedes[i] in s.records && s.records[supersedes[i]].root == root
                   && s.records[supersedes[i]].kind != "objective"
  {
    forall i | 0 <= i < |supersedes| ensures supersedes[i] in supersedes {}
  }

  /** What a revision writes: the new record, the superseded ones demoted, the next version for every task
      of the tree, and none of them left succeeded. */
  lemma RevisionWrites(s: State, root: nat, id: RecordId, supersedes: seq<RecordId>, kind: string,
                       content: string, mandatory: bool, t: State)
    requires Shaped(s) && Updated(s, root, id, supersedes, kind, content, mandatory) == Some(t)
    ensures t == s.(records := t.records, versions := t.versions, status := t.status)
    ensures t.records.Keys == s.records.Keys + {id}
    ensures t.records[id] == Record(root, s.versions[root] + 1, kind, content, mandatory)
    ensures forall r :: r in s.records ==>
              t.records[r] == if r in supersedes then s.records[r].(mandatory := false) else s.records[r]
    ensures |t.versions| == |t.status| == |s.nodes|
    ensures forall k :: 0 <= k < |s.nodes| ==>
              && t.versions[k] == (if s.nodes[k].root == root then s.versions[root] + 1 else s.versions[k])
              && t.status[k] == if s.nodes[k].root == root && s.status[k].Succeeded? then Blocked else s.status[k]
  {
  }

  function Pinned(s: State, attempt: string, task: nat): Option<State>
    requires |s.versions| == |s.nodes|
  {
    if task >= |s.nodes| || attempt in s.pins then None
    else Some(s.(pins := s.pins[attempt := Pin(s.nodes[task].root, s.versions[task])]))
  }

  function CheckPin(s: State, task: nat, attempt: string): bool
    requires |s.versions| == |s.nodes| && task < |s.nodes|
  {
    attempt in s.pins ==> s.pins[attempt].version == s.versions[task]
  }

  function Asked(questions: seq<Question>, origin: nat, request: string): Option<nat> {
    if questions == [] then None
    else
      var k := |questions| - 1;
      match Asked(questions[..k], origin, request)
      case Some(q) => Some(q)
      case None => if questions[k].origin == origin && questions[k].request == request then Some(k) else None
  }

  lemma {:induction false} NoneAsked(questions: seq<Question>, origin: nat, request: string)
    requires forall k :: 0 <= k < |questions| ==> !(questions[k].origin == origin && questions[k].request == request)
    ensures Asked(questions, origin, request) == None
  {
    if questions == [] {
    } else {
      NoneAsked(questions[..|questions| - 1], origin, request);
    }
  }

  /** The search finds the oldest question its origin asked under that request id. */
  lemma {:induction false} AskedIsFirst(questions: seq<Question>, origin: nat, request: string, k: nat)
    requires k < |questions| && questions[k].origin == origin && questions[k].request == request
    requires forall j :: 0 <= j < k ==> !(questions[j].origin == origin && questions[j].request == request)
    ensures Asked(questions, origin, request) == Some(k)
  {
    var n := |questions| - 1;
    if k == n {
      NoneAsked(questions[..n], origin, request);
    } else {
      AskedIsFirst(questions[..n], origin, request, k);
    }
  }

  function Posed(s: State, origin: nat, request: string, envelope: string, humanOnly: bool,
                 worker: Option<string>): Option<State>
    requires |s.status| == |s.nodes|
  {
    if origin >= |s.nodes| then None
    else match Asked(s.questions, origin, request)
      case Some(q) =>
        if q < |s.questions| && s.questions[q].envelope == envelope then Some(s) else None
      case None =>
        Some(s.(
          questions := s.questions +
            [Question(origin, request, envelope, humanOnly, s.nodes[origin].parent, None, None)],
          status := if worker.None? && s.status[origin].Running? then s.status[origin := Waiting] else s.status))
  }

  /** The task on the way from `origin` up to `caller` that `caller` itself delegated. */
  function Branch(nodes: seq<Node>, origin: nat, caller: nat): Option<nat>
    decreases origin
  {
    if origin >= |nodes| then None
    else match nodes[origin].parent
      case None => None
      case Some(p) => if p == caller then Some(origin) else if p < origin then Branch(nodes, p, caller) else None
  }

  /** The addressing and worker checks common to answering and escalating, on the target read. */
  function Admits(s: State, caller: nat, question: nat, worker: Option<string>, escalate: bool,
                  target: Option<nat>): bool
    requires question < |s.questions|
  {
    var q := s.questions[question];
    && q.origin < |s.nodes|
    && (target == Some(caller) || (target.None? && caller == s.nodes[q.origin].root))
    && (worker.Some? ==>
          && target.Some?
          && (match Branch(s.nodes, q.origin, caller)
              case None => false
              case Some(b) => b < |s.nodes| && s.nodes[b].worker == worker)
          && (escalate || !q.humanOnly))
  }

  /** The row read may be out of date; the key of the receipt is not. */
  function Escalated(s: State, caller: nat, question: nat, worker: Option<string>, commentary: string,
                     seen: Route): Option<State> {
    if question >= |s.questions| || (question, seen) !in s.routeReads then None
    else if (question, caller) in s.escalations then
      if s.escalations[(question, caller)] == commentary then Some(s) else None
    else if !Admits(s, caller, question, worker, true, seen.target) || caller >= |s.nodes| || seen.answer.Some?
    then None
    else Some(s.(
      escalations := s.escalations[(question, caller) := commentary],
      questions := s.questions[question := s.questions[question].(target := s.nodes[caller].parent)]))
  }

  function Unanswered(questions: seq<Question>, task: nat): bool {
    exists k :: 0 <= k < |questions| && questions[k].origin == task && questions[k].answer.None?
  }

  /** The writes of an accepted answer: the row, the tree's version and the new record. */
  function Recorded(s: State, question: nat, root: nat, answer: string, author: string): State
    requires |s.versions| == |s.status| == |s.nodes|
    requires question < |s.questions| && s.questions[question].origin < |s.nodes| && root < |s.nodes|
  {
    var origin := s.questions[question].origin;
    var version := s.versions[root] + 1;
    var questions := s.questions[question :=
      s.questions[question].(answer := Some(answer), answerer := Some(author))];
    var woken := if s.status[origin].Waiting? && !Unanswered(questions, origin)
                 then s.status[origin := Running] else s.status;
    s.(questions := questions,
       versions := SetVersions(s.nodes, s.versions, root, version),
       status := BlockSucceeded(s.nodes, woken, root),
       records := s.records[AnswerTo(question) := Record(root, version, "answer", answer, true)])
  }

  /** The row read may be out of date; the key of the answer's record is not. */
  function Answered(s: State, caller: nat, question: nat, worker: Option<string>, answer: string,
                    human: bool, seen: Route): Option<State>
    requires |s.versions| == |s.status| == |s.nodes|
  {
    if question >= |s.questions| || (question, seen) !in s.routeReads
       || !Admits(s, caller, question, worker, false, seen.target)
    then None
    else if seen.answer.Some? then if seen.answer.value == answer then Some(s) else None
    else if s.questions[question].humanOnly && !(human && worker.None?) then None
    else if AnswerTo(question) in s.records then None
    else
      var root := s.nodes[s.questions[question].origin].root;
      if root >= |s.nodes| then None
      else Some(Recorded(s, question, root, answer, match worker case Some(w) => w case None => "external caller"))
  }

  function RouteOf(q: Question): Route {
    Route(q.target, q.answer)
  }

  function Commit(s: State, a: Action): Option<State>
    requires Shaped(s)
  {
    match a
    case Submit(objective, limits) => Submitted(s, objective, limits)
    case Delegate(parent, request, worker, peer, read) => Delegated(s, parent, request, worker, peer, read)
    case Update(root, id, supersedes, kind, content, mandatory) =>
      Updated(s, root, id, supersedes, kind, content, mandatory)
    case PinAttempt(attempt, task) => Pinned(s, attempt, task)
    case Ask(origin, key, envelope, humanOnly, worker) => Posed(s, origin, key, envelope, humanOnly, worker)
    case Escalate(caller, question, worker, commentary, seen) =>
      Escalated(s, caller, question, worker, commentary, seen)
    case Answer(caller, question, worker, answer, human, seen) =>
      Answered(s, caller, question, worker, answer, human, seen)
    case ReadVersion(task) =>
      if task < |s.nodes| then Some(s.(versionReads := s.versionReads + {(task, s.versions[task])})) else None
    case ReadRoute(question) =>
      if question < |s.questions|
      then Some(s.(routeReads := s.routeReads + {(question, RouteOf(s.questions[question]))})) else None
  }

  function Apply(s: State, a: Action): (t: State)
    requires Shaped(s)
    ensures Shaped(t)
  {
    match Commit(s, a)
    case Some(t) => t
    case None => s
  }

  function Run(s: State, actions: seq<Action>): (t: State)
    requires Shaped(s)
    ensures Shaped(t)
  {
    if actions == [] then s
    else Apply(Run(s, actions[..|actions| - 1]), actions[|actions| - 1])
  }

  // ---------------------------------------------------------------- invariants

  /** The record of that name if it is part of what every attempt under `root` is given. */
  function Mandatory(records: map<RecordId, Record>, root: nat, id: RecordId): Option<Record> {
    if id in records && records[id].root == root && records[id].mandatory then Some(records[id]) else None
  }

  ghost predicate SameMandatory(s: map<RecordId, Record>, t: map<RecordId, Record>, root: nat) {
    forall id :: Mandatory(s, root, id) == Mandatory(t, root, id)
  }

  ghost predicate RecordsGood(nodes: seq<Node>, records: map<RecordId, Record>) {
    && (forall id :: id in records ==> records[id].root < |nodes|)
    && forall r :: 0 <= r < |nodes| && nodes[r].parent.None? ==>
         && ObjectiveOf(r) in records
         && records[ObjectiveOf(r)].root == r
         && records[ObjectiveOf(r)].kind == OBJECTIVE
         && records[ObjectiveOf(r)].mandatory
  }

  /** The ancestors of `origin` that a question addressed to `target` has left behind. */
  ghost predicate Behind(nodes: seq<Node>, c: nat, origin: nat, target: Option<nat>) {
    Above(nodes, c, origin) && (target.Some? ==> Above(nodes, target.value, c))
  }

  /** Where question `k` stands: it is addressed to a strict ancestor or to nobody, and the
      tasks that passed it on are exactly the ancestors it has left behind. */
  ghost predicate RouteGood(nodes: seq<Node>, passed: set<(nat, nat)>, k: nat, q: Question) {
    && q.origin < |nodes|
    && (q.target.Some? ==> Above(nodes, q.target.value, q.origin))
    && (nodes[q.origin].parent.None? ==> forall c: nat :: (k, c) in passed ==> c == q.origin)
    && (nodes[q.origin].parent.Some? ==>
          forall c: nat :: (k, c) in passed <==> Behind(nodes, c, q.origin, q.target))
  }

  ghost predicate RoutesGood(nodes: seq<Node>, passed: set<(nat, nat)>, questions: seq<Question>) {
    && (forall k :: 0 <= k < |questions| ==> RouteGood(nodes, passed, k, questions[k]))
    && (forall e :: e in passed ==> e.0 < |questions|)
  }

  /** No task is ahead of its root, and no version read is ahead of the task it was read from. */
  ghost predicate VersionsGood(nodes: seq<Node>, versions: seq<nat>, held: set<(nat, nat)>)
    requires |versions| == |nodes|
  {
    && (forall k :: 0 <= k < |nodes| ==> nodes[k].root < |nodes| && versions[k] <= versions[nodes[k].root])
    && (forall e :: e in held ==> e.0 < |nodes| && e.1 <= versions[e.0])
  }

  /** A route read is still the question's, or its target has passed the question on since;
      an answer read is the answer. */
  ghost predicate ReadGood(q: Question, passed: set<(nat, nat)>, k: nat, r: Route) {
    && (r.target == q.target || (r.target.Some? && (k, r.target.value) in passed))
    && (r.answer.Some? ==> q.answer == r.answer)
  }

  ghost predicate ReadsGood(questions: seq<Question>, passed: set<(nat, nat)>, held: set<(nat, Route)>) {
    forall e :: e in held ==> e.0 < |questions| && ReadGood(questions[e.0], passed, e.0, e.1)
  }

  /** Every answer written has its record. */
  ghost predicate AnswersKept(questions: seq<Question>, records: map<RecordId, Record>) {
    forall k :: 0 <= k < |questions| && questions[k].answer.Some? ==> AnswerTo(k) in records
  }

  ghost predicate Good(s: State) {
    && Shaped(s)
    && Grown(s.nodes)
    && RecordsGood(s.nodes, s.records)
    && RoutesGood(s.nodes, s.escalations.Keys, s.questions)
    && AnswersKept(s.questions, s.records)
    && VersionsGood(s.nodes, s.versions, s.versionReads)
    && ReadsGood(s.questions, s.escalations.Keys, s.routeReads)
  }

  lemma BumpKeepsVersions(nodes: seq<Node>, versions: seq<nat>, held: set<(nat, nat)>, root: nat)
    requires Rooted(nodes) && |versions| == |nodes| && root < |nodes| && nodes[root].root == root
    requires VersionsGood(nodes, versions, held)
    ensures var after := SetVersions(nodes, versions, root, versions[root] + 1);
            && VersionsGood(nodes, after, held)
            && forall k :: 0 <= k < |nodes| ==>
                 versions[k] <= after[k] && (nodes[k].root == root ==> versions[k] < after[k])
  {
    forall k | 0 <= k < |nodes| ensures nodes[nodes[k].root].root == nodes[k].root { RootIsRoot(nodes, k); }
  }

  lemma RouteSurvivesGrowth(nodes: seq<Node>, more: seq<Node>, passed: set<(nat, nat)>, k: nat, q: Question)
    requires |nodes| <= |more| && more[..|nodes|] == nodes
    requires RouteGood(nodes, passed, k, q)
    ensures RouteGood(more, passed, k, q)
  {
    assert more[q.origin] == nodes[q.origin];
    if q.target.Some? { AboveIsStable(nodes, more, q.target.value, q.origin); }
    forall c: nat ensures Behind(more, c, q.origin, q.target) <==> Behind(nodes, c, q.origin, q.target) {
      AboveIsStable(nodes, more, c, q.origin);
      if Above(nodes, c, q.origin) && q.target.Some? {
        AboveIsOlder(nodes, c, q.origin);
        AboveIsStable(nodes, more, q.target.value, c);
      }
    }
  }

  lemma RoutesSurviveGrowth(nodes: seq<Node>, more: seq<Node>, passed: set<(nat, nat)>, questions: seq<Question>)
    requires |nodes| <= |more| && more[..|nodes|] == nodes
    requires RoutesGood(nodes, passed, questions)
    ensures RoutesGood(more, passed, questions)
  {
    forall k | 0 <= k < |questions| ensures RouteGood(more, passed, k, questions[k]) {
      RouteSurvivesGrowth(nodes, more, passed, k, questions[k]);
    }
  }

  lemma RootKeepsVersions(nodes: seq<Node>, versions: seq<nat>, held: set<(nat, nat)>, row: Node)
    requires |versions| == |nodes| && VersionsGood(nodes, versions, held) && row.root == |nodes|
    ensures VersionsGood(nodes + [row], versions + [1], held)
  {
  }

  lemma RecordsSurviveSubmit(nodes: seq<Node>, row: Node, records: map<RecordId, Record>, objective: string)
    requires RecordsGood(nodes, records)
    requires ObjectiveOf(|nodes|) !in records
    requires row.parent.None?
    ensures RecordsGood(nodes + [row], records[ObjectiveOf(|nodes|) := Record(|nodes|, 1, OBJECTIVE, objective, true)])
  {
    var after := records[ObjectiveOf(|nodes|) := Record(|nodes|, 1, OBJECTIVE, objective, true)];
    assert forall r :: 0 <= r < |nodes| ==> (nodes + [row])[r] == nodes[r];
    forall r | 0 <= r < |nodes| && nodes[r].parent.None? ensures after[ObjectiveOf(r)] == records[ObjectiveOf(r)] {}
  }

  lemma AnswersSurviveSubmit(questions: seq<Question>, records: map<RecordId, Record>, id: RecordId, row: Record)
    requires AnswersKept(questions, records)
    ensures AnswersKept(questions, records[id := row])
  {
  }

  /** A submission adds one row of each kind and one record. */
  lemma SubmitParts(s: State, objective: string, limits: Limits, t: State)
    requires Shaped(s) && Grown(s.nodes) && RecordsGood(s.nodes, s.records) && AnswersKept(s.questions, s.records)
    requires VersionsGood(s.nodes, s.versions, s.versionReads) && Submitted(s, objective, limits) == Some(t)
    ensures Shaped(t) && |t.nodes| == |s.nodes| + 1 && t.nodes[..|s.nodes|] == s.nodes
    ensures t == s.(nodes := t.nodes, versions := t.versions, status := t.status, records := t.records)
    ensures Grown(t.nodes) && RecordsGood(t.nodes, t.records) && VersionsGood(t.nodes, t.versions, s.versionReads)
    ensures AnswersKept(s.questions, t.records)
  {
    var task, row := |s.nodes|, Node(|s.nodes|, None, None, 0, None, limits);
    RootKeepsGrown(s.nodes, row);
    RecordsSurviveSubmit(s.nodes, row, s.records, objective);
    RootKeepsVersions(s.nodes, s.versions, s.versionReads, row);
    AnswersSurviveSubmit(s.questions, s.records, ObjectiveOf(task), Record(task, 1, OBJECTIVE, objective, true));
  }

  lemma SubmitKeepsGood(s: State, objective: string, limits: Limits, t: State)
    requires Good(s) && Submitted(s, objective, limits) == Some(t)
    ensures Good(t)
  {
    SubmitParts(s, objective, limits, t);
    RoutesSurviveGrowth(s.nodes, t.nodes, s.escalations.Keys, s.questions);
  }

  lemma ChildKeepsVersions(nodes: seq<Node>, versions: seq<nat>, held: set<(nat, nat)>, parent: nat,
                           row: Node, read: nat)
    requires |versions| == |nodes| && parent < |nodes| && VersionsGood(nodes, versions, held)
    requires (parent, read) in held && row.root == nodes[parent].root
    ensures VersionsGood(nodes + [row], versions + [read], held)
  {
    assert (parent, read).0 == parent && (parent, read).1 == read;
  }

  lemma ChildKeepsRecords(nodes: seq<Node>, row: Node, records: map<RecordId, Record>)
    requires RecordsGood(nodes, records) && row.parent.Some?
    ensures WithoutRoot(records, |nodes|) == records
    ensures RecordsGood(nodes + [row], records)
  {
  }

  lemma ChildGrows(nodes: seq<Node>, p: nat, row: Node)
    requires Grown(nodes) && p < |nodes|
    requires row.parent == Some(p) && row.root == nodes[p].root && row.limits == nodes[p].limits
    requires row.depth == nodes[p].depth + 1
    requires Members(nodes, row.root) - 1 < row.limits.children && nodes[p].depth < row.limits.depth
    ensures Grown(nodes + [row])
  {
    MembersIsCount(nodes, row.root);
    ChildKeepsGrown(nodes, p, row);
  }

  /** A delegation adds one row to the tree, its versions and its states. */
  lemma DelegateParts(s: State, parent: nat, request: Request, worker: Option<string>,
                      peer: Option<string>, read: nat, t: State)
    requires Shaped(s) && Grown(s.nodes) && RecordsGood(s.nodes, s.records)
    requires VersionsGood(s.nodes, s.versions, s.versionReads)
    requires Delegated(s, parent, request, worker, peer, read) == Some(t) && t != s
    ensures Shaped(t) && |t.nodes| == |s.nodes| + 1 && t.nodes[..|s.nodes|] == s.nodes
    ensures t == s.(nodes := t.nodes, versions := t.versions, status := t.status)
    ensures Grown(t.nodes) && RecordsGood(t.nodes, s.records) && VersionsGood(t.nodes, t.versions, s.versionReads)
  {
    var row := t.nodes[|s.nodes|];
    ChildGrows(s.nodes, parent, row);
    ChildKeepsRecords(s.nodes, row, s.records);
    ChildKeepsVersions(s.nodes, s.versions, s.versionReads, parent, row, read);
  }

  lemma DelegateKeepsGood(s: State, parent: nat, request: Request, worker: Option<string>,
                          peer: Option<string>, read: nat, t: State)
    requires Good(s) && Delegated(s, parent, request, worker, peer, read) == Some(t)
    ensures Good(t)
    ensures t.records == s.records
    ensures t != s ==> |t.nodes| == |s.nodes| + 1
  {
    if t != s {
      DelegateParts(s, parent, request, worker, peer, read, t);
      RoutesSurviveGrowth(s.nodes, t.nodes, s.escalations.Keys, s.questions);
    }
  }

  lemma LastReplaced<T>(s: seq<T>, first: T, last: T)
    ensures (s + [first])[|s| := last] == s + [last]
  {
  }

  lemma OwnRecordGoes(records: map<RecordId, Record>, child: nat, row: Record)
    requires ObjectiveOf(child) !in records && row.root == child
    ensures WithoutRoot(records[ObjectiveOf(child) := row], child) == WithoutRoot(records, child)
  {
  }

  lemma NothingBetween(nodes: seq<Node>, c: nat, k: nat)
    requires Above(nodes, c, k)
    ensures !Above(nodes, nodes[k].parent.value, c)
  {
    var p := nodes[k].parent.value;
    if Above(nodes, p, c) {
      AboveIsOlder(nodes, p, c);
      if c != p { AboveIsOlder(nodes, c, p); }
    }
  }

  lemma AskKeepsRoutes(nodes: seq<Node>, passed: set<(nat, nat)>, questions: seq<Question>, q: Question)
    requires Rooted(nodes) && RoutesGood(nodes, passed, questions)
    requires q.origin < |nodes| && q.target == nodes[q.origin].parent
    ensures RoutesGood(nodes, passed, questions + [q])
  {
    var p := nodes[q.origin].parent;
    if p.Some? {
      forall c: nat ensures !Behind(nodes, c, q.origin, p) {
        if Above(nodes, c, q.origin) { NothingBetween(nodes, c, q.origin); }
      }
    }
    assert RouteGood(nodes, passed, |questions|, q);
  }

  /** Passing a question one step up leaves behind one more ancestor: the one that passed it. */
  lemma OneMoreBehind(nodes: seq<Node>, origin: nat, t: nat, c: nat)
    requires Rooted(nodes) && t < |nodes| && Above(nodes, t, origin)
    ensures Behind(nodes, c, origin, nodes[t].parent) <==> c == t || Behind(nodes, c, origin, Some(t))
  {
    AboveIsOlder(nodes, t, origin);
    var p := nodes[t].parent;
    if Above(nodes, c, origin) {
      AboveIsChain(nodes, c, t, origin);
      if Above(nodes, t, c) && p.Some? { AboveTransitive(nodes, p.value, t, c); }
      if Above(nodes, c, t) { NothingBetween(nodes, c, t); AboveIsOlder(nodes, c, t); }
      if Above(nodes, t, c) { AboveIsOlder(nodes, t, c); }
    }
  }

  lemma EscalateKeepsRoutes(nodes: seq<Node>, passed: set<(nat, nat)>, questions: seq<Question>, k: nat, caller: nat)
    requires Rooted(nodes) && RoutesGood(nodes, passed, questions)
    requires k < |questions| && caller < |nodes| && (k, caller) !in passed
    requires questions[k].target == Some(caller) ||
             (questions[k].target.None? && caller == nodes[questions[k].origin].root)
    ensures RoutesGood(nodes, passed + {(k, caller)}, questions[k := questions[k].(target := nodes[caller].parent)])
    ensures nodes[questions[k].origin].parent.Some? ==> questions[k].target == Some(caller)
  {
    var q := questions[k];
    assert RouteGood(nodes, passed, k, q);
    RootIsRoot(nodes, q.origin);
    var moved, now := q.(target := nodes[caller].parent), passed + {(k, caller)};
    if nodes[q.origin].parent.Some? {
      if q.target.None? {
        // Addressed to nobody: the root is behind it, so the root has passed it on.
        assert false;
      } else {
        if nodes[caller].parent.Some? { AboveTransitive(nodes, nodes[caller].parent.value, caller, q.origin); }
        forall c: nat ensures (k, c) in now <==> Behind(nodes, c, q.origin, moved.target) {
          OneMoreBehind(nodes, q.origin, caller, c);
        }
      }
    }
    assert RouteGood(nodes, now, k, moved);
    forall j | 0 <= j < |questions| && j != k ensures RouteGood(nodes, now, j, questions[j]) {
      assert RouteGood(nodes, passed, j, questions[j]);
    }
  }

  /** While the caller's receipt is missing, a target read is the question's target still. */
  lemma SeenTargetHolds(s: State, caller: nat, question: nat, seen: Route)
    requires Good(s) && (question, seen) in s.routeReads && (question, caller) !in s.escalations
    requires question < |s.questions| && (seen.target == Some(caller) || seen.target.None?)
    ensures s.questions[question].target == seen.target
  {
    assert ReadGood(s.questions[question], s.escalations.Keys, question, seen);
  }

  lemma EscalateKeepsReads(nodes: seq<Node>, passed: set<(nat, nat)>, questions: seq<Question>, k: nat, caller: nat,
                           held: set<(nat, Route)>)
    requires Rooted(nodes) && RoutesGood(nodes, passed, questions) && ReadsGood(questions, passed, held)
    requires k < |questions| && caller < |nodes| && (k, caller) !in passed
    requires questions[k].target == Some(caller) ||
             (questions[k].target.None? && caller == nodes[questions[k].origin].root)
    ensures ReadsGood(questions[k := questions[k].(target := nodes[caller].parent)], passed + {(k, caller)}, held)
  {
    assert RouteGood(nodes, passed, k, questions[k]);
    RootIsRoot(nodes, questions[k].origin);
    var now, moved := passed + {(k, caller)}, questions[k := questions[k].(target := nodes[caller].parent)];
    forall e | e in held ensures e.0 < |moved| && ReadGood(moved[e.0], now, e.0, e.1) {
      assert ReadGood(questions[e.0], passed, e.0, e.1);
    }
  }

  lemma EscalateKeepsGood(s: State, caller: nat, question: nat, worker: Option<string>, commentary: string,
                          seen: Route, t: State)
    requires Good(s) && Escalated(s, caller, question, worker, commentary, seen) == Some(t)
    ensures Good(t)
  {
    if t != s {
      SeenTargetHolds(s, caller, question, seen);
      EscalateKeepsRoutes(s.nodes, s.escalations.Keys, s.questions, question, caller);
      assert t.escalations.Keys == s.escalations.Keys + {(question, caller)};
      EscalateKeepsReads(s.nodes, s.escalations.Keys, s.questions, question, caller, s.routeReads);
    }
  }

  lemma AnswerKeepsRecords(nodes: seq<Node>, records: map<RecordId, Record>, id: RecordId, row: Record)
    requires RecordsGood(nodes, records) && id !in records && row.root < |nodes|
    ensures RecordsGood(nodes, records[id := row])
  {
  }

  /** An answer touches its question, records, versions and status only. */
  lemma AnswerParts(s: State, caller: nat, question: nat, worker: Option<string>, answer: string,
                    human: bool, seen: Route, t: State)
    requires Shaped(s) && Rooted(s.nodes) && RecordsGood(s.nodes, s.records) && AnswersKept(s.questions, s.records)
    requires VersionsGood(s.nodes, s.versions, s.versionReads)
    requires Answered(s, caller, question, worker, answer, human, seen) == Some(t) && t != s
    ensures Shaped(t) && question < |s.questions| && AnswerTo(question) !in s.records && |t.questions| == |s.questions|
    ensures t == s.(questions := s.questions[question := t.questions[question]], records := t.records,
                    versions := t.versions, status := t.status)
    ensures t.questions[question].origin == s.questions[question].origin
    ensures t.questions[question].target == s.questions[question].target
    ensures RecordsGood(s.nodes, t.records) && AnswersKept(t.questions, t.records)
    ensures VersionsGood(s.nodes, t.versions, s.versionReads)
  {
    RootIsRoot(s.nodes, s.questions[question].origin);
    BumpKeepsVersions(s.nodes, s.versions, s.versionReads, s.nodes[s.questions[question].origin].root);
    AnswerKeepsRecords(s.nodes, s.records, AnswerTo(question), t.records[AnswerTo(question)]);
  }

  lemma AnswerKeepsRoutes(nodes: seq<Node>, passed: set<(nat, nat)>, questions: seq<Question>, k: nat, q: Question)
    requires RoutesGood(nodes, passed, questions) && k < |questions|
    requires q.origin == questions[k].origin && q.target == questions[k].target
    ensures RoutesGood(nodes, passed, questions[k := q])
  {
    var after := questions[k := q];
    forall j | 0 <= j < |after| ensures RouteGood(nodes, passed, j, after[j]) {
      assert RouteGood(nodes, passed, j, questions[j]);
    }
  }

  lemma AnswerKeepsReads(questions: seq<Question>, passed: set<(nat, nat)>, held: set<(nat, Route)>,
                         k: nat, q: Question)
    requires k < |questions| && questions[k].answer.None? && q.target == questions[k].target
    requires ReadsGood(questions, passed, held)
    ensures ReadsGood(questions[k := q], passed, held)
  {
    forall e | e in held ensures ReadGood(questions[k := q][e.0], passed, e.0, e.1) {
      assert ReadGood(questions[e.0], passed, e.0, e.1);
    }
  }

  lemma AnswerKeepsGood(s: State, caller: nat, question: nat, worker: Option<string>, answer: string,
                        human: bool, seen: Route, t: State)
    requires Good(s) && Answered(s, caller, question, worker, answer, human, seen) == Some(t)
    ensures Good(t)
  {
    if t != s {
      AnswerParts(s, caller, question, worker, answer, human, seen, t);
      AnswerKeepsReads(s.questions, s.escalations.Keys, s.routeReads, question, t.questions[question]);
      AnswerKeepsRoutes(s.nodes, s.escalations.Keys, s.questions, question, t.questions[question]);
    }
  }

  lemma RevisionKeepsAnswers(questions: seq<Question>, records: map<RecordId, Record>, ids: set<RecordId>, id: RecordId,
                             row: Record)
    requires AnswersKept(questions, records)
    ensures AnswersKept(questions, Demoted(records, ids)[id := row])
  {
  }

  lemma RevisionKeepsRecords(nodes: seq<Node>, records: map<RecordId, Record>, root: nat, id: RecordId,
                             supersedes: seq<RecordId>, row: Record)
    requires RecordsGood(nodes, records) && id !in records && row.root == root < |nodes|
    requires forall prior :: prior in supersedes ==> Supersedable(records, root, prior)
    ensures RecordsGood(nodes, Demoted(records, Ids(supersedes))[id := row])
  {
    var after := Demoted(records, Ids(supersedes))[id := row];
    forall r | 0 <= r < |nodes| && nodes[r].parent.None?
      ensures ObjectiveOf(r) in after && after[ObjectiveOf(r)] == records[ObjectiveOf(r)]
    {
      assert ObjectiveOf(r) !in supersedes;
    }
  }

  /** A revision touches records, versions and status only. */
  lemma RevisionParts(s: State, root: nat, id: RecordId, supersedes: seq<RecordId>, kind: string,
                      content: string, mandatory: bool, t: State)
    requires Shaped(s) && Rooted(s.nodes) && RecordsGood(s.nodes, s.records) && AnswersKept(s.questions, s.records)
    requires VersionsGood(s.nodes, s.versions, s.versionReads)
    requires Updated(s, root, id, supersedes, kind, content, mandatory) == Some(t)
    ensures Shaped(t) && t == s.(records := t.records, versions := t.versions, status := t.status)
    ensures RecordsGood(s.nodes, t.records) && AnswersKept(s.questions, t.records)
    ensures VersionsGood(s.nodes, t.versions, s.versionReads)
  {
    BumpKeepsVersions(s.nodes, s.versions, s.versionReads, root);
    RevisionKeepsAnswers(s.questions, s.records, Ids(supersedes), id, t.records[id]);
    RevisionKeepsRecords(s.nodes, s.records, root, id, supersedes, t.records[id]);
  }

  lemma UpdateKeepsGood(s: State, root: nat, id: RecordId, supersedes: seq<RecordId>, kind: string,
                        content: string, mandatory: bool, t: State)
    requires Good(s) && Updated(s, root, id, supersedes, kind, content, mandatory) == Some(t)
    ensures Good(t)
  {
    RevisionParts(s, root, id, supersedes, kind, content, mandatory, t);
  }

  lemma AskKeepsGood(s: State, origin: nat, request: string, envelope: string, humanOnly: bool,
                     worker: Option<string>, t: State)
    requires Good(s) && Posed(s, origin, request, envelope, humanOnly, worker) == Some(t)
    ensures Good(t)
  {
    if t.questions != s.questions {
      AskKeepsRoutes(s.nodes, s.escalations.Keys, s.questions, t.questions[|s.questions|]);
    }
  }

  lemma VersionReadKeepsGood(s: State, task: nat)
    requires Good(s) && task < |s.nodes|
    ensures Good(s.(versionReads := s.versionReads + {(task, s.versions[task])}))
  {
    assert VersionsGood(s.nodes, s.versions, s.versionReads + {(task, s.versions[task])});
  }

  lemma RouteReadKeepsGood(s: State, question: nat)
    requires Good(s) && question < |s.questions|
    ensures Good(s.(routeReads := s.routeReads + {(question, RouteOf(s.questions[question]))}))
  {
    assert ReadsGood(s.questions, s.escalations.Keys, s.routeReads + {(question, RouteOf(s.questions[question]))});
  }

  lemma PinKeepsGood(s: State, a: Action, t: State)
    requires Good(s) && Commit(s, a) == Some(t) && a.PinAttempt?
    ensures Good(t)
  {
  }

  lemma OriginsExist(s: State)
    requires Good(s)
    ensures forall k :: 0 <= k < |s.questions| ==> s.questions[k].origin < |s.nodes|
  {
    forall k | 0 <= k < |s.questions| ensures s.questions[k].origin < |s.nodes| {
      assert RouteGood(s.nodes, s.escalations.Keys, k, s.questions[k]);
    }
  }

  lemma TreeOperationKeepsGood(s: State, a: Action, t: State)
    requires Good(s) && Commit(s, a) == Some(t) && (a.Submit? || a.Delegate? || a.Update? || a.PinAttempt?)
    ensures Good(t)
  {
    match a
    case Submit(objective, limits) => SubmitKeepsGood(s, objective, limits, t);
    case Delegate(p, request, worker, peer, read) => DelegateKeepsGood(s, p, request, worker, peer, read, t);
    case Update(root, id, supersedes, kind, content, mandatory) =>
      UpdateKeepsGood(s, root, id, supersedes, kind, content, mandatory, t);
    case PinAttempt(_, _) => PinKeepsGood(s, a, t);
  }

  lemma QuestionOperationKeepsGood(s: State, a: Action, t: State)
    requires Good(s) && Commit(s, a) == Some(t) && (a.Ask? || a.Escalate? || a.Answer?)
    ensures Good(t)
  {
    match a
    case Ask(origin, key, envelope, humanOnly, worker) => AskKeepsGood(s, origin, key, envelope, humanOnly, worker, t);
    case Escalate(caller, q, worker, commentary, seen) =>
      EscalateKeepsGood(s, caller, q, worker, commentary, seen, t);
    case Answer(caller, q, worker, answer, human, seen) =>
      AnswerKeepsGood(s, caller, q, worker, answer, human, seen, t);
  }

  lemma ApplyKeepsGood(s: State, a: Action)
    requires Good(s)
    ensures Good(Apply(s, a))
  {
    if Commit(s, a).Some? {
      var t := Commit(s, a).value;
      if a.ReadVersion? {
        VersionReadKeepsGood(s, a.task);
      } else if a.ReadRoute? {
        RouteReadKeepsGood(s, a.question);
      } else if a.Ask? || a.Escalate? || a.Answer? {
        QuestionOperationKeepsGood(s, a, t);
      } else {
        TreeOperationKeepsGood(s, a, t);
      }
    }
  }

  lemma NothingIsGood(s: State)
    requires s.nodes == [] && s.versions == [] && s.status == [] && s.records == map[] && s.questions == []
    requires s.escalations == map[] && s.versionReads == {} && s.routeReads == {}
    ensures Good(s)
  {
  }

  lemma {:induction false} RunIsGood(actions: seq<Action>)
    ensures Good(Run(EMPTY, actions))
  {
    if actions == [] {
      NothingIsGood(EMPTY);
    } else {
      RunIsGood(actions[..|actions| - 1]);
      ApplyKeepsGood(Run(EMPTY, actions[..|actions| - 1]), actions[|actions| - 1]);
    }
  }

  // ---------------------------------------------------------------- trees and routes

  /**
   In every reachable state, every task is one deeper than its parent, in its parent's tree
   and under its parent's limits; no task is deeper than its tree's depth limit, which is
   at most 8, and no tree has more delegated tasks than its child limit, which is at most 256.
   */
  lemma TreesStayWithinLimits(actions: seq<Action>)
    ensures var nodes := Run(EMPTY, actions).nodes;
            forall k :: 0 <= k < |nodes| ==>
              && nodes[k].depth <= nodes[k].limits.depth <= 8
              && |set j | 0 <= j < |nodes| && nodes[j].root == nodes[k].root| - 1 <= nodes[k].limits.children <= 256
              && match nodes[k].parent
                 case None => nodes[k].root == k && nodes[k].depth == 0
                 case Some(p) =>
                   && p < k && nodes[k].root == nodes[p].root
                   && nodes[k].depth == nodes[p].depth + 1 && nodes[k].limits == nodes[p].limits
  {
    RunIsGood(actions);
    var nodes := Run(EMPTY, actions).nodes;
    forall k | 0 <= k < |nodes|
      ensures |set j | 0 <= j < |nodes| && nodes[j].root == nodes[k].root| - 1 <= nodes[k].limits.children
    {
      MembersIsCount(nodes, nodes[k].root);
    }
  }

  /**
   In every reachable state, every question is addressed to a strict ancestor of its origin
   or to nobody, and the tasks that passed a delegated task's question on are exactly the
   ancestors it has left behind.
   */
  lemma QuestionsClimb(actions: seq<Action>, k: nat)
    requires k < |Run(EMPTY, actions).questions|
    ensures var s := Run(EMPTY, actions);
            var q := s.questions[k];
            && q.origin < |s.nodes|
            && (q.target.Some? ==> Above(s.nodes, q.target.value, q.origin))
            && forall c: nat ::
                 ((k, c) in s.escalations ==> c == q.origin || Above(s.nodes, c, q.origin))
                 && (s.nodes[q.origin].parent.Some? ==>
                       ((k, c) in s.escalations <==>
                          Above(s.nodes, c, q.origin) && (q.target.Some? ==> Above(s.nodes, q.target.value, c))))
  {
    RunIsGood(actions);
    var s := Run(EMPTY, actions);
    var q := s.questions[k];
    assert RouteGood(s.nodes, s.escalations.Keys, k, q);
    forall c: nat ensures (k, c) in s.escalations <==> (k, c) in s.escalations.Keys {}
  }

  lemma SubmitKeepsObjective(s: State, objective: string, limits: Limits, t: State, r: nat)
    requires Submitted(s, objective, limits) == Some(t) && ObjectiveOf(r) in s.records
    ensures Mandatory(t.records, r, ObjectiveOf(r)) == Mandatory(s.records, r, ObjectiveOf(r))
  {
  }

  lemma AnswerKeepsObjective(s: State, a: Action, t: State, r: nat)
    requires Shaped(s) && a.Answer?
    requires Answered(s, a.caller, a.question, a.worker, a.answer, a.human, a.seen) == Some(t)
    ensures Mandatory(t.records, r, ObjectiveOf(r)) == Mandatory(s.records, r, ObjectiveOf(r))
  {
  }

  lemma UpdateKeepsObjective(records: map<RecordId, Record>, root: nat, id: RecordId, supersedes: seq<RecordId>,
                             after: map<RecordId, Record>, r: nat)
    requires id !in records && forall prior :: prior in supersedes ==> Supersedable(records, root, prior)
    requires id in after && after == Demoted(records, Ids(supersedes))[id := after[id]]
    requires ObjectiveOf(r) in records && records[ObjectiveOf(r)].kind == OBJECTIVE
    ensures Mandatory(after, r, ObjectiveOf(r)) == Mandatory(records, r, ObjectiveOf(r))
  {
    assert ObjectiveOf(r) !in supersedes;
  }

  predicate KeepsContext(a: Action) {
    a.PinAttempt? || a.Ask? || a.Escalate? || a.ReadVersion? || a.ReadRoute?
  }

  /** Pinning, asking, escalating and reading touch neither records nor versions. */
  lemma OthersKeepContext(s: State, a: Action, t: State)
    requires Shaped(s) && Commit(s, a) == Some(t) && KeepsContext(a)
    ensures t.records == s.records && t.versions == s.versions && t.nodes == s.nodes
  {
  }

  lemma ObjectiveStep(s: State, a: Action, r: nat)
    requires Good(s) && r < |s.nodes| && s.nodes[r].parent.None?
    ensures Mandatory(Apply(s, a).records, r, ObjectiveOf(r)) == Mandatory(s.records, r, ObjectiveOf(r))
  {
    if Commit(s, a).Some? {
      var t := Commit(s, a).value;
      match a
      case Delegate(p, request, worker, peer, read) => DelegateKeepsGood(s, p, request, worker, peer, read, t);
      case Update(_, _, _, _, _, _) => UpdateKeepsObjective(s.records, a.root, a.id, a.supersedes, t.records, r);
      case Answer(_, _, _, _, _, _) => AnswerKeepsObjective(s, a, t, r);
      case Submit(objective, limits) => SubmitKeepsObjective(s, objective, limits, t, r);
      case _ => OthersKeepContext(s, a, t);
    }
  }

  lemma {:induction false} KeepsGood(s: State, more: seq<Action>)
    requires Good(s)
    ensures Good(Run(s, more))
  {
    if more == [] {
    } else {
      KeepsGood(s, more[..|more| - 1]);
      ApplyKeepsGood(Run(s, more[..|more| - 1]), more[|more| - 1]);
    }
  }

  lemma NodesStay(s: State, a: Action)
    requires Shaped(s)
    ensures |s.nodes| <= |Apply(s, a).nodes| && forall k :: 0 <= k < |s.nodes| ==> Apply(s, a).nodes[k] == s.nodes[k]
  {
    if !a.Submit? && !a.Delegate? { assert Apply(s, a).nodes == s.nodes; }
  }

  lemma {:induction false} NodesOnlyGrow(s: State, more: seq<Action>)
    requires Shaped(s)
    ensures |s.nodes| <= |Run(s, more).nodes| && Run(s, more).nodes[..|s.nodes|] == s.nodes
    ensures forall k :: 0 <= k < |s.nodes| ==> Run(s, more).nodes[k] == s.nodes[k]
  {
    if more == [] {
    } else {
      NodesOnlyGrow(s, more[..|more| - 1]);
      NodesStay(Run(s, more[..|more| - 1]), more[|more| - 1]);
    }
  }

  /** The objective a tree was submitted with is mandatory context for as long as it exists. */
  lemma {:induction false} ObjectiveStaysMandatory(s: State, objective: string, limits: Limits, more: seq<Action>)
    requires Good(s) && Submitted(s, objective, limits).Some?
    ensures var t := Run(Submitted(s, objective, limits).value, more);
            && ObjectiveOf(|s.nodes|) in t.records
            && t.records[ObjectiveOf(|s.nodes|)] == Record(|s.nodes|, 1, "objective", objective, true)
  {
    var first := Submitted(s, objective, limits).value;
    SubmitKeepsGood(s, objective, limits, first);
    if more == [] {
    } else {
      ObjectiveStaysMandatory(s, objective, limits, more[..|more| - 1]);
      var t := Run(first, more[..|more| - 1]);
      KeepsGood(first, more[..|more| - 1]);
      NodesOnlyGrow(first, more[..|more| - 1]);
      ObjectiveStep(t, more[|more| - 1], |s.nodes|);
    }
  }

  /** The walk up from a question's origin ends, and finds the branch exactly when the
      caller is above the origin. */
  lemma {:induction false} BranchIsOnTheWay(nodes: seq<Node>, origin: nat, caller: nat)
    requires Rooted(nodes) && origin < |nodes|
    ensures Branch(nodes, origin, caller).Some? <==> Above(nodes, caller, origin)
    ensures Branch(nodes, origin, caller).Some? ==>
              var b := Branch(nodes, origin, caller).value;
              && b < |nodes| && nodes[b].parent == Some(caller)
              && (b == origin || Above(nodes, b, origin))
    decreases origin
  {
    if nodes[origin].parent.None? {
    } else {
      BranchIsOnTheWay(nodes, nodes[origin].parent.value, caller);
    }
  }

  lemma {:induction false} OneBranch(nodes: seq<Node>, origin: nat, caller: nat, b: nat)
    requires Rooted(nodes) && origin < |nodes| && b < |nodes|
    requires nodes[b].parent == Some(caller) && (b == origin || Above(nodes, b, origin))
    ensures Branch(nodes, origin, caller) == Some(b)
    decreases origin
  {
    if b == origin {
    } else {
      var p := nodes[origin].parent.value;
      if p != b { AboveIsOlder(nodes, b, p); }
      OneBranch(nodes, p, caller, b);
    }
  }

  /**
   Who may act on a question: the task it is addressed to, or its tree's root once it is
   addressed to nobody. A worker may act for that task only while the question is addressed
   to it, only if it made the delegation on the way to the origin, and to answer only if
   the question is not for a human.
   */
  lemma AdmitsIff(s: State, caller: nat, question: nat, worker: Option<string>, escalate: bool, target: Option<nat>)
    requires Rooted(s.nodes) && question < |s.questions| && s.questions[question].origin < |s.nodes|
    ensures var q := s.questions[question];
            Admits(s, caller, question, worker, escalate, target) <==>
              && (target == Some(caller) || (target == None && caller == s.nodes[q.origin].root))
              && (worker.Some? ==>
                    && target.Some? && (escalate || !q.humanOnly)
                    && exists b: nat :: b < |s.nodes| && s.nodes[b].parent == Some(caller) &&
                         s.nodes[b].worker == worker && (b == q.origin || Above(s.nodes, b, q.origin)))
  {
    var origin := s.questions[question].origin;
    BranchIsOnTheWay(s.nodes, origin, caller);
    forall b: nat | b < |s.nodes| && s.nodes[b].parent == Some(caller) && (b == origin || Above(s.nodes, b, origin))
      ensures Branch(s.nodes, origin, caller) == Some(b)
    {
      OneBranch(s.nodes, origin, caller, b);
    }
  }

  lemma ReceiptStays(s: State, a: Action, e: (nat, nat))
    requires Shaped(s) && e in s.escalations
    ensures e in Apply(s, a).escalations
  {
    if !a.Escalate? { assert Apply(s, a).escalations == s.escalations; }
  }

  lemma {:induction false} ReceiptsAreKept(s: State, more: seq<Action>, e: (nat, nat))
    requires Shaped(s) && e in s.escalations
    ensures e in Run(s, more).escalations
  {
    if more == [] {
    } else {
      ReceiptsAreKept(s, more[..|more| - 1], e);
      ReceiptStays(Run(s, more[..|more| - 1]), more[|more| - 1], e);
    }
  }

  /** An escalation that changes anything moves the question from the caller to the caller's
      own parent, however old the row it read, and uses up the caller's one escalation of it. */
  lemma EscalationMovesOneUp(s: State, a: Action, more: seq<Action>)
    requires Good(s) && a.Escalate? && Apply(s, a) != s
    ensures var t := Apply(s, a);
            && (a.question, a.caller) !in s.escalations
            && a.caller < |s.nodes| && t.questions[a.question].target == s.nodes[a.caller].parent
            && (s.nodes[s.questions[a.question].origin].parent.Some? ==>
                  s.questions[a.question].target == Some(a.caller))
            && (forall k :: 0 <= k < |s.questions| && k != a.question ==> t.questions[k] == s.questions[k])
    ensures var u := Run(Apply(s, a), more); Apply(u, a) == u
  {
    SeenTargetHolds(s, a.caller, a.question, a.seen);
    EscalateKeepsRoutes(s.nodes, s.escalations.Keys, s.questions, a.question, a.caller);
    ReceiptsAreKept(Apply(s, a), more, (a.question, a.caller));
  }

  lemma AnswerStep(s: State, a: Action, k: nat)
    requires Shaped(s) && AnswersKept(s.questions, s.records) && k < |s.questions| && s.questions[k].answer.Some?
    ensures var t := Apply(s, a);
            k < |t.questions| && t.questions[k].answer == s.questions[k].answer &&
            t.questions[k].answerer == s.questions[k].answerer
  {
    if Commit(s, a).Some? {
      var t := Commit(s, a).value;
      match a
      case Answer(_, _, _, _, _, _) => assert AnswerTo(k) in s.records;
      case Ask(_, _, _, _, _) =>
      case Escalate(_, _, _, _, _) =>
      case _ => assert t.questions == s.questions;
    }
  }

  /** A written answer never changes, even against writers that read the row before it was
      written: the answer's own context record refuses the second write. */
  lemma {:induction false} AnswersAreFinal(s: State, more: seq<Action>, k: nat)
    requires Good(s) && k < |s.questions| && s.questions[k].answer.Some?
    ensures var t := Run(s, more);
            k < |t.questions| && t.questions[k].answer == s.questions[k].answer &&
            t.questions[k].answerer == s.questions[k].answerer
  {
    if more == [] {
    } else {
      AnswersAreFinal(s, more[..|more| - 1], k);
      KeepsGood(s, more[..|more| - 1]);
      AnswerStep(Run(s, more[..|more| - 1]), more[|more| - 1], k);
    }
  }

  ghost predicate AnsweredOutside(questions: seq<Question>) {
    forall k :: 0 <= k < |questions| && questions[k].humanOnly && questions[k].answer.Some? ==>
      questions[k].answerer == Some("external caller")
  }

  lemma HumanAnswersStep(s: State, a: Action)
    requires Shaped(s) && AnsweredOutside(s.questions)
    ensures AnsweredOutside(Apply(s, a).questions)
  {
    if !a.Answer? && !a.Ask? && !a.Escalate? { assert Apply(s, a).questions == s.questions; }
  }

  lemma {:induction false} RunAnsweredOutside(actions: seq<Action>)
    ensures AnsweredOutside(Run(EMPTY, actions).questions)
  {
    if actions == [] {
    } else {
      RunAnsweredOutside(actions[..|actions| - 1]);
      HumanAnswersStep(Run(EMPTY, actions[..|actions| - 1]), actions[|actions| - 1]);
    }
  }

  /** In no run does a worker answer a question that was asked for a human. */
  lemma HumanOnlyAnswersAreExternal(actions: seq<Action>, k: nat)
    requires var s := Run(EMPTY, actions);
             k < |s.questions| && s.questions[k].humanOnly && s.questions[k].answer.Some?
    ensures Run(EMPTY, actions).questions[k].answerer == Some("external caller")
  {
    RunAnsweredOutside(actions);
  }

  // ---------------------------------------------------------------- versions

  /** From `s` to `t` the version of `r` did not decrease, and if it stood still so did the
      mandatory context it names. */
  ghost predicate Versioned(s: State, t: State, r: nat)
    requires Shaped(s) && Shaped(t) && r < |s.nodes| <= |t.nodes|
  {
    && t.versions[r] >= s.versions[r]
    && (t.versions[r] == s.versions[r] ==> SameMandatory(s.records, t.records, r))
  }

  lemma UpdateVersions(s: State, a: Action, r: nat, t: State)
    requires Good(s) && r < |s.nodes| && s.nodes[r].parent.None?
    requires a.Update? && Updated(s, a.root, a.id, a.supersedes, a.kind, a.content, a.mandatory) == Some(t)
    ensures Versioned(s, t, r)
  {
    if r != a.root {
      forall id ensures Mandatory(s.records, r, id) == Mandatory(t.records, r, id) {
        assert id in a.supersedes ==> Supersedable(s.records, a.root, id);
      }
    }
  }

  lemma AnswerVersions(s: State, a: Action, r: nat, t: State)
    requires Good(s) && r < |s.nodes| && s.nodes[r].parent.None?
    requires a.Answer? && Answered(s, a.caller, a.question, a.worker, a.answer, a.human, a.seen) == Some(t)
    ensures Versioned(s, t, r)
  {
    if t != s { RootIsRoot(s.nodes, s.questions[a.question].origin); }
  }

  lemma DelegateVersions(s: State, a: Action, r: nat, t: State)
    requires Good(s) && r < |s.nodes| && a.Delegate?
    requires Delegated(s, a.parent, a.request, a.worker, a.peer, a.read) == Some(t)
    ensures Shaped(t) && |s.nodes| <= |t.nodes| && Versioned(s, t, r)
  {
    DelegateKeepsGood(s, a.parent, a.request, a.worker, a.peer, a.read, t);
  }

  lemma SubmitVersions(s: State, objective: string, limits: Limits, r: nat, t: State)
    requires Good(s) && r < |s.nodes| && Submitted(s, objective, limits) == Some(t)
    ensures Shaped(t) && |s.nodes| <= |t.nodes| && Versioned(s, t, r)
  {
  }

  /** What one transaction may do to a tree's version and to its mandatory context. */
  lemma VersionStep(s: State, a: Action, r: nat)
    requires Good(s) && r < |s.nodes| && s.nodes[r].parent.None?
    ensures |s.nodes| <= |Apply(s, a).nodes| && Versioned(s, Apply(s, a), r)
  {
    if Commit(s, a).Some? {
      var t := Commit(s, a).value;
      match a
      case Delegate(_, _, _, _, _) => DelegateVersions(s, a, r, t);
      case Update(_, _, _, _, _, _) => UpdateVersions(s, a, r, t);
      case Answer(_, _, _, _, _, _) => AnswerVersions(s, a, r, t);
      case Submit(objective, limits) => SubmitVersions(s, objective, limits, r, t);
      case _ => OthersKeepContext(s, a, t);
    }
  }

  /** The same mandatory context is the same mandatory rows, under the same names. */
  lemma SameMandatoryMeans(s: map<RecordId, Record>, t: map<RecordId, Record>, root: nat)
    requires SameMandatory(s, t, root)
    ensures forall id, row :: (id in s && s[id] == row && row.root == root && row.mandatory) <==>
                              (id in t && t[id] == row && row.root == root && row.mandatory)
  {
    forall id, row
      ensures (id in s && s[id] == row && row.root == root && row.mandatory) <==>
              (id in t && t[id] == row && row.root == root && row.mandatory)
    {
      assert Mandatory(s, root, id) == Mandatory(t, root, id);
    }
  }

  lemma VersionedTransitive(s: State, t: State, u: State, r: nat)
    requires Shaped(s) && Shaped(t) && Shaped(u) && r < |s.nodes| <= |t.nodes| <= |u.nodes|
    requires Versioned(s, t, r) && Versioned(t, u, r)
    ensures Versioned(s, u, r)
  {
  }

  /** Over every run a tree's version never decreases, and two states of one run that show
      the same root version have the same mandatory records. */
  lemma {:induction false} VersionNamesContext(s: State, more: seq<Action>, r: nat)
    requires Good(s) && r < |s.nodes| && s.nodes[r].parent.None?
    ensures |s.nodes| <= |Run(s, more).nodes|
    ensures Versioned(s, Run(s, more), r)
    ensures var t := Run(s, more);
            && s.versions[r] <= t.versions[r]
            && (s.versions[r] == t.versions[r] ==>
                  forall id, row :: (id in s.records && s.records[id] == row && row.root == r && row.mandatory) <==>
                                    (id in t.records && t.records[id] == row && row.root == r && row.mandatory))
  {
    if more == [] {
    } else {
      var t := Run(s, more[..|more| - 1]);
      VersionNamesContext(s, more[..|more| - 1], r);
      KeepsGood(s, more[..|more| - 1]);
      NodesOnlyGrow(s, more[..|more| - 1]);
      VersionStep(t, more[|more| - 1], r);
      VersionedTransitive(s, t, Apply(t, more[|more| - 1]), r);
    }
    if s.versions[r] == Run(s, more).versions[r] { SameMandatoryMeans(s.records, Run(s, more).records, r); }
  }

  /** One version for the whole tree. */
  ghost predicate Shared(s: State)
    requires Shaped(s)
  {
    forall k :: 0 <= k < |s.nodes| ==> s.nodes[k].root < |s.nodes| && s.versions[k] == s.versions[s.nodes[k].root]
  }

  /** The version a delegation read before its transaction is still the parent's. */
  predicate Current(s: State, a: Action)
    requires Shaped(s)
  {
    a.Delegate? && a.parent < |s.nodes| ==> a.read == s.versions[a.parent]
  }

  predicate Prompt(s: State, actions: seq<Action>)
    requires Shaped(s)
  {
    actions == [] ||
    (Prompt(s, actions[..|actions| - 1]) && Current(Run(s, actions[..|actions| - 1]), actions[|actions| - 1]))
  }

  /** Adding a child keeps one version for the tree exactly when nothing moved the version
      between the delegation's read and its transaction. */
  lemma DelegateSharesIff(s: State, a: Action, t: State)
    requires Shaped(s) && Rooted(s.nodes) && Shared(s)
    requires a.Delegate? && Delegated(s, a.parent, a.request, a.worker, a.peer, a.read) == Some(t) && t != s
    ensures Shaped(t) && (Shared(t) <==> Current(s, a))
  {
    var child := |s.nodes|;
    RootIsRoot(s.nodes, a.parent);
    assert t.versions[child] == a.read && t.nodes[child].root == s.nodes[a.parent].root;
  }

  /** Whatever lagged, the next revision or answer puts the whole tree back on one version. */
  lemma RevisionHeals(s: State, a: Action, k: nat)
    requires Good(s) && (a.Update? || a.Answer?) && Apply(s, a).versions != s.versions
    requires k < |s.nodes|
    requires s.nodes[k].root == if a.Update? then a.root else s.nodes[s.questions[a.question].origin].root
    ensures var t := Apply(s, a); s.nodes[k].root <= k && t.versions[k] == t.versions[s.nodes[k].root]
    ensures var t := Apply(s, a); t.versions[k] == s.versions[s.nodes[k].root] + 1
  {
    RootIsRoot(s.nodes, k);
  }

  lemma SubmitShares(s: State, objective: string, limits: Limits, t: State)
    requires Shaped(s) && Shared(s) && Submitted(s, objective, limits) == Some(t)
    ensures Shaped(t) && Shared(t)
  {
  }

  lemma BumpShares(nodes: seq<Node>, versions: seq<nat>, root: nat, k: nat)
    requires Rooted(nodes) && |versions| == |nodes| && k < |nodes| && nodes[k].root == root < |nodes|
    requires forall j :: 0 <= j < |nodes| ==> nodes[j].root < |nodes| && versions[j] == versions[nodes[j].root]
    ensures var after := SetVersions(nodes, versions, root, versions[root] + 1);
            && after[k] == versions[k] + 1
            && forall j :: 0 <= j < |nodes| ==> after[j] == after[nodes[j].root]
  {
    forall j | 0 <= j < |nodes| ensures nodes[nodes[j].root].root == nodes[j].root { RootIsRoot(nodes, j); }
  }

  lemma AnswerShares(s: State, a: Action, t: State)
    requires Shaped(s) && Rooted(s.nodes) && Shared(s) && a.Answer? && t != s
    requires Answered(s, a.caller, a.question, a.worker, a.answer, a.human, a.seen) == Some(t)
    requires a.question < |s.questions| && s.questions[a.question].origin < |s.nodes|
    ensures Shaped(t) && Shared(t)
  {
    var origin := s.questions[a.question].origin;
    RootIsRoot(s.nodes, origin);
    BumpShares(s.nodes, s.versions, s.nodes[origin].root, origin);
  }

  lemma RevisionMoves(s: State, u: Action, k: nat, m: State)
    requires Shaped(s) && Rooted(s.nodes) && Shared(s) && u.Update? && k < |s.nodes| && s.nodes[k].root == u.root
    requires Updated(s, u.root, u.id, u.supersedes, u.kind, u.content, u.mandatory) == Some(m)
    ensures Shaped(m) && Shared(m) && m.nodes == s.nodes && m.versions[k] == s.versions[k] + 1
  {
    BumpShares(s.nodes, s.versions, u.root, k);
  }

  lemma SharedStep(s: State, a: Action)
    requires Good(s) && Shared(s) && Current(s, a)
    ensures Shared(Apply(s, a))
  {
    if Commit(s, a).Some? && Apply(s, a) != s {
      var t := Commit(s, a).value;
      OriginsExist(s);
      match a
      case Delegate(_, _, _, _, _) => DelegateSharesIff(s, a, t);
      case Update(_, _, _, _, _, _) => RevisionMoves(s, a, a.root, t);
      case Answer(_, _, _, _, _, _) => AnswerShares(s, a, t);
      case Submit(objective, limits) => SubmitShares(s, objective, limits, t);
      case _ => OthersKeepContext(s, a, t);
    }
  }

  /** A revision between a delegation's read and its transaction splits the tree's version. */
  lemma RaceSplitsVersion(s: State, u: Action, a: Action, m: State, t: State)
    requires Shaped(s) && Rooted(s.nodes) && Shared(s) && u.Update? && a.Delegate? && a.parent < |s.nodes|
    requires a.read == s.versions[a.parent] && u.root == s.nodes[a.parent].root
    requires Updated(s, u.root, u.id, u.supersedes, u.kind, u.content, u.mandatory) == Some(m)
    requires Delegated(m, a.parent, a.request, a.worker, a.peer, a.read) == Some(t) && t != m
    ensures Shaped(t) && !Shared(t)
  {
    RevisionMoves(s, u, a.parent, m);
    DelegateSharesIff(m, a, t);
  }

  /** A store with one task, whose version has been read. */
  ghost predicate OneTaskRead(s: State) {
    && Shaped(s) && |s.nodes| == 1 && s.nodes[0] == Node(0, None, None, 0, None, Limits(1, 1))
    && s.versions == [1] && s.records.Keys == {ObjectiveOf(0)} && (0, 1) in s.versionReads
  }

  lemma Extend(first: seq<Action>, s: State, a: Action) returns (actions: seq<Action>, t: State)
    requires Shaped(s) && Run(EMPTY, first) == s
    ensures Shaped(t) && t == Apply(s, a) == Run(EMPTY, actions)
  {
    actions, t := first + [a], Apply(s, a);
    assert actions[..|first|] == first;
  }

  lemma OneTaskIsReachable(objective: string) returns (actions: seq<Action>)
    ensures OneTaskRead(Run(EMPTY, actions))
  {
    var s: State;
    var submitted := Submitted(EMPTY, objective, Limits(1, 1)).value;
    actions, s := Extend([], EMPTY, Submit(objective, Limits(1, 1)));
    assert s == submitted && s.records.Keys == {ObjectiveOf(0)};
    actions, s := Extend(actions, s, ReadVersion(0));
  }

  lemma RevisionIsAdmitted(s: State, content: string)
    requires OneTaskRead(s)
    ensures var m := Updated(s, 0, Named("revision"), [], "decision", content, true);
            && m.Some? && Shaped(m.value) && m.value.nodes == s.nodes
            && m.value.versionReads == s.versionReads && ObjectiveOf(1) !in m.value.records
  {
  }

  lemma ChildIsAdmitted(m: State, request: Request)
    requires Shaped(m) && |m.nodes| == 1 && m.nodes[0] == Node(0, None, None, 0, None, Limits(1, 1))
    requires (0, 1) in m.versionReads && ObjectiveOf(1) !in m.records
    ensures Delegated(m, 0, request, None, None, 1).Some? && Delegated(m, 0, request, None, None, 1) != Some(m)
  {
    assert m.nodes[..0] == [];
    assert Earlier(m.nodes, 0, request.id) == None;
    assert Members(m.nodes, 0) == 1;
    assert |Adopted(m, 0, request, None, None, 1).nodes| == 2;
  }

  lemma OneTaskIsShared(s: State)
    requires OneTaskRead(s)
    ensures Rooted(s.nodes) && Shared(s)
  {
  }

  lemma CommitIsApply(s: State, a: Action, t: State)
    requires Shaped(s) && Commit(s, a) == Some(t)
    ensures Apply(s, a) == t
  {
  }

  /** Such a race is reachable from an empty store. */
  lemma SplitVersionIsReachable(objective: string, content: string, request: Request) returns (actions: seq<Action>)
    ensures !Shared(Run(EMPTY, actions))
  {
    var s, m, t: State;
    var u, a := Update(0, Named("revision"), [], "decision", content, true), Delegate(0, request, None, None, 1);
    actions := OneTaskIsReachable(objective);
    s := Run(EMPTY, actions);
    RevisionIsAdmitted(s, content);
    m := Updated(s, 0, Named("revision"), [], "decision", content, true).value;
    ChildIsAdmitted(m, request);
    t := Delegated(m, 0, request, None, None, 1).value;
    CommitIsApply(s, u, m);
    CommitIsApply(m, a, t);
    OneTaskIsShared(s);
    RaceSplitsVersion(s, u, a, m, t);
    actions, m := Extend(actions, s, u);
    actions, t := Extend(actions, m, a);
  }

  /** All nodes of a tree share one version throughout every run whose delegations commit on
      the version they read. */
  lemma {:induction false} VersionsStayShared(s: State, more: seq<Action>)
    requires Good(s) && Shared(s) && Prompt(s, more)
    ensures Shared(Run(s, more))
  {
    if more == [] {
    } else {
      VersionsStayShared(s, more[..|more| - 1]);
      KeepsGood(s, more[..|more| - 1]);
      SharedStep(Run(s, more[..|more| - 1]), more[|more| - 1]);
    }
  }

  // ---------------------------------------------------------------- pins

  /** From `s` to `t` the version of task `k` did not decrease, and if it stood still so did the
      mandatory context of its tree. */
  ghost predicate TaskVersioned(s: State, t: State, k: nat)
    requires Shaped(s) && Shaped(t) && k < |s.nodes| <= |t.nodes|
  {
    && t.versions[k] >= s.versions[k]
    && (t.versions[k] == s.versions[k] ==> SameMandatory(s.records, t.records, s.nodes[k].root))
  }

  /** No task misses a change of its root's version. */
  ghost predicate Follows(nodes: seq<Node>, versions: seq<nat>, after: seq<nat>, k: nat)
    requires k < |nodes| == |versions| <= |after|
  {
    && nodes[k].root < |nodes| && versions[k] <= after[k]
    && (after[nodes[k].root] != versions[nodes[k].root] ==> versions[k] < after[k])
  }

  lemma BumpFollows(nodes: seq<Node>, versions: seq<nat>, held: set<(nat, nat)>, root: nat, k: nat)
    requires Rooted(nodes) && |versions| == |nodes| && root < |nodes| && nodes[root].root == root && k < |nodes|
    requires VersionsGood(nodes, versions, held)
    ensures Follows(nodes, versions, SetVersions(nodes, versions, root, versions[root] + 1), k)
  {
    RootIsRoot(nodes, k);
    BumpKeepsVersions(nodes, versions, held, root);
  }

  lemma UpdateFollows(s: State, a: Action, t: State, k: nat)
    requires Shaped(s) && Rooted(s.nodes) && VersionsGood(s.nodes, s.versions, s.versionReads) && k < |s.nodes|
    requires a.Update? && Updated(s, a.root, a.id, a.supersedes, a.kind, a.content, a.mandatory) == Some(t)
    ensures t.nodes == s.nodes && Follows(s.nodes, s.versions, t.versions, k)
  {
    BumpFollows(s.nodes, s.versions, s.versionReads, a.root, k);
  }

  lemma AnswerFollows(s: State, a: Action, t: State, k: nat)
    requires Shaped(s) && Rooted(s.nodes) && VersionsGood(s.nodes, s.versions, s.versionReads) && k < |s.nodes|
    requires a.Answer? && Answered(s, a.caller, a.question, a.worker, a.answer, a.human, a.seen) == Some(t)
    ensures t.nodes == s.nodes && Follows(s.nodes, s.versions, t.versions, k)
  {
    if t != s {
      var origin := s.questions[a.question].origin;
      RootIsRoot(s.nodes, origin);
      BumpFollows(s.nodes, s.versions, s.versionReads, s.nodes[origin].root, k);
    }
  }

  lemma GrowthFollows(s: State, a: Action, t: State, k: nat)
    requires Shaped(s) && VersionsGood(s.nodes, s.versions, s.versionReads) && k < |s.nodes|
    requires (a.Submit? || a.Delegate?) && Commit(s, a) == Some(t)
    ensures Shaped(t) && |s.nodes| <= |t.nodes| && Follows(s.nodes, s.versions, t.versions, k)
  {
  }

  lemma TaskFollowsRoot(s: State, a: Action, k: nat)
    requires Shaped(s) && Rooted(s.nodes) && VersionsGood(s.nodes, s.versions, s.versionReads) && k < |s.nodes|
    ensures |s.nodes| <= |Apply(s, a).nodes| && Follows(s.nodes, s.versions, Apply(s, a).versions, k)
  {
    if Commit(s, a).Some? {
      var t := Commit(s, a).value;
      match a
      case Update(_, _, _, _, _, _) => UpdateFollows(s, a, t, k);
      case Answer(_, _, _, _, _, _) => AnswerFollows(s, a, t, k);
      case Submit(_, _) => GrowthFollows(s, a, t, k);
      case Delegate(_, _, _, _, _) => GrowthFollows(s, a, t, k);
      case _ => OthersKeepContext(s, a, t);
    }
  }

  lemma TaskStep(s: State, a: Action, k: nat)
    requires Good(s) && k < |s.nodes|
    ensures |s.nodes| <= |Apply(s, a).nodes| && TaskVersioned(s, Apply(s, a), k)
  {
    RootIsRoot(s.nodes, k);
    TaskFollowsRoot(s, a, k);
    VersionStep(s, a, s.nodes[k].root);
  }

  lemma TaskVersionedTransitive(s: State, t: State, u: State, k: nat)
    requires Shaped(s) && Shaped(t) && Shaped(u) && k < |s.nodes| <= |t.nodes| <= |u.nodes|
    requires t.nodes[k] == s.nodes[k] && TaskVersioned(s, t, k) && TaskVersioned(t, u, k)
    ensures TaskVersioned(s, u, k)
  {
  }

  /** Even while a tree is on more than one version, each task's own version names the tree's
      mandatory context for as long as it stands still. */
  lemma {:induction false} TaskVersionNamesContext(s: State, more: seq<Action>, k: nat)
    requires Good(s) && k < |s.nodes|
    ensures |s.nodes| <= |Run(s, more).nodes| && TaskVersioned(s, Run(s, more), k)
    ensures var t, root := Run(s, more), s.nodes[k].root;
            && s.versions[k] <= t.versions[k]
            && (s.versions[k] == t.versions[k] ==>
                  forall id, row :: (id in s.records && s.records[id] == row && row.root == root && row.mandatory) <==>
                                    (id in t.records && t.records[id] == row && row.root == root && row.mandatory))
  {
    if more == [] {
    } else {
      var t := Run(s, more[..|more| - 1]);
      TaskVersionNamesContext(s, more[..|more| - 1], k);
      KeepsGood(s, more[..|more| - 1]);
      NodesOnlyGrow(s, more[..|more| - 1]);
      TaskStep(t, more[|more| - 1], k);
      TaskVersionedTransitive(s, t, Apply(t, more[|more| - 1]), k);
    }
    var u := Run(s, more);
    if s.versions[k] == u.versions[k] { SameMandatoryMeans(s.records, u.records, s.nodes[k].root); }
  }

  lemma PinApplies(s: State, attempt: string, task: nat)
    requires Shaped(s) && Pinned(s, attempt, task).Some?
    ensures Apply(s, PinAttempt(attempt, task)) == Pinned(s, attempt, task).value
  {
  }

  lemma PinStays(s: State, a: Action, attempt: string)
    requires Shaped(s) && attempt in s.pins
    ensures attempt in Apply(s, a).pins && Apply(s, a).pins[attempt] == s.pins[attempt]
  {
    if !a.PinAttempt? { assert Apply(s, a).pins == s.pins; }
  }

  lemma {:induction false} PinsAreKept(s: State, more: seq<Action>, attempt: string)
    requires Shaped(s) && attempt in s.pins
    ensures attempt in Run(s, more).pins && Run(s, more).pins[attempt] == s.pins[attempt]
  {
    if more == [] {
    } else {
      PinsAreKept(s, more[..|more| - 1], attempt);
      PinStays(Run(s, more[..|more| - 1]), more[|more| - 1], attempt);
    }
  }

  lemma PinKeepsContext(s: State, attempt: string, task: nat, more: seq<Action>)
    requires Good(s) && Pinned(s, attempt, task).Some?
    ensures task < |s.nodes|
    ensures var t, root := Run(Pinned(s, attempt, task).value, more), s.nodes[task].root;
            && |s.nodes| <= |t.nodes|
            && (CheckPin(t, task, attempt) <==> t.versions[task] == s.versions[task])
            && (CheckPin(t, task, attempt) ==>
                  forall id, row :: (id in s.records && s.records[id] == row && row.root == root && row.mandatory) <==>
                                    (id in t.records && t.records[id] == row && row.root == root && row.mandatory))
  {
    var u := Pinned(s, attempt, task).value;
    TaskVersionNamesContext(u, more, task);
    PinsAreKept(u, more, attempt);
  }

  /** In every run, an attempt passes its pin check exactly when its task's version is the one
      it began at, and then its tree's mandatory records are the ones it began with: also where
      a delegation committed on a version that had moved since it was read. */
  lemma PassingPinMeansCurrentContext(before: seq<Action>, attempt: string, task: nat, more: seq<Action>)
    requires var s := Run(EMPTY, before); task < |s.nodes| && attempt !in s.pins
    ensures var s := Run(EMPTY, before);
            var t, root := Run(Apply(s, PinAttempt(attempt, task)), more), s.nodes[task].root;
            && |s.nodes| <= |t.nodes|
            && (CheckPin(t, task, attempt) <==> t.versions[task] == s.versions[task])
            && (CheckPin(t, task, attempt) ==>
                  forall id, row :: (id in s.records && s.records[id] == row && row.root == root && row.mandatory) <==>
                                    (id in t.records && t.records[id] == row && row.root == root && row.mandatory))
  {
    RunIsGood(before);
    var s := Run(EMPTY, before);
    PinApplies(s, attempt, task);
    PinKeepsContext(s, attempt, task, more);
  }

  // ---------------------------------------------------------------- the tables

  /** The rows themselves, changed in place one transaction at a time. A refused transaction
      answers false and leaves every row as it was. */
  class Store {
    var nodes: seq<Node>
    var versions: seq<nat>
    var status: seq<Status>
    var records: map<RecordId, Record>
    var questions: seq<Question>
    var escalations: map<(nat, nat), string>
    var pins: map<string, Pin>
    // What callers between their reads and their transactions hold, outside the tables.
    ghost var versionReads: set<(nat, nat)>
    ghost var routeReads: set<(nat, Route)>

    ghost function View(): State
      reads this
    {
      State(nodes, versions, status, records, questions, escalations, pins, versionReads, routeReads)
    }

    constructor ()
      ensures View() == EMPTY
    {
      nodes, versions, status, records, questions, escalations, pins := [], [], [], map[], [], map[], map[];
      versionReads, routeReads := {}, {};
    }

    /** What `delegate` reads before its transaction. */
    method ReadVersion(task: nat) returns (version: nat)
      requires Shaped(View()) && task < |nodes|
      modifies this`versionReads
      ensures View() == Apply(old(View()), Action.ReadVersion(task))
      ensures version == versions[task] && versionReads == old(versionReads) + {(task, version)}
    {
      version := versions[task];
      versionReads := versionReads + {(task, version)};
    }

    /** What `question_action` reads before its transaction. */
    method ReadRoute(question: nat) returns (seen: Route)
      requires Shaped(View()) && question < |questions|
      modifies this`routeReads
      ensures View() == Apply(old(View()), Action.ReadRoute(question))
      ensures seen == Route(questions[question].target, questions[question].answer)
      ensures routeReads == old(routeReads) + {(question, seen)}
    {
      seen := RouteOf(questions[question]);
      routeReads := routeReads + {(question, seen)};
    }

    method Submit(objective: string, limits: Limits) returns (ok: bool)
      requires Shaped(View())
      modifies this
      ensures ok == Submitted(old(View()), objective, limits).Some?
      ensures View() == Apply(old(View()), Action.Submit(objective, limits))
      ensures var task := |old(nodes)|;
              && ok == (limits.children <= 256 && limits.depth <= 8 && ObjectiveOf(task) !in old(records))
              && if !ok then View() == old(View()) else
                   && nodes == old(nodes) + [Node(task, None, None, 0, None, limits)]
                   && versions == old(versions) + [1] && status == old(status) + [Running]
                   && records == old(records)[ObjectiveOf(task) := Record(task, 1, "objective", objective, true)]
                   && questions == old(questions) && escalations == old(escalations) && pins == old(pins)
    {
      var task := |nodes|;
      if limits.children > 256 || limits.depth > 8 || ObjectiveOf(task) in records { return false; }
      nodes := nodes + [Node(task, None, None, 0, None, limits)];
      versions := versions + [1];
      status := status + [Running];
      records := records[ObjectiveOf(task) := Record(task, 1, OBJECTIVE, objective, true)];
      ok := true;
    }

    /** The child is first submitted as a root of its own, then moved under its parent. */
    method Adopt(parent: nat, request: Request, worker: Option<string>, peer: Option<string>, read: nat)
      requires Shaped(View()) && parent < |nodes| && ObjectiveOf(|nodes|) !in records
      modifies this
      ensures View() == Adopted(old(View()), parent, request, worker, peer, read)
    {
      var row, child := nodes[parent], |nodes|;
      var root := Node(child, None, None, 0, None, row.limits);
      var placed := Node(row.root, Some(parent), worker, row.depth + 1, Some(request), row.limits);
      LastReplaced(nodes, root, placed);
      LastReplaced(versions, 1, read);
      LastReplaced(status, Running, Remote);
      nodes := nodes + [root];
      versions := versions + [1];
      status := status + [Running];
      records := records[ObjectiveOf(child) := Record(child, 1, OBJECTIVE, request.hash, true)];
      OwnRecordGoes(old(records), child, records[ObjectiveOf(child)]);
      records := WithoutRoot(records, child);
      nodes := nodes[child := placed];
      versions := versions[child := read];
      if peer.Some? { status := status[child := Remote]; }
      if status[parent].Succeeded? { status := status[parent := Running]; }
    }

    method Delegate(parent: nat, request: Request, worker: Option<string>, peer: Option<string>, read: nat)
      returns (ok: bool)
      requires Shaped(View()) && (parent, read) in versionReads
      modifies this
      ensures ok == Delegated(old(View()), parent, request, worker, peer, read).Some?
      ensures View() == Apply(old(View()), Action.Delegate(parent, request, worker, peer, read))
      // A repeated request id changes nothing, and succeeds only for the assignment it was first used for.
      ensures forall k ::
                0 <= k < |old(nodes)| && old(nodes)[k].parent == Some(parent) &&
                old(nodes)[k].request.Some? && old(nodes)[k].request.value.id == request.id &&
                (forall j :: 0 <= j < k ==>
                   !(old(nodes)[j].parent == Some(parent) && old(nodes)[j].request.Some? &&
                     old(nodes)[j].request.value.id == request.id)) ==>
                  View() == old(View()) && (ok <==> parent < |nodes| && nodes[k].request == Some(request))
      // A new one is refused exactly at the child limit or the depth limit of its tree.
      ensures (forall k :: 0 <= k < |old(nodes)| ==>
                 !(old(nodes)[k].parent == Some(parent) && old(nodes)[k].request.Some? &&
                   old(nodes)[k].request.value.id == request.id)) ==>
                && (ok <==>
                      && parent < |old(nodes)| && ObjectiveOf(|old(nodes)|) !in old(records)
                      && var row := old(nodes)[parent];
                         && |set k | 0 <= k < |old(nodes)| && old(nodes)[k].root == row.root| - 1 < row.limits.children
                         && row.depth < row.limits.depth)
                && (ok ==> DelegatedRows(old(View()), parent, request, worker, peer, read, View()))
                && (!ok ==> View() == old(View()))
    {
      if parent >= |nodes| { return false; }
      FirstIsEarlier(nodes, parent, request.id);
      MembersIsCount(nodes, nodes[parent].root);
      var earlier := Earlier(nodes, parent, request.id);
      if earlier.Some? {
        ok := earlier.value < |nodes| && nodes[earlier.value].request == Some(request);
        return;
      }
      var row, count := nodes[parent], Members(nodes, nodes[parent].root) - 1;
      if row.limits.children <= count || row.limits.depth <= row.depth { return false; }
      var child := |nodes|;
      if ObjectiveOf(child) in records { return false; }
      AdoptedWrites(View(), parent, request, worker, peer, read);
      Adopt(parent, request, worker, peer, read);
      ok := true;
    }

    method UpdateContext(root: nat, id: RecordId, supersedes: seq<RecordId>, kind: string, content: string,
                         mandatory: bool) returns (ok: bool)
      requires Shaped(View())
      modifies this
      ensures ok == Updated(old(View()), root, id, supersedes, kind, content, mandatory).Some?
      ensures View() == Apply(old(View()), Update(root, id, supersedes, kind, content, mandatory))
    {
      if root >= |nodes| || nodes[root].root != root { return false; }
      var marked := records;
      for i := 0 to |supersedes|
        invariant marked == Demoted(records, Ids(supersedes[..i]))
        invariant forall j :: 0 <= j < i ==> Supersedable(records, root, supersedes[j])
        invariant View() == old(View())
      {
        var prior := supersedes[i];
        if !Supersedable(marked, root, prior) {
          assert !Supersedable(records, root, prior);
          return false;
        }
        marked := marked[prior := marked[prior].(mandatory := false)];
        assert Ids(supersedes[..i + 1]) == Ids(supersedes[..i]) + {prior};
      }
      assert supersedes[..|supersedes|] == supersedes;
      if id in records { return false; }
      var version := versions[root] + 1;
      records := marked[id := Record(root, version, kind, content, mandatory)];
      versions := SetVersions(nodes, versions, root, version);
      status := BlockSucceeded(nodes, status, root);
      ok := true;
    }

    method PinAttempt(attempt: string, task: nat) returns (ok: bool)
      requires Shaped(View())
      modifies this`pins
      ensures ok == Pinned(old(View()), attempt, task).Some?
      ensures View() == Apply(old(View()), Action.PinAttempt(attempt, task))
      ensures ok <==> task < |nodes| && attempt !in old(pins)
      ensures pins == if ok then old(pins)[attempt := Pin(nodes[task].root, versions[task])] else old(pins)
    {
      if task >= |nodes| || attempt in pins { return false; }
      pins := pins[attempt := Pin(nodes[task].root, versions[task])];
      ok := true;
    }

    method Ask(origin: nat, request: string, envelope: string, humanOnly: bool, worker: Option<string>)
      returns (ok: bool)
      requires Shaped(View())
      modifies this`questions, this`status
      ensures ok == Posed(old(View()), origin, request, envelope, humanOnly, worker).Some?
      ensures View() == Apply(old(View()), Action.Ask(origin, request, envelope, humanOnly, worker))
      // A repeated request id changes nothing, and succeeds only for the question it was first
      // used for. A new one is addressed to the origin's parent, and a running task that asks
      // for itself waits.
      ensures match Asked(old(questions), origin, request)
              case Some(q) =>
                && questions == old(questions) && status == old(status)
                && (ok <==> origin < |nodes| && q < |questions| && questions[q].envelope == envelope)
              case None =>
                && (ok <==> origin < |nodes|)
                && questions == old(questions) + (if !ok then [] else
                     [Question(origin, request, envelope, humanOnly, nodes[origin].parent, None, None)])
                && status == if ok && worker.None? && old(status)[origin].Running?
                             then old(status)[origin := Waiting] else old(status)
    {
      if origin >= |nodes| { return false; }
      var earlier := Asked(questions, origin, request);
      if earlier.Some? {
        ok := earlier.value < |questions| && questions[earlier.value].envelope == envelope;
        return;
      }
      questions := questions + [Question(origin, request, envelope, humanOnly, nodes[origin].parent, None, None)];
      if worker.None? && status[origin].Running? { status := status[origin := Waiting]; }
      ok := true;
    }

    /** The walk from the origin up to the caller that `question_action` makes for a worker. */
    method Walk(origin: nat, caller: nat) returns (branch: Option<nat>)
      requires Rooted(nodes) && origin < |nodes|
      ensures branch == Branch(nodes, origin, caller)
      ensures branch.Some? <==> Above(nodes, caller, origin)
      ensures branch.Some? ==>
                && branch.value < |nodes| && nodes[branch.value].parent == Some(caller)
                && (branch.value == origin || Above(nodes, branch.value, origin))
    {
      BranchIsOnTheWay(nodes, origin, caller);
      var at: nat := origin;
      while nodes[at].parent != Some(caller)
        invariant at < |nodes| && Branch(nodes, at, caller) == Branch(nodes, origin, caller)
        decreases at
      {
        if nodes[at].parent.None? { return None; }
        at := nodes[at].parent.value;
      }
      branch := Some(at);
    }

    method Addressed(caller: nat, question: nat, worker: Option<string>, escalate: bool, target: Option<nat>)
      returns (ok: bool)
      requires Rooted(nodes) && question < |questions| && questions[question].origin < |nodes|
      ensures ok == Admits(View(), caller, question, worker, escalate, target)
      ensures ok && worker.Some? ==> Above(nodes, caller, questions[question].origin)
      ensures ok <==>
                && (target == Some(caller) || (target == None && caller == nodes[questions[question].origin].root))
                && (worker.Some? ==>
                      && target.Some? && (escalate || !questions[question].humanOnly)
                      && exists b: nat :: b < |nodes| && nodes[b].parent == Some(caller) && nodes[b].worker == worker &&
                           (b == questions[question].origin || Above(nodes, b, questions[question].origin)))
    {
      var q := questions[question];
      AdmitsIff(View(), caller, question, worker, escalate, target);
      if target != Some(caller) && (target.Some? || caller != nodes[q.origin].root) { return false; }
      if worker.None? { return true; }
      if target.None? { return false; }
      var branch := Walk(q.origin, caller);
      BranchIsOnTheWay(nodes, q.origin, caller);
      ok := branch.Some? && nodes[branch.value].worker == worker && (escalate || !q.humanOnly);
    }

    method EscalateQuestion(caller: nat, question: nat, worker: Option<string>, commentary: string, seen: Route)
      returns (ok: bool)
      requires Shaped(View()) && (question, seen) in routeReads
      requires Rooted(nodes) && (question < |questions| ==> questions[question].origin < |nodes|)
      modifies this`escalations, this`questions
      ensures ok == Escalated(old(View()), caller, question, worker, commentary, seen).Some?
      ensures View() == Apply(old(View()), Escalate(caller, question, worker, commentary, seen))
      ensures question >= |old(questions)| ==> !ok
      ensures question < |old(questions)| ==>
                (ok <==>
                   if (question, caller) in old(escalations) then old(escalations)[(question, caller)] == commentary
                   else
                     && caller < |nodes| && seen.answer.None?
                     && Admits(old(View()), caller, question, worker, true, seen.target))
      ensures if ok && (question, caller) !in old(escalations) then
                && escalations == old(escalations)[(question, caller) := commentary]
                && questions == old(questions)[question :=
                     old(questions)[question].(target := nodes[caller].parent)]
              else escalations == old(escalations) && questions == old(questions)
    {
      if question >= |questions| { return false; }
      if (question, caller) in escalations { return escalations[(question, caller)] == commentary; }
      ok := Addressed(caller, question, worker, true, seen.target);
      if !ok || caller >= |nodes| || seen.answer.Some? { return false; }
      escalations := escalations[(question, caller) := commentary];
      questions := questions[question := questions[question].(target := nodes[caller].parent)];
    }

    /** What an accepted answer writes: the answer and its author, mandatory context in the
        origin's tree, the tree's next version, and states. The origin wakes once none of its
        questions is open, and nothing in the tree stays succeeded. */
    ghost predicate AnsweredRows(was: State, question: nat, root: nat, answer: string, author: string)
      requires Shaped(was) && root < |was.nodes|
      requires question < |was.questions| && was.questions[question].origin < |was.nodes|
      reads this
    {
      var version := was.versions[root] + 1;
      && questions == was.questions[question :=
           was.questions[question].(answer := Some(answer), answerer := Some(author))]
      && records == was.records[AnswerTo(question) := Record(root, version, "answer", answer, true)]
      && nodes == was.nodes && escalations == was.escalations && pins == was.pins
      && |versions| == |status| == |nodes|
      && (forall k :: 0 <= k < |nodes| ==> versions[k] == if nodes[k].root == root then version else was.versions[k])
      && forall k :: 0 <= k < |nodes| ==>
           status[k] ==
             if k == was.questions[question].origin && was.status[k].Waiting? &&
                forall j :: 0 <= j < |questions| && questions[j].origin == k ==> questions[j].answer.Some?
             then Running
             else if nodes[k].root == root && was.status[k].Succeeded? then Blocked else was.status[k]
    }

    method RecordAnswer(question: nat, root: nat, answer: string, author: string)
      requires Shaped(View()) && root < |nodes|
      requires question < |questions| && questions[question].origin < |nodes|
      modifies this
      ensures View() == Recorded(old(View()), question, root, answer, author)
      ensures AnsweredRows(old(View()), question, root, answer, author)
    {
      var origin := questions[question].origin;
      questions := questions[question := questions[question].(answer := Some(answer), answerer := Some(author))];
      if status[origin].Waiting? && !Unanswered(questions, origin) { status := status[origin := Running]; }
      var version := versions[root] + 1;
      versions := SetVersions(nodes, versions, root, version);
      status := BlockSucceeded(nodes, status, root);
      records := records[AnswerTo(question) := Record(root, version, "answer", answer, true)];
    }

    method AnswerQuestion(caller: nat, question: nat, worker: Option<string>, answer: string, human: bool,
                          seen: Route) returns (ok: bool)
      requires Shaped(View()) && (question, seen) in routeReads
      requires Rooted(nodes) && (question < |questions| ==> questions[question].origin < |nodes|)
      modifies this
      ensures ok == Answered(old(View()), caller, question, worker, answer, human, seen).Some?
      ensures View() == Apply(old(View()), Answer(caller, question, worker, answer, human, seen))
      // A question for a human takes only an attested answer, which no worker can give.
      ensures ok <==>
                && question < |old(questions)| && Admits(old(View()), caller, question, worker, false, seen.target)
                && if seen.answer.Some? then seen.answer == Some(answer)
                   else
                     && (old(questions)[question].humanOnly ==> human && worker.None?)
                     && AnswerTo(question) !in old(records)
      ensures if ok && seen.answer.None? then
                && nodes[old(questions)[question].origin].root < |nodes|
                && AnsweredRows(old(View()), question, nodes[old(questions)[question].origin].root, answer,
                                if worker.Some? then worker.value else "external caller")
              else View() == old(View())
    {
      if question >= |questions| { return false; }
      ok := Addressed(caller, question, worker, false, seen.target);
      if !ok { return; }
      if seen.answer.Some? { return seen.answer.value == answer; }
      if questions[question].humanOnly && !(human && worker.None?) { return false; }
      if AnswerTo(question) in records { return false; }
      RootIsRoot(nodes, questions[question].origin);
      RecordAnswer(question, nodes[questions[question].origin].root, answer,
                   if worker.Some? then worker.value else "external caller");
    }

    /** Any one operation, made where its reads allow it, keeps every invariant of the store. */
    method Serve(a: Action)
      requires Good(View())
      requires a.Delegate? ==> (a.parent, a.read) in versionReads
      requires a.Escalate? || a.Answer? ==> (a.question, a.seen) in routeReads
      modifies this
      ensures View() == Apply(old(View()), a) && Good(View())
    {
      ApplyKeepsGood(View(), a);
      OriginsExist(View());
      match a {
        case Submit(objective, limits) => var _ := Submit(objective, limits);
        case Delegate(p, request, worker, peer, read) => var _ := Delegate(p, request, worker, peer, read);
        case Update(root, id, supersedes, kind, content, mandatory) =>
          var _ := UpdateContext(root, id, supersedes, kind, content, mandatory);
        case PinAttempt(attempt, task) => var _ := PinAttempt(attempt, task);
        case Ask(origin, key, envelope, humanOnly, worker) => var _ := Ask(origin, key, envelope, humanOnly, worker);
        case Escalate(caller, q, worker, commentary, seen) =>
          var _ := EscalateQuestion(caller, q, worker, commentary, seen);
        case Answer(caller, q, worker, answer, human, seen) =>
          var _ := AnswerQuestion(caller, q, worker, answer, human, seen);
        case ReadVersion(task) => if task < |nodes| { var _ := ReadVersion(task); }
        case ReadRoute(q) => if q < |questions| { var _ := ReadRoute(q); }
      }
    }
  }
}
