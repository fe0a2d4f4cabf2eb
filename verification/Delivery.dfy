/**
 Automatic delivery of one task: authorize, record an intent, merge, and reconcile what
 GitHub then shows (src/delivery.rs `execute`; src/delivery_policy.rs `authorize_merge`,
 `record_merge_intent`, `validate_merge_boundary`, `require_prior_authorization`,
 `merge_parent_matches`).

 Attempts may stop after any step and new ones may begin at any time, even beside an old
 one. Everything GitHub answers is arbitrary. An authorization is identified by the hash of
 its details; the hash is taken to be injective, so the details are the identity.
 */
module Delivery {
  import opened Options

  datatype Details = Details(decision: nat, pr: nat, head: string, base: string, policy: string)

  datatype Intent = Intent(authorization: Details, pr: nat, head: string)

  datatype Attempt =
    | Stopped
    | Checked(pr: nat, head: string)
    | Authorized(pr: nat, head: string, authorization: Details)
    | Intended(pr: nat, head: string, authorization: Details)
    | Ready(pr: nat, head: string, authorization: Details)
    | Viewing(pr: nat, head: string)
    | Past(pr: nat, head: string, base: string, parents: seq<string>)

  datatype State = State(attempts: seq<Attempt>, decisions: nat, authorizations: set<Details>,
                         intent: Option<Intent>, merges: seq<Details>)

  datatype Action =
    | Begin(pr: nat, head: string, merged: bool)
    | Authorize(k: nat, base: string, policy: string)
    | RecordIntent(k: nat)
    | CheckBoundary(k: nat, current: Option<string>, active: bool)
    | Merge(k: nat, replied: bool)
    | View(k: nat, merged: bool, parents: seq<string>, policy: string, standing: bool)
    | Stop(k: nat)

  const FRESH := State([], 0, {}, None, [])

  function Put(s: State, k: nat, a: Attempt): State
    requires k < |s.attempts|
  {
    s.(attempts := s.attempts[k := a])
  }

  /** The first intent recorded for the task stays; any other is refused. */
  function IntentAfter(s: State, pr: nat, head: string, authorization: Details): Intent {
    if s.intent.Some? then s.intent.value else Intent(authorization, pr, head)
  }

  /** The base a merged pull request was authorized on, if it was authorized here. */
  function PriorBase(s: State, pr: nat, head: string, policy: string): Option<string> {
    if s.intent.None? then None
    else
      var intent := s.intent.value;
      if intent.authorization in s.authorizations && intent.authorization.head == intent.head
         && intent.head == head && intent.pr == pr
         && intent.authorization.pr == intent.pr && intent.authorization.policy == policy
      then Some(intent.authorization.base) else None
  }

  predicate MergeParentMatches(parents: seq<string>, base: string) {
    |parents| == 1 && parents[0] == base
  }

  function Apply(s: State, a: Action): State {
    match a
    case Begin(pr, head, merged) =>
      s.(attempts := s.attempts + [if merged then Viewing(pr, head) else Checked(pr, head)])
    case Authorize(k, base, policy) =>
      if k < |s.attempts| && s.attempts[k].Checked? then
        var at := s.attempts[k];
        // The decision consulted is a new row, so the details have never been seen.
        var details := Details(s.decisions, at.pr, at.head, base, policy);
        Put(s.(decisions := s.decisions + 1, authorizations := s.authorizations + {details}),
            k, Authorized(at.pr, at.head, details))
      else s
    case RecordIntent(k) =>
      if k < |s.attempts| && s.attempts[k].Authorized? then
        var at := s.attempts[k];
        var kept := IntentAfter(s, at.pr, at.head, at.authorization);
        Put(s.(intent := Some(kept)), k,
            if kept == Intent(at.authorization, at.pr, at.head)
            then Intended(at.pr, at.head, at.authorization) else Stopped)
      else s
    case CheckBoundary(k, current, active) =>
      // No policy: automatic delivery was switched off. Not active: the task or attempt was stopped.
      if k < |s.attempts| && s.attempts[k].Intended? then
        var at := s.attempts[k];
        Put(s, k, if current == Some(at.authorization.policy) && active
                  then Ready(at.pr, at.head, at.authorization) else Stopped)
      else s
    case Merge(k, replied) =>
      if k < |s.attempts| && s.attempts[k].Ready? then
        var at := s.attempts[k];
        Put(s.(merges := s.merges + [at.authorization]), k, if replied then Viewing(at.pr, at.head) else Stopped)
      else s
    case View(k, merged, parents, policy, standing) =>
      if k < |s.attempts| && s.attempts[k].Viewing? then
        var at := s.attempts[k];
        var base := PriorBase(s, at.pr, at.head, policy);
        Put(s, k, if merged && standing && base.Some? && MergeParentMatches(parents, base.value)
                  then Past(at.pr, at.head, base.value, parents) else Stopped)
      else s
    case Stop(k) => if k < |s.attempts| && !s.attempts[k].Past? then Put(s, k, Stopped) else s
  }

  function Run(actions: seq<Action>): State {
    if actions == [] then FRESH else Apply(Run(actions[..|actions| - 1]), actions[|actions| - 1])
  }

  // ---------------------------------------------------------------- the invariant

  predicate Holds(a: Attempt) {
    a.Authorized? || a.Intended? || a.Ready?
  }

  /** Attempts never share an authorization; one that got past recording its intent holds the
      recorded one; and the recorded one is spent by the first merge command. */
  ghost predicate Good(s: State) {
    && (forall d :: d in s.authorizations ==> d.decision < s.decisions)
    && (forall i :: 0 <= i < |s.attempts| && Holds(s.attempts[i]) ==>
          var a := s.attempts[i];
          && a.authorization in s.authorizations
          && a.authorization.pr == a.pr && a.authorization.head == a.head)
    && (forall i, j :: 0 <= i < j < |s.attempts| && Holds(s.attempts[i]) && Holds(s.attempts[j]) ==>
          s.attempts[i].authorization != s.attempts[j].authorization)
    && (forall i :: 0 <= i < |s.attempts| && (s.attempts[i].Intended? || s.attempts[i].Ready?) ==>
          && s.intent == Some(Intent(s.attempts[i].authorization, s.attempts[i].pr, s.attempts[i].head))
          && s.merges == [])
    && (s.intent.Some? ==> s.intent.value.authorization in s.authorizations)
    && (s.intent.Some? ==> forall i :: 0 <= i < |s.attempts| && s.attempts[i].Authorized? ==>
          s.attempts[i].authorization != s.intent.value.authorization)
    && |s.merges| <= 1
    && (s.merges != [] ==> s.intent.Some? && s.merges[0] == s.intent.value.authorization)
    && (s.merges != [] ==> forall i :: 0 <= i < |s.attempts| && Holds(s.attempts[i]) ==>
          s.attempts[i].authorization != s.merges[0])
    && (forall i :: 0 <= i < |s.attempts| && s.attempts[i].Past? ==>
          && s.intent.Some?
          && s.intent.value.head == s.attempts[i].head && s.intent.value.pr == s.attempts[i].pr
          && s.attempts[i].base == s.intent.value.authorization.base
          && s.attempts[i].parents == [s.intent.value.authorization.base])
  }

  lemma BeginKeepsGood(s: State, a: Action)
    requires Good(s) && a.Begin?
    ensures Good(Apply(s, a))
  {
  }

  lemma AuthorizeKeepsGood(s: State, a: Action)
    requires Good(s) && a.Authorize?
    ensures Good(Apply(s, a))
  {
  }

  lemma RecordKeepsGood(s: State, a: Action)
    requires Good(s) && a.RecordIntent?
    ensures Good(Apply(s, a))
  {
  }

  lemma BoundaryKeepsGood(s: State, a: Action)
    requires Good(s) && a.CheckBoundary?
    ensures Good(Apply(s, a))
  {
  }

  lemma MergeKeepsGood(s: State, a: Action)
    requires Good(s) && a.Merge?
    ensures Good(Apply(s, a))
  {
  }

  lemma ViewKeepsGood(s: State, a: Action)
    requires Good(s) && a.View?
    ensures Good(Apply(s, a))
  {
  }

  lemma StopKeepsGood(s: State, a: Action)
    requires Good(s) && a.Stop?
    ensures Good(Apply(s, a))
  {
  }

  lemma ApplyKeepsGood(s: State, a: Action)
    requires Good(s)
    ensures Good(Apply(s, a))
  {
    match a
    case Begin(_, _, _) => BeginKeepsGood(s, a);
    case Authorize(_, _, _) => AuthorizeKeepsGood(s, a);
    case RecordIntent(_) => RecordKeepsGood(s, a);
    case CheckBoundary(_, _, _) => BoundaryKeepsGood(s, a);
    case Merge(_, _) => MergeKeepsGood(s, a);
    case View(_, _, _, _, _) => ViewKeepsGood(s, a);
    case Stop(_) => StopKeepsGood(s, a);
  }

  lemma {:induction false} RunIsGood(actions: seq<Action>)
    ensures Good(Run(actions))
  {
    if actions == [] {
    } else {
      RunIsGood(actions[..|actions| - 1]);
      ApplyKeepsGood(Run(actions[..|actions| - 1]), actions[|actions| - 1]);
    }
  }

  // ---------------------------------------------------------------- the theorems

  /** The merge command is issued at most once for the task, and only for the authorization
      its first recorded intent names. */
  lemma MergedAtMostOnce(actions: seq<Action>)
    ensures var s := Run(actions);
            && |s.merges| <= 1
            && (s.merges != [] ==> s.intent.Some? && s.merges == [s.intent.value.authorization])
  {
    RunIsGood(actions);
  }

  /** An attempt proceeds past the merge only for the pull request and head of the recorded
      intent, and only if the squash commit's one parent is the base that was authorized. */
  lemma {:induction false} PastMergeOnlyOnAuthorizedBase(actions: seq<Action>, k: nat)
    ensures var s := Run(actions);
            k < |s.attempts| && s.attempts[k].Past? ==>
              && s.intent.Some?
              && s.intent.value.pr == s.attempts[k].pr && s.intent.value.head == s.attempts[k].head
              && s.intent.value.authorization in s.authorizations
              && s.attempts[k].parents == [s.intent.value.authorization.base]
  {
    RunIsGood(actions);
  }

  /** Once an intent is recorded, every other attempt stops at recording its own. */
  lemma LaterAuthorizationsAreRefused(actions: seq<Action>, k: nat)
    requires var s := Run(actions);
             && k < |s.attempts| && s.attempts[k].Checked? && s.intent.Some?
    ensures forall base, policy ::
              var s := Run(actions);
              Apply(Apply(s, Authorize(k, base, policy)), RecordIntent(k)).attempts[k].Stopped?
  {
    RunIsGood(actions);
    var s := Run(actions);
    forall base, policy
      ensures Apply(Apply(s, Authorize(k, base, policy)), RecordIntent(k)).attempts[k].Stopped?
    {
      assert s.intent.value.authorization.decision < s.decisions;
    }
  }

  /** Attempt `k` was found ready under the authorization's own policy, while it was active. */
  ghost predicate WasChecked(actions: seq<Action>, k: nat, authorization: Details) {
    exists j :: 0 <= j < |actions| && actions[j] == CheckBoundary(k, Some(authorization.policy), true) &&
      var before := Run(actions[..j]).attempts;
      k < |before| && before[k].Intended? && before[k].authorization == authorization
  }

  lemma CheckStays(front: seq<Action>, a: Action, k: nat, authorization: Details)
    requires WasChecked(front, k, authorization)
    ensures WasChecked(front + [a], k, authorization)
  {
    var j :| 0 <= j < |front| && front[j] == CheckBoundary(k, Some(authorization.policy), true) &&
      var before := Run(front[..j]).attempts;
      k < |before| && before[k].Intended? && before[k].authorization == authorization;
    assert (front + [a])[..j] == front[..j] && (front + [a])[j] == front[j];
  }

  /** Only a passed boundary check makes an attempt ready to merge. */
  lemma ReadyStep(s: State, a: Action, k: nat)
    requires k < |Apply(s, a).attempts| && Apply(s, a).attempts[k].Ready?
    ensures k < |s.attempts|
    ensures var d := Apply(s, a).attempts[k].authorization;
            if s.attempts[k].Ready? then s.attempts[k].authorization == d
            else a == CheckBoundary(k, Some(d.policy), true) && s.attempts[k].Intended? &&
                 s.attempts[k].authorization == d
  {
  }

  lemma {:induction false} ReadyWasChecked(actions: seq<Action>, k: nat)
    requires k < |Run(actions).attempts| && Run(actions).attempts[k].Ready?
    ensures WasChecked(actions, k, Run(actions).attempts[k].authorization)
  {
    if actions == [] {
    } else {
      var n := |actions| - 1;
      var front, a := actions[..n], actions[n];
      assert actions == front + [a];
      ReadyStep(Run(front), a, k);
      var authorization := Run(actions).attempts[k].authorization;
      if Run(front).attempts[k].Ready? {
        ReadyWasChecked(front, k);
        CheckStays(front, a, k, authorization);
      } else {
        assert actions[..n] == front && actions[n] == CheckBoundary(k, Some(authorization.policy), true);
      }
    }
  }

  /** Action `i` issued the merge for an attempt that had been checked just for it. */
  ghost predicate MergedAfterCheck(actions: seq<Action>, i: nat, authorization: Details) {
    && i < |actions| && actions[i].Merge? && WasChecked(actions[..i], actions[i].k, authorization)
    && var before := Run(actions[..i]).attempts;
       && actions[i].k < |before| && before[actions[i].k].Ready?
       && before[actions[i].k].authorization == authorization
  }

  lemma MergeStep(s: State, a: Action, authorization: Details)
    requires authorization in Apply(s, a).merges && authorization !in s.merges
    ensures a.Merge? && a.k < |s.attempts| && s.attempts[a.k].Ready? && s.attempts[a.k].authorization == authorization
  {
  }

  /** Every merge command is issued by an attempt whose authorization was, after its intent was
      recorded, held against the operator's policy of the moment and found to be under that very one. */
  lemma {:induction false} MergesFollowTheirCheck(actions: seq<Action>, authorization: Details)
    requires authorization in Run(actions).merges
    ensures exists i: nat :: MergedAfterCheck(actions, i, authorization)
  {
    if actions == [] {
    } else {
      var n := |actions| - 1;
      var front := actions[..n];
      if authorization in Run(front).merges {
        MergesFollowTheirCheck(front, authorization);
        var i: nat :| MergedAfterCheck(front, i, authorization);
        assert actions[..i] == front[..i];
        assert MergedAfterCheck(actions, i, authorization);
      } else {
        MergeStep(Run(front), actions[n], authorization);
        ReadyWasChecked(front, actions[n].k);
        assert MergedAfterCheck(actions, n, authorization);
      }
    }
  }

  // ---------------------------------------------------------------- the delivery step

  /** What GitHub and the operator say in the course of one attempt. */
  datatype Replies = Replies(base: string, policy: string, boundary: Option<string>, active: bool,
                             mergeReplied: bool, merged: bool, parents: seq<string>, later: string, standing: bool)

  class Tables {
    var attempts: seq<Attempt>
    var decisions: nat
    var authorizations: set<Details>
    var intent: Option<Intent>
    var merges: seq<Details>

    ghost function View(): State
      reads this
    {
      State(attempts, decisions, authorizations, intent, merges)
    }

    constructor ()
      ensures View() == FRESH && Good(View())
    {
      attempts, decisions, authorizations, intent, merges := [], 0, {}, None, [];
    }

    method AuthorizeMerge(k: nat, base: string, policy: string)
      requires Good(View()) && k < |attempts| && attempts[k].Checked?
      modifies this`attempts, this`decisions, this`authorizations
      ensures View() == Apply(old(View()), Authorize(k, base, policy)) && Good(View())
      ensures var at := old(attempts)[k];
              var details := Details(old(decisions), at.pr, at.head, base, policy);
              && details !in old(authorizations) && authorizations == old(authorizations) + {details}
              && decisions == old(decisions) + 1
              && attempts == old(attempts)[k := Authorized(at.pr, at.head, details)]
    {
      AuthorizeKeepsGood(View(), Authorize(k, base, policy));
      var at := attempts[k];
      var identity := Details(decisions, at.pr, at.head, base, policy);
      decisions := decisions + 1;
      authorizations := authorizations + {identity};
      attempts := attempts[k := Authorized(at.pr, at.head, identity)];
    }

    /** Insert the intent unless the task has one, read back the one it has, and compare. */
    method RecordMergeIntent(k: nat) returns (ok: bool)
      requires Good(View()) && k < |attempts| && attempts[k].Authorized?
      modifies this`attempts, this`intent
      ensures View() == Apply(old(View()), RecordIntent(k)) && Good(View())
      ensures ok <==> attempts[k].Intended?
      ensures ok <==> old(intent).None?
      ensures var at := old(attempts)[k];
              && intent == (if old(intent).Some? then old(intent) else Some(Intent(at.authorization, at.pr, at.head)))
              && attempts == old(attempts)[k := if ok then Intended(at.pr, at.head, at.authorization) else Stopped]
    {
      RecordKeepsGood(View(), RecordIntent(k));
      var at := attempts[k];
      if intent.None? { intent := Some(Intent(at.authorization, at.pr, at.head)); }
      var original := intent.value;
      ok := original.authorization == at.authorization && original.pr == at.pr && original.head == at.head;
      attempts := attempts[k := if ok then Intended(at.pr, at.head, at.authorization) else Stopped];
    }

    /** The last look before the external write, under the policy of the moment. */
    method ValidateMergeBoundary(k: nat, policy: Option<string>, active: bool) returns (ok: bool)
      requires Good(View()) && k < |attempts| && attempts[k].Intended?
      modifies this`attempts
      ensures View() == Apply(old(View()), CheckBoundary(k, policy, active)) && Good(View())
      ensures intent == old(intent) && intent.Some?
      ensures ok <==> policy == Some(intent.value.authorization.policy) && active
      ensures var at := old(attempts)[k];
              attempts == old(attempts)[k := if ok then Ready(at.pr, at.head, at.authorization) else Stopped]
    {
      BoundaryKeepsGood(View(), CheckBoundary(k, policy, active));
      var at := attempts[k];
      ok := policy == Some(at.authorization.policy) && active;
      attempts := attempts[k := if ok then Ready(at.pr, at.head, at.authorization) else Stopped];
    }

    method IssueMerge(k: nat, replied: bool)
      requires Good(View()) && k < |attempts| && attempts[k].Ready?
      modifies this`attempts, this`merges
      ensures View() == Apply(old(View()), Merge(k, replied)) && Good(View())
      ensures old(merges) == [] && merges == [old(attempts)[k].authorization]
      ensures var at := old(attempts)[k];
              attempts == old(attempts)[k := if replied then Viewing(at.pr, at.head) else Stopped]
    {
      MergeKeepsGood(View(), Merge(k, replied));
      var at := attempts[k];
      merges := merges + [at.authorization];
      attempts := attempts[k := if replied then Viewing(at.pr, at.head) else Stopped];
    }

    /** Read the merge back and hold it against the recorded intent. `standing` says that the
        workspace and protection are as before and the consulted decision still stands. */
    method Reconcile(k: nat, merged: bool, parents: seq<string>, policy: string, standing: bool) returns (ok: bool)
      requires Good(View()) && k < |attempts| && attempts[k].Viewing?
      modifies this`attempts
      ensures View() == Apply(old(View()), Action.View(k, merged, parents, policy, standing)) && Good(View())
      ensures ok <==> attempts[k].Past?
      ensures ok <==>
                && merged && standing && intent.Some?
                && intent.value.pr == old(attempts)[k].pr && intent.value.head == old(attempts)[k].head
                && intent.value.authorization in authorizations
                && intent.value.authorization.pr == intent.value.pr
                && intent.value.authorization.head == intent.value.head
                && intent.value.authorization.policy == policy
                && parents == [intent.value.authorization.base]
    {
      ViewKeepsGood(View(), Action.View(k, merged, parents, policy, standing));
      var at := attempts[k];
      ok := false;
      if merged && standing && intent.Some? {
        var row := intent.value;
        if row.authorization in authorizations && row.authorization.head == row.head
           && row.head == at.head && row.pr == at.pr
           && row.authorization.pr == row.pr && row.authorization.policy == policy
        {
          ok := MergeParentMatches(parents, row.authorization.base);
          if ok { attempts := attempts[k := Past(at.pr, at.head, row.authorization.base, parents)]; }
        }
      }
      if !ok { attempts := attempts[k := Stopped]; }
    }

    /** Authorize, record the intent, check the boundary, merge: stopping after `steps` of them. */
    method MergeOnce(k: nat, r: Replies, steps: nat) returns (issued: bool)
      requires Good(View()) && k < |attempts| && attempts[k].Checked?
      modifies this
      ensures Good(View()) && |attempts| == |old(attempts)|
      // Issued once, for this attempt's own authorization, and only when no intent was there before
      // and the policy at the boundary is the one it was authorized under.
      ensures merges == if steps >= 4 && old(intent).None? && r.boundary == Some(r.policy) && r.active
                        then old(merges) + [Details(old(decisions), old(attempts)[k].pr, old(attempts)[k].head,
                                                    r.base, r.policy)]
                        else old(merges)
      ensures issued <==> |merges| > |old(merges)| && r.mergeReplied
      ensures issued ==> attempts[k] == Viewing(old(attempts)[k].pr, old(attempts)[k].head)
      ensures issued ==>
                var details := merges[|merges| - 1];
                details in authorizations && intent == Some(Intent(details, details.pr, details.head))
      ensures old(intent).Some? ==> intent == old(intent)
    {
      issued := false;
      if steps < 1 { return; }
      AuthorizeMerge(k, r.base, r.policy);
      if steps < 2 { return; }
      var recorded := RecordMergeIntent(k);
      if !recorded || steps < 3 { return; }
      var ready := ValidateMergeBoundary(k, r.boundary, r.active);
      if !ready || steps < 4 { return; }
      IssueMerge(k, r.mergeReplied);
      issued := r.mergeReplied;
    }

    /** One attempt from its first look at the pull request, stopping after `steps` of its steps. */
    method Execute(pr: nat, head: string, alreadyMerged: bool, r: Replies, steps: nat) returns (past: bool)
      requires Good(View())
      modifies this
      ensures Good(View())
      ensures merges == if !alreadyMerged && steps >= 4 && old(intent).None? &&
                           r.boundary == Some(r.policy) && r.active
                        then old(merges) + [Details(old(decisions), pr, head, r.base, r.policy)] else old(merges)
      ensures past ==> intent.Some? && intent.value.pr == pr && intent.value.head == head
      ensures past ==> r.merged && r.standing && r.parents == [intent.value.authorization.base]
      // An attempt nothing disturbs gets past its merge.
      ensures !alreadyMerged && steps >= 5 && old(intent).None? && r.boundary == Some(r.policy) && r.active
              && r.mergeReplied && r.merged && r.standing && r.parents == [r.base] && r.later == r.policy
              ==> past
    {
      past := false;
      var k := |attempts|;
      BeginKeepsGood(View(), Begin(pr, head, alreadyMerged));
      attempts := attempts + [if alreadyMerged then Viewing(pr, head) else Checked(pr, head)];
      if !alreadyMerged {
        var issued := MergeOnce(k, r, steps);
        if !issued { return; }
      }
      if steps < 5 { return; }
      past := Reconcile(k, r.merged, r.parents, r.later, r.standing);
    }
  }
}
