/**
 What GitHub's review and check-run lists must show before an automatic merge
 (src/delivery_policy.rs `approvals` and `check_runs`). Logins are compared as already
 lower-cased, and submission times by their order.
 */
module DeliveryEvidence {
  import opened Options

  datatype Verdict = Approved | ChangesRequested | Commented | Dismissed

  datatype Review = Review(user: string, submitted: Option<nat>, id: nat, verdict: Verdict, commit: string)

  /** Review `i` is later than review `j`: by submission time, then by id. */
  predicate Later(a: Review, b: Review)
    requires a.submitted.Some? && b.submitted.Some?
  {
    a.submitted.value > b.submitted.value || (a.submitted.value == b.submitted.value && a.id > b.id)
  }

  /** Review `k` is the last word of its author: nothing of theirs is later, and among equals
      it is the first listed. */
  ghost predicate LastWord(reviews: seq<Review>, k: nat) {
    && k < |reviews| && reviews[k].submitted.Some?
    && forall j :: 0 <= j < |reviews| && reviews[j].user == reviews[k].user && reviews[j].submitted.Some? ==>
         var a, b := reviews[j], reviews[k];
         || a.submitted.value < b.submitted.value
         || (a.submitted.value == b.submitted.value && (a.id < b.id || (a.id == b.id && j >= k)))
  }

  lemma LastWordIsUnique(reviews: seq<Review>, i: nat, j: nat)
    requires LastWord(reviews, i) && LastWord(reviews, j) && reviews[i].user == reviews[j].user
    ensures i == j
  {
  }

  /** Someone's last word approves this head, and they are not its author. */
  ghost predicate ApprovedBy(reviews: seq<Review>, head: string, author: string, user: string) {
    user != author &&
    exists k :: 0 <= k < |reviews| && LastWord(reviews, k) && reviews[k].user == user &&
                reviews[k].verdict.Approved? && reviews[k].commit == head
  }

  ghost predicate SomeoneObjects(reviews: seq<Review>) {
    exists k :: 0 <= k < |reviews| && LastWord(reviews, k) && reviews[k].verdict.ChangesRequested?
  }

  ghost function Approvers(reviews: seq<Review>, head: string, author: string): set<string> {
    set k | 0 <= k < |reviews| && ApprovedBy(reviews, head, author, reviews[k].user) :: reviews[k].user
  }

  /** The map the loop fills: each reviewer to their last word so far. */
  ghost predicate Tracks(reviews: seq<Review>, latest: map<string, nat>) {
    && (forall u :: u in latest ==> LastWord(reviews, latest[u]) && reviews[latest[u]].user == u)
    && (forall k :: 0 <= k < |reviews| && reviews[k].submitted.Some? ==> reviews[k].user in latest)
  }

  lemma TrackStep(reviews: seq<Review>, latest: map<string, nat>, next: Review)
    requires Tracks(reviews, latest)
    ensures var more := reviews + [next];
            Tracks(more, if next.submitted.Some? && (next.user !in latest || Later(next, reviews[latest[next.user]]))
                         then latest[next.user := |reviews|] else latest)
  {
    var more := reviews + [next];
    forall u | u in latest && (u != next.user || next.submitted.None? || !Later(next, reviews[latest[u]]))
      ensures LastWord(more, latest[u]) && more[latest[u]].user == u
    {
      assert LastWord(reviews, latest[u]);
      forall j | 0 <= j < |more| && more[j].user == u && more[j].submitted.Some?
        ensures !Later(more[j], more[latest[u]]) && (j < latest[u] ==> Later(more[latest[u]], more[j]))
      {
      }
    }
    if next.submitted.Some? && next.user in latest && Later(next, reviews[latest[next.user]]) {
      assert LastWord(reviews, latest[next.user]);
      forall j | 0 <= j < |reviews| && reviews[j].user == next.user && reviews[j].submitted.Some?
        ensures Later(next, reviews[j])
      {
        assert !Later(reviews[j], reviews[latest[next.user]]);
      }
    }
  }

  /**
   The approvals that count: accepted when the list is complete, nobody's last word objects,
   and enough reviewers other than the author approve this very head; refused otherwise.
   */
  method Approvals(reviews: seq<Review>, head: string, author: string, minimum: nat) returns (r: Result<set<string>>)
    ensures r.Ok? <==> |reviews| < 100 && !SomeoneObjects(reviews) && |Approvers(reviews, head, author)| >= minimum
    ensures r.Ok? ==> r.value == Approvers(reviews, head, author)
  {
    if |reviews| >= 100 { return Err("review list may be paginated"); }
    var latest: map<string, nat> := map[];
    for i := 0 to |reviews|
      invariant Tracks(reviews[..i], latest)
    {
      var next := reviews[i];
      TrackStep(reviews[..i], latest, next);
      assert reviews[..i] + [next] == reviews[..i + 1];
      if next.submitted.Some? {
        if next.user !in latest || Later(next, reviews[latest[next.user]]) {
          latest := latest[next.user := i];
        }
      }
    }
    assert reviews[..|reviews|] == reviews;
    forall k: nat | LastWord(reviews, k) ensures reviews[k].user in latest && latest[reviews[k].user] == k {
      LastWordIsUnique(reviews, latest[reviews[k].user], k);
    }
    if exists u :: u in latest && reviews[latest[u]].verdict.ChangesRequested? {
      return Err("an independent reviewer requested changes");
    }
    var accepted := set u | u in latest && u != author && reviews[latest[u]].verdict.Approved? &&
                            reviews[latest[u]].commit == head;
    assert accepted == Approvers(reviews, head, author);
    if |accepted| < minimum { return Err("missing exact-head independent PR approvals"); }
    r := Ok(accepted);
  }

  datatype Check = Check(name: string, id: Option<nat>, head: string, completed: bool, success: bool)

  ghost predicate Passes(c: Check, head: string) {
    c.id.Some? && c.head == head && c.completed && c.success
  }

  /** Exactly one run bears the required name, and it passed on this head. */
  ghost predicate Satisfied(runs: seq<Check>, name: string, head: string) {
    && (exists k :: 0 <= k < |runs| && runs[k].name == name)
    && (forall k :: 0 <= k < |runs| && runs[k].name == name ==> Passes(runs[k], head))
  }

  ghost predicate NoDuplicates(runs: seq<Check>, required: seq<string>) {
    forall i, j :: 0 <= i < j < |runs| && runs[i].name == runs[j].name ==> runs[i].name !in required
  }

  // ---------------------------------------------------------------- order by name

  /** The order of the names' bytes. */
  predicate NameLe(a: string, b: string) {
    a == [] || (b != [] && (a[0] < b[0] || (a[0] == b[0] && NameLe(a[1..], b[1..]))))
  }

  lemma {:induction false} NameLeTotal(a: string, b: string)
    ensures NameLe(a, b) || NameLe(b, a)
  {
    if a == [] || b == [] {
    } else {
      NameLeTotal(a[1..], b[1..]);
    }
  }

  lemma {:induction false} NameLeTransitive(a: string, b: string, c: string)
    requires NameLe(a, b) && NameLe(b, c)
    ensures NameLe(a, c)
  {
    if a == [] || b == [] || c == [] {
    } else if a[0] == b[0] && b[0] == c[0] {
      NameLeTransitive(a[1..], b[1..], c[1..]);
    }
  }

  /** One name comes before another when it is a prefix of it or smaller at the first difference. */
  lemma {:induction false} NameLeIff(a: string, b: string)
    ensures NameLe(a, b) <==> a <= b || exists i :: 0 <= i < |a| && i < |b| && a[..i] == b[..i] && a[i] < b[i]
  {
    if a == [] || b == [] {
    } else if a[0] != b[0] {
      assert a[..0] == b[..0];
      assert !(a <= b);
      assert forall i :: 0 < i < |a| && i < |b| ==> a[..i][0] != b[..i][0];
    } else {
      NameLeIff(a[1..], b[1..]);
      assert a <= b <==> a[1..] <= b[1..];
      if i :| 0 <= i < |a[1..]| && i < |b[1..]| && a[1..][..i] == b[1..][..i] && a[1..][i] < b[1..][i] {
        assert a[..i + 1] == [a[0]] + a[1..][..i] && b[..i + 1] == [b[0]] + b[1..][..i];
        assert a[i + 1] < b[i + 1];
      }
      if i :| 0 <= i < |a| && i < |b| && a[..i] == b[..i] && a[i] < b[i] {
        assert i > 0 && a[1..][..i - 1] == a[..i][1..] && b[1..][..i - 1] == b[..i][1..];
        assert a[1..][i - 1] < b[1..][i - 1];
      }
    }
  }

  predicate ByName(runs: seq<Check>, evidence: seq<nat>) {
    && (forall i :: 0 <= i < |evidence| ==> evidence[i] < |runs|)
    && forall i, j :: 0 <= i < j < |evidence| ==> NameLe(runs[evidence[i]].name, runs[evidence[j]].name)
  }

  lemma AllBefore(runs: seq<Check>, evidence: seq<nat>, k: nat)
    requires ByName(runs, evidence) && k < |runs| && evidence != []
    requires NameLe(runs[evidence[|evidence| - 1]].name, runs[k].name)
    ensures ByName(runs, evidence + [k])
  {
    forall i | 0 <= i < |evidence| ensures NameLe(runs[evidence[i]].name, runs[k].name) {
      if i < |evidence| - 1 {
        NameLeTransitive(runs[evidence[i]].name, runs[evidence[|evidence| - 1]].name, runs[k].name);
      }
    }
  }

  lemma AllBeforeLast(runs: seq<Check>, evidence: seq<nat>, k: nat, r: seq<nat>)
    requires ByName(runs, evidence) && k < |runs| && evidence != []
    requires !NameLe(runs[evidence[|evidence| - 1]].name, runs[k].name)
    requires ByName(runs, r) && multiset(r) == multiset(evidence[..|evidence| - 1]) + multiset{k}
    ensures ByName(runs, r + [evidence[|evidence| - 1]])
  {
    var last := evidence[|evidence| - 1];
    forall i | 0 <= i < |r| ensures NameLe(runs[r[i]].name, runs[last].name) {
      assert r[i] in multiset(r);
      if r[i] == k {
        NameLeTotal(runs[k].name, runs[last].name);
      } else {
        assert r[i] in evidence[..|evidence| - 1];
      }
    }
  }

  /** `evidence` with `k` after everything that does not come after it. */
  function Inserted(runs: seq<Check>, evidence: seq<nat>, k: nat): (r: seq<nat>)
    requires ByName(runs, evidence) && k < |runs|
    ensures ByName(runs, r) && multiset(r) == multiset(evidence) + multiset{k}
  {
    if evidence == [] then [k]
    else
      var last := evidence[|evidence| - 1];
      assert evidence == evidence[..|evidence| - 1] + [last];
      if NameLe(runs[last].name, runs[k].name) then
        assert ByName(runs, evidence + [k]) by { AllBefore(runs, evidence, k); }
        evidence + [k]
      else
        var r := Inserted(runs, evidence[..|evidence| - 1], k);
        assert ByName(runs, r + [last]) by { AllBeforeLast(runs, evidence, k, r); }
        r + [last]
  }

  /** `sort_by` on the name. */
  method SortByName(runs: seq<Check>, evidence: seq<nat>) returns (sorted: seq<nat>)
    requires forall i :: 0 <= i < |evidence| ==> evidence[i] < |runs|
    ensures ByName(runs, sorted) && multiset(sorted) == multiset(evidence)
  {
    sorted := [];
    for i := 0 to |evidence|
      invariant ByName(runs, sorted) && multiset(sorted) == multiset(evidence[..i])
    {
      assert evidence[..i + 1] == evidence[..i] + [evidence[i]];
      sorted := Inserted(runs, sorted, evidence[i]);
    }
    assert evidence[..|evidence|] == evidence;
  }

  /** The runs bearing the required names, one for each. */
  ghost predicate Bears(runs: seq<Check>, required: seq<string>, head: string, evidence: seq<nat>) {
    && |evidence| == |required|
    && forall i :: 0 <= i < |required| ==>
         evidence[i] < |runs| && runs[evidence[i]].name == required[i] && Passes(runs[evidence[i]], head)
  }

  /** A complete page of check runs satisfies the policy exactly when each required name has
      one run, passed, on the exact head; the evidence is those runs in the order of their names. */
  method CheckRuns(total: nat, runs: seq<Check>, head: string, required: seq<string>) returns (r: Result<seq<nat>>)
    ensures r.Ok? <==> total <= 100 && |runs| == total && NoDuplicates(runs, required) &&
                       forall n :: n in required ==> Satisfied(runs, n, head)
    ensures r.Ok? ==>
              && ByName(runs, r.value)
              && exists evidence: seq<nat> :: Bears(runs, required, head, evidence) &&
                                             multiset(r.value) == multiset(evidence)
  {
    if total > 100 || |runs| != total { return Err("incomplete check run list"); }
    var byName: map<string, nat> := map[];
    for i := 0 to |runs|
      invariant forall n :: n in byName ==> n in required && byName[n] < i && runs[byName[n]].name == n
      invariant forall k :: 0 <= k < i && runs[k].name in required ==>
                            runs[k].name in byName && byName[runs[k].name] == k
    {
      var name := runs[i].name;
      if name in required {
        if name in byName {
          assert runs[byName[name]].name == runs[i].name;
          return Err("duplicate required check run");
        }
        byName := byName[name := i];
      }
    }
    assert NoDuplicates(runs, required);
    var evidence: seq<nat> := [];
    for i := 0 to |required|
      invariant |evidence| == i
      invariant forall j :: 0 <= j < i ==> evidence[j] < |runs| && runs[evidence[j]].name == required[j] &&
                                           Passes(runs[evidence[j]], head) && Satisfied(runs, required[j], head)
    {
      var name := required[i];
      if name !in byName {
        assert !Satisfied(runs, name, head);
        return Err("required check is missing");
      }
      var run := runs[byName[name]];
      if run.head != head || !run.completed || !run.success || run.id.None? {
        assert !Passes(runs[byName[name]], head) && !Satisfied(runs, name, head);
        return Err("required check did not pass on exact head");
      }
      assert Satisfied(runs, name, head);
      evidence := evidence + [byName[name]];
    }
    assert Bears(runs, required, head, evidence);
    var sorted := SortByName(runs, evidence);
    r := Ok(sorted);
  }
}
