/**
 Executor roles and their fallback chains (src/config.rs `Settings::validate`,
 src/capacity.rs `select` and `select_for_step`).
 */
module Fallbacks {
  import opened Options

  /** A role's resolved connection. */
  datatype Config = Config(kind: string, authMode: string, baseUrl: string, account: Option<nat>)

  datatype Settings = Settings(executors: map<string, Config>, fallbacks: map<string, string>)

  const CHATGPT := "chatgpt"

  /** The role reached from `role` by falling back `n` times. */
  function Hop(f: map<string, string>, role: string, n: nat): Option<string> {
    if n == 0 then Some(role)
    else match Hop(f, role, n - 1)
      case None => None
      case Some(r) => if r in f then Some(f[r]) else None
  }

  ghost predicate Acyclic(f: map<string, string>) {
    forall role, n: nat :: n > 0 ==> Hop(f, role, n) != Some(role)
  }

  ghost predicate EdgesAllowed(s: Settings) {
    forall role :: role in s.fallbacks ==>
      && role in s.executors && s.fallbacks[role] in s.executors
      && (s.executors[role].kind == CHATGPT ==> s.executors[s.fallbacks[role]].kind == CHATGPT)
  }

  ghost predicate Valid(s: Settings) {
    EdgesAllowed(s) && Acyclic(s.fallbacks)
  }

  // ---------------------------------------------------------------- walking a chain

  lemma {:induction false} HopAdds(f: map<string, string>, role: string, a: nat, b: nat)
    requires Hop(f, role, a).Some?
    ensures Hop(f, role, a + b) == Hop(f, Hop(f, role, a).value, b)
  {
    if b == 0 {
    } else {
      HopAdds(f, role, a, b - 1);
    }
  }

  lemma {:induction false} HopStaysNone(f: map<string, string>, role: string, a: nat, b: nat)
    requires a <= b && Hop(f, role, a).None?
    ensures Hop(f, role, b).None?
  {
    if b <= a {
    } else {
      HopStaysNone(f, role, a, b - 1);
    }
  }

  /** A role on a cycle is reached again and again, so its chain never ends. */
  lemma {:induction false} CycleNeverEnds(f: map<string, string>, role: string, n: nat, rounds: nat)
    requires n > 0 && Hop(f, role, n) == Some(role)
    ensures Hop(f, role, rounds * n) == Some(role) && rounds * n >= rounds
  {
    if rounds == 0 {
    } else {
      CycleNeverEnds(f, role, n, rounds - 1);
      HopAdds(f, role, (rounds - 1) * n, n);
      assert (rounds - 1) * n + n == rounds * n;
    }
  }

  /** The roles a walk has passed, in the source's `seen` set. */
  ghost predicate Passed(f: map<string, string>, role: string, k: nat, seen: set<string>) {
    && (forall r :: r in seen ==> r in f && exists i :: 0 <= i < k && Hop(f, role, i) == Some(r))
    && (forall i :: 0 <= i < k ==> Hop(f, role, i).Some? && Hop(f, role, i).value in seen)
  }

  lemma MeetingAgainIsACycle(f: map<string, string>, role: string, k: nat, seen: set<string>, current: string)
    requires Passed(f, role, k, seen) && Hop(f, role, k) == Some(current) && current in seen
    ensures !Acyclic(f)
  {
    var i :| 0 <= i < k && Hop(f, role, i) == Some(current);
    HopAdds(f, role, i, k - i);
    assert Hop(f, current, k - i) == Some(current);
  }

  lemma PassedGrows(f: map<string, string>, role: string, k: nat, seen: set<string>, current: string)
    requires Passed(f, role, k, seen) && Hop(f, role, k) == Some(current) && current in f
    ensures Passed(f, role, k + 1, seen + {current})
    ensures Hop(f, role, k + 1) == Some(f[current])
  {
  }

  /** Follow one chain to its end, or find that it has none. */
  method ChainEnds(f: map<string, string>, role: string) returns (ends: bool)
    ensures ends ==> exists k: nat :: Hop(f, role, k).None?
    ensures !ends ==> !Acyclic(f)
  {
    var seen: set<string>, current := {}, role;
    ghost var k: nat := 0;
    while current in f
      invariant Passed(f, role, k, seen) && Hop(f, role, k) == Some(current)
      decreases f.Keys - seen
    {
      if current in seen {
        MeetingAgainIsACycle(f, role, k, seen, current);
        return false;
      }
      PassedGrows(f, role, k, seen, current);
      seen := seen + {current};
      current := f[current];
      k := k + 1;
    }
    assert Hop(f, role, k + 1).None?;
    ends := true;
  }

  lemma EndingIsNoCycle(f: map<string, string>, role: string, k: nat, n: nat)
    requires Hop(f, role, k).None? && n > 0
    ensures Hop(f, role, n) != Some(role)
  {
    if Hop(f, role, n) == Some(role) {
      CycleNeverEnds(f, role, n, k);
      HopStaysNone(f, role, k, k * n);
    }
  }

  lemma HopStaysNoneAfter(f: map<string, string>, role: string, n: nat)
    requires role !in f && n > 0
    ensures Hop(f, role, n).None?
  {
    assert Hop(f, role, 0) == Some(role);
    HopStaysNone(f, role, 1, n);
  }

  /** Settings are accepted exactly when every edge joins configured roles without leaving a
      ChatGPT role for another kind, and no role can fall back to itself. */
  method Validate(s: Settings) returns (ok: bool)
    ensures ok <==> Valid(s)
  {
    var roles := s.fallbacks.Keys;
    while roles != {}
      invariant roles <= s.fallbacks.Keys
      invariant forall role :: role in s.fallbacks && role !in roles ==>
                  && role in s.executors && s.fallbacks[role] in s.executors
                  && (s.executors[role].kind == CHATGPT ==> s.executors[s.fallbacks[role]].kind == CHATGPT)
                  && exists k: nat :: Hop(s.fallbacks, role, k).None?
      decreases roles
    {
      var role :| role in roles;
      var target := s.fallbacks[role];
      if role !in s.executors || target !in s.executors { return false; }
      if s.executors[role].kind == CHATGPT && s.executors[target].kind != CHATGPT { return false; }
      var ends := ChainEnds(s.fallbacks, role);
      if !ends { return false; }
      roles := roles - {role};
    }
    forall role, n: nat | n > 0 ensures Hop(s.fallbacks, role, n) != Some(role) {
      if role in s.fallbacks {
        var k: nat :| Hop(s.fallbacks, role, k).None?;
        EndingIsNoCycle(s.fallbacks, role, k, n);
      } else {
        HopStaysNoneAfter(s.fallbacks, role, n);
      }
    }
    ok := true;
  }

  // ---------------------------------------------------------------- choosing a role

  /** A role can run when it is not configured here, or its account has quota. */
  predicate Usable(s: Settings, quota: set<Config>, role: string) {
    role in s.executors ==> s.executors[role] in quota
  }

  /** `role` is where the chain from `first` stops: it satisfies `ok` and nothing before it does. */
  ghost predicate FirstAt(f: map<string, string>, first: string, k: nat, role: string, ok: set<string>) {
    && Hop(f, first, k) == Some(role) && role in ok
    && forall j :: 0 <= j < k ==> Hop(f, first, j).Some? && Hop(f, first, j).value !in ok
  }

  ghost predicate NoneOnChain(f: map<string, string>, first: string, ok: set<string>) {
    forall j: nat :: Hop(f, first, j).Some? ==> Hop(f, first, j).value !in ok
  }

  /** The part of the chain already rejected, and where the walk stands. */
  ghost predicate Rejected(f: map<string, string>, first: string, k: nat, seen: set<string>, ok: set<string>) {
    && Passed(f, first, k, seen)
    && forall j :: 0 <= j < k ==> Hop(f, first, j).value !in ok
  }

  lemma ChainExhausted(f: map<string, string>, first: string, k: nat, ok: set<string>)
    requires Hop(f, first, k).Some? && Hop(f, first, k).value !in f && Hop(f, first, k).value !in ok
    requires forall j :: 0 <= j < k ==> Hop(f, first, j).Some? && Hop(f, first, j).value !in ok
    ensures NoneOnChain(f, first, ok)
  {
    forall j: nat | Hop(f, first, j).Some? ensures Hop(f, first, j).value !in ok {
      if j > k { HopStaysNone(f, first, k + 1, j); }
    }
  }

  /** The roles `Usable` among the configured ones and `first`'s chain, as a set. */
  ghost function UsableRoles(s: Settings, quota: set<Config>, first: string): set<string> {
    set r | r in s.executors.Keys + s.fallbacks.Keys + s.fallbacks.Values + {first} && Usable(s, quota, r)
  }

  lemma {:induction false} HopIsKnown(s: Settings, first: string, k: nat)
    requires Hop(s.fallbacks, first, k).Some?
    ensures Hop(s.fallbacks, first, k).value in s.fallbacks.Values + {first}
  {
    if k == 0 {
    } else {
      HopIsKnown(s, first, k - 1);
    }
  }

  /** The first usable role of the chain, or none only when every role on it is unusable. The
      `seen` set never stops the walk early on validated settings. */
  method Select(s: Settings, quota: set<Config>, first: string) returns (r: Option<string>)
    requires Acyclic(s.fallbacks)
    ensures r.Some? ==> exists k: nat :: FirstAt(s.fallbacks, first, k, r.value, UsableRoles(s, quota, first))
    ensures r.None? ==> NoneOnChain(s.fallbacks, first, UsableRoles(s, quota, first))
  {
    var seen: set<string>, current := {}, first;
    ghost var k: nat, ok := 0, UsableRoles(s, quota, first);
    while current !in seen
      invariant Rejected(s.fallbacks, first, k, seen, ok) && Hop(s.fallbacks, first, k) == Some(current)
      decreases s.fallbacks.Keys - seen
    {
      HopIsKnown(s, first, k);
      if current !in s.executors || s.executors[current] in quota {
        assert FirstAt(s.fallbacks, first, k, current, ok);
        return Some(current);
      }
      if current !in s.fallbacks {
        ChainExhausted(s.fallbacks, first, k, ok);
        return None;
      }
      PassedGrows(s.fallbacks, first, k, seen, current);
      seen := seen + {current};
      current := s.fallbacks[current];
      k := k + 1;
    }
    MeetingAgainIsACycle(s.fallbacks, first, k, seen, current);
    r := None;
  }

  /** Where the walk starts after so many failed attempts: the last role `n` hops can reach. */
  function Skipped(f: map<string, string>, role: string, n: nat): string
    decreases n
  {
    if n > 0 && role in f then Skipped(f, f[role], n - 1) else role
  }

  /** Starts move on by min(failures, chain length) hops. */
  lemma {:induction false} SkippedIsHop(f: map<string, string>, role: string, n: nat) returns (m: nat)
    ensures m <= n && Hop(f, role, m) == Some(Skipped(f, role, n)) && (m == n || Skipped(f, role, n) !in f)
    decreases n
  {
    if n > 0 && role in f {
      var rest := SkippedIsHop(f, f[role], n - 1);
      assert Hop(f, role, 0) == Some(role) && Hop(f, role, 1) == Some(f[role]);
      HopAdds(f, role, 1, rest);
      m := rest + 1;
    } else {
      m := 0;
    }
  }

  /** Each failed attempt moves the start one fallback on, stopping at the chain's end. */
  method SkipFailures(f: map<string, string>, role: string, failures: nat) returns (start: string)
    ensures start == Skipped(f, role, failures)
  {
    start := role;
    for i := 0 to failures
      invariant Skipped(f, start, failures - i) == Skipped(f, role, failures)
    {
      if start !in f { return; }
      start := f[start];
    }
  }

  /** A ChatGPT role never reaches a role of another kind, however often it falls back. */
  lemma {:induction false} ChatgptStaysChatgpt(s: Settings, role: string, k: nat)
    requires EdgesAllowed(s) && role in s.executors && s.executors[role].kind == CHATGPT
    ensures Hop(s.fallbacks, role, k).Some? ==>
              var r := Hop(s.fallbacks, role, k).value;
              r in s.executors && s.executors[r].kind == CHATGPT
  {
    if k == 0 {
    } else {
      ChatgptStaysChatgpt(s, role, k - 1);
    }
  }
}
