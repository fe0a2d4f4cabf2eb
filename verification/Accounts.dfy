/**
 Account grants and concurrency reservations (src/accounts.rs `select_account`,
 `choose_for_step`, `reserve`, `release_step`, and the grant and revoke arms of
 `dispatch`). Reservations made for other runtimes are rows of the same kind under the same
 admission guard. Quota windows and the clock are inputs of each operation.
 */
module Accounts {
  import opened Options
  import opened Fallbacks

  /** One account with its authentication profile; an account is named by its row. */
  datatype Account = Account(owner: string, config: Config, concurrency: nat, active: bool, authenticated: bool,
                             version: nat, expires: Option<nat>, planAllowed: bool, lastDispatch: nat)

  datatype Hold = Active | Revoked | Uncertain | Released

  /** A step here, or a request from another runtime. */
  datatype Holder = Step(id: string) | Request(id: string)

  datatype Reservation = Reservation(project: string, account: nat, version: nat, hold: Hold)

  datatype State = State(accounts: seq<Account>, grants: set<(string, nat)>, reservations: map<Holder, Reservation>)

  /** What the moment decides: the time, and which accounts have quota left. */
  datatype Moment = Moment(now: nat, quota: set<nat>, unmanagedQuota: set<Config>)

  datatype Binding = Binding(role: string, account: Option<nat>, version: Option<nat>)

  datatype Action =
    | Create(project: string, row: Account)
    | Grant(project: string, account: nat)
    | Revoke(project: string, account: nat)
    | Reserve(holder: Holder, project: string, account: nat, version: nat, at: Moment)
    | Release(holder: Holder, attemptLive: bool)
    | Doubt(holder: Holder)
    | Credential(account: nat, version: nat, expires: Option<nat>, authenticated: bool)

  predicate Holds(r: Reservation, account: nat) {
    r.account == account && !r.hold.Released?
  }

  /** The holders occupying a slot of the account. */
  function Holders(reservations: map<Holder, Reservation>, account: nat): set<Holder> {
    set h | h in reservations && Holds(reservations[h], account)
  }

  function Load(s: State, account: nat): nat {
    |Holders(s.reservations, account)|
  }

  /** Every reservation that is active, revoked or uncertain occupies a slot. */
  lemma LoadCountsHolds(s: State, account: nat)
    ensures Load(s, account) ==
            |set h | h in s.reservations && s.reservations[h].account == account &&
                     (s.reservations[h].hold == Active || s.reservations[h].hold == Revoked ||
                      s.reservations[h].hold == Uncertain)|
  {
    assert Holders(s.reservations, account) ==
           set h | h in s.reservations && s.reservations[h].account == account &&
                   (s.reservations[h].hold == Active || s.reservations[h].hold == Revoked ||
                    s.reservations[h].hold == Uncertain);
  }

  function RevokedRows(reservations: map<Holder, Reservation>, project: string, account: nat)
    : map<Holder, Reservation>
  {
    map h | h in reservations ::
      if reservations[h].project == project && reservations[h].account == account && reservations[h].hold.Active?
      then reservations[h].(hold := Revoked) else reservations[h]
  }

  predicate Granted(s: State, project: string, account: nat) {
    account < |s.accounts| && (project, account) in s.grants && s.accounts[account].active
  }

  predicate Unexpired(a: Account, now: nat) {
    a.expires.Some? ==> a.expires.value > now
  }

  function Reserved(s: State, holder: Holder, project: string, account: nat, version: nat, at: Moment): Option<State> {
    if !Granted(s, project, account) then None
    else if holder in s.reservations && s.reservations[holder].hold.Active? then
      if s.reservations[holder].account == account && s.reservations[holder].version == version then Some(s) else None
    else if holder in s.reservations && !s.reservations[holder].hold.Released? then None
    else
      var a := s.accounts[account];
      if !a.authenticated || a.version != version || !Unexpired(a, at.now) || a.concurrency <= Load(s, account)
         || account !in at.quota
      then None
      else Some(s.(
        reservations := s.reservations[holder := Reservation(project, account, version, Active)],
        accounts := s.accounts[account := a.(lastDispatch := at.now)]))
  }

  function Apply(s: State, a: Action): State {
    match a
    case Create(project, row) =>
      if row.concurrency == 0 || row.concurrency > 4096 then s
      else s.(accounts := s.accounts + [row.(owner := project)], grants := s.grants + {(project, |s.accounts|)})
    case Grant(project, account) =>
      if account < |s.accounts| then s.(grants := s.grants + {(project, account)}) else s
    case Revoke(project, account) =>
      if !Granted(s, project, account) then s
      else s.(grants := s.grants - {(project, account)},
              reservations := RevokedRows(s.reservations, project, account))
    case Reserve(holder, project, account, version, at) =>
      (match Reserved(s, holder, project, account, version, at) case Some(t) => t case None => s)
    case Release(holder, attemptLive) =>
      if attemptLive || holder !in s.reservations then s
      else s.(reservations := s.reservations[holder := s.reservations[holder].(hold := Released)])
    case Doubt(holder) =>
      if holder in s.reservations && s.reservations[holder].hold.Active?
      then s.(reservations := s.reservations[holder := s.reservations[holder].(hold := Uncertain)]) else s
    case Credential(account, version, expires, authenticated) =>
      if account < |s.accounts|
      then s.(accounts := s.accounts[account := s.accounts[account].(version := version, expires := expires,
                                                                     authenticated := authenticated)])
      else s
  }

  function Run(actions: seq<Action>): State {
    if actions == [] then State([], {}, map[])
    else Apply(Run(actions[..|actions| - 1]), actions[|actions| - 1])
  }

  // ---------------------------------------------------------------- slots

  ghost predicate Good(s: State) {
    && (forall h :: h in s.reservations ==> s.reservations[h].account < |s.accounts|)
    && forall a :: 0 <= a < |s.accounts| ==> 0 < s.accounts[a].concurrency && Load(s, a) <= s.accounts[a].concurrency
  }

  /** Revoking a grant changes what may be dispatched but frees no slot, of any account. */
  lemma RevocationFreesNothing(s: State, project: string, account: nat, other: nat)
    ensures Load(Apply(s, Revoke(project, account)), other) == Load(s, other)
  {
    var after := RevokedRows(s.reservations, project, account);
    assert Holders(after, other) == Holders(s.reservations, other);
  }

  lemma Shrinks(before: set<Holder>, holder: Holder)
    ensures |before - {holder}| <= |before|
  {
    if holder !in before { assert before - {holder} == before; }
  }

  /** Changing one holder's row moves each load by at most that one row. */
  lemma OneRowLoad(rows: map<Holder, Reservation>, holder: Holder, row: Reservation, account: nat)
    ensures var before, after := Holders(rows, account), Holders(rows[holder := row], account);
            && (Holds(row, account) ==> after == before + {holder})
            && (!Holds(row, account) ==> after == before - {holder})
            && |after| <= |before| + (if Holds(row, account) && holder !in before then 1 else 0)
  {
    var before, after := Holders(rows, account), Holders(rows[holder := row], account);
    if Holds(row, account) {
      assert after == before + {holder};
      if holder in before { assert after == before; }
    } else {
      assert after == before - {holder};
      Shrinks(before, holder);
    }
  }

  lemma RowKeepsGood(s: State, holder: Holder, row: Reservation, t: State)
    requires Good(s) && row.account < |s.accounts| == |t.accounts|
    requires t.reservations == s.reservations[holder := row]
    requires forall a :: 0 <= a < |s.accounts| ==> t.accounts[a].concurrency == s.accounts[a].concurrency
    requires Holds(row, row.account) && holder !in Holders(s.reservations, row.account) ==>
               Load(s, row.account) < s.accounts[row.account].concurrency
    ensures Good(t)
  {
    forall a | 0 <= a < |t.accounts| ensures Load(t, a) <= t.accounts[a].concurrency {
      OneRowLoad(s.reservations, holder, row, a);
    }
  }

  lemma ApplyKeepsGood(s: State, a: Action)
    requires Good(s)
    ensures Good(Apply(s, a))
  {
    var t := Apply(s, a);
    match a
    case Create(_, _) =>
      assert Holders(s.reservations, |s.accounts|) == {};
    case Grant(_, _) =>
    case Revoke(project, account) =>
      forall k | 0 <= k < |s.accounts| ensures Load(t, k) == Load(s, k) {
        RevocationFreesNothing(s, project, account, k);
      }
    case Reserve(holder, project, account, version, at) =>
      if t != s { RowKeepsGood(s, holder, Reservation(project, account, version, Active), t); }
    case Release(holder, _) =>
      if t != s { RowKeepsGood(s, holder, t.reservations[holder], t); }
    case Doubt(holder) =>
      if t != s { RowKeepsGood(s, holder, t.reservations[holder], t); }
    case Credential(_, _, _, _) =>
  }

  lemma {:induction false} RunIsGood(actions: seq<Action>)
    ensures Good(Run(actions))
  {
    if actions == [] {
    } else {
      RunIsGood(actions[..|actions| - 1]);
      ApplyKeepsGood(Run(actions[..|actions| - 1]), actions[|actions| - 1]);
    }
  }

  /** In every reachable state each account's active, revoked and uncertain reservations are
      at most its concurrency. */
  lemma NeverOversubscribed(actions: seq<Action>, account: nat)
    requires account < |Run(actions).accounts|
    ensures var s := Run(actions);
            |set h | h in s.reservations && s.reservations[h].account == account &&
                     (s.reservations[h].hold == Active || s.reservations[h].hold == Revoked ||
                      s.reservations[h].hold == Uncertain)|
            <= s.accounts[account].concurrency
  {
    RunIsGood(actions);
    LoadCountsHolds(Run(actions), account);
  }

  // ---------------------------------------------------------------- selection

  /** The WHERE clause and the filters of the selection loop. */
  predicate Candidate(s: State, project: string, config: Config, at: Moment, a: nat) {
    && Granted(s, project, a)
    && var row := s.accounts[a];
       && row.config.kind == config.kind && row.config.authMode == config.authMode
       && row.config.baseUrl == config.baseUrl
       && row.authenticated && row.version > 0
       && (config.account.Some? ==> config.account.value == a)
       && Unexpired(row, at.now)
       && Load(s, a) < row.concurrency
       && (config.kind == CHATGPT ==> row.planAllowed)
       && a in at.quota
  }

  /** An account that may be bound: granted and active, of the same endpoint, signed in with a
      current credential, not another than the one asked for, with a free slot, a plan that
      allows it and quota left. */
  ghost predicate MayBind(s: State, project: string, config: Config, at: Moment, a: nat) {
    && a < |s.accounts| && (project, a) in s.grants && s.accounts[a].active
    && s.accounts[a].config.kind == config.kind && s.accounts[a].config.authMode == config.authMode
    && s.accounts[a].config.baseUrl == config.baseUrl
    && s.accounts[a].authenticated && s.accounts[a].version > 0
    && (config.account == None || config.account == Some(a))
    && (s.accounts[a].expires == None || s.accounts[a].expires.value > at.now)
    && |Holders(s.reservations, a)| < s.accounts[a].concurrency
    && (config.kind == "chatgpt" ==> s.accounts[a].planAllowed)
    && a in at.quota
  }

  lemma CandidateIff(s: State, project: string, config: Config, at: Moment, a: nat)
    ensures Candidate(s, project, config, at, a) <==> MayBind(s, project, config, at, a)
  {
  }

  /** The ORDER BY clause: relative load, then least recently dispatched, then id. */
  predicate Better(s: State, a: nat, b: nat)
    requires a < |s.accounts| && b < |s.accounts|
  {
    var left, right := Load(s, a) * s.accounts[b].concurrency, Load(s, b) * s.accounts[a].concurrency;
    || left < right
    || (left == right && s.accounts[a].lastDispatch < s.accounts[b].lastDispatch)
    || (left == right && s.accounts[a].lastDispatch == s.accounts[b].lastDispatch && a <= b)
  }

  lemma Reorder(a: nat, b: nat, c: nat)
    ensures (a * b) * c == (a * c) * b
  {
  }

  lemma Scale(a: nat, b: nat, k: nat)
    requires a <= b && k > 0
    ensures a * k <= b * k && (a < b ==> a * k < b * k)
  {
  }

  lemma Unscale(a: nat, b: nat, k: nat)
    requires a * k <= b * k && k > 0
    ensures a <= b && (a * k < b * k ==> a < b)
  {
  }

  /** Cross-multiplied comparison of loads is transitive, and strict when either step is. */
  lemma RatiosChain(la: nat, ca: nat, lb: nat, cb: nat, lc: nat, cc: nat)
    requires ca > 0 && cb > 0 && cc > 0
    requires la * cb <= lb * ca && lb * cc <= lc * cb
    ensures la * cc <= lc * ca
    ensures la * cb < lb * ca || lb * cc < lc * cb ==> la * cc < lc * ca
  {
    var x, y, z := (la * cb) * cc, (lb * ca) * cc, (lc * cb) * ca;
    Scale(la * cb, lb * ca, cc);
    Scale(lb * cc, lc * cb, ca);
    Reorder(lb, cc, ca);
    Reorder(la, cb, cc);
    Reorder(lc, cb, ca);
    Unscale(la * cc, lc * ca, cb);
  }

  lemma BetterTransitive(s: State, a: nat, b: nat, c: nat)
    requires Good(s) && a < |s.accounts| && b < |s.accounts| && c < |s.accounts|
    requires Better(s, a, b) && Better(s, b, c)
    ensures Better(s, a, c)
  {
    RatiosChain(Load(s, a), s.accounts[a].concurrency, Load(s, b), s.accounts[b].concurrency,
                Load(s, c), s.accounts[c].concurrency);
  }

  /** The account that may be bound with the least relative load; among equals the one dispatched
      to least recently, and then the first. */
  ghost predicate Selected(s: State, project: string, config: Config, at: Moment, choice: Option<nat>) {
    match choice
    case None => forall a: nat :: !MayBind(s, project, config, at, a)
    case Some(a) =>
      && MayBind(s, project, config, at, a)
      && forall b: nat :: MayBind(s, project, config, at, b) ==>
           var left, right := Load(s, a) * s.accounts[b].concurrency, Load(s, b) * s.accounts[a].concurrency;
           || left < right
           || (left == right && s.accounts[a].lastDispatch < s.accounts[b].lastDispatch)
           || (left == right && s.accounts[a].lastDispatch == s.accounts[b].lastDispatch && a <= b)
  }

  lemma CancelFactor(x: real, y: real, k: real)
    requires k > 0.0 && x * k <= y * k
    ensures x <= y
  {
  }

  /** The chosen account is a candidate no other candidate is relatively less loaded than. */
  lemma ChoiceIsLeastLoaded(s: State, project: string, config: Config, at: Moment, a: nat, b: nat)
    requires Good(s) && Selected(s, project, config, at, Some(a)) && MayBind(s, project, config, at, b)
    ensures (Load(s, a) as real) / (s.accounts[a].concurrency as real) <=
            (Load(s, b) as real) / (s.accounts[b].concurrency as real)
  {
    var la, ca, lb, cb := Load(s, a) as real, s.accounts[a].concurrency as real,
                          Load(s, b) as real, s.accounts[b].concurrency as real;
    assert la * cb <= lb * ca;
    assert la / ca <= lb / cb by {
      assert (la / ca) * (ca * cb) == la * cb;
      assert (lb / cb) * (ca * cb) == lb * ca;
      CancelFactor(la / ca, lb / cb, ca * cb);
    }
  }

  /** Whether a role without an account of ours may still run unmanaged. */
  predicate Unmanaged(s: State, project: string, config: Config, at: Moment, owned: bool) {
    || config.kind == "simulated"
    || (project == "default" && config.kind != CHATGPT && !owned
        && !(config.account.Some? && config.account.value < |s.accounts|)
        && config in at.unmanagedQuota)
  }

  /** Some account of this endpoint belongs or is granted to the project. */
  predicate Managed(s: State, project: string, config: Config) {
    exists a: nat :: a < |s.accounts| && (s.accounts[a].owner == project || (project, a) in s.grants)
                     && s.accounts[a].config.kind == config.kind && s.accounts[a].config.authMode == config.authMode
                     && s.accounts[a].config.baseUrl == config.baseUrl
  }

  /** A role without an account of ours still runs if it is simulated, or if it is not ChatGPT, in the
      default project, names none of our accounts, has no account of its endpoint belonging or
      granted to the project, and has quota. */
  ghost predicate MayRunUnmanaged(s: State, project: string, config: Config, at: Moment) {
    || config.kind == "simulated"
    || (&& project == "default" && config.kind != "chatgpt"
        && (config.account == None || config.account.value >= |s.accounts|)
        && (forall a: nat :: a < |s.accounts| && (s.accounts[a].owner == project || (project, a) in s.grants) ==>
              !(s.accounts[a].config.kind == config.kind && s.accounts[a].config.authMode == config.authMode &&
                s.accounts[a].config.baseUrl == config.baseUrl))
        && config in at.unmanagedQuota)
  }

  lemma UnmanagedIff(s: State, project: string, config: Config, at: Moment)
    ensures Unmanaged(s, project, config, at, Managed(s, project, config)) <==>
            MayRunUnmanaged(s, project, config, at)
  {
  }

  /** What the walk finds at one role. */
  ghost predicate Offers(s: State, project: string, settings: Settings, at: Moment, role: string) {
    role in settings.executors ==>
      var config := settings.executors[role];
      || (exists a: nat :: MayBind(s, project, config, at, a))
      || MayRunUnmanaged(s, project, config, at)
  }

  ghost predicate Bound(s: State, project: string, settings: Settings, at: Moment, b: Binding) {
    if b.role !in settings.executors then b.account.None? && b.version.None?
    else
      var config := settings.executors[b.role];
      if b.version.Some? then
        && b.account.Some? && Selected(s, project, config, at, b.account)
        && b.account.value < |s.accounts| && b.version.value == s.accounts[b.account.value].version
      else
        && Selected(s, project, config, at, None)
        && MayRunUnmanaged(s, project, config, at)
        && b.account == config.account
  }

  ghost predicate NothingBefore(s: State, project: string, settings: Settings, at: Moment, first: string, k: nat) {
    forall j :: 0 <= j < k ==> Hop(settings.fallbacks, first, j).Some? &&
                               !Offers(s, project, settings, at, Hop(settings.fallbacks, first, j).value)
  }

  /** A managed choice is always accepted by the reservation made in the same transaction for
      a step that holds nothing. */
  lemma ChoiceIsReservable(s: State, project: string, settings: Settings, at: Moment, b: Binding, holder: Holder)
    requires Bound(s, project, settings, at, b) && b.account.Some? && b.version.Some?
    requires holder in s.reservations ==> s.reservations[holder].hold.Released?
    ensures Reserved(s, holder, project, b.account.value, b.version.value, at).Some?
    ensures var t := Reserved(s, holder, project, b.account.value, b.version.value, at).value;
            t.reservations == s.reservations[holder := Reservation(project, b.account.value, b.version.value, Active)]
  {
  }

  // ---------------------------------------------------------------- the tables

  class Store {
    var state: State

    constructor ()
      ensures state == State([], {}, map[]) && Good(state)
    {
      state := State([], {}, map[]);
    }

    /** A new account belongs to its project, which may use it at once. */
    method CreateAccount(project: string, row: Account) returns (ok: bool)
      requires Good(state)
      modifies this
      ensures state == Apply(old(state), Create(project, row)) && Good(state)
      ensures ok <==> 1 <= row.concurrency <= 4096
      ensures state == if !ok then old(state)
                       else old(state).(accounts := old(state).accounts + [row.(owner := project)],
                                        grants := old(state).grants + {(project, |old(state).accounts|)})
    {
      ApplyKeepsGood(state, Create(project, row));
      ok := 0 < row.concurrency <= 4096;
      if ok {
        state := state.(accounts := state.accounts + [row.(owner := project)],
                        grants := state.grants + {(project, |state.accounts|)});
      }
    }

    /** A grant adds nothing but itself. */
    method GrantAccount(project: string, account: nat)
      requires Good(state) && account < |state.accounts|
      modifies this
      ensures state == Apply(old(state), Action.Grant(project, account)) && Good(state)
      ensures state == old(state).(grants := old(state).grants + {(project, account)})
    {
      ApplyKeepsGood(state, Action.Grant(project, account));
      state := state.(grants := state.grants + {(project, account)});
    }

    /** Scan the accounts, keeping the best candidate so far. */
    method SelectAccount(project: string, config: Config, at: Moment) returns (choice: Option<nat>)
      requires Good(state)
      ensures Selected(state, project, config, at, choice)
    {
      choice := None;
      forall a: nat ensures Candidate(state, project, config, at, a) <==> MayBind(state, project, config, at, a) {
        CandidateIff(state, project, config, at, a);
      }
      for i := 0 to |state.accounts|
        invariant choice.Some? ==> choice.value < i && Candidate(state, project, config, at, choice.value)
        invariant choice.None? ==> forall a: nat :: a < i ==> !Candidate(state, project, config, at, a)
        invariant choice.Some? ==> forall b: nat :: b < i && Candidate(state, project, config, at, b) ==>
                                     Better(state, choice.value, b)
      {
        if Candidate(state, project, config, at, i) {
          if choice.None? {
            choice := Some(i);
          } else if !Better(state, choice.value, i) {
            forall b: nat | b < i && Candidate(state, project, config, at, b) ensures Better(state, i, b) {
              BetterTransitive(state, i, choice.value, b);
            }
            choice := Some(i);
          }
        }
      }
    }

    /** Walk the fallback chain to the first role that offers a binding. */
    method ChooseForStep(project: string, settings: Settings, role: string, failures: nat, at: Moment)
      returns (binding: Option<Binding>)
      requires Good(state) && Acyclic(settings.fallbacks)
      ensures var first := Skipped(settings.fallbacks, role, failures);
              match binding
              case Some(b) =>
                && Bound(state, project, settings, at, b)
                && exists k: nat :: Hop(settings.fallbacks, first, k) == Some(b.role) &&
                                    NothingBefore(state, project, settings, at, first, k)
              case None => forall j: nat :: Hop(settings.fallbacks, first, j).Some? ==>
                             !Offers(state, project, settings, at, Hop(settings.fallbacks, first, j).value)
    {
      var current := SkipFailures(settings.fallbacks, role, failures);
      ghost var first := current;
      var seen: set<string> := {};
      ghost var k: nat := 0;
      while current !in seen
        invariant Passed(settings.fallbacks, first, k, seen)
        invariant Hop(settings.fallbacks, first, k) == Some(current)
        invariant NothingBefore(state, project, settings, at, first, k)
        decreases settings.fallbacks.Keys - seen
      {
        if current !in settings.executors {
          return Some(Binding(current, None, None));
        }
        var config := settings.executors[current];
        var account := SelectAccount(project, config, at);
        UnmanagedIff(state, project, config, at);
        if account.Some? {
          return Some(Binding(current, account, Some(state.accounts[account.value].version)));
        }
        if Unmanaged(state, project, config, at, Managed(state, project, config)) {
          return Some(Binding(current, config.account, None));
        }
        assert !Offers(state, project, settings, at, current);
        if current !in settings.fallbacks {
          forall j: nat | Hop(settings.fallbacks, first, j).Some?
            ensures !Offers(state, project, settings, at, Hop(settings.fallbacks, first, j).value)
          {
            if j > k { HopStaysNone(settings.fallbacks, first, k + 1, j); }
          }
          return None;
        }
        PassedGrows(settings.fallbacks, first, k, seen, current);
        seen := seen + {current};
        current := settings.fallbacks[current];
        k := k + 1;
      }
      MeetingAgainIsACycle(settings.fallbacks, first, k, seen, current);
      binding := None;
    }

    method ReserveFor(holder: Holder, project: string, binding: Binding, at: Moment) returns (ok: bool)
      requires Good(state)
      modifies this
      ensures Good(state)
      ensures binding.account.Some? && binding.version.Some? ==>
                && state == Apply(old(state), Reserve(holder, project, binding.account.value,
                                                      binding.version.value, at))
                && ok == Reserved(old(state), holder, project, binding.account.value, binding.version.value, at).Some?
      ensures binding.account.None? || binding.version.None? ==> ok && state == old(state)
      // A holder's own active reservation is confirmed or refused; any other row it has not released
      // refuses; otherwise it needs a granted, signed-in account of that very credential with a free
      // slot and quota, and takes the slot.
      ensures binding.account.Some? && binding.version.Some? ==>
                var was, a, version := old(state), binding.account.value, binding.version.value;
                var active := holder in was.reservations && was.reservations[holder].hold == Active;
                && (ok <==>
                      && a < |was.accounts| && (project, a) in was.grants && was.accounts[a].active
                      && if active
                         then was.reservations[holder].account == a && was.reservations[holder].version == version
                         else
                           && (holder in was.reservations ==> was.reservations[holder].hold == Released)
                           && was.accounts[a].authenticated && was.accounts[a].version == version
                           && (was.accounts[a].expires == None || was.accounts[a].expires.value > at.now)
                           && |Holders(was.reservations, a)| < was.accounts[a].concurrency
                           && a in at.quota)
                && if ok && !active then
                     && state.reservations == was.reservations[holder := Reservation(project, a, version, Active)]
                     && state.accounts == was.accounts[a := was.accounts[a].(lastDispatch := at.now)]
                     && state.grants == was.grants
                   else state == was
    {
      if binding.account.None? || binding.version.None? { return true; }
      var account, version := binding.account.value, binding.version.value;
      ApplyKeepsGood(state, Reserve(holder, project, account, version, at));
      if !Granted(state, project, account) { return false; }
      if holder in state.reservations {
        var existing := state.reservations[holder];
        if existing.hold.Active? { return existing.account == account && existing.version == version; }
        if !existing.hold.Released? { return false; }
      }
      var a := state.accounts[account];
      var eligible := a.authenticated && a.version == version && Unexpired(a, at.now)
                      && Load(state, account) < a.concurrency;
      if !eligible || account !in at.quota { return false; }
      state := state.(reservations := state.reservations[holder := Reservation(project, account, version, Active)]);
      state := state.(accounts := state.accounts[account := a.(lastDispatch := at.now)]);
      ok := true;
    }

    method RevokeGrant(project: string, account: nat) returns (ok: bool)
      requires Good(state)
      modifies this
      ensures state == Apply(old(state), Revoke(project, account)) && Good(state)
      ensures forall other: nat :: Load(state, other) == Load(old(state), other)
      ensures ok <==> account < |old(state).accounts| && (project, account) in old(state).grants &&
                      old(state).accounts[account].active
      ensures !ok ==> state == old(state)
      ensures ok ==>
                var was := old(state);
                && state.grants == was.grants - {(project, account)} && state.accounts == was.accounts
                && state.reservations.Keys == was.reservations.Keys
                && forall h :: h in was.reservations ==>
                     var row := was.reservations[h];
                     state.reservations[h] == if row.project == project && row.account == account && row.hold == Active
                                              then row.(hold := Revoked) else row
    {
      ApplyKeepsGood(state, Revoke(project, account));
      forall other: nat ensures Load(Apply(state, Revoke(project, account)), other) == Load(state, other) {
        RevocationFreesNothing(state, project, account, other);
      }
      ok := Granted(state, project, account);
      if ok {
        state := state.(grants := state.grants - {(project, account)});
        state := state.(reservations := RevokedRows(state.reservations, project, account));
      }
    }

    method ReleaseStep(holder: Holder, attemptLive: bool) returns (ok: bool)
      requires Good(state)
      modifies this
      ensures state == Apply(old(state), Release(holder, attemptLive)) && Good(state) && ok == !attemptLive
      ensures state == if ok && holder in old(state).reservations
                       then old(state).(reservations := old(state).reservations[holder :=
                              old(state).reservations[holder].(hold := Released)])
                       else old(state)
    {
      ApplyKeepsGood(state, Release(holder, attemptLive));
      ok := !attemptLive;
      if ok && holder in state.reservations {
        state := state.(reservations := state.reservations[holder := state.reservations[holder].(hold := Released)]);
      }
    }
  }
}
