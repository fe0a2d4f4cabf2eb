/**
 Execution policies: the pool of runtime/capability pairs a task may use, pinned when the task
 is created and narrowed at every delegation (src/execution_selection.rs). The capability
 inventory is an arbitrary input; JSON values of the wrong shape are excluded by the types.
 */
module ExecutionSelection {
  import opened Options
  import opened Text
  import Fallbacks

  /** A platform fact or a requirement on it. */
  datatype Value = Text(text: string) | Flag(flag: bool) | Other

  datatype Capability = Capability(id: string, provider: string, model: Option<string>, kind: string, hash: string,
                                   available: bool, account: Option<string>, authMode: Option<string>,
                                   endpointHash: Option<string>)

  datatype Runtime = Runtime(id: string, name: string, isLocal: bool, features: set<string>, recent: bool, ready: bool,
                             draining: bool, slots: nat, platform: map<string, Value>, capabilities: seq<Capability>)

  datatype Inventory = Inventory(project: Option<string>, runtimes: seq<Runtime>)

  datatype Pair = Pair(runtime: string, capability: string)

  /** A pair together with the configuration it was inspected with. */
  datatype Binding = Binding(runtime: string, capability: string, provider: string, model: Option<string>, kind: string,
                             hash: string, account: Option<string>, authMode: Option<string>,
                             endpointHash: Option<string>)

  datatype Group = Group(runtime: string, capabilities: seq<string>)

  /** What a caller asks for; `selected` may be absent, null, or a pair. */
  datatype Request = Request(requirements: Option<map<string, Value>>, allowed: Option<seq<Group>>,
                             selected: Option<Option<Pair>>)

  datatype Policy = Policy(project: Option<string>, requirements: map<string, Value>, allowed: seq<Group>,
                           bindings: seq<Binding>, selected: Option<Binding>)

  const SIMULATED := "simulated"
  const DEFAULT := "default"

  // ---------------------------------------------------------------- text checks

  function Lower(s: string): string {
    seq(|s|, i requires 0 <= i < |s| => if 'A' <= s[i] <= 'Z' then ((s[i] as int) + 32) as char else s[i])
  }

  predicate ExplicitModel(model: Option<string>) {
    && model.Some? && model.value != []
    && !IsSpace(model.value[0]) && !IsSpace(model.value[|model.value| - 1])
    && Lower(model.value) != "auto" && Lower(model.value) != "default"
  }

  predicate Fingerprint(hash: string) {
    |hash| == 64 && forall c :: c in hash ==> '0' <= c <= '9' || 'a' <= c <= 'f' || 'A' <= c <= 'F'
  }

  predicate NameField(s: string) {
    s != [] && Utf8Length(s) <= 256
  }

  // ---------------------------------------------------------------- the policy's own check

  predicate RequirementAllowed(key: string, value: Value) {
    if key == "os" then value == Text("macos") || value == Text("linux")
    else if key == "arch" then value == Text("aarch64") || value == Text("x86_64")
    else if key == "docker" || key == "compose" then value.Flag?
    else key == "isolation" && (value == Text("native") || value == Text("lima") || value == Text("gvisor"))
  }

  predicate RequirementsAllowed(requirements: map<string, Value>) {
    forall key :: key in requirements ==> RequirementAllowed(key, requirements[key])
  }

  function PairOf(b: Binding): Pair {
    Pair(b.runtime, b.capability)
  }

  predicate SamePair(a: Binding, b: Binding) {
    PairOf(a) == PairOf(b)
  }

  predicate InPool(allowed: seq<Group>, p: Pair) {
    exists g :: 0 <= g < |allowed| && allowed[g].runtime == p.runtime && p.capability in allowed[g].capabilities
  }

  predicate IsBound(bindings: seq<Binding>, p: Pair) {
    exists b :: 0 <= b < |bindings| && PairOf(bindings[b]) == p
  }

  predicate BindingAllowed(b: Binding, allowed: seq<Group>) {
    && NameField(b.runtime) && NameField(b.capability) && NameField(b.provider) && NameField(b.kind)
    && (b.model.Some? ==> Utf8Length(b.model.value) <= 512)
    && (b.kind == SIMULATED || ExplicitModel(b.model))
    && Fingerprint(b.hash)
    && InPool(allowed, PairOf(b))
  }

  predicate GroupBound(g: Group, bindings: seq<Binding>) {
    forall c :: c in g.capabilities ==> IsBound(bindings, Pair(g.runtime, c))
  }

  ghost predicate ValidPolicy(p: Policy) {
    && RequirementsAllowed(p.requirements)
    && 1 <= |p.allowed| <= 64 && 1 <= |p.bindings| <= 4096
    && (forall b :: b in p.bindings ==> BindingAllowed(b, p.allowed))
    && (forall i, j :: 0 <= i < j < |p.bindings| ==> PairOf(p.bindings[i]) != PairOf(p.bindings[j]))
    && (forall g :: g in p.allowed ==> GroupBound(g, p.bindings))
    && (p.selected.Some? ==> p.selected.value in p.bindings)
  }

  ghost function AllowedPairs(p: Policy): iset<Pair> {
    iset pair | InPool(p.allowed, pair)
  }

  ghost function BoundPairs(p: Policy): iset<Pair> {
    iset pair | IsBound(p.bindings, pair)
  }

  /** The values a requirement may ask for, by the name of the platform fact. */
  ghost predicate MayRequire(key: string, value: Value) {
    || (key == "os" && value in {Text("macos"), Text("linux")})
    || (key == "arch" && value in {Text("aarch64"), Text("x86_64")})
    || (key == "isolation" && value in {Text("native"), Text("lima"), Text("gvisor")})
    || (key in {"docker", "compose"} && value in {Flag(true), Flag(false)})
  }

  /** A model named outright, not left to the provider. */
  ghost predicate MayRun(model: Option<string>) {
    && model != None && |model.value| > 0
    && !IsSpace(model.value[0]) && !IsSpace(model.value[|model.value| - 1])
    && Lower(model.value) != "auto" && Lower(model.value) != "default"
  }

  /** 64 hexadecimal digits. */
  ghost predicate IsFingerprint(hash: string) {
    && |hash| == 64
    && forall i :: 0 <= i < 64 ==> '0' <= hash[i] <= '9' || 'a' <= hash[i] <= 'f' || 'A' <= hash[i] <= 'F'
  }

  /** A pinned configuration: short names, an explicit model unless it is simulated, and a fingerprint
      of 64 hexadecimal digits. */
  ghost predicate MayBePinned(b: Binding) {
    && (forall name :: name in {b.runtime, b.capability, b.provider, b.kind} ==> name != "" && Utf8Length(name) <= 256)
    && (b.model == None || Utf8Length(b.model.value) <= 512)
    && (b.kind == "simulated" || MayRun(b.model)) && IsFingerprint(b.hash)
  }

  ghost predicate Names(g: Group, runtime: string, capability: string) {
    g.runtime == runtime && capability in g.capabilities
  }

  ghost predicate Pins(b: Binding, runtime: string, capability: string) {
    b.runtime == runtime && b.capability == capability
  }

  /** What a policy must be: permitted requirements; at most 64 groups and 4096 configurations, and
      some of each; each configuration fit to be pinned and named by a group; each pair a group names
      pinned exactly once; and a selected configuration, if any, among the pinned ones. */
  ghost predicate WellFormed(p: Policy) {
    && (forall key :: key in p.requirements ==> MayRequire(key, p.requirements[key]))
    && 1 <= |p.allowed| <= 64 && 1 <= |p.bindings| <= 4096
    && (forall b :: b in p.bindings ==>
          MayBePinned(b) && exists g :: g in p.allowed && Names(g, b.runtime, b.capability))
    && (forall i, j :: 0 <= i < j < |p.bindings| ==>
          !Pins(p.bindings[j], p.bindings[i].runtime, p.bindings[i].capability))
    && (forall g, c :: g in p.allowed && c in g.capabilities ==> exists b :: b in p.bindings && Pins(b, g.runtime, c))
    && (p.selected == None || p.selected.value in p.bindings)
  }

  lemma RequirementIff(key: string, value: Value)
    ensures RequirementAllowed(key, value) <==> MayRequire(key, value)
  {
    if value.Flag? { assert value == Flag(true) || value == Flag(false); }
  }

  lemma PinnedIff(b: Binding)
    ensures MayBePinned(b) <==>
              && NameField(b.runtime) && NameField(b.capability) && NameField(b.provider) && NameField(b.kind)
              && (b.model.Some? ==> Utf8Length(b.model.value) <= 512)
              && (b.kind == SIMULATED || ExplicitModel(b.model)) && Fingerprint(b.hash)
  {
    var names := {b.runtime, b.capability, b.provider, b.kind};
    assert b.runtime in names && b.capability in names && b.provider in names && b.kind in names;
    assert (forall name :: name in names ==> name != "" && Utf8Length(name) <= 256) <==>
           NameField(b.runtime) && NameField(b.capability) && NameField(b.provider) && NameField(b.kind);
    forall i | 0 <= i < |b.hash| ensures b.hash[i] in b.hash {}
  }

  lemma BindingIff(b: Binding, allowed: seq<Group>)
    ensures BindingAllowed(b, allowed) <==>
            MayBePinned(b) && exists g :: g in allowed && Names(g, b.runtime, b.capability)
  {
    PinnedIff(b);
    if g :| g in allowed && Names(g, b.runtime, b.capability) {
      var i :| 0 <= i < |allowed| && allowed[i] == g;
      assert InPool(allowed, PairOf(b));
    }
    if InPool(allowed, PairOf(b)) {
      var i :| 0 <= i < |allowed| && allowed[i].runtime == b.runtime && b.capability in allowed[i].capabilities;
      assert Names(allowed[i], b.runtime, b.capability);
    }
  }

  lemma BoundIff(bindings: seq<Binding>, runtime: string, capability: string)
    ensures IsBound(bindings, Pair(runtime, capability)) <==>
            exists b :: b in bindings && Pins(b, runtime, capability)
  {
    if b :| b in bindings && Pins(b, runtime, capability) {
      var i :| 0 <= i < |bindings| && bindings[i] == b;
      assert PairOf(bindings[i]) == Pair(runtime, capability);
    }
    if i :| 0 <= i < |bindings| && PairOf(bindings[i]) == Pair(runtime, capability) {
      assert Pins(bindings[i], runtime, capability);
    }
  }

  /** The checks of `ValidatePolicy` accept exactly what a policy must be. */
  lemma ValidIsWellFormed(p: Policy)
    ensures ValidPolicy(p) <==> WellFormed(p)
  {
    forall key | key in p.requirements
      ensures RequirementAllowed(key, p.requirements[key]) <==> MayRequire(key, p.requirements[key])
    {
      RequirementIff(key, p.requirements[key]);
    }
    forall b ensures BindingAllowed(b, p.allowed) <==>
                     MayBePinned(b) && exists g :: g in p.allowed && Names(g, b.runtime, b.capability)
    {
      BindingIff(b, p.allowed);
    }
    forall runtime, capability
      ensures IsBound(p.bindings, Pair(runtime, capability)) <==>
              exists b :: b in p.bindings && Pins(b, runtime, capability)
    {
      BoundIff(p.bindings, runtime, capability);
    }
  }

  /** The named pool and the pinned configurations cover the same pairs, each pinned once. */
  lemma PoolIsPinned(p: Policy)
    requires ValidPolicy(p)
    ensures AllowedPairs(p) == BoundPairs(p)
    ensures forall a, b :: a in p.bindings && b in p.bindings && SamePair(a, b) ==> a == b
  {
    forall pair ensures InPool(p.allowed, pair) <==> IsBound(p.bindings, pair) {
      if InPool(p.allowed, pair) {
        var g :| 0 <= g < |p.allowed| && p.allowed[g].runtime == pair.runtime &&
                 pair.capability in p.allowed[g].capabilities;
        assert p.allowed[g] in p.allowed && GroupBound(p.allowed[g], p.bindings);
      }
      if IsBound(p.bindings, pair) {
        var b :| 0 <= b < |p.bindings| && PairOf(p.bindings[b]) == pair;
        assert p.bindings[b] in p.bindings;
      }
    }
  }

  /** The loop over the bindings, with the set of pairs met so far. */
  method BindingsAllowed(bindings: seq<Binding>, allowed: seq<Group>) returns (ok: bool)
    ensures ok <==>
              && (forall b :: b in bindings ==> BindingAllowed(b, allowed))
              && forall i, j :: 0 <= i < j < |bindings| ==> PairOf(bindings[i]) != PairOf(bindings[j])
  {
    var pairs: set<Pair> := {};
    for i := 0 to |bindings|
      invariant forall k :: 0 <= k < i ==> BindingAllowed(bindings[k], allowed)
      invariant forall pair :: pair in pairs <==> exists k :: 0 <= k < i && PairOf(bindings[k]) == pair
      invariant forall k, j :: 0 <= k < j < i ==> PairOf(bindings[k]) != PairOf(bindings[j])
    {
      var b := bindings[i];
      if !BindingAllowed(b, allowed) {
        assert b in bindings;
        return false;
      }
      if PairOf(b) in pairs { return false; }
      pairs := pairs + {PairOf(b)};
    }
    ok := true;
  }

  method ValidatePolicy(p: Policy) returns (ok: bool)
    ensures ok == ValidPolicy(p)
  {
    if !RequirementsAllowed(p.requirements) { return false; }
    if |p.allowed| == 0 || |p.allowed| > 64 || |p.bindings| == 0 || |p.bindings| > 4096 { return false; }
    ok := BindingsAllowed(p.bindings, p.allowed);
    if !ok { return; }
    for g := 0 to |p.allowed|
      invariant forall k :: 0 <= k < g ==> GroupBound(p.allowed[k], p.bindings)
    {
      if !GroupBound(p.allowed[g], p.bindings) {
        assert p.allowed[g] in p.allowed;
        return false;
      }
    }
    ok := p.selected.Some? ==> p.selected.value in p.bindings;
  }

  // ---------------------------------------------------------------- resolving against an inventory

  function ById(runtimes: seq<Runtime>, id: string): Option<Runtime> {
    if runtimes == [] then None
    else if runtimes[0].id == id then Some(runtimes[0]) else ById(runtimes[1..], id)
  }

  function ByName(runtimes: seq<Runtime>, selector: string): seq<Runtime> {
    if runtimes == [] then []
    else (if (selector == "local" && runtimes[0].isLocal) || runtimes[0].name == selector then [runtimes[0]] else [])
         + ByName(runtimes[1..], selector)
  }

  function FindRuntime(inventory: Inventory, selector: string): Option<Runtime> {
    var exact := ById(inventory.runtimes, selector);
    if exact.Some? then exact
    else
      var named := ByName(inventory.runtimes, selector);
      if |named| == 1 then Some(named[0]) else None
  }

  function FindCapability(capabilities: seq<Capability>, id: string): Option<Capability> {
    if capabilities == [] then None
    else if capabilities[0].id == id then Some(capabilities[0]) else FindCapability(capabilities[1..], id)
  }

  lemma {:induction false} NoneById(runtimes: seq<Runtime>, id: string)
    requires forall k :: 0 <= k < |runtimes| ==> runtimes[k].id != id
    ensures ById(runtimes, id) == None
  {
    if runtimes == [] {
    } else {
      NoneById(runtimes[1..], id);
    }
  }

  /** An identifier names its first runtime, whatever runtimes are called by that name. */
  lemma {:induction false} FirstById(runtimes: seq<Runtime>, id: string, k: nat)
    requires k < |runtimes| && runtimes[k].id == id && forall j :: 0 <= j < k ==> runtimes[j].id != id
    ensures ById(runtimes, id) == Some(runtimes[k])
  {
    if k == 0 {
    } else {
      FirstById(runtimes[1..], id, k - 1);
    }
  }

  /** A runtime's name, or `local` for the one at hand. */
  ghost predicate Answers(r: Runtime, selector: string) {
    r.name == selector || (selector == "local" && r.isLocal)
  }

  lemma {:induction false} SomeByName(runtimes: seq<Runtime>, selector: string, k: nat)
    requires k < |runtimes| && Answers(runtimes[k], selector)
    ensures |ByName(runtimes, selector)| >= 1
  {
    if k == 0 {
    } else {
      SomeByName(runtimes[1..], selector, k - 1);
    }
  }

  lemma {:induction false} SeveralByName(runtimes: seq<Runtime>, selector: string, i: nat, k: nat)
    requires i < k < |runtimes| && Answers(runtimes[i], selector) && Answers(runtimes[k], selector)
    ensures |ByName(runtimes, selector)| >= 2
  {
    if i == 0 {
      SomeByName(runtimes[1..], selector, k - 1);
    } else {
      SeveralByName(runtimes[1..], selector, i - 1, k - 1);
    }
  }

  lemma {:induction false} ByNameAnswers(runtimes: seq<Runtime>, selector: string)
    ensures forall r :: r in ByName(runtimes, selector) ==> r in runtimes && Answers(r, selector)
  {
    if runtimes == [] {
    } else {
      ByNameAnswers(runtimes[1..], selector);
    }
  }

  lemma NamedIff(runtimes: seq<Runtime>, selector: string)
    ensures var named := ByName(runtimes, selector);
            |named| == 1 <==> exists k :: 0 <= k < |runtimes| && named == [runtimes[k]] &&
                                forall j :: 0 <= j < |runtimes| ==> (Answers(runtimes[j], selector) <==> j == k)
  {
    var named := ByName(runtimes, selector);
    if |named| == 1 {
      ByNameAnswers(runtimes, selector);
      assert named[0] in named;
      var k :| 0 <= k < |runtimes| && runtimes[k] == named[0];
      forall j | 0 <= j < |runtimes| ensures Answers(runtimes[j], selector) <==> j == k {
        if Answers(runtimes[j], selector) && j < k { SeveralByName(runtimes, selector, j, k); }
        if Answers(runtimes[j], selector) && k < j { SeveralByName(runtimes, selector, k, j); }
      }
      assert named == [runtimes[k]];
    }
  }

  lemma {:induction false} OnlyByName(runtimes: seq<Runtime>, selector: string, k: nat)
    requires k < |runtimes|
    requires forall j :: 0 <= j < |runtimes| ==> (Answers(runtimes[j], selector) <==> j == k)
    ensures ByName(runtimes, selector) == [runtimes[k]]
  {
    var rest := runtimes[1..];
    if k == 0 {
      var named := ByName(rest, selector);
      assert named == [] || named[0] in named;
      ByNameAnswers(rest, selector);
      assert forall r :: r in rest ==> !Answers(r, selector);
    } else {
      assert forall j :: 0 <= j < |rest| ==> rest[j] == runtimes[j + 1];
      OnlyByName(rest, selector, k - 1);
      assert !Answers(runtimes[0], selector);
    }
  }

  /** What a selector finds: the first runtime of that identifier; or else, by name, the only runtime
      that answers to it, and nothing when none does or several do. */
  lemma FindRuntimeIff(inventory: Inventory, selector: string, k: nat)
    requires k < |inventory.runtimes|
    ensures var runtimes, found := inventory.runtimes, FindRuntime(inventory, selector);
            if exists j :: 0 <= j < |runtimes| && runtimes[j].id == selector
            then runtimes[k].id == selector && (forall j :: 0 <= j < k ==> runtimes[j].id != selector)
                 ==> found == Some(runtimes[k])
            else
              && ((forall j :: 0 <= j < |runtimes| ==> (Answers(runtimes[j], selector) <==> j == k))
                  ==> found == Some(runtimes[k]))
              && (found.Some? ==>
                    exists i :: 0 <= i < |runtimes| && found.value == runtimes[i] &&
                      forall j :: 0 <= j < |runtimes| ==> (Answers(runtimes[j], selector) <==> j == i))
  {
    var runtimes := inventory.runtimes;
    if exists j :: 0 <= j < |runtimes| && runtimes[j].id == selector {
      if runtimes[k].id == selector && forall j :: 0 <= j < k ==> runtimes[j].id != selector {
        FirstById(runtimes, selector, k);
      }
    } else {
      NoneById(runtimes, selector);
      NamedIff(runtimes, selector);
      if forall j :: 0 <= j < |runtimes| ==> (Answers(runtimes[j], selector) <==> j == k) {
        OnlyByName(runtimes, selector, k);
      }
    }
  }

  lemma {:induction false} FindCapabilityIff(capabilities: seq<Capability>, id: string)
    ensures FindCapability(capabilities, id).Some? ==>
              exists k :: 0 <= k < |capabilities| && capabilities[k].id == id &&
                          FindCapability(capabilities, id).value == capabilities[k] &&
                          forall j :: 0 <= j < k ==> capabilities[j].id != id
    ensures FindCapability(capabilities, id).None? ==> forall k :: 0 <= k < |capabilities| ==> capabilities[k].id != id
  {
    if capabilities == [] {
    } else if capabilities[0].id != id {
      FindCapabilityIff(capabilities[1..], id);
      if FindCapability(capabilities[1..], id).Some? {
        var k :| 0 <= k < |capabilities[1..]| && capabilities[1..][k].id == id &&
                 FindCapability(capabilities[1..], id).value == capabilities[1..][k] &&
                 forall j :: 0 <= j < k ==> capabilities[1..][j].id != id;
        assert capabilities[k + 1] == capabilities[1..][k];
        assert forall j :: 1 <= j < k + 1 ==> capabilities[j] == capabilities[1..][j - 1];
      }
    }
  }

  /** The runtime can take a task now. */
  predicate Usable(r: Runtime) {
    r.recent && r.ready && !r.draining && r.slots > 0 && (r.isLocal || "execution_selection" in r.features)
  }

  function Bind(inventory: Inventory, selector: string, capability: string, selected: bool): Option<Binding> {
    var found := FindRuntime(inventory, selector);
    if found.None? then None
    else
      var r := found.value;
      var c := FindCapability(r.capabilities, capability);
      if (inventory.project.Some? && !r.isLocal && "projects" !in r.features)
         || (selected && !Usable(r)) || c.None?
         || (c.value.kind != SIMULATED && !ExplicitModel(c.value.model))
         || !Fingerprint(c.value.hash) || (selected && !c.value.available)
      then None
      else Some(Binding(r.id, capability, c.value.provider, c.value.model, c.value.kind, c.value.hash,
                        c.value.account, c.value.authMode, c.value.endpointHash))
  }

  /** What can be bound: the found runtime's capability of that identifier, provided the runtime serves
      projects when the inventory is a project's, the model is explicit unless simulated, and the
      fingerprint is one; and to be selected it must be available on a runtime ready to take a task. */
  lemma BindIff(inventory: Inventory, selector: string, capability: string, selected: bool)
    ensures var found := FindRuntime(inventory, selector);
            var bound := Bind(inventory, selector, capability, selected);
            && (found.None? ==> bound == None)
            && (found.Some? && FindCapability(found.value.capabilities, capability).None? ==> bound == None)
            && (found.Some? && FindCapability(found.value.capabilities, capability).Some? ==>
                  var r, c := found.value, FindCapability(found.value.capabilities, capability).value;
                  var b := Binding(r.id, capability, c.provider, c.model, c.kind, c.hash, c.account, c.authMode,
                                   c.endpointHash);
                  bound ==
                    if && (inventory.project == None || r.isLocal || "projects" in r.features)
                       && (selected ==>
                             && c.available && r.recent && r.ready && !r.draining && r.slots > 0
                             && (r.isLocal || "execution_selection" in r.features))
                       && (c.kind == "simulated" || MayRun(c.model))
                       && IsFingerprint(c.hash)
                    then Some(b) else None)
  {
    if FindRuntime(inventory, selector).Some? {
      var c := FindCapability(FindRuntime(inventory, selector).value.capabilities, capability);
      if c.Some? { forall i | 0 <= i < |c.value.hash| ensures c.value.hash[i] in c.value.hash {} }
    }
  }

  predicate Satisfies(r: Runtime, requirements: map<string, Value>) {
    forall key :: key in requirements ==>
      || ((key == "docker" || key == "compose") && requirements[key] == Flag(false))
      || (key in r.platform && r.platform[key] == requirements[key])
  }

  // ---------------------------------------------------------------- preparing a policy

  function Project(project: Option<string>): string {
    if project.Some? then project.value else DEFAULT
  }

  function Requirements(request: Request, parent: Option<Policy>): map<string, Value> {
    if request.requirements.Some? then request.requirements.value
    else if parent.Some? then parent.value.requirements else map[]
  }

  predicate Strengthens(requirements: map<string, Value>, base: map<string, Value>) {
    forall key :: key in base ==> key in requirements && requirements[key] == base[key]
  }

  function Choice(request: Request, parent: Option<Policy>): Option<Option<Pair>> {
    if request.selected.Some? then request.selected
    else if parent.None? then None
    else if parent.value.selected.None? then Some(None)
    else Some(Some(PairOf(parent.value.selected.value)))
  }

  function Groups(request: Request, parent: Option<Policy>): Option<seq<Group>> {
    if request.allowed.Some? then request.allowed
    else if parent.Some? then Some(parent.value.allowed)
    else match Choice(request, parent)
      case Some(Some(pair)) => Some([Group(pair.runtime, [pair.capability])])
      case _ => None
  }

  /** The pool grown by one capability. */
  function Extended(inventory: Inventory, parent: Option<Policy>, selector: string, capability: string,
                    bindings: seq<Binding>): Option<seq<Binding>> {
    var next := Bind(inventory, selector, capability, false);
    if next.None? || (parent.Some? && next.value !in parent.value.bindings)
       || exists i :: 0 <= i < |bindings| && SamePair(bindings[i], next.value)
    then None else Some(bindings + [next.value])
  }

  function BindCaps(inventory: Inventory, parent: Option<Policy>, selector: string, caps: seq<string>,
                    before: seq<Binding>): Option<seq<Binding>> {
    if caps == [] then Some(before)
    else match BindCaps(inventory, parent, selector, caps[..|caps| - 1], before)
      case None => None
      case Some(bindings) => Extended(inventory, parent, selector, caps[|caps| - 1], bindings)
  }

  datatype Pool = Pool(allowed: seq<Group>, bindings: seq<Binding>)

  function WithGroup(inventory: Inventory, parent: Option<Policy>, requirements: map<string, Value>, group: Group,
                     pool: Pool): Option<Pool> {
    var target := FindRuntime(inventory, group.runtime);
    if !(1 <= |group.capabilities| <= 64) || target.None? || !Satisfies(target.value, requirements) then None
    else match BindCaps(inventory, parent, group.runtime, group.capabilities, pool.bindings)
      case None => None
      case Some(bindings) => Some(Pool(pool.allowed + [Group(target.value.id, group.capabilities)], bindings))
  }

  function BindGroups(inventory: Inventory, parent: Option<Policy>, requirements: map<string, Value>,
                      groups: seq<Group>): Option<Pool> {
    if groups == [] then Some(Pool([], []))
    else match BindGroups(inventory, parent, requirements, groups[..|groups| - 1])
      case None => None
      case Some(pool) => WithGroup(inventory, parent, requirements, groups[|groups| - 1], pool)
  }

  ghost function Prepared(inventory: Inventory, request: Request, parent: Option<Policy>): Option<Policy> {
    var requirements := Requirements(request, parent);
    var groups := Groups(request, parent);
    if (parent.Some? && !(ValidPolicy(parent.value) && Project(parent.value.project) == Project(inventory.project)
                          && Strengthens(requirements, parent.value.requirements)))
       || !RequirementsAllowed(requirements) || groups.None? || !(1 <= |groups.value| <= 64)
    then None
    else
      var pool := BindGroups(inventory, parent, requirements, groups.value);
      if pool.None? then None
      else
        var choice := Choice(request, parent);
        var selected := if choice.Some? && choice.value.Some?
                        then Bind(inventory, choice.value.value.runtime, choice.value.value.capability, true) else None;
        var p := Policy(inventory.project, requirements, pool.value.allowed, pool.value.bindings, selected);
        if choice.Some? && choice.value.Some? && selected.None? then None
        else if ValidPolicy(p) then Some(p) else None
  }

  // ---------------------------------------------------------------- what can be pinned

  /** Whether a capability can be pinned, and as what. */
  ghost predicate Offers(inventory: Inventory, parent: Option<Policy>, selector: string, capability: string) {
    var b := Bind(inventory, selector, capability, false);
    b.Some? && (parent.Some? ==> b.value in parent.value.bindings)
  }

  /** The pairs pinned so far and those still to come are all different. */
  ghost predicate Distinct(bindings: seq<Binding>) {
    forall i, j :: 0 <= i < j < |bindings| ==>
      bindings[i].runtime != bindings[j].runtime || bindings[i].capability != bindings[j].capability
  }

  lemma DistinctGrows(bindings: seq<Binding>, next: Binding)
    ensures Distinct(bindings + [next]) <==>
            Distinct(bindings) && forall i :: 0 <= i < |bindings| ==> !SamePair(bindings[i], next)
  {
    var more := bindings + [next];
    assert more[|bindings|] == next && forall i :: 0 <= i < |bindings| ==> more[i] == bindings[i];
  }

  /** What pinning one group's capabilities adds. */
  ghost function Found(inventory: Inventory, selector: string, caps: seq<string>): seq<Binding>
    requires forall c :: c in caps ==> Bind(inventory, selector, c, false).Some?
  {
    seq(|caps|, c requires 0 <= c < |caps| =>
      assert caps[c] in caps; Bind(inventory, selector, caps[c], false).value)
  }

  lemma {:induction false} CapsIff(inventory: Inventory, parent: Option<Policy>, selector: string,
                                   caps: seq<string>, before: seq<Binding>)
    requires Distinct(before)
    ensures BindCaps(inventory, parent, selector, caps, before).Some? <==>
              && (forall c :: c in caps ==> Offers(inventory, parent, selector, c))
              && Distinct(before + Found(inventory, selector, caps))
    ensures BindCaps(inventory, parent, selector, caps, before).Some? ==>
              BindCaps(inventory, parent, selector, caps, before).value == before + Found(inventory, selector, caps)
  {
    if caps == [] {
      assert before + Found(inventory, selector, caps) == before;
    } else {
      var front, last := caps[..|caps| - 1], caps[|caps| - 1];
      CapsIff(inventory, parent, selector, front, before);
      assert forall c :: c in caps <==> c in front || c == last;
      if forall c :: c in caps ==> Offers(inventory, parent, selector, c) {
        var all, some := before + Found(inventory, selector, caps), before + Found(inventory, selector, front);
        var next := Bind(inventory, selector, last, false).value;
        assert all == some + [next];
        DistinctGrows(some, next);
        assert Offers(inventory, parent, selector, last);
        assert forall c :: c in front ==> Offers(inventory, parent, selector, c);
        if Distinct(some) {
          var grown := Extended(inventory, parent, selector, last, some);
          assert BindCaps(inventory, parent, selector, caps, before) == grown;
          assert grown.Some? <==> forall i :: 0 <= i < |some| ==> !SamePair(some[i], next);
        }
      }
    }
  }

  /** A group that can be pinned: of 1 to 64 capabilities, each on offer, on a runtime that is found and
      whose platform meets the requirements; asking for no Docker asks for nothing. */
  ghost predicate GroupFits(inventory: Inventory, parent: Option<Policy>, requirements: map<string, Value>, g: Group) {
    && 1 <= |g.capabilities| <= 64
    && FindRuntime(inventory, g.runtime).Some?
    && (forall key :: key in requirements ==>
          || (var platform := FindRuntime(inventory, g.runtime).value.platform;
              key in platform && platform[key] == requirements[key])
          || (key in {"docker", "compose"} && requirements[key] == Flag(false)))
    && forall c :: c in g.capabilities ==> Offers(inventory, parent, g.runtime, c)
  }

  ghost function FoundAll(inventory: Inventory, groups: seq<Group>): seq<Binding>
    requires forall g :: g in groups ==> forall c :: c in g.capabilities ==> Bind(inventory, g.runtime, c, false).Some?
  {
    if groups == [] then []
    else
      assert groups[|groups| - 1] in groups;
      FoundAll(inventory, groups[..|groups| - 1]) +
      Found(inventory, groups[|groups| - 1].runtime, groups[|groups| - 1].capabilities)
  }

  lemma DistinctPrefix(first: seq<Binding>, rest: seq<Binding>)
    requires Distinct(first + rest)
    ensures Distinct(first)
  {
    assert forall i :: 0 <= i < |first| ==> (first + rest)[i] == first[i];
  }

  lemma GroupStep(inventory: Inventory, parent: Option<Policy>, requirements: map<string, Value>, group: Group,
                  pool: Pool)
    requires Distinct(pool.bindings)
    ensures var grown := WithGroup(inventory, parent, requirements, group, pool);
            && (grown.Some? <==>
                  && GroupFits(inventory, parent, requirements, group)
                  && Distinct(pool.bindings + Found(inventory, group.runtime, group.capabilities)))
            && (grown.Some? ==>
                  && grown.value.bindings == pool.bindings + Found(inventory, group.runtime, group.capabilities)
                  && grown.value.allowed ==
                       pool.allowed + [Group(FindRuntime(inventory, group.runtime).value.id, group.capabilities)])
  {
    CapsIff(inventory, parent, group.runtime, group.capabilities, pool.bindings);
  }

  /** Every group can be pinned, and no pair comes up twice. */
  ghost predicate PoolFits(inventory: Inventory, parent: Option<Policy>, requirements: map<string, Value>,
                           groups: seq<Group>) {
    && (forall g :: g in groups ==> GroupFits(inventory, parent, requirements, g))
    && Distinct(FoundAll(inventory, groups))
  }

  lemma PoolFitsStep(inventory: Inventory, parent: Option<Policy>, requirements: map<string, Value>,
                     groups: seq<Group>)
    requires groups != []
    ensures var front, last := groups[..|groups| - 1], groups[|groups| - 1];
            PoolFits(inventory, parent, requirements, groups) <==>
              && PoolFits(inventory, parent, requirements, front) && GroupFits(inventory, parent, requirements, last)
              && Distinct(FoundAll(inventory, front) + Found(inventory, last.runtime, last.capabilities))
  {
    var front, last := groups[..|groups| - 1], groups[|groups| - 1];
    assert forall g :: g in groups <==> g in front || g == last;
    if forall g :: g in groups ==> GroupFits(inventory, parent, requirements, g) {
      var some, more := FoundAll(inventory, front), Found(inventory, last.runtime, last.capabilities);
      assert FoundAll(inventory, groups) == some + more;
      if Distinct(some + more) { DistinctPrefix(some, more); }
    }
  }

  /** A pool is pinned exactly when every group can be and no pair comes up twice; it then consists of
      what was found for each capability, in order. */
  lemma {:induction false} PoolIff(inventory: Inventory, parent: Option<Policy>, requirements: map<string, Value>,
                                   groups: seq<Group>)
    ensures var pool := BindGroups(inventory, parent, requirements, groups);
            && (pool.Some? <==> PoolFits(inventory, parent, requirements, groups))
            && (pool.Some? ==> pool.value.bindings == FoundAll(inventory, groups))
  {
    if groups == [] {
    } else {
      var front, last := groups[..|groups| - 1], groups[|groups| - 1];
      PoolIff(inventory, parent, requirements, front);
      PoolFitsStep(inventory, parent, requirements, groups);
      var before := BindGroups(inventory, parent, requirements, front);
      if before.Some? { GroupStep(inventory, parent, requirements, last, before.value); }
    }
  }

  /** The groups of a pool are the ones asked for, under the runtimes' own identifiers. */
  lemma {:induction false} PoolIsNormalized(inventory: Inventory, parent: Option<Policy>,
                                            requirements: map<string, Value>, groups: seq<Group>)
    requires BindGroups(inventory, parent, requirements, groups).Some?
    ensures var allowed := BindGroups(inventory, parent, requirements, groups).value.allowed;
            && |allowed| == |groups|
            && forall i :: 0 <= i < |groups| ==>
                 && FindRuntime(inventory, groups[i].runtime).Some?
                 && allowed[i] == Group(FindRuntime(inventory, groups[i].runtime).value.id, groups[i].capabilities)
  {
    if groups == [] {
    } else {
      PoolIsNormalized(inventory, parent, requirements, groups[..|groups| - 1]);
    }
  }

  /** The pair asked for, or failing that the one the parent has selected. */
  ghost function WantedPair(request: Request, parent: Option<Policy>): Option<Pair> {
    match request.selected
    case Some(choice) => choice
    case None =>
      if parent.Some? && parent.value.selected.Some?
      then Some(Pair(parent.value.selected.value.runtime, parent.value.selected.value.capability)) else None
  }

  /** The groups asked for, or the parent's, or the one pair asked for. */
  ghost function WantedGroups(request: Request, parent: Option<Policy>): seq<Group> {
    match (request.allowed, parent, request.selected)
    case (Some(groups), _, _) => groups
    case (None, Some(p), _) => p.allowed
    case (None, None, Some(Some(pair))) => [Group(pair.runtime, [pair.capability])]
    case _ => []
  }

  lemma WantedIff(request: Request, parent: Option<Policy>)
    ensures Groups(request, parent) == None ==> WantedGroups(request, parent) == []
    ensures Groups(request, parent).Some? ==> Groups(request, parent).value == WantedGroups(request, parent)
    ensures Choice(request, parent) == None || Choice(request, parent) == Some(None) <==>
            WantedPair(request, parent) == None
    ensures WantedPair(request, parent).Some? ==> Choice(request, parent) == Some(WantedPair(request, parent))
  {
  }

  /** What a caller gets is what it asked for: its requirements, or its parent's; each capability of its
      groups pinned in order; and the pair it wants, which was ready to be selected. */
  lemma PreparedAsAsked(inventory: Inventory, request: Request, parent: Option<Policy>)
    requires Prepared(inventory, request, parent).Some?
    ensures var p := Prepared(inventory, request, parent).value;
            && p.project == inventory.project
            && p.requirements == (if request.requirements.Some? then request.requirements.value
                                  else if parent.Some? then parent.value.requirements else map[])
            && PoolFits(inventory, parent, p.requirements, WantedGroups(request, parent))
            && p.bindings == FoundAll(inventory, WantedGroups(request, parent))
            && (p.selected.Some? <==> WantedPair(request, parent).Some?)
            && (p.selected.Some? ==>
                  var pair := WantedPair(request, parent).value;
                  p.selected == Bind(inventory, pair.runtime, pair.capability, true))
  {
    WantedIff(request, parent);
    PoolIff(inventory, parent, Requirements(request, parent), WantedGroups(request, parent));
  }

  /** A sound parent of the same project, whose requirements are kept. */
  ghost predicate MayInherit(inventory: Inventory, requirements: map<string, Value>, parent: Policy) {
    && WellFormed(parent)
    && (if parent.project.Some? then parent.project.value else "default") ==
       (if inventory.project.Some? then inventory.project.value else "default")
    && forall key :: key in parent.requirements ==>
         key in requirements && requirements[key] == parent.requirements[key]
  }

  ghost function Selection(inventory: Inventory, pair: Option<Pair>): Option<Binding> {
    if pair.None? then None else Bind(inventory, pair.value.runtime, pair.value.capability, true)
  }

  lemma PreparedFromParts(inventory: Inventory, request: Request, parent: Option<Policy>, pool: Pool,
                          selected: Option<Binding>)
    requires parent.Some? ==>
               && ValidPolicy(parent.value) && Project(parent.value.project) == Project(inventory.project)
               && Strengthens(Requirements(request, parent), parent.value.requirements)
    requires RequirementsAllowed(Requirements(request, parent))
    requires var groups := WantedGroups(request, parent);
             1 <= |groups| <= 64 && BindGroups(inventory, parent, Requirements(request, parent), groups) == Some(pool)
    requires selected == Selection(inventory, WantedPair(request, parent))
    requires WantedPair(request, parent).Some? ==> selected.Some?
    requires ValidPolicy(Policy(inventory.project, Requirements(request, parent), pool.allowed, pool.bindings,
                                selected))
    ensures Prepared(inventory, request, parent) ==
            Some(Policy(inventory.project, Requirements(request, parent), pool.allowed, pool.bindings, selected))
  {
    WantedIff(request, parent);
  }

  lemma ParentIff(inventory: Inventory, requirements: map<string, Value>, parent: Policy)
    requires MayInherit(inventory, requirements, parent)
    ensures ValidPolicy(parent) && Project(parent.project) == Project(inventory.project)
    ensures Strengthens(requirements, parent.requirements)
  {
    ValidIsWellFormed(parent);
  }

  /** And whoever asks for what may be had gets it: with a parent it may inherit from, 1 to 64 groups that
      can all be pinned, a wanted pair that can be selected, and a result that is well formed. */
  lemma GrantedWhenFit(inventory: Inventory, request: Request, parent: Option<Policy>,
                       requirements: map<string, Value>, pool: Pool, selected: Option<Binding>)
    requires requirements == if request.requirements.Some? then request.requirements.value
                             else if parent.Some? then parent.value.requirements else map[]
    requires parent.Some? ==> MayInherit(inventory, requirements, parent.value)
    requires 1 <= |WantedGroups(request, parent)| <= 64
    requires BindGroups(inventory, parent, requirements, WantedGroups(request, parent)) == Some(pool)
    requires selected == Selection(inventory, WantedPair(request, parent))
    requires WantedPair(request, parent).Some? ==> selected.Some?
    requires WellFormed(Policy(inventory.project, requirements, pool.allowed, pool.bindings, selected))
    ensures Prepared(inventory, request, parent) ==
            Some(Policy(inventory.project, requirements, pool.allowed, pool.bindings, selected))
  {
    if parent.Some? { ParentIff(inventory, requirements, parent.value); }
    ValidIsWellFormed(Policy(inventory.project, requirements, pool.allowed, pool.bindings, selected));
    PreparedFromParts(inventory, request, parent, pool, selected);
  }

  // ---------------------------------------------------------------- delegation only narrows

  /** The child may use no pair, configuration or project the parent may not, and must meet
      every requirement the parent must. */
  ghost predicate Narrows(child: Policy, parent: Policy) {
    && (forall b :: b in child.bindings ==> b in parent.bindings)
    && (child.selected.Some? ==> child.selected.value in parent.bindings)
    && Strengthens(child.requirements, parent.requirements)
    && Project(child.project) == Project(parent.project)
  }

  /** Every binding's runtime was seen meeting the requirements. */
  ghost predicate Qualified(inventory: Inventory, requirements: map<string, Value>, bindings: seq<Binding>) {
    forall b :: b in bindings ==>
      exists selector :: FindRuntime(inventory, selector).Some?
                         && FindRuntime(inventory, selector).value.id == b.runtime
                         && Satisfies(FindRuntime(inventory, selector).value, requirements)
  }

  lemma {:induction false} CapsStayInside(inventory: Inventory, parent: Option<Policy>, selector: string,
                                          caps: seq<string>, before: seq<Binding>)
    requires BindCaps(inventory, parent, selector, caps, before).Some?
    ensures forall b :: b in BindCaps(inventory, parent, selector, caps, before).value && b !in before ==>
              && (parent.Some? ==> b in parent.value.bindings)
              && FindRuntime(inventory, selector).Some? && FindRuntime(inventory, selector).value.id == b.runtime
  {
    if caps == [] {
    } else {
      CapsStayInside(inventory, parent, selector, caps[..|caps| - 1], before);
    }
  }

  lemma {:induction false} GroupsStayInside(inventory: Inventory, parent: Option<Policy>,
                                            requirements: map<string, Value>, groups: seq<Group>)
    requires BindGroups(inventory, parent, requirements, groups).Some?
    ensures var bindings := BindGroups(inventory, parent, requirements, groups).value.bindings;
            && (parent.Some? ==> forall b :: b in bindings ==> b in parent.value.bindings)
            && Qualified(inventory, requirements, bindings)
  {
    if groups == [] {
    } else {
      var last := groups[|groups| - 1];
      var before := BindGroups(inventory, parent, requirements, groups[..|groups| - 1]).value;
      GroupsStayInside(inventory, parent, requirements, groups[..|groups| - 1]);
      CapsStayInside(inventory, parent, last.runtime, last.capabilities, before.bindings);
    }
  }

  /** A prepared policy is internally consistent, was checked against the inventory it came
      from, and narrows the parent it was derived from. */
  lemma PreparingNarrows(inventory: Inventory, request: Request, parent: Option<Policy>)
    requires Prepared(inventory, request, parent).Some?
    ensures var p := Prepared(inventory, request, parent).value;
            && ValidPolicy(p) && Qualified(inventory, p.requirements, p.bindings)
            && (parent.Some? ==> Narrows(p, parent.value))
  {
    GroupsStayInside(inventory, parent, Requirements(request, parent), Groups(request, parent).value);
  }

  lemma NarrowsTransitive(a: Policy, b: Policy, c: Policy)
    requires Narrows(a, b) && Narrows(b, c)
    ensures Narrows(a, c)
  {
  }

  // ---------------------------------------------------------------- tasks and their policies

  /** `home` is the runtime a task with a policy was placed on. */
  datatype Task = Task(parent: Option<nat>, project: string, policy: Option<Policy>, home: Option<string>)

  /** The runtime named for a task, and whether the project may use it. */
  datatype Target = Target(selector: string, granted: bool)

  datatype Action =
    | Submit(project: string, inventory: Inventory, request: Option<Request>, target: Target)
    | Receive(project: string, policy: Option<Policy>, here: string, local: Inventory)
    | Delegate(parent: nat, inventory: Inventory, request: Option<Request>, target: Target)
    | PinAgain(task: nat, again: Policy)

  /** What is left of a binding of now once what the pinned one does not record is dropped. */
  function Recorded(now: Binding, pinned: Binding): Binding {
    now.(account := if pinned.account.Some? then now.account else None,
         authMode := if pinned.authMode.Some? then now.authMode else None,
         endpointHash := if pinned.endpointHash.Some? then now.endpointHash else None)
  }

  /** A received policy must select this runtime, which must meet its requirements and still offer the
      configuration it pinned. */
  predicate Receivable(p: Policy, here: string, local: Inventory) {
    && p.selected.Some? && p.selected.value.runtime == here
    && FindRuntime(local, here).Some? && Satisfies(FindRuntime(local, here).value, p.requirements)
    && var now := Bind(local, here, p.selected.value.capability, true);
       now.Some? && Recorded(now.value, p.selected.value) == p.selected.value
  }

  /** A policy may be stored for a task of its own project, once. */
  ghost predicate Pinnable(existing: Option<Policy>, project: string, p: Policy) {
    ValidPolicy(p) && Project(p.project) == project && (existing.Some? ==> existing.value == p)
  }

  /** The target is granted, and is the selected runtime if one is selected. */
  predicate Fits(p: Option<Policy>, inventory: Inventory, target: Target) {
    target.granted &&
    (p.Some? ==>
      var r := FindRuntime(inventory, target.selector);
      r.Some? && (p.value.selected.None? || p.value.selected.value.runtime == r.value.id))
  }

  function Home(p: Option<Policy>, inventory: Inventory, target: Target): Option<string> {
    var r := FindRuntime(inventory, target.selector);
    if p.Some? && r.Some? then Some(r.value.id) else None
  }

  ghost function Created(tasks: seq<Task>, parent: Option<nat>, project: string, p: Option<Policy>,
                         home: Option<string>): seq<Task> {
    if p.Some? && !Pinnable(None, project, p.value) then tasks else tasks + [Task(parent, project, p, home)]
  }

  /** A new task for what was prepared, on its target. */
  ghost function Placed(tasks: seq<Task>, parent: Option<nat>, project: string, p: Option<Policy>,
                        inventory: Inventory, target: Target): seq<Task> {
    if Fits(p, inventory, target) then Created(tasks, parent, project, p, Home(p, inventory, target)) else tasks
  }

  function Asked(request: Option<Request>): Request {
    if request.Some? then request.value else Request(None, None, None)
  }

  ghost function Inherited(tasks: seq<Task>, parent: nat, inventory: Inventory, request: Option<Request>,
                           target: Target): seq<Task>
    requires parent < |tasks|
  {
    var from, project := tasks[parent].policy, tasks[parent].project;
    if from.None? && request.None? then Placed(tasks, Some(parent), project, None, inventory, target)
    else
      var p := Prepared(inventory, Asked(request), from);
      if p.None? then tasks else Placed(tasks, Some(parent), project, p, inventory, target)
  }

  ghost function Apply(tasks: seq<Task>, a: Action): seq<Task> {
    match a
    case Submit(project, inventory, request, target) =>
      if request.None? then Created(tasks, None, project, None, None)
      else
        var p := Prepared(inventory, request.value, None);
        if p.None? then tasks else Placed(tasks, None, project, p, inventory, target)
    case Receive(project, policy, here, local) =>
      if policy.Some? && !Receivable(policy.value, here, local) then tasks
      else Created(tasks, None, project, policy, Some(here))
    case Delegate(parent, inventory, request, target) =>
      if parent < |tasks| then Inherited(tasks, parent, inventory, request, target) else tasks
    case PinAgain(task, again) =>
      if task < |tasks| && tasks[task].policy.Some? && Pinnable(tasks[task].policy, tasks[task].project, again)
      then tasks[task := tasks[task].(policy := Some(again))] else tasks
  }

  ghost function Run(actions: seq<Action>): seq<Task> {
    if actions == [] then [] else Apply(Run(actions[..|actions| - 1]), actions[|actions| - 1])
  }

  /** A selected pair runs where it was selected. */
  ghost predicate AtHome(p: Option<Policy>, home: Option<string>) {
    p.Some? && p.value.selected.Some? ==> home == Some(p.value.selected.value.runtime)
  }

  ghost predicate Good(tasks: seq<Task>) {
    && (forall t :: 0 <= t < |tasks| && tasks[t].policy.Some? ==>
          ValidPolicy(tasks[t].policy.value) && Project(tasks[t].policy.value.project) == tasks[t].project)
    && (forall t :: 0 <= t < |tasks| ==> AtHome(tasks[t].policy, tasks[t].home))
    && forall t :: 0 <= t < |tasks| && tasks[t].parent.Some? ==>
         && tasks[t].parent.value < t
         && tasks[t].project == tasks[tasks[t].parent.value].project
         && (tasks[tasks[t].parent.value].policy.Some? ==>
               tasks[t].policy.Some? && Narrows(tasks[t].policy.value, tasks[tasks[t].parent.value].policy.value))
  }

  /** Rows are only added. */
  ghost predicate Extends(tasks: seq<Task>, after: seq<Task>) {
    |tasks| <= |after| && forall t :: 0 <= t < |tasks| ==> after[t] == tasks[t]
  }

  lemma CreatedKeepsGood(tasks: seq<Task>, parent: Option<nat>, project: string, p: Option<Policy>,
                         home: Option<string>)
    requires Good(tasks) && AtHome(p, home)
    requires parent.Some? ==>
               && parent.value < |tasks| && project == tasks[parent.value].project
               && (tasks[parent.value].policy.Some? ==> p.Some? && Narrows(p.value, tasks[parent.value].policy.value))
    ensures var after := Created(tasks, parent, project, p, home); Good(after) && Extends(tasks, after)
  {
  }

  lemma InheritedKeepsGood(tasks: seq<Task>, parent: nat, inventory: Inventory, request: Option<Request>,
                           target: Target)
    requires Good(tasks) && parent < |tasks|
    ensures var after := Inherited(tasks, parent, inventory, request, target); Good(after) && Extends(tasks, after)
  {
    var from, project := tasks[parent].policy, tasks[parent].project;
    var p := if from.None? && request.None? then None else Prepared(inventory, Asked(request), from);
    if p.Some? { PreparingNarrows(inventory, Asked(request), from); }
    if Fits(p, inventory, target) && (p.Some? || (from.None? && request.None?)) {
      CreatedKeepsGood(tasks, Some(parent), project, p, Home(p, inventory, target));
    }
  }

  lemma ApplyKeepsGood(tasks: seq<Task>, a: Action)
    requires Good(tasks)
    ensures Good(Apply(tasks, a)) && Extends(tasks, Apply(tasks, a))
  {
    match a
    case Submit(project, inventory, request, target) =>
      var p := if request.Some? then Prepared(inventory, request.value, None) else None;
      if request.None? {
        CreatedKeepsGood(tasks, None, project, None, None);
      } else if p.Some? && Fits(p, inventory, target) {
        CreatedKeepsGood(tasks, None, project, p, Home(p, inventory, target));
      }
    case Receive(project, policy, here, local) =>
      if Apply(tasks, a) != tasks { CreatedKeepsGood(tasks, None, project, policy, Some(here)); }
    case Delegate(parent, inventory, request, target) =>
      if parent < |tasks| { InheritedKeepsGood(tasks, parent, inventory, request, target); }
    case PinAgain(task, again) =>
      assert Apply(tasks, a) == tasks;
  }

  lemma {:induction false} RunIsGood(actions: seq<Action>)
    ensures Good(Run(actions))
  {
    if actions == [] {
    } else {
      RunIsGood(actions[..|actions| - 1]);
      ApplyKeepsGood(Run(actions[..|actions| - 1]), actions[|actions| - 1]);
    }
  }

  /** In every run, a task with a selected pair was placed on the runtime of that pair. */
  lemma PlacedWhereSelected(actions: seq<Action>, t: nat)
    requires t < |Run(actions)| && Run(actions)[t].policy.Some? && Run(actions)[t].policy.value.selected.Some?
    ensures Run(actions)[t].home == Some(Run(actions)[t].policy.value.selected.value.runtime)
  {
    RunIsGood(actions);
    assert AtHome(Run(actions)[t].policy, Run(actions)[t].home);
  }

  /** `a` is `t` or one of the tasks `t` was delegated from. */
  ghost predicate DescendsFrom(tasks: seq<Task>, a: nat, t: nat)
    decreases t
  {
    || a == t
    || (t < |tasks| && tasks[t].parent.Some? && tasks[t].parent.value < t
        && DescendsFrom(tasks, a, tasks[t].parent.value))
  }

  lemma {:induction false} ChainNarrows(tasks: seq<Task>, a: nat, t: nat)
    requires Good(tasks) && t < |tasks| && DescendsFrom(tasks, a, t)
    requires a < |tasks| && tasks[a].policy.Some?
    ensures tasks[t].policy.Some? && Narrows(tasks[t].policy.value, tasks[a].policy.value)
    decreases t
  {
    if a == t {
    } else {
      var p := tasks[t].parent.value;
      ChainNarrows(tasks, a, p);
      NarrowsTransitive(tasks[t].policy.value, tasks[p].policy.value, tasks[a].policy.value);
    }
  }

  /** Below a task with a policy every descendant has one; it uses a subset of every
      ancestor's pinned configurations, keeps every ancestor's requirements, stays in the
      project, and names exactly the pairs it pins. */
  lemma PoolsOnlyShrink(actions: seq<Action>, a: nat, t: nat)
    requires var tasks := Run(actions); a < |tasks| && t < |tasks| && DescendsFrom(tasks, a, t) && tasks[a].policy.Some?
    ensures var tasks := Run(actions);
            && tasks[t].policy.Some?
            && Narrows(tasks[t].policy.value, tasks[a].policy.value)
            && tasks[t].project == tasks[a].project
            && AllowedPairs(tasks[t].policy.value) == BoundPairs(tasks[t].policy.value)
               <= AllowedPairs(tasks[a].policy.value)
  {
    RunIsGood(actions);
    var tasks := Run(actions);
    ChainNarrows(tasks, a, t);
    PoolIsPinned(tasks[t].policy.value);
    PoolIsPinned(tasks[a].policy.value);
    assert Project(tasks[t].policy.value.project) == Project(tasks[a].policy.value.project);
    forall pair | pair in BoundPairs(tasks[t].policy.value) ensures pair in BoundPairs(tasks[a].policy.value) {
      var b :| 0 <= b < |tasks[t].policy.value.bindings| && PairOf(tasks[t].policy.value.bindings[b]) == pair;
      assert tasks[t].policy.value.bindings[b] in tasks[a].policy.value.bindings;
    }
  }

  /** A task's policy never changes once the task exists. */
  lemma {:induction false} PoliciesAreFinal(actions: seq<Action>, k: nat, t: nat)
    requires k <= |actions| && t < |Run(actions[..k])|
    ensures t < |Run(actions)| && Run(actions)[t] == Run(actions[..k])[t]
    decreases |actions|
  {
    if k == |actions| {
      assert actions[..k] == actions;
    } else {
      var front := actions[..|actions| - 1];
      assert front[..k] == actions[..k];
      PoliciesAreFinal(front, k, t);
      RunIsGood(front);
      ApplyKeepsGood(Run(front), actions[|actions| - 1]);
    }
  }

  // ---------------------------------------------------------------- applying a policy to settings

  datatype Executor = Executor(provider: Option<string>, account: Option<string>, model: Option<string>, knobs: nat)

  datatype Provider = Provider(kind: string, authMode: string, baseUrl: string, account: Option<string>,
                               model: Option<string>, knobs: nat)

  datatype Resolved = Resolved(kind: string, authMode: string, baseUrl: string, account: Option<string>,
                               model: Option<string>, knobs: (nat, nat))

  datatype Settings = Settings(executors: map<string, Executor>, providers: map<string, Provider>,
                               fallbacks: map<string, string>)

  function ProviderName(e: Executor): string {
    if e.provider.Some? then e.provider.value else DEFAULT
  }

  function Or(first: Option<string>, second: Option<string>): Option<string> {
    if first.Some? then first else second
  }

  function Resolve(p: Provider, e: Executor): Resolved {
    Resolved(p.kind, p.authMode, p.baseUrl, Or(e.account, p.account), Or(e.model, p.model), (p.knobs, e.knobs))
  }

  function ExecutorFor(s: Settings, role: string): Option<Resolved> {
    if role in s.executors && ProviderName(s.executors[role]) in s.providers
    then Some(Resolve(s.providers[ProviderName(s.executors[role])], s.executors[role])) else None
  }

  /** What the local configuration offers now, in the fields the pinned choice recorded. */
  function Actual(runtime: string, chosen: Binding, executor: Executor, resolved: Resolved,
                  fingerprint: Resolved -> string, digest: string -> string): Binding {
    Binding(runtime, chosen.capability, ProviderName(executor), resolved.model, resolved.kind, fingerprint(resolved),
            if chosen.account.Some? then resolved.account else None,
            if chosen.authMode.Some? then Some(resolved.authMode) else None,
            if chosen.endpointHash.Some? then Some(digest(resolved.baseUrl)) else None)
  }

  /** The executor pinned is configured here, and everything the pin recorded of it still holds. An
      executor's own account and model stand before its provider's. */
  ghost predicate StillConfigured(chosen: Binding, configured: Settings, fingerprint: Resolved -> string,
                                  digest: string -> string) {
    && chosen.capability in configured.executors
    && var e := configured.executors[chosen.capability];
       var name := if e.provider.Some? then e.provider.value else "default";
       name in configured.providers &&
       var p := configured.providers[name];
       var now := Resolved(p.kind, p.authMode, p.baseUrl, if e.account.Some? then e.account else p.account,
                           if e.model.Some? then e.model else p.model, (p.knobs, e.knobs));
       && chosen.provider == name && chosen.kind == now.kind && chosen.model == now.model
       && chosen.hash == fingerprint(now)
       && (chosen.account.Some? ==> chosen.account == now.account)
       && (chosen.authMode.Some? ==> chosen.authMode == Some(now.authMode))
       && (chosen.endpointHash.Some? ==> chosen.endpointHash == Some(digest(now.baseUrl)))
  }

  method ApplySettings(policy: Policy, runtime: string, configured: Settings, settings: Settings,
                       stepRoles: set<string>, fingerprint: Resolved -> string, digest: string -> string)
    returns (result: Option<Settings>)
    ensures result.Some? <==>
              && ValidPolicy(policy) && policy.selected.Some? && policy.selected.value.runtime == runtime
              && StillConfigured(policy.selected.value, configured, fingerprint, digest)
    ensures result.Some? ==>
              && result.value.fallbacks == map[]
              && result.value.executors.Keys == settings.executors.Keys + stepRoles
              && forall role :: role in result.value.executors ==>
                   ExecutorFor(result.value, role) == ExecutorFor(configured, policy.selected.value.capability)
  {
    var valid := ValidatePolicy(policy);
    if !valid || policy.selected.None? || policy.selected.value.runtime != runtime { return None; }
    var chosen := policy.selected.value;
    if chosen.capability !in configured.executors { return None; }
    var executor := configured.executors[chosen.capability];
    if ProviderName(executor) !in configured.providers { return None; }
    var provider := configured.providers[ProviderName(executor)];
    var resolved := Resolve(provider, executor);
    if chosen != Actual(runtime, chosen, executor, resolved, fingerprint, digest) { return None; }
    var roles := settings.executors.Keys + stepRoles;
    result := Some(settings.(executors := map role | role in roles :: executor,
                             providers := map[ProviderName(executor) := provider],
                             fallbacks := map[]));
  }

  /** When fingerprints are collision free, every role, wherever its fallback chain is
      followed to, runs with exactly the configuration that was inspected and pinned. */
  method RunsOnlyThePinnedConfiguration(policy: Policy, runtime: string, configured: Settings, settings: Settings,
                                        stepRoles: set<string>, fingerprint: Resolved -> string,
                                        digest: string -> string, ghost inspected: Resolved)
    returns (result: Option<Settings>)
    requires forall a, b :: fingerprint(a) == fingerprint(b) ==> a == b
    requires policy.selected.Some? ==> policy.selected.value.hash == fingerprint(inspected)
    ensures result.Some? ==>
              forall role, n: nat :: role in settings.executors.Keys + stepRoles ==>
                match Fallbacks.Hop(result.value.fallbacks, role, n)
                case Some(reached) => n == 0 && ExecutorFor(result.value, reached) == Some(inspected)
                case None => n > 0
  {
    result := ApplySettings(policy, runtime, configured, settings, stepRoles, fingerprint, digest);
    if result.Some? {
      forall role, n: nat
        ensures Fallbacks.Hop(result.value.fallbacks, role, n) == if n == 0 then Some(role) else None {
        if n > 0 { Fallbacks.HopStaysNone(result.value.fallbacks, role, 1, n); }
      }
    }
  }

  // ---------------------------------------------------------------- the tables

  lemma CapStep(inventory: Inventory, parent: Option<Policy>, selector: string, caps: seq<string>,
                before: seq<Binding>, c: nat, bindings: seq<Binding>)
    requires c < |caps| && BindCaps(inventory, parent, selector, caps[..c], before) == Some(bindings)
    ensures BindCaps(inventory, parent, selector, caps[..c + 1], before)
         == Extended(inventory, parent, selector, caps[c], bindings)
  {
    assert caps[..c + 1][..c] == caps[..c];
  }

  lemma {:induction false} NoneStaysInCaps(inventory: Inventory, parent: Option<Policy>, selector: string,
                                           caps: seq<string>, before: seq<Binding>, c: nat)
    requires c <= |caps| && BindCaps(inventory, parent, selector, caps[..c], before).None?
    ensures BindCaps(inventory, parent, selector, caps, before).None?
    decreases |caps|
  {
    if c < |caps| {
      assert caps[..|caps| - 1][..c] == caps[..c];
      NoneStaysInCaps(inventory, parent, selector, caps[..|caps| - 1], before, c);
    } else {
      assert caps[..c] == caps;
    }
  }

  /** The inner loop, over one group's capabilities. */
  method BindGroup(inventory: Inventory, parent: Option<Policy>, group: Group, before: seq<Binding>)
    returns (grown: Option<seq<Binding>>)
    ensures grown == BindCaps(inventory, parent, group.runtime, group.capabilities, before)
  {
    var bindings, caps := before, group.capabilities;
    for c := 0 to |caps|
      invariant BindCaps(inventory, parent, group.runtime, caps[..c], before) == Some(bindings)
    {
      CapStep(inventory, parent, group.runtime, caps, before, c, bindings);
      var next := Bind(inventory, group.runtime, caps[c], false);
      if next.None? || (parent.Some? && next.value !in parent.value.bindings)
         || exists i :: 0 <= i < |bindings| && SamePair(bindings[i], next.value)
      {
        NoneStaysInCaps(inventory, parent, group.runtime, caps, before, c + 1);
        return None;
      }
      bindings := bindings + [next.value];
    }
    assert caps[..|caps|] == caps;
    grown := Some(bindings);
  }

  lemma {:induction false} NoneStays(inventory: Inventory, parent: Option<Policy>, requirements: map<string, Value>,
                                     groups: seq<Group>, g: nat)
    requires g <= |groups| && BindGroups(inventory, parent, requirements, groups[..g]).None?
    ensures BindGroups(inventory, parent, requirements, groups).None?
    decreases |groups|
  {
    if g < |groups| {
      assert groups[..|groups| - 1][..g] == groups[..g];
      NoneStays(inventory, parent, requirements, groups[..|groups| - 1], g);
    } else {
      assert groups[..g] == groups;
    }
  }

  /** The outer loop, over the groups. */
  method BindPool(inventory: Inventory, parent: Option<Policy>, requirements: map<string, Value>, groups: seq<Group>)
    returns (pool: Option<Pool>)
    ensures pool == BindGroups(inventory, parent, requirements, groups)
  {
    var allowed: seq<Group>, bindings: seq<Binding> := [], [];
    for g := 0 to |groups|
      invariant BindGroups(inventory, parent, requirements, groups[..g]) == Some(Pool(allowed, bindings))
    {
      var group := groups[g];
      var target := FindRuntime(inventory, group.runtime);
      assert groups[..g + 1][..g] == groups[..g];
      if |group.capabilities| == 0 || |group.capabilities| > 64 || target.None?
         || !Satisfies(target.value, requirements)
      {
        NoneStays(inventory, parent, requirements, groups, g + 1);
        return None;
      }
      var grown := BindGroup(inventory, parent, group, bindings);
      if grown.None? {
        NoneStays(inventory, parent, requirements, groups, g + 1);
        return None;
      }
      bindings := grown.value;
      allowed := allowed + [Group(target.value.id, group.capabilities)];
    }
    assert groups[..|groups|] == groups;
    pool := Some(Pool(allowed, bindings));
  }

  /** Normalize labels against an inventory and narrow a parent's policy. */
  method PrepareInventory(inventory: Inventory, request: Request, parent: Option<Policy>)
    returns (result: Option<Policy>)
    ensures result == Prepared(inventory, request, parent)
  {
    if parent.Some? {
      var valid := ValidatePolicy(parent.value);
      if !valid || Project(parent.value.project) != Project(inventory.project) { return None; }
    }
    var requirements := Requirements(request, parent);
    if !RequirementsAllowed(requirements) { return None; }
    if parent.Some? && !Strengthens(requirements, parent.value.requirements) { return None; }
    var chosen := Choice(request, parent);
    var groups := Groups(request, parent);
    if groups.None? || |groups.value| == 0 || |groups.value| > 64 { return None; }
    var pool := BindPool(inventory, parent, requirements, groups.value);
    if pool.None? { return None; }
    var selected: Option<Binding> := None;
    if chosen.Some? && chosen.value.Some? {
      selected := Bind(inventory, chosen.value.value.runtime, chosen.value.value.capability, true);
      if selected.None? || selected.value !in pool.value.bindings { return None; }
    }
    var p := Policy(inventory.project, requirements, pool.value.allowed, pool.value.bindings, selected);
    var valid := ValidatePolicy(p);
    result := if valid then Some(p) else None;
  }

  class Store {
    var tasks: seq<Task>

    constructor ()
      ensures tasks == [] && Good(tasks)
    {
      tasks := [];
    }

    /** Store a policy for a task that has none, or confirm the one it has. */
    method Pin(task: nat, p: Policy) returns (ok: bool)
      requires task < |tasks|
      modifies this
      ensures ok <==> Pinnable(old(tasks)[task].policy, old(tasks)[task].project, p)
      ensures tasks == if ok then old(tasks)[task := old(tasks)[task].(policy := Some(p))] else old(tasks)
    {
      ok := ValidatePolicy(p);
      if !ok || Project(p.project) != tasks[task].project { return false; }
      if tasks[task].policy.Some? {
        ok := tasks[task].policy.value == p;
        assert ok ==> tasks == tasks[task := tasks[task].(policy := Some(p))];
      } else {
        tasks := tasks[task := tasks[task].(policy := Some(p))];
      }
    }

    /** A task submitted here, on a target of its own choosing, if it asks for an execution policy. */
    method Submit(project: string, inventory: Inventory, request: Option<Request>, target: Target) returns (ok: bool)
      requires Good(tasks)
      modifies this
      ensures tasks == Apply(old(tasks), Action.Submit(project, inventory, request, target)) && Good(tasks)
      ensures var p := if request.None? then None else Prepared(inventory, request.value, None);
              var found := FindRuntime(inventory, target.selector);
              && (ok <==>
                    request.None? ||
                    (&& p.Some? && target.granted && found.Some?
                     && (if p.value.project.Some? then p.value.project.value else "default") == project
                     && (p.value.selected.None? || p.value.selected.value.runtime == found.value.id)))
              && tasks == old(tasks) +
                   (if !ok then [] else if request.None? then [Task(None, project, None, None)]
                    else [Task(None, project, p, Some(found.value.id))])
    {
      ghost var before := tasks;
      ApplyKeepsGood(tasks, Action.Submit(project, inventory, request, target));
      if request.None? {
        tasks := tasks + [Task(None, project, None, None)];
        return true;
      }
      var p := PrepareInventory(inventory, request.value, None);
      if p.None? { return false; }
      var task := |tasks|;
      tasks := tasks + [Task(None, project, None, None)];
      ok := Pin(task, p.value);
      if ok { ok := Fits(p, inventory, target); }
      if ok {
        tasks := tasks[task := tasks[task].(home := Home(p, inventory, target))];
      } else {
        tasks := tasks[..task];
        assert tasks == before;
      }
    }

    /** A task received from another runtime keeps the policy it came with, if this runtime is the one
        selected, meets the requirements and still offers the configuration pinned. */
    method Receive(project: string, policy: Option<Policy>, here: string, local: Inventory) returns (ok: bool)
      requires Good(tasks)
      modifies this
      ensures tasks == Apply(old(tasks), Action.Receive(project, policy, here, local)) && Good(tasks)
      ensures tasks == old(tasks) + if ok then [Task(None, project, policy, Some(here))] else []
      ensures ok <==>
                policy.None? ||
                (&& ValidPolicy(policy.value)
                 && (if policy.value.project.Some? then policy.value.project.value else "default") == project
                 && policy.value.selected.Some? && policy.value.selected.value.runtime == here
                 && FindRuntime(local, here).Some?
                 && Satisfies(FindRuntime(local, here).value, policy.value.requirements)
                 && var pinned := policy.value.selected.value;
                    var now := Bind(local, here, pinned.capability, true);
                    && now.Some? && now.value.provider == pinned.provider && now.value.model == pinned.model
                    && now.value.kind == pinned.kind && now.value.hash == pinned.hash && now.value.runtime == here
                    && (pinned.account.Some? ==> now.value.account == pinned.account)
                    && (pinned.authMode.Some? ==> now.value.authMode == pinned.authMode)
                    && (pinned.endpointHash.Some? ==> now.value.endpointHash == pinned.endpointHash))
    {
      ApplyKeepsGood(tasks, Action.Receive(project, policy, here, local));
      if policy.Some? {
        var valid := ValidatePolicy(policy.value);
        if !valid || !Receivable(policy.value, here, local) { return false; }
        if Project(policy.value.project) != project { return false; }
      }
      tasks := tasks + [Task(None, project, policy, Some(here))];
      ok := true;
    }

    /** Create a child on its target with its inherited policy, or leave everything as it was. */
    method Inherit(parent: nat, inventory: Inventory, request: Option<Request>, target: Target) returns (ok: bool)
      requires Good(tasks) && parent < |tasks|
      modifies this
      ensures tasks == Apply(old(tasks), Delegate(parent, inventory, request, target)) && Good(tasks)
      ensures ok <==> |tasks| == |old(tasks)| + 1
      // Without a policy to inherit or a request, a granted target is all it takes; otherwise the narrowed
      // policy must be of the project, and its selected runtime, if any, the target's.
      ensures var from, project := old(tasks)[parent].policy, old(tasks)[parent].project;
              var plain, found := from.None? && request.None?, FindRuntime(inventory, target.selector);
              var asked := if request.Some? then request.value else Request(None, None, None);
              var p := if plain then None else Prepared(inventory, asked, from);
              var home := if p.Some? && found.Some? then Some(found.value.id) else None;
              && (ok <==>
                    && target.granted
                    && (plain ||
                        (&& p.Some? && found.Some?
                         && (if p.value.project.Some? then p.value.project.value else "default") == project
                         && (p.value.selected.None? || p.value.selected.value.runtime == found.value.id))))
              && tasks == old(tasks) + if ok then [Task(Some(parent), project, p, home)] else []
    {
      ghost var before := tasks;
      ApplyKeepsGood(tasks, Delegate(parent, inventory, request, target));
      var from, project, child := tasks[parent].policy, tasks[parent].project, |tasks|;
      tasks := tasks + [Task(Some(parent), project, None, None)];
      if from.None? && request.None? {
        ok := Fits(None, inventory, target);
      } else {
        var p := PrepareInventory(inventory, Asked(request), from);
        ok := false;
        if p.Some? { ok := Pin(child, p.value); }
        if ok { ok := Fits(p, inventory, target); }
        if ok { tasks := tasks[child := tasks[child].(home := Home(p, inventory, target))]; }
      }
      if !ok {
        tasks := tasks[..child];
        assert tasks == before;
      }
    }
  }
}
