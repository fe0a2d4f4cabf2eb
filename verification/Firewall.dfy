/**
 The guard's compilation of an egress list into an nftables chain, and its check of what the
 kernel reads back (scripts/horde-lima-guard.py `nft_rules`, `canonical_nft_expression`, `nft`).

 Addresses are numbers below 2^32 or 2^128; `read` and `show` are the address library's parser
 and printer. A readback may hold any expression: `other` says what unmodelled ones do.
 */
module Firewall {
  import opened Options

  datatype Version = V4 | V6

  datatype Address = Address(version: Version, value: nat)

  /** An entry of the egress list; host bits may be set. */
  datatype Network = Network(version: Version, address: nat, length: nat)

  datatype Left = SkUid | Destination(protocol: string) | OtherLeft(what: string)

  datatype Right = Number(n: nat) | Text(text: string) | Prefix(address: string, length: nat) | OtherRight(json: string)

  /** One nftables expression; `rest` stands for any further keys of the object. */
  datatype Expr = Match(op: string, left: Left, right: Right, rest: string) | Accept | Drop | Other(json: string)

  datatype Packet = Packet(uid: nat, dest: Address)

  datatype Effect = Next | Skip | Final(accepts: bool)

  type Reader = string -> Option<Address>
  type Printer = Address -> string
  type Opaque = (Expr, Packet) -> Effect

  function Width(v: Version): nat {
    if v.V4? then 32 else 128
  }

  function Protocol(v: Version): string {
    if v.V4? then "ip" else "ip6"
  }

  function Pow2(n: nat): (p: nat)
    ensures p > 0
  {
    if n == 0 then 1 else 2 * Pow2(n - 1)
  }

  /** The bit of weight 2^i. */
  function Bit(a: nat, i: nat): nat {
    if i == 0 then a % 2 else Bit(a / 2, i - 1)
  }

  predicate ValidAddress(a: Address) {
    a.value < Pow2(Width(a.version))
  }

  predicate ValidNetwork(n: Network) {
    n.length <= Width(n.version) && n.address < Pow2(Width(n.version))
  }

  ghost predicate TopBitsAgree(a: nat, b: nat, k: nat, w: nat) {
    forall i: nat :: k <= i < w ==> Bit(a, i) == Bit(b, i)
  }

  /** What the policy means: the packet's destination starts with the network's bits. */
  ghost predicate Covers(n: Network, d: Address)
    requires ValidNetwork(n)
  {
    && d.version == n.version
    && TopBitsAgree(d.value, n.address, Width(n.version) - n.length, Width(n.version))
  }

  /** Clear the low `bits` bits. */
  function Masked(a: nat, bits: nat): (m: nat)
    ensures m <= a
  {
    if bits == 0 then a else 2 * Masked(a / 2, bits - 1)
  }

  // ---------------------------------------------------------------- evaluation

  /** Whether a destination matches what stands on the right of `daddr ==`. */
  predicate InRight(read: Reader, right: Right, d: Address) {
    match right
    case Text(text) => read(text) == Some(d)
    case Prefix(text, length) =>
      var base := read(text);
      && base.Some? && base.value.version == d.version && length <= Width(d.version)
      && Masked(d.value, Width(d.version) - length) == Masked(base.value.value, Width(d.version) - length)
    case _ => false
  }

  /** Whether this is a comparison of the destination that the model gives a meaning to. */
  predicate Understood(read: Reader, e: Expr) {
    && e.Match? && e.op == "==" && e.left.Destination? && (e.left.protocol == "ip" || e.left.protocol == "ip6")
    && (e.right.Prefix? || (e.right.Text? && read(e.right.text).Some? &&
                            Protocol(read(e.right.text).value.version) == e.left.protocol))
  }

  function EffectOf(read: Reader, other: Opaque, e: Expr, p: Packet): Effect {
    if e.Accept? then Final(true)
    else if e.Drop? then Final(false)
    else if e.Match? && e.op == "==" && e.left.SkUid? && e.right.Number?
    then (if p.uid == e.right.n then Next else Skip)
    else if Understood(read, e) then
      (if Protocol(p.dest.version) == e.left.protocol && InRight(read, e.right, p.dest) then Next else Skip)
    else other(e, p)
  }

  /** A rule's verdict, if all its expressions let the packet get that far. */
  function RuleVerdict(read: Reader, other: Opaque, rule: seq<Expr>, p: Packet): Option<bool> {
    if rule == [] then None
    else match EffectOf(read, other, rule[0], p)
      case Final(accepts) => Some(accepts)
      case Skip => None
      case Next => RuleVerdict(read, other, rule[1..], p)
  }

  /** The chain's verdict: the first rule that decides, and acceptance by default. */
  function Verdict(read: Reader, other: Opaque, rules: seq<seq<Expr>>, p: Packet): bool {
    if rules == [] then true
    else
      var v := RuleVerdict(read, other, rules[0], p);
      if v.Some? then v.value else Verdict(read, other, rules[1..], p)
  }

  // ---------------------------------------------------------------- compiling

  function UidMatch(uid: nat): Expr {
    Match("==", SkUid, Number(uid), "")
  }

  function AllowRule(show: Printer, uid: nat, n: Network): seq<Expr>
    requires ValidNetwork(n)
  {
    var base := Address(n.version, Masked(n.address, Width(n.version) - n.length));
    [UidMatch(uid), Match("==", Destination(Protocol(n.version)), Prefix(show(base), n.length), ""), Accept]
  }

  function Rules(show: Printer, uid: nat, egress: seq<Network>): seq<seq<Expr>>
    requires forall n :: n in egress ==> ValidNetwork(n)
  {
    if egress == [] then [[UidMatch(uid), Drop]] else [AllowRule(show, uid, egress[0])] + Rules(show, uid, egress[1..])
  }

  /** The rules appended in a loop, one per network, with the final drop. */
  method NftRules(show: Printer, uid: nat, egress: seq<Network>) returns (rules: seq<seq<Expr>>)
    requires forall n :: n in egress ==> ValidNetwork(n)
    ensures rules == Rules(show, uid, egress)
  {
    rules := [];
    for i := 0 to |egress|
      invariant rules + Rules(show, uid, egress[i..]) == Rules(show, uid, egress)
    {
      assert egress[i..][1..] == egress[i + 1..];
      assert rules + Rules(show, uid, egress[i..])
          == (rules + [AllowRule(show, uid, egress[i])]) + Rules(show, uid, egress[i + 1..]);
      rules := rules + [AllowRule(show, uid, egress[i])];
    }
    rules := rules + [[UidMatch(uid), Drop]];
  }

  // ---------------------------------------------------------------- masks and bits

  /** Masking clears the low bits and keeps the others. */
  lemma {:induction false} MaskBit(a: nat, k: nat, i: nat)
    ensures Bit(Masked(a, k), i) == if i < k then 0 else Bit(a, i)
  {
    if k > 0 && i > 0 {
      MaskBit(a / 2, k - 1, i - 1);
      assert Masked(a, k) / 2 == Masked(a / 2, k - 1);
    }
  }

  /** A number is its bits. */
  lemma {:induction false} BitsDecide(a: nat, b: nat, w: nat)
    requires a < Pow2(w) && b < Pow2(w)
    requires forall i: nat :: i < w ==> Bit(a, i) == Bit(b, i)
    ensures a == b
  {
    if w == 0 {
    } else {
      assert Bit(a, 0) == Bit(b, 0);
      forall i: nat | i < w - 1 ensures Bit(a / 2, i) == Bit(b / 2, i) {
        assert Bit(a, i + 1) == Bit(b, i + 1);
      }
      BitsDecide(a / 2, b / 2, w - 1);
    }
  }

  /** Two addresses have the same masked value exactly when every unmasked bit agrees. */
  lemma MaskIsTopBits(a: nat, b: nat, k: nat, w: nat)
    requires k <= w && a < Pow2(w) && b < Pow2(w)
    ensures Masked(a, k) == Masked(b, k) <==> TopBitsAgree(a, b, k, w)
  {
    forall i: nat ensures Bit(Masked(a, k), i) == if i < k then 0 else Bit(a, i) { MaskBit(a, k, i); }
    forall i: nat ensures Bit(Masked(b, k), i) == if i < k then 0 else Bit(b, i) { MaskBit(b, k, i); }
    if TopBitsAgree(a, b, k, w) {
      BitsDecide(Masked(a, k), Masked(b, k), w);
    }
  }

  lemma {:induction false} MaskIsIdempotent(a: nat, k: nat)
    ensures Masked(Masked(a, k), k) == Masked(a, k)
  {
    if k == 0 {
    } else {
      MaskIsIdempotent(a / 2, k - 1);
    }
  }

  // ---------------------------------------------------------------- the compiled chain means the policy

  ghost predicate Library(read: Reader, show: Printer) {
    forall a :: ValidAddress(a) ==> read(show(a)) == Some(a)
  }

  lemma PrefixMeans(read: Reader, show: Printer, other: Opaque, uid: nat, n: Network, p: Packet)
    requires Library(read, show) && ValidNetwork(n) && ValidAddress(p.dest)
    ensures EffectOf(read, other, AllowRule(show, uid, n)[1], p) == if Covers(n, p.dest) then Next else Skip
  {
    var w := Width(n.version);
    var base := Address(n.version, Masked(n.address, w - n.length));
    assert read(show(base)) == Some(base);
    assert |"ip"| != |"ip6"|;
    if p.dest.version == n.version {
      MaskIsIdempotent(n.address, w - n.length);
      MaskIsTopBits(p.dest.value, n.address, w - n.length, w);
    }
  }

  lemma AllowRuleMeans(read: Reader, show: Printer, other: Opaque, uid: nat, n: Network, p: Packet)
    requires Library(read, show) && ValidNetwork(n) && ValidAddress(p.dest)
    ensures RuleVerdict(read, other, AllowRule(show, uid, n), p) ==
            if p.uid == uid && Covers(n, p.dest) then Some(true) else None
  {
    PrefixMeans(read, show, other, uid, n, p);
    var rule := AllowRule(show, uid, n);
    assert rule[1..] == [rule[1], Accept] && rule[1..][1..] == [Accept];
    assert RuleVerdict(read, other, [Accept], p) == Some(true);
  }

  /** First-match evaluation of the generated chain accepts a packet exactly when it is another
      user's or its destination lies in some listed network. */
  lemma {:induction false} ChainMeansPolicy(read: Reader, show: Printer, other: Opaque, uid: nat, egress: seq<Network>,
                                            p: Packet)
    requires Library(read, show) && ValidAddress(p.dest)
    requires forall n :: n in egress ==> ValidNetwork(n)
    ensures Verdict(read, other, Rules(show, uid, egress), p) <==>
              p.uid != uid || exists n :: n in egress && Covers(n, p.dest)
  {
    if egress == [] {
      var rule := [UidMatch(uid), Drop];
      assert rule[1..] == [Drop];
      assert RuleVerdict(read, other, rule, p) == if p.uid == uid then Some(false) else None;
    } else {
      AllowRuleMeans(read, show, other, uid, egress[0], p);
      ChainMeansPolicy(read, show, other, uid, egress[1..], p);
      assert Rules(show, uid, egress)[1..] == Rules(show, uid, egress[1..]);
      assert forall n :: n in egress <==> n == egress[0] || n in egress[1..];
    }
  }

  // ---------------------------------------------------------------- reading back

  function Canonical(read: Reader, show: Printer, e: Expr): Expr {
    if !e.Match? || e.op != "==" || !e.right.Text? || !e.left.Destination?
       || !(e.left.protocol == "ip" || e.left.protocol == "ip6")
    then e
    else
      var address := read(e.right.text);
      if address.Some? && Protocol(address.value.version) == e.left.protocol
      then e.(right := Prefix(show(address.value), Width(address.value.version))) else e
  }

  lemma CanonicalIsIdempotent(read: Reader, show: Printer, e: Expr)
    ensures Canonical(read, show, Canonical(read, show, e)) == Canonical(read, show, e)
  {
  }

  /** Rewriting a bare address as a full-length prefix changes no packet's fate. */
  lemma CanonicalKeepsEffect(read: Reader, show: Printer, other: Opaque, e: Expr, p: Packet)
    requires Library(read, show) && forall text :: read(text).Some? ==> ValidAddress(read(text).value)
    ensures EffectOf(read, other, Canonical(read, show, e), p) == EffectOf(read, other, e, p)
  {
    var c := Canonical(read, show, e);
    if c != e {
      var address := read(e.right.text).value;
      assert read(show(address)) == Some(address);
      assert Masked(p.dest.value, 0) == p.dest.value && Masked(address.value, 0) == address.value;
    }
  }

  function CanonicalRule(read: Reader, show: Printer, rule: seq<Expr>): seq<Expr> {
    if rule == [] then [] else [Canonical(read, show, rule[0])] + CanonicalRule(read, show, rule[1..])
  }

  function CanonicalRules(read: Reader, show: Printer, rules: seq<seq<Expr>>): seq<seq<Expr>> {
    if rules == [] then [] else [CanonicalRule(read, show, rules[0])] + CanonicalRules(read, show, rules[1..])
  }

  lemma {:induction false} CanonicalRuleKeepsVerdict(read: Reader, show: Printer, other: Opaque, rule: seq<Expr>,
                                                    p: Packet)
    requires Library(read, show) && forall text :: read(text).Some? ==> ValidAddress(read(text).value)
    ensures RuleVerdict(read, other, CanonicalRule(read, show, rule), p) == RuleVerdict(read, other, rule, p)
  {
    if rule == [] {
    } else {
      CanonicalKeepsEffect(read, show, other, rule[0], p);
      CanonicalRuleKeepsVerdict(read, show, other, rule[1..], p);
      assert CanonicalRule(read, show, rule)[1..] == CanonicalRule(read, show, rule[1..]);
    }
  }

  lemma {:induction false} CanonicalKeepsVerdict(read: Reader, show: Printer, other: Opaque, rules: seq<seq<Expr>>,
                                                p: Packet)
    requires Library(read, show) && forall text :: read(text).Some? ==> ValidAddress(read(text).value)
    ensures Verdict(read, other, CanonicalRules(read, show, rules), p) == Verdict(read, other, rules, p)
  {
    if rules == [] {
    } else {
      CanonicalRuleKeepsVerdict(read, show, other, rules[0], p);
      CanonicalKeepsVerdict(read, show, other, rules[1..], p);
      assert CanonicalRules(read, show, rules)[1..] == CanonicalRules(read, show, rules[1..]);
    }
  }

  datatype Chain = Chain(name: string, hook: string, kind: string, prio: int, policy: string)

  const OUTPUT_CHAIN := Chain("output", "output", "filter", -100, "accept")

  /** The readback comparison. What is accepted gives every packet the policy's verdict. */
  method CheckReadback(read: Reader, show: Printer, ghost other: Opaque, uid: nat, egress: seq<Network>,
                       chains: seq<Chain>, actual: seq<seq<Expr>>) returns (ok: bool)
    requires Library(read, show) && forall text :: read(text).Some? ==> ValidAddress(read(text).value)
    requires forall n :: n in egress ==> ValidNetwork(n)
    ensures ok <==> chains == [OUTPUT_CHAIN] && CanonicalRules(read, show, actual) == Rules(show, uid, egress)
    ensures ok ==> forall p: Packet :: ValidAddress(p.dest) ==>
                     (Verdict(read, other, actual, p) <==> p.uid != uid || exists n :: n in egress && Covers(n, p.dest))
  {
    var expected := NftRules(show, uid, egress);
    if |chains| != 1 || chains[0] != OUTPUT_CHAIN { return false; }
    ok := CanonicalRules(read, show, actual) == expected;
    if ok {
      forall p: Packet | ValidAddress(p.dest)
        ensures Verdict(read, other, actual, p) <==> p.uid != uid || exists n :: n in egress && Covers(n, p.dest)
      {
        CanonicalKeepsVerdict(read, show, other, actual, p);
        ChainMeansPolicy(read, show, other, uid, egress, p);
      }
    }
  }

  lemma {:induction false} RuleIsCanonical(read: Reader, show: Printer, rule: seq<Expr>)
    requires forall e :: e in rule ==> !e.Match? || !e.right.Text?
    ensures CanonicalRule(read, show, rule) == rule
  {
    if rule == [] {
    } else {
      RuleIsCanonical(read, show, rule[1..]);
    }
  }

  /** What was installed is accepted when it is read back, with or without the kernel's own
      shortening of full-length prefixes. */
  lemma {:induction false} InstalledChainIsAccepted(read: Reader, show: Printer, uid: nat, egress: seq<Network>,
                                                    shortened: seq<seq<Expr>>)
    requires Library(read, show) && forall n :: n in egress ==> ValidNetwork(n)
    requires |shortened| == |egress| + 1 && shortened[|egress|] == [UidMatch(uid), Drop]
    requires forall k :: 0 <= k < |egress| ==>
               var n, rule := egress[k], AllowRule(show, uid, egress[k]);
               || shortened[k] == rule
               || (n.length == Width(n.version)
                   && shortened[k] == rule[1 := rule[1].(right := Text(rule[1].right.address))])
    ensures CanonicalRules(read, show, shortened) == Rules(show, uid, egress)
  {
    if egress == [] {
      assert shortened == [[UidMatch(uid), Drop]];
      RuleIsCanonical(read, show, [UidMatch(uid), Drop]);
      assert shortened[1..] == [];
    } else {
      InstalledChainIsAccepted(read, show, uid, egress[1..], shortened[1..]);
      var n, rule := egress[0], AllowRule(show, uid, egress[0]);
      if shortened[0] == rule {
        RuleIsCanonical(read, show, rule);
      } else {
        var short := shortened[0];
        var base := Address(n.version, Masked(n.address, 0));
        assert read(show(base)) == Some(base);
        assert Canonical(read, show, short[1]) == rule[1];
        assert short == [rule[0], short[1], rule[2]];
        RuleIsCanonical(read, show, [rule[2]]);
        assert short[2..] == [rule[2]] && short[1..][1..] == short[2..];
        assert CanonicalRule(read, show, short[1..]) == [rule[1], rule[2]];
        assert CanonicalRule(read, show, short) == rule;
      }
    }
  }
}
