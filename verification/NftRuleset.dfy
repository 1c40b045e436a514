/**
 * The nft side of the egress policy: the script that rebuilds the table, a
 * transactional interpreter for it, and what the resulting chain does to a
 * packet.
 */
module NftRuleset {
  import opened Common
  import opened EgressPolicy

  // ------------------------------------------------------------------
  // Addresses
  // ------------------------------------------------------------------

  function Pow2(n: nat): (r: nat)
    ensures r > 0
  {
    if n == 0 then 1 else 2 * Pow2(n - 1)
  }

  function Width(a: Addr): nat {
    if a.V4? then 32 else 128
  }

  /** An element of an address set. */
  datatype Element = Single(addr: Addr) | Range(prefix: Prefix)

  predicate IsV4(e: Element) {
    match e
    case Single(a) => a.V4?
    case Range(p) => p.addr.V4?
  }

  predicate SameFamily(a: Addr, b: Addr) {
    a.V4? == b.V4?
  }

  /** The leading bits of a and of the prefix agree. */
  predicate InPrefix(p: Prefix, a: Addr) {
    && SameFamily(p.addr, a)
    && var rest := if p.len <= Width(a) then Width(a) - p.len else 0;
       a.bits / Pow2(rest) == p.addr.bits / Pow2(rest)
  }

  predicate Covers(e: Element, a: Addr) {
    match e
    case Single(x) => x == a
    case Range(p) => InPrefix(p, a)
  }

  predicate AnyCovers(es: seq<Element>, a: Addr) {
    exists i :: 0 <= i < |es| && Covers(es[i], a)
  }

  // ------------------------------------------------------------------
  // Rules of the policy that name addresses
  // ------------------------------------------------------------------

  function ElementOf(k: Target): Element
    requires !k.Domain?
  {
    if k.Ip? then Single(k.addr) else Range(k.prefix)
  }

  predicate InBucket(r: Rule, allow: bool, v4: bool) {
    !r.kind.Domain? && (r.action == ALLOW) == allow && IsV4(ElementOf(r.kind)) == v4
  }

  /** The elements of the address rules with the given verdict and family, in order. */
  function Bucket(rules: seq<Rule>, allow: bool, v4: bool): seq<Element> {
    if rules == [] then []
    else
      var last := rules[|rules| - 1];
      Bucket(rules[..|rules| - 1], allow, v4) + if InBucket(last, allow, v4) then [ElementOf(last.kind)] else []
  }

  /** StaticIPSets: every action other than allow counts as deny. */
  method StaticIPSets(p: Policy)
    returns (allowV4: seq<Element>, allowV6: seq<Element>, denyV4: seq<Element>, denyV6: seq<Element>)
    ensures allowV4 == Bucket(p.rules, true, true) && allowV6 == Bucket(p.rules, true, false)
    ensures denyV4 == Bucket(p.rules, false, true) && denyV6 == Bucket(p.rules, false, false)
  {
    allowV4, allowV6, denyV4, denyV6 := [], [], [], [];
    var i := 0;
    while i < |p.rules|
      invariant 0 <= i <= |p.rules|
      invariant allowV4 == Bucket(p.rules[..i], true, true) && allowV6 == Bucket(p.rules[..i], true, false)
      invariant denyV4 == Bucket(p.rules[..i], false, true) && denyV6 == Bucket(p.rules[..i], false, false)
    {
      var r := p.rules[i];
      assert p.rules[..i + 1][..i] == p.rules[..i];
      if !r.kind.Domain? {
        var e := ElementOf(r.kind);
        if r.action == ALLOW {
          if IsV4(e) {
            allowV4 := allowV4 + [e];
          } else {
            allowV6 := allowV6 + [e];
          }
        } else {
          if IsV4(e) {
            denyV4 := denyV4 + [e];
          } else {
            denyV6 := denyV6 + [e];
          }
        }
      }
      i := i + 1;
    }
    assert p.rules[..i] == p.rules;
  }

  /** Whether some address rule with the verdict covers the address. */
  predicate NamedBy(rules: seq<Rule>, allow: bool, a: Addr) {
    exists i :: 0 <= i < |rules| && RuleNames(rules[i], allow, a)
  }

  predicate RuleNames(r: Rule, allow: bool, a: Addr) {
    (r.action == ALLOW) == allow && TargetNames(r.kind, a)
  }

  /** How many addresses a prefix spans, and the first of them. */
  function BlockSize(p: Prefix): (r: nat)
    ensures r > 0
  {
    Pow2(if p.len <= Width(p.addr) then Width(p.addr) - p.len else 0)
  }

  function BlockStart(p: Prefix): int {
    BlockSize(p) * (p.addr.bits / BlockSize(p))
  }

  /** An address names itself, a prefix the addresses of its block, a domain none. */
  predicate TargetNames(k: Target, a: Addr) {
    match k
    case Domain => false
    case Ip(x) => x == a
    case Cidr(p) => p.addr.V4? == a.V4? && BlockStart(p) <= a.bits < BlockStart(p) + BlockSize(p)
  }

  lemma {:induction false} QuotientBounds(x: nat, size: nat)
    requires size > 0
    ensures size * (x / size) <= x < size * (x / size) + size
  {
  }

  lemma {:induction false} MultiplesApart(size: nat, q: int, r: int)
    requires q < r
    ensures size * q + size <= size * r
  {
    assert size * (r - q - 1) >= 0;
    assert size * r == size * q + size + size * (r - q - 1);
  }

  /** x lies in the q-th block exactly when its quotient is q. */
  lemma {:induction false} BlockIff(x: nat, q: int, size: nat, n: int)
    requires size * q <= x < size * q + size
    ensures q == n <==> size * n <= x < size * n + size
  {
    if q < n {
      MultiplesApart(size, q, n);
    } else if n < q {
      MultiplesApart(size, n, q);
    }
  }

  /** The element written for a target covers exactly what the target names. */
  lemma {:induction false} ElementCovers(k: Target, a: Addr)
    requires !k.Domain?
    ensures Covers(ElementOf(k), a) <==> TargetNames(k, a)
  {
    if k.Cidr? && SameFamily(k.prefix.addr, a) {
      var size := BlockSize(k.prefix);
      QuotientBounds(a.bits, size);
      BlockIff(a.bits, a.bits / size, size, k.prefix.addr.bits / size);
    }
    hide Pow2;
  }

  lemma {:induction false} SmallQuotient(x: nat, size: nat)
    requires x < size
    ensures x / size == 0
  {
  }

  /** A block of length 0 is the whole family; one of full length is a single address. */
  lemma {:induction false} BlockExtremes(p: Prefix, a: Addr)
    requires p.addr.bits < Pow2(Width(p.addr)) && a.bits < Pow2(Width(a))
    ensures p.len == 0 ==> (TargetNames(Cidr(p), a) <==> p.addr.V4? == a.V4?)
    ensures p.len == Width(p.addr) ==> (TargetNames(Cidr(p), a) <==> p.addr == a)
  {
    assert Pow2(0) == 1;
    hide Pow2;
    if p.len == 0 {
      assert BlockSize(p) == Pow2(Width(p.addr));
      SmallQuotient(p.addr.bits, BlockSize(p));
      assert BlockStart(p) == 0;
      hide BlockSize, BlockStart;
    } else if p.len == Width(p.addr) {
      assert BlockSize(p) == 1 && BlockStart(p) == p.addr.bits;
      hide BlockSize, BlockStart;
    }
  }

  /** There are 2^32 addresses of the one family and 2^128 of the other. */
  lemma {:induction false} FamilySizes()
    ensures Pow2(Width(V4(0))) == 0x1_0000_0000
    ensures Pow2(Width(V6(0))) == 0x1_0000_0000_0000_0000_0000_0000_0000_0000
  {
    assert Pow2(0) == 1 && Pow2(1) == 2;
    hide Pow2;
    Doubled(1, 2);
    Doubled(2, 4);
    Doubled(4, 16);
    Doubled(8, 0x100);
    Doubled(16, 0x1_0000);
    Doubled(32, 0x1_0000_0000);
    Doubled(64, 0x1_0000_0000_0000_0000);
  }

  lemma {:induction false} Doubled(n: nat, power: nat)
    requires Pow2(n) == power
    ensures Pow2(2 * n) == power * power
  {
    hide Pow2;
    PowersAdd(n, n);
    assert n + n == 2 * n;
  }

  lemma {:induction false} PowersAdd(m: nat, n: nat)
    ensures Pow2(m + n) == Pow2(m) * Pow2(n)
  {
    if n > 0 {
      PowersAdd(m, n - 1);
      assert Pow2(m + n) == 2 * Pow2(m + (n - 1));
    }
  }

  /** The bucket of an address's family covers it exactly when some rule names it. */
  lemma {:induction false} BucketCovers(rules: seq<Rule>, allow: bool, a: Addr)
    ensures AnyCovers(Bucket(rules, allow, a.V4?), a) <==> NamedBy(rules, allow, a)
  {
    hide InPrefix, TargetNames;
    if rules != [] {
      var n := |rules| - 1;
      var front, last := rules[..n], rules[n];
      BucketCovers(front, allow, a);
      CoversSnoc(Bucket(front, allow, a.V4?), last, allow, a);
      NamedSnoc(rules, allow, a);
    }
  }

  lemma {:induction false} CoversSnoc(es: seq<Element>, last: Rule, allow: bool, a: Addr)
    ensures AnyCovers(es + if InBucket(last, allow, a.V4?) then [ElementOf(last.kind)] else [], a)
      <==> AnyCovers(es, a) || RuleNames(last, allow, a)
  {
    CoveredFamily(last, a);
    if !last.kind.Domain? {
      ElementCovers(last.kind, a);
    }
    hide Covers, TargetNames;
    var out := es + if InBucket(last, allow, a.V4?) then [ElementOf(last.kind)] else [];
    if AnyCovers(es, a) {
      var i :| 0 <= i < |es| && Covers(es[i], a);
      assert Covers(out[i], a);
    }
    if RuleNames(last, allow, a) {
      assert Covers(out[|es|], a);
    }
  }

  lemma {:induction false} CoveredFamily(r: Rule, a: Addr)
    ensures !r.kind.Domain? && Covers(ElementOf(r.kind), a) ==> IsV4(ElementOf(r.kind)) == a.V4?
  {
  }

  lemma {:induction false} NamedSnoc(rules: seq<Rule>, allow: bool, a: Addr)
    requires rules != []
    ensures NamedBy(rules, allow, a) <==>
      NamedBy(rules[..|rules| - 1], allow, a) || RuleNames(rules[|rules| - 1], allow, a)
  {
    hide RuleNames;
    var front := rules[..|rules| - 1];
    if NamedBy(front, allow, a) {
      var i :| 0 <= i < |front| && RuleNames(front[i], allow, a);
      assert RuleNames(rules[i], allow, a);
    }
  }

  lemma {:induction false} BucketFamily(rules: seq<Rule>, allow: bool, v4: bool)
    ensures OfFamily(Bucket(rules, allow, v4), v4)
  {
    if rules != [] {
      BucketFamily(rules[..|rules| - 1], allow, v4);
    }
  }

  // ------------------------------------------------------------------
  // Tables
  // ------------------------------------------------------------------

  datatype SetName = AllowV4 | DenyV4 | AllowV6 | DenyV6 | DynV4 | DynV6 | DohV4 | DohV6

  predicate V4Set(n: SetName) {
    n.AllowV4? || n.DenyV4? || n.DynV4? || n.DohV4?
  }

  predicate OfFamily(es: seq<Element>, v4: bool) {
    forall e :: e in es ==> IsV4(e) == v4
  }

  datatype Proto = Tcp | Udp | OtherProto
  datatype Packet = Packet(established: bool, marked: bool, loopback: bool, proto: Proto, dport: nat, daddr: Addr)

  datatype Cond =
    | Established
    | Marked
    | Loopback
    | Dport(proto: Proto, port: nat)
    | InSet(name: SetName)
    | InSetDport(name: SetName, proto: Proto, port: nat)
    | Anything

  datatype Verdict = Accept | Drop
  datatype NftRule = NftRule(cond: Cond, verdict: Verdict)
  datatype Chain = Chain(policy: Verdict, rules: seq<NftRule>)
  type Sets = map<SetName, seq<Element>>
  datatype Table = Table(sets: Sets, chain: Option<Chain>)

  /** "ip daddr @set" holds of packets of the set's family whose destination is in the set. */
  predicate DestIn(sets: Sets, n: SetName, a: Addr) {
    V4Set(n) == a.V4? && n in sets && AnyCovers(sets[n], a)
  }

  predicate Holds(c: Cond, sets: Sets, k: Packet) {
    match c
    case Established => k.established
    case Marked => k.marked
    case Loopback => k.loopback
    case Dport(proto, port) => k.proto == proto && k.dport == port
    case InSet(n) => DestIn(sets, n, k.daddr)
    case InSetDport(n, proto, port) => DestIn(sets, n, k.daddr) && k.proto == proto && k.dport == port
    case Anything => true
  }

  /** The verdict of the first rule that holds. */
  function Judge(rules: seq<NftRule>, sets: Sets, k: Packet): Option<Verdict> {
    if rules == [] then None
    else if Holds(rules[0].cond, sets, k) then Some(rules[0].verdict)
    else Judge(rules[1..], sets, k)
  }

  predicate Accepts(t: Table, k: Packet) {
    t.chain.None?
    || match Judge(t.chain.value.rules, t.sets, k)
       case Some(v) => v.Accept?
       case None => t.chain.value.policy.Accept?
  }

  // ------------------------------------------------------------------
  // Scripts
  // ------------------------------------------------------------------

  datatype Command =
    | DeleteTable
    | AddTable
    | AddSet(name: SetName)
    | AddElements(name: SetName, elements: seq<Element>)
    | AddChain(policy: Verdict)
    | AddRule(rule: NftRule)

  /** What the kernel holds under the table's name, or why a script was refused. */
  datatype Outcome = Done(table: Option<Table>) | MissingTable | Refused

  predicate Declared(c: Cond, sets: Sets) {
    match c
    case InSet(n) => n in sets
    case InSetDport(n, _, _) => n in sets
    case _ => true
  }

  /** One command. Deleting or filling what is not there is an error. */
  function Exec(c: Command, now: Option<Table>): Outcome {
    if c.AddTable? then Done(if now.Some? then now else Some(Table(map[], None)))
    else if c.DeleteTable? then (if now.Some? then Done(None) else MissingTable)
    else if now.None? then Refused
    else
      var t := now.value;
      match c
      case AddSet(n) => Done(Some(if n in t.sets then t else t.(sets := t.sets[n := []])))
      case AddElements(n, es) =>
        if n in t.sets && OfFamily(es, V4Set(n)) then Done(Some(t.(sets := t.sets[n := t.sets[n] + es]))) else Refused
      case AddChain(policy) => Done(Some(if t.chain.Some? then t else t.(chain := Some(Chain(policy, [])))))
      case AddRule(r) =>
        if t.chain.Some? && Declared(r.cond, t.sets)
        then Done(Some(t.(chain := Some(t.chain.value.(rules := t.chain.value.rules + [r])))))
        else Refused
  }

  /** A script runs command by command and is refused as a whole at the first error. */
  function RunScript(script: seq<Command>, now: Option<Table>): Outcome {
    if script == [] then Done(now)
    else
      var first := Exec(script[0], now);
      if first.Done? then RunScript(script[1..], first.table) else first
  }

  lemma {:induction false} RunConcat(a: seq<Command>, b: seq<Command>, now: Option<Table>)
    ensures RunScript(a + b, now) == if RunScript(a, now).Done? then RunScript(b, RunScript(a, now).table)
      else RunScript(a, now)
  {
    hide Exec;
    if a == [] {
      assert a + b == b;
    } else {
      assert (a + b)[1..] == a[1..] + b;
      var first := Exec(a[0], now);
      if first.Done? {
        RunConcat(a[1..], b, first.table);
      }
    }
  }

  // ------------------------------------------------------------------
  // The ruleset of a policy
  // ------------------------------------------------------------------

  datatype Options = Options(blockDoT: bool, blockDoH443: bool, dohV4: seq<Element>, dohV6: seq<Element>)

  /** The block lists are split by family when they are read. */
  predicate ValidOptions(o: Options) {
    OfFamily(o.dohV4, true) && OfFamily(o.dohV6, false)
  }

  function Names(o: Options): seq<SetName> {
    [AllowV4, DenyV4, AllowV6, DenyV6, DynV4, DynV6]
    + (if o.dohV4 != [] then [DohV4] else [])
    + (if o.dohV6 != [] then [DohV6] else [])
  }

  function Filled(): seq<SetName> {
    [AllowV4, DenyV4, AllowV6, DenyV6, DohV4, DohV6]
  }

  function Contents(p: Policy, o: Options, n: SetName): seq<Element> {
    match n
    case AllowV4 => Bucket(p.rules, true, true)
    case DenyV4 => Bucket(p.rules, false, true)
    case AllowV6 => Bucket(p.rules, true, false)
    case DenyV6 => Bucket(p.rules, false, false)
    case DohV4 => o.dohV4
    case DohV6 => o.dohV6
    case DynV4 => []
    case DynV6 => []
  }

  function ChainPolicy(p: Policy): Verdict {
    if p.defaultAction == ALLOW then Accept else Drop
  }

  const BYPASS := [NftRule(Established, Accept), NftRule(Marked, Accept), NftRule(Loopback, Accept)]

  function DotRules(o: Options): seq<NftRule> {
    if o.blockDoT then [NftRule(Dport(Tcp, 853), Drop), NftRule(Dport(Udp, 853), Drop)] else []
  }

  /** Without a block list the drop is for every destination. */
  function DohRules(o: Options): seq<NftRule> {
    if !o.blockDoH443 then []
    else if o.dohV4 == [] && o.dohV6 == [] then [NftRule(Dport(Tcp, 443), Drop)]
    else (if o.dohV4 != [] then [NftRule(InSetDport(DohV4, Tcp, 443), Drop)] else [])
         + (if o.dohV6 != [] then [NftRule(InSetDport(DohV6, Tcp, 443), Drop)] else [])
  }

  function DnsRules(o: Options): seq<NftRule> {
    DotRules(o) + DohRules(o)
  }

  const SET_RULES := [
    NftRule(InSet(DenyV4), Drop), NftRule(InSet(DenyV6), Drop),
    NftRule(InSet(DynV4), Accept), NftRule(InSet(DynV6), Accept),
    NftRule(InSet(AllowV4), Accept), NftRule(InSet(AllowV6), Accept)]

  function ChainRules(p: Policy, o: Options): seq<NftRule> {
    BYPASS + DnsRules(o) + SET_RULES + (if ChainPolicy(p).Drop? then [NftRule(Anything, Drop)] else [])
  }

  function CompiledSets(p: Policy, o: Options): Sets {
    map n | n in Names(o) :: Contents(p, o, n)
  }

  /** The table a policy stands for. */
  function Compile(p: Policy, o: Options): Table {
    Table(CompiledSets(p, o), Some(Chain(ChainPolicy(p), ChainRules(p, o))))
  }

  function AddSets(names: seq<SetName>): seq<Command> {
    seq(|names|, i requires 0 <= i < |names| => AddSet(names[i]))
  }

  function AddRules(rules: seq<NftRule>): seq<Command> {
    seq(|rules|, i requires 0 <= i < |rules| => AddRule(rules[i]))
  }

  /** Sets without elements get no command. */
  function Fill(p: Policy, o: Options, names: seq<SetName>): seq<Command> {
    if names == [] then []
    else
      var n := |names| - 1;
      Fill(p, o, names[..n]) + Write(names[n], Contents(p, o, names[n]))
  }

  function Write(n: SetName, es: seq<Element>): seq<Command> {
    if es == [] then [] else [AddElements(n, es)]
  }

  function Script(p: Policy, o: Options): seq<Command> {
    [DeleteTable, AddTable] + AddSets(Names(o)) + Fill(p, o, Filled()) + [AddChain(ChainPolicy(p))]
      + AddRules(ChainRules(p, o))
  }

  // ------------------------------------------------------------------
  // Building the script
  // ------------------------------------------------------------------

  lemma {:induction false} AddSetsConcat(a: seq<SetName>, b: seq<SetName>)
    ensures AddSets(a + b) == AddSets(a) + AddSets(b)
  {
  }

  lemma {:induction false} AddRulesConcat(a: seq<NftRule>, b: seq<NftRule>)
    ensures AddRules(a + b) == AddRules(a) + AddRules(b)
  {
  }

  method DeclareSets(o: Options) returns (b: seq<Command>)
    ensures b == AddSets(Names(o))
  {
    var names := [AllowV4, DenyV4, AllowV6, DenyV6, DynV4, DynV6];
    b := [AddSet(AllowV4), AddSet(DenyV4), AddSet(AllowV6), AddSet(DenyV6), AddSet(DynV4), AddSet(DynV6)];
    assert b == AddSets(names);
    var v4 := if o.dohV4 != [] then [DohV4] else [];
    var v6 := if o.dohV6 != [] then [DohV6] else [];
    AddSetsConcat(names, v4);
    AddSetsConcat(names + v4, v6);
    if o.dohV4 != [] {
      b := b + [AddSet(DohV4)];
    }
    assert b == AddSets(names + v4);
    if o.dohV6 != [] {
      b := b + [AddSet(DohV6)];
    }
  }

  method WriteElements(b: seq<Command>, n: SetName, es: seq<Element>) returns (b': seq<Command>)
    ensures b' == b + Write(n, es)
  {
    if es == [] {
      return b;
    }
    b' := b + [AddElements(n, es)];
  }

  lemma {:induction false} FillSnoc(p: Policy, o: Options, names: seq<SetName>, n: SetName)
    ensures Fill(p, o, names + [n]) == Fill(p, o, names) + Write(n, Contents(p, o, n))
  {
    hide Contents;
    assert (names + [n])[..|names|] == names;
  }

  method WriteSets(p: Policy, o: Options) returns (b: seq<Command>)
    ensures b == Fill(p, o, Filled())
  {
    hide Bucket, Write;
    var allowV4, allowV6, denyV4, denyV6 := StaticIPSets(p);
    b := [];
    ghost var f0: seq<SetName> := [];
    ghost var f1 := f0 + [AllowV4];
    ghost var f2 := f1 + [DenyV4];
    ghost var f3 := f2 + [AllowV6];
    ghost var f4 := f3 + [DenyV6];
    ghost var f5 := f4 + [DohV4];
    assert Filled() == f5 + [DohV6];
    FillSnoc(p, o, f0, AllowV4);
    FillSnoc(p, o, f1, DenyV4);
    FillSnoc(p, o, f2, AllowV6);
    FillSnoc(p, o, f3, DenyV6);
    FillSnoc(p, o, f4, DohV4);
    FillSnoc(p, o, f5, DohV6);
    assert Fill(p, o, f0) == b;
    hide Fill;
    b := WriteElements(b, AllowV4, allowV4);
    b := WriteElements(b, DenyV4, denyV4);
    b := WriteElements(b, AllowV6, allowV6);
    b := WriteElements(b, DenyV6, denyV6);
    b := WriteElements(b, DohV4, o.dohV4);
    b := WriteElements(b, DohV6, o.dohV6);
  }

  method DnsDrops(o: Options) returns (b: seq<Command>)
    ensures b == AddRules(DnsRules(o))
  {
    b := [];
    if o.blockDoT {
      b := b + [AddRule(NftRule(Dport(Tcp, 853), Drop))];
      b := b + [AddRule(NftRule(Dport(Udp, 853), Drop))];
    }
    assert b == AddRules(DotRules(o));
    if o.blockDoH443 {
      if o.dohV4 == [] && o.dohV6 == [] {
        b := b + [AddRule(NftRule(Dport(Tcp, 443), Drop))];
      } else {
        if o.dohV4 != [] {
          b := b + [AddRule(NftRule(InSetDport(DohV4, Tcp, 443), Drop))];
        }
        if o.dohV6 != [] {
          b := b + [AddRule(NftRule(InSetDport(DohV6, Tcp, 443), Drop))];
        }
      }
    }
  }

  /** buildRuleset: the commands in the order they are written. */
  method BuildRuleset(p: Policy, o: Options) returns (b: seq<Command>)
    ensures b == Script(p, o)
  {
    hide DnsRules, Fill, Names, Filled;
    b := [DeleteTable, AddTable];
    var sets := DeclareSets(o);
    b := b + sets;
    var elements := WriteSets(p, o);
    b := b + elements;
    var chainPolicy := Drop;
    if p.defaultAction == ALLOW {
      chainPolicy := Accept;
    }
    b := b + [AddChain(chainPolicy)];
    ghost var head := b;
    b := b + [AddRule(NftRule(Established, Accept)), AddRule(NftRule(Marked, Accept)),
              AddRule(NftRule(Loopback, Accept))];
    assert b == head + AddRules(BYPASS);
    var drops := DnsDrops(o);
    b := b + drops;
    AddRulesConcat(BYPASS, DnsRules(o));
    assert b == head + AddRules(BYPASS + DnsRules(o));
    b := b + [AddRule(NftRule(InSet(DenyV4), Drop)), AddRule(NftRule(InSet(DenyV6), Drop))];
    b := b + [AddRule(NftRule(InSet(DynV4), Accept)), AddRule(NftRule(InSet(DynV6), Accept))];
    b := b + [AddRule(NftRule(InSet(AllowV4), Accept)), AddRule(NftRule(InSet(AllowV6), Accept))];
    AddRulesConcat(BYPASS + DnsRules(o), SET_RULES);
    assert b == head + AddRules(BYPASS + DnsRules(o) + SET_RULES) by {
      assert AddRules(SET_RULES) == [AddRule(SET_RULES[0]), AddRule(SET_RULES[1]), AddRule(SET_RULES[2]),
                                     AddRule(SET_RULES[3]), AddRule(SET_RULES[4]), AddRule(SET_RULES[5])];
    }
    ghost var tail := if ChainPolicy(p).Drop? then [NftRule(Anything, Drop)] else [];
    AddRulesConcat(BYPASS + DnsRules(o) + SET_RULES, tail);
    if chainPolicy == Drop {
      b := b + [AddRule(NftRule(Anything, Drop))];
    }
    assert b == head + AddRules(ChainRules(p, o));
  }

  // ------------------------------------------------------------------
  // Running the script
  // ------------------------------------------------------------------

  lemma {:induction false} RunOne(c: Command, now: Option<Table>)
    ensures RunScript([c], now) == Exec(c, now)
  {
    hide Exec;
    var first := Exec(c, now);
    if first.Done? {
      assert [c][1..] == [];
      assert RunScript([], first.table) == first;
    }
  }

  function Blank(names: seq<SetName>): Sets {
    map n | n in names :: []
  }

  lemma {:induction false} RunAddSets(names: seq<SetName>)
    ensures RunScript(AddSets(names), Some(Table(map[], None))) == Done(Some(Table(Blank(names), None)))
  {
    if names == [] {
      assert Blank(names) == map[];
    } else {
      var n := |names| - 1;
      RunAddSets(names[..n]);
      assert AddSets(names) == AddSets(names[..n]) + [AddSet(names[n])];
      RunConcat(AddSets(names[..n]), [AddSet(names[n])], Some(Table(map[], None)));
      RunOne(AddSet(names[n]), Some(Table(Blank(names[..n]), None)));
      assert names == names[..n] + [names[n]];
      assert Blank(names) == if names[n] in Blank(names[..n]) then Blank(names[..n])
        else Blank(names[..n])[names[n] := []];
      hide RunScript;
    }
  }

  /** The declared sets once the sets in `written` have their elements. */
  function Poured(p: Policy, o: Options, written: seq<SetName>): Sets {
    map n | n in Names(o) :: if n in written then Contents(p, o, n) else []
  }

  lemma {:induction false} ContentsFit(p: Policy, o: Options, n: SetName)
    requires ValidOptions(o)
    ensures OfFamily(Contents(p, o, n), V4Set(n))
    ensures Contents(p, o, n) != [] ==> n in Names(o)
  {
    BucketFamily(p.rules, true, true);
    BucketFamily(p.rules, true, false);
    BucketFamily(p.rules, false, true);
    BucketFamily(p.rules, false, false);
    hide Bucket;
    NamesHave(o);
    hide Names;
  }

  lemma {:induction false} PouredStep(p: Policy, o: Options, written: seq<SetName>, n: SetName)
    requires n !in written
    ensures n in Names(o) ==> n in Poured(p, o, written) && Poured(p, o, written)[n] == []
    ensures n in Names(o) ==> Poured(p, o, written + [n]) == Poured(p, o, written)[n := Contents(p, o, n)]
    ensures Contents(p, o, n) == [] ==> Poured(p, o, written + [n]) == Poured(p, o, written)
  {
    hide Contents, Names;
    assert forall m :: m in written + [n] <==> m in written || m == n;
  }

  lemma {:induction false} RunWrite(p: Policy, o: Options, written: seq<SetName>, n: SetName)
    requires ValidOptions(o) && n !in written
    ensures RunScript(Write(n, Contents(p, o, n)), Some(Table(Poured(p, o, written), None)))
         == Done(Some(Table(Poured(p, o, written + [n]), None)))
  {
    hide Contents, Names, Poured, OfFamily;
    ContentsFit(p, o, n);
    PouredStep(p, o, written, n);
    var es := Contents(p, o, n);
    var now := Poured(p, o, written);
    if es != [] {
      RunOne(AddElements(n, es), Some(Table(now, None)));
      assert now[n] + es == es;
      hide RunScript;
    }
  }

  lemma {:induction false} RunFill(p: Policy, o: Options, names: seq<SetName>)
    requires ValidOptions(o) && Distinct(names)
    ensures RunScript(Fill(p, o, names), Some(Table(Poured(p, o, []), None)))
         == Done(Some(Table(Poured(p, o, names), None)))
  {
    hide Contents, Names, Poured, Exec;
    if names != [] {
      var n := |names| - 1;
      var front, last := names[..n], names[n];
      assert names == front + [last];
      RunConcat(Fill(p, o, front), Write(last, Contents(p, o, last)), Some(Table(Poured(p, o, []), None)));
      RunFill(p, o, front);
      RunWrite(p, o, front, last);
      hide RunScript;
    }
  }

  lemma {:induction false} PouredAll(p: Policy, o: Options)
    ensures Poured(p, o, []) == Blank(Names(o))
    ensures Poured(p, o, Filled()) == CompiledSets(p, o)
  {
    hide Bucket;
    assert forall n: SetName :: n in Filled() <==> !n.DynV4? && !n.DynV6? by {
      var f := Filled();
      assert f[0] == AllowV4 && f[1] == DenyV4 && f[2] == AllowV6 && f[3] == DenyV6 && f[4] == DohV4 && f[5] == DohV6;
    }
  }

  lemma {:induction false} RunAddRules(rules: seq<NftRule>, sets: Sets, policy: Verdict)
    requires AllDeclared(rules, sets)
    ensures RunScript(AddRules(rules), Some(Table(sets, Some(Chain(policy, [])))))
         == Done(Some(Table(sets, Some(Chain(policy, rules)))))
  {
    var start := Some(Table(sets, Some(Chain(policy, []))));
    if rules != [] {
      var n := |rules| - 1;
      var front := rules[..n];
      RunAddRules(front, sets, policy);
      assert AddRules(rules) == AddRules(front) + [AddRule(rules[n])];
      RunConcat(AddRules(front), [AddRule(rules[n])], start);
      RunOne(AddRule(rules[n]), Some(Table(sets, Some(Chain(policy, front)))));
      assert front + [rules[n]] == rules;
      hide RunScript, Declared;
    }
  }

  predicate AllDeclared(rules: seq<NftRule>, sets: Sets) {
    forall i :: 0 <= i < |rules| ==> Declared(rules[i].cond, sets)
  }

  lemma {:induction false} NamesHave(o: Options)
    ensures forall n: SetName :: n in Names(o) <==> (n.DohV4? ==> o.dohV4 != []) && (n.DohV6? ==> o.dohV6 != [])
  {
    var base, v4, v6 := [AllowV4, DenyV4, AllowV6, DenyV6, DynV4, DynV6],
      if o.dohV4 != [] then [DohV4] else [], if o.dohV6 != [] then [DohV6] else [];
    assert base[0] == AllowV4 && base[1] == DenyV4 && base[2] == AllowV6 && base[3] == DenyV6 && base[4] == DynV4
      && base[5] == DynV6;
    assert forall n: SetName :: n in base <==> !n.DohV4? && !n.DohV6?;
    assert forall n: SetName :: n in v4 <==> n.DohV4? && o.dohV4 != [];
    assert forall n: SetName :: n in v6 <==> n.DohV6? && o.dohV6 != [];
    assert Names(o) == base + v4 + v6;
  }

  /** Every set the chain uses is declared. */
  lemma {:induction false} ChainIsDeclared(p: Policy, o: Options)
    ensures AllDeclared(ChainRules(p, o), CompiledSets(p, o))
  {
    hide Contents, Names;
    NamesHave(o);
    var sets := CompiledSets(p, o);
    assert AllDeclared(BYPASS, sets) && AllDeclared(DnsRules(o), sets) && AllDeclared(SET_RULES, sets);
    hide DnsRules, CompiledSets;
  }

  /** From the new table on, the script is never refused and builds the compiled table. */
  lemma {:induction false} BodyBuilds(p: Policy, o: Options)
    requires ValidOptions(o)
    ensures RunScript(Script(p, o)[2..], Some(Table(map[], None))) == Done(Some(Compile(p, o)))
  {
    hide RunScript, AddSets, AddRules, Fill, Names, Filled, ChainRules, Poured, Blank, CompiledSets;
    var s1, s2, s3, s4 := AddSets(Names(o)), Fill(p, o, Filled()), [AddChain(ChainPolicy(p))],
        AddRules(ChainRules(p, o));
    var start := Some(Table(map[], None));
    assert Script(p, o)[2..] == s1 + s2 + s3 + s4;
    RunAddSets(Names(o));
    PouredAll(p, o);
    FilledDistinct();
    RunFill(p, o, Filled());
    RunOne(AddChain(ChainPolicy(p)), Some(Table(CompiledSets(p, o), None)));
    ChainIsDeclared(p, o);
    RunAddRules(ChainRules(p, o), CompiledSets(p, o), ChainPolicy(p));
    RunConcat(s1, s2, start);
    RunConcat(s1 + s2, s3, start);
    RunConcat(s1 + s2 + s3, s4, start);
  }

  lemma {:induction false} FilledDistinct()
    ensures Distinct(Filled())
  {
  }

  /**
   * Whatever table was there, the script replaces it by the compiled table;
   * where there was none it fails on its first line, and without that line it
   * builds the same table.
   */
  lemma {:induction false} ScriptBuilds(p: Policy, o: Options, before: Option<Table>)
    requires ValidOptions(o)
    ensures before.Some? ==> RunScript(Script(p, o), before) == Done(Some(Compile(p, o)))
    ensures before.None? ==> RunScript(Script(p, o), before) == MissingTable
    ensures before.None? ==> RunScript(Script(p, o)[1..], before) == Done(Some(Compile(p, o)))
  {
    hide Compile;
    BodyBuilds(p, o);
    var script := Script(p, o);
    assert script[0] == DeleteTable && script[1] == AddTable && script[1..][1..] == script[2..]
      && script[1..][0] == AddTable;
    hide Script;
  }

  // ------------------------------------------------------------------
  // What the chain does
  // ------------------------------------------------------------------

  /** The compiled table once resolved addresses have been added to the dynamic sets. */
  function Learned(p: Policy, o: Options, dyn4: seq<Element>, dyn6: seq<Element>): Table {
    Compile(p, o).(sets := CompiledSets(p, o)[DynV4 := dyn4][DynV6 := dyn6])
  }

  predicate Bypasses(k: Packet) {
    k.established || k.marked || k.loopback
  }

  /** DNS over TLS, and DNS over HTTPS to the listed servers or to any if none is listed. */
  predicate DnsDropped(o: Options, k: Packet) {
    || (o.blockDoT && k.dport == 853 && (k.proto.Tcp? || k.proto.Udp?))
    || (o.blockDoH443 && k.dport == 443 && k.proto.Tcp?
        && ((o.dohV4 == [] && o.dohV6 == []) || AnyCovers(if k.daddr.V4? then o.dohV4 else o.dohV6, k.daddr)))
  }

  lemma {:induction false} JudgeConcat(a: seq<NftRule>, b: seq<NftRule>, sets: Sets, k: Packet)
    ensures Judge(a + b, sets, k) == if Judge(a, sets, k).Some? then Judge(a, sets, k) else Judge(b, sets, k)
  {
    hide Holds;
    if a == [] {
      assert a + b == b;
    } else {
      assert (a + b)[1..] == a[1..] + b;
      JudgeConcat(a[1..], b, sets, k);
    }
  }

  lemma {:induction false} JudgeCons(r: NftRule, rest: seq<NftRule>, sets: Sets, k: Packet)
    ensures Judge([r] + rest, sets, k) == if Holds(r.cond, sets, k) then Some(r.verdict) else Judge(rest, sets, k)
    ensures Judge([r], sets, k) == if Holds(r.cond, sets, k) then Some(r.verdict) else None
  {
    hide Holds;
    assert ([r] + rest)[1..] == rest;
    assert [r][1..] == [];
  }

  lemma {:induction false} JudgeBypass(sets: Sets, k: Packet)
    ensures Judge(BYPASS, sets, k) == if Bypasses(k) then Some(Accept) else None
  {
    JudgeCons(BYPASS[0], BYPASS[1..], sets, k);
    JudgeCons(BYPASS[1], BYPASS[2..], sets, k);
    JudgeCons(BYPASS[2], [], sets, k);
    hide Judge;
    assert BYPASS == [BYPASS[0]] + BYPASS[1..] && BYPASS[1..] == [BYPASS[1]] + BYPASS[2..]
      && BYPASS[2..] == [BYPASS[2]];
  }

  lemma {:induction false} JudgeTwo(a: NftRule, b: NftRule, sets: Sets, k: Packet)
    ensures Judge([a, b], sets, k) ==
      if Holds(a.cond, sets, k) then Some(a.verdict) else if Holds(b.cond, sets, k) then Some(b.verdict) else None
  {
    JudgeCons(a, [b], sets, k);
    JudgeCons(b, [], sets, k);
    hide Judge, Holds;
    assert [a, b] == [a] + [b];
  }

  lemma {:induction false} JudgeDot(o: Options, sets: Sets, k: Packet)
    ensures Judge(DotRules(o), sets, k) ==
      if o.blockDoT && k.dport == 853 && (k.proto.Tcp? || k.proto.Udp?) then Some(Drop) else None
  {
    JudgeTwo(NftRule(Dport(Tcp, 853), Drop), NftRule(Dport(Udp, 853), Drop), sets, k);
  }

  lemma {:induction false} JudgeDoh(o: Options, sets: Sets, k: Packet)
    requires o.dohV4 != [] ==> DohV4 in sets && sets[DohV4] == o.dohV4
    requires o.dohV6 != [] ==> DohV6 in sets && sets[DohV6] == o.dohV6
    ensures Judge(DohRules(o), sets, k) ==
      if o.blockDoH443 && k.dport == 443 && k.proto.Tcp?
         && ((o.dohV4 == [] && o.dohV6 == []) || AnyCovers(if k.daddr.V4? then o.dohV4 else o.dohV6, k.daddr))
      then Some(Drop) else None
  {
    var all, v4, v6 := NftRule(Dport(Tcp, 443), Drop), NftRule(InSetDport(DohV4, Tcp, 443), Drop),
        NftRule(InSetDport(DohV6, Tcp, 443), Drop);
    JudgeCons(all, [], sets, k);
    JudgeCons(v4, [], sets, k);
    JudgeCons(v6, [], sets, k);
    JudgeTwo(v4, v6, sets, k);
    assert Judge([], sets, k) == None;
    hide Judge, Covers;
    assert [v4] + [v6] == [v4, v6] && [v4] + [] == [v4] && [] + [v6] == [v6];
  }

  lemma {:induction false} JudgeSets(sets: Sets, k: Packet)
    ensures Judge(SET_RULES, sets, k) ==
      if DestIn(sets, DenyV4, k.daddr) || DestIn(sets, DenyV6, k.daddr) then Some(Drop)
      else if DestIn(sets, DynV4, k.daddr) || DestIn(sets, DynV6, k.daddr)
              || DestIn(sets, AllowV4, k.daddr) || DestIn(sets, AllowV6, k.daddr) then Some(Accept)
      else None
  {
    JudgeTwo(SET_RULES[0], SET_RULES[1], sets, k);
    JudgeTwo(SET_RULES[2], SET_RULES[3], sets, k);
    JudgeTwo(SET_RULES[4], SET_RULES[5], sets, k);
    var a, b, c := [SET_RULES[0], SET_RULES[1]], [SET_RULES[2], SET_RULES[3]], [SET_RULES[4], SET_RULES[5]];
    JudgeConcat(a, b, sets, k);
    JudgeConcat(a + b, c, sets, k);
    hide Judge, DestIn;
    assert SET_RULES == a + b + c;
  }

  /**
   * The chain means the policy. A packet that does not bypass the chain and is
   * not a blocked DNS transport is dropped if any deny rule covers its
   * destination, wherever that rule stands; otherwise it is accepted exactly
   * when it was learned, is covered by an allow rule, or the default is allow.
   */
  lemma {:induction false} ChainMeansPolicy(p: Policy, o: Options, dyn4: seq<Element>, dyn6: seq<Element>, k: Packet)
    ensures Accepts(Learned(p, o, dyn4, dyn6), k) <==>
      || Bypasses(k)
      || (&& !DnsDropped(o, k)
          && !NamedBy(p.rules, false, k.daddr)
          && (|| AnyCovers(if k.daddr.V4? then dyn4 else dyn6, k.daddr)
              || NamedBy(p.rules, true, k.daddr)
              || p.defaultAction == ALLOW))
  {
    hide Judge, Holds, AnyCovers, NamedBy, Bucket, Names, DotRules, DohRules;
    var t := Learned(p, o, dyn4, dyn6);
    var tail := if ChainPolicy(p).Drop? then [NftRule(Anything, Drop)] else [];
    NamesHave(o);
    BucketCovers(p.rules, true, k.daddr);
    BucketCovers(p.rules, false, k.daddr);
    JudgeBypass(t.sets, k);
    JudgeDot(o, t.sets, k);
    JudgeDoh(o, t.sets, k);
    JudgeSets(t.sets, k);
    JudgeTail(tail, t.sets, k);
    JudgeConcat(DotRules(o), DohRules(o), t.sets, k);
    JudgeConcat(BYPASS, DnsRules(o), t.sets, k);
    JudgeConcat(BYPASS + DnsRules(o), SET_RULES, t.sets, k);
    JudgeConcat(BYPASS + DnsRules(o) + SET_RULES, tail, t.sets, k);
    hide DnsRules;
  }

  lemma {:induction false} JudgeTail(tail: seq<NftRule>, sets: Sets, k: Packet)
    requires tail == [] || tail == [NftRule(Anything, Drop)]
    ensures Judge(tail, sets, k) == if tail == [] then None else Some(Drop)
  {
  }

  /** The DNS proxy forwards a name unless the policy says deny. */
  predicate Forwards(p: Policy, domain: string) {
    Decide(p.rules, p.defaultAction, domain) != DENY
  }

  /**
   * The proxy and the chain read the default alike, that is, agree on every
   * name and every destination no rule speaks of, if and only if the default
   * is one of the two actions. Normalization does not check this.
   */
  lemma {:induction false} DefaultsAgreeIff(p: Policy, o: Options, domain: string, k: Packet)
    requires p.defaultAction != ""
    requires FirstMatch(p.rules, CanonicalName(domain)).None?
    requires !NamedBy(p.rules, false, k.daddr) && !NamedBy(p.rules, true, k.daddr)
    requires !Bypasses(k) && !DnsDropped(o, k)
    ensures (Forwards(p, domain) == Accepts(Learned(p, o, [], []), k)) <==>
      p.defaultAction == ALLOW || p.defaultAction == DENY
  {
    ChainMeansPolicy(p, o, [], [], k);
    hide NamedBy, DnsDropped, FirstMatch, Covers, Accepts, CanonicalName;
  }

  lemma {:induction false} AuditIsNormal()
    ensures NormalAction("audit") == "audit" && "audit" != ALLOW && "audit" != DENY && "audit" != ""
  {
    assert TrimSpace("audit") == "audit" && ToLower("audit") == "audit";
    assert "audit"[1] != ALLOW[1] && "audit"[0] != DENY[0];
  }

  /**
   * The policy {"defaultAction": "audit"} is accepted; the proxy forwards every
   * name and the chain drops every destination.
   */
  lemma {:induction false} ThirdDefaultSplits(o: Options, classify: Classifier, domain: string, daddr: Addr)
    returns (k: Packet)
    ensures ValidRules([]) && k.daddr == daddr
    ensures var p := Policy(NormalRules([], classify), NormalAction("audit"));
      Forwards(p, domain) && !Accepts(Learned(p, o, [], []), k)
  {
    k := Packet(false, false, false, Tcp, 80, daddr);
    AuditIsNormal();
    hide NormalAction;
    var p := Policy([], "audit");
    assert NormalRules([], classify) == [];
    assert FirstMatch([], CanonicalName(domain)) == None;
    assert !DnsDropped(o, k);
    DefaultsAgreeIff(p, o, domain, k);
    hide FirstMatch, Accepts, Learned, CanonicalName, DnsDropped;
  }
}
