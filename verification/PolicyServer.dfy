/**
 * The policy server: POST replaces the policy, PATCH merges into it, and the
 * DNS proxy and the nft table are changed together under one lock.
 */
module PolicyServer {
  import opened Common
  import opened EgressPolicy
  import opened NftRuleset

  /** Body of a POST. Blank text resets; null and the empty object parse to the same policy. */
  datatype PostBody = UnreadablePost | BlankPost | BadPost | EmptyPost | PolicyPost(raw: RawPolicy)

  datatype PatchBody = UnreadablePatch | BlankPatch | BadPatch | RulesPatch(rules: seq<RawRule>)

  /** What the kernel answers to the script and to its retry, if it gets that far. */
  datatype Kernel = Kernel(first: bool, retry: bool)

  datatype Request =
    | Post(post: PostBody, kernel: Kernel)
    | Patch(patch: PatchBody, kernel: Kernel)
    | Resolved(addrs: seq<Addr>, works: bool)
    | Lapse(dyn4: seq<Element>, dyn6: seq<Element>)

  /** Fixed at start-up. */
  datatype Config = Config(nft: bool, options: Options, nameservers: seq<Addr>, classify: Classifier,
                           show: Addr -> string)

  datatype State = State(policy: Policy, table: Option<Table>)

  // ------------------------------------------------------------------
  // Nameservers
  // ------------------------------------------------------------------

  function NameserverRules(ips: seq<Addr>, show: Addr -> string): seq<Rule> {
    seq(|ips|, i requires 0 <= i < |ips| => Rule(ALLOW, show(ips[i]), Ip(ips[i])))
  }

  function Extended(p: Policy, c: Config): Policy {
    p.(rules := p.rules + NameserverRules(c.nameservers, c.show))
  }

  /** WithExtraAllowIPs works on a copy. */
  method WithExtraAllowIPs(p: Policy, c: Config) returns (out: Policy)
    ensures out == Extended(p, c)
  {
    if c.nameservers == [] {
      assert Extended(p, c).rules == p.rules;
      return p;
    }
    var rules := p.rules;
    var i := 0;
    while i < |c.nameservers|
      invariant 0 <= i <= |c.nameservers|
      invariant rules == p.rules + NameserverRules(c.nameservers, c.show)[..i]
    {
      rules := rules + [Rule(ALLOW, c.show(c.nameservers[i]), Ip(c.nameservers[i]))];
      i := i + 1;
    }
    out := p.(rules := rules);
  }

  // ------------------------------------------------------------------
  // Steps
  // ------------------------------------------------------------------

  function Normalized(raw: RawPolicy, classify: Classifier): Option<Policy> {
    if ValidRules(raw.rules) then Some(Policy(NormalRules(raw.rules, classify), NormalAction(raw.defaultAction)))
    else None
  }

  /** The policy a POST asks for. */
  function Replacement(b: PostBody, classify: Classifier): Option<Policy> {
    match b
    case BlankPost => Some(DENY_ALL)
    case EmptyPost => Some(DENY_ALL)
    case PolicyPost(raw) => Normalized(raw, classify)
    case _ => None
  }

  /** The policy a PATCH asks for. */
  function Patched(p: Policy, b: PatchBody, classify: Classifier): Option<Policy> {
    if b.RulesPatch? && b.rules != []
    then Normalized(RawPolicy(Merged(RawRules(p.rules), b.rules), p.defaultAction), classify)
    else None
  }

  /** Whether rebuilding the table works. */
  predicate Applies(table: Option<Table>, k: Kernel) {
    k.first && (table.Some? || k.retry)
  }

  function Install(s: State, wanted: Option<Policy>, k: Kernel, c: Config): State {
    if wanted.None? then s
    else if !c.nft then s.(policy := wanted.value)
    else if Applies(s.table, k) then State(wanted.value, Some(Compile(Extended(wanted.value, c), c.options)))
    else s
  }

  function Singles(addrs: seq<Addr>, v4: bool): seq<Element> {
    if addrs == [] then []
    else
      var n := |addrs| - 1;
      Singles(addrs[..n], v4) + if addrs[n].V4? == v4 then [Single(addrs[n])] else []
  }

  predicate HasDyn(table: Option<Table>) {
    table.Some? && DynV4 in table.value.sets && DynV6 in table.value.sets
  }

  function WithDyn(t: Table, dyn4: seq<Element>, dyn6: seq<Element>): Table {
    t.(sets := t.sets[DynV4 := dyn4][DynV6 := dyn6])
  }

  function Learn(table: Option<Table>, addrs: seq<Addr>): Option<Table> {
    if HasDyn(table)
    then Some(WithDyn(table.value, table.value.sets[DynV4] + Singles(addrs, true),
                      table.value.sets[DynV6] + Singles(addrs, false)))
    else table
  }

  function Step(s: State, r: Request, c: Config): State {
    match r
    case Post(b, k) => Install(s, Replacement(b, c.classify), k, c)
    case Patch(b, k) => Install(s, Patched(s.policy, b, c.classify), k, c)
    case Resolved(addrs, works) => if works && c.nft then s.(table := Learn(s.table, addrs)) else s
    case Lapse(dyn4, dyn6) => if HasDyn(s.table) then s.(table := Some(WithDyn(s.table.value, dyn4, dyn6))) else s
  }

  // ------------------------------------------------------------------
  // The server
  // ------------------------------------------------------------------

  method RemoveDeleteTableLine(script: seq<Command>) returns (out: seq<Command>)
    ensures out == WithoutDelete(script)
  {
    out := [];
    var i := 0;
    while i < |script|
      invariant 0 <= i <= |script|
      invariant out == WithoutDelete(script[..i])
    {
      assert script[..i + 1][..i] == script[..i];
      if !script[i].DeleteTable? {
        out := out + [script[i]];
      }
      i := i + 1;
    }
    assert script[..i] == script;
  }

  function WithoutDelete(script: seq<Command>): seq<Command> {
    if script == [] then []
    else
      var n := |script| - 1;
      WithoutDelete(script[..n]) + if script[n].DeleteTable? then [] else [script[n]]
  }

  lemma {:induction false} NothingToDelete(script: seq<Command>, first: Command, k: nat)
    requires forall i :: 0 <= i < |script| ==> !script[i].DeleteTable?
    requires first.DeleteTable? && k <= |script|
    ensures WithoutDelete([first] + script[..k]) == script[..k]
  {
    var s := [first] + script[..k];
    if k == 0 {
      assert s[..0] == [] && s == [first];
      assert WithoutDelete(s[..0]) == [];
    } else {
      NothingToDelete(script, first, k - 1);
      assert s[..|s| - 1] == [first] + script[..k - 1];
      assert script[..k] == script[..k - 1] + [script[k - 1]];
    }
  }

  lemma {:induction false} FillDeletesNothing(p: Policy, o: Options, names: seq<SetName>)
    ensures forall i :: 0 <= i < |Fill(p, o, names)| ==> !Fill(p, o, names)[i].DeleteTable?
  {
    hide Contents;
    if names != [] {
      FillDeletesNothing(p, o, names[..|names| - 1]);
    }
  }

  /** The fallback script is the script without its first line. */
  lemma {:induction false} FallbackIs(p: Policy, o: Options)
    ensures WithoutDelete(Script(p, o)) == Script(p, o)[1..]
    ensures WithoutDelete(Script(p, o)) != Script(p, o)
  {
    hide Names, Filled, ChainRules, Fill, WithoutDelete;
    var script := Script(p, o);
    FillDeletesNothing(p, o, Filled());
    assert script[0] == DeleteTable;
    var s1, s2, s3, s4 := AddSets(Names(o)), Fill(p, o, Filled()), [AddChain(ChainPolicy(p))],
        AddRules(ChainRules(p, o));
    assert script[1..] == [AddTable] + s1 + s2 + s3 + s4;
    assert script == [DeleteTable] + script[1..];
    assert script[1..][..|script| - 1] == script[1..];
    NothingToDelete(script[1..], DeleteTable, |script| - 1);
  }

  class Server {
    const config: Config
    var policy: Policy
    var table: Option<Table>

    constructor (config: Config, policy: Policy, table: Option<Table>)
      ensures this.config == config && this.policy == policy && this.table == table
    {
      this.config, this.policy, this.table := config, policy, table;
    }

    ghost function Now(): State
      reads this
    {
      State(policy, table)
    }

    /** One transaction: the table changes only if every command works. */
    method RunNft(script: seq<Command>, works: bool) returns (r: Outcome)
      modifies this`table
      ensures r == if works then RunScript(script, old(table)) else Refused
      ensures table == if r.Done? then r.table else old(table)
    {
      if !works {
        return Refused;
      }
      r := RunScript(script, table);
      if r.Done? {
        table := r.table;
      }
    }

    /** ApplyStatic rebuilds the table, with a second try on a host that has none. */
    method ApplyStatic(p: Policy, k: Kernel) returns (ok: bool)
      requires ValidOptions(config.options)
      modifies this`table
      ensures ok == Applies(old(table), k)
      ensures table == if ok then Some(Compile(p, config.options)) else old(table)
    {
      hide RunScript, Script, Compile, WithoutDelete, ValidOptions;
      var script := BuildRuleset(p, config.options);
      ScriptBuilds(p, config.options, table);
      FallbackIs(p, config.options);
      var r := RunNft(script, k.first);
      if r.Done? {
        return true;
      }
      if r.MissingTable? {
        var fallback := RemoveDeleteTableLine(script);
        if fallback != script {
          r := RunNft(fallback, k.retry);
          if r.Done? {
            return true;
          }
        }
      }
      ok := false;
    }

    /** setupNft: start-up goes on only if the initial policy could be applied. */
    method SetupNft(k: Kernel) returns (ok: bool)
      requires ValidOptions(config.options) && Normal(policy, config.classify)
      modifies this`table
      ensures ok == (config.nft ==> Applies(old(table), k))
      ensures ok ==> InStep(Now(), config)
    {
      hide Compile, ValidOptions, Extended, Normal;
      ok := true;
      if config.nft {
        var extended := WithExtraAllowIPs(policy, config);
        ok := ApplyStatic(extended, k);
        CompiledIsLearned(extended, config.options);
        hide Learned;
      }
    }

    /** UpdatePolicy fills in the default. */
    method UpdatePolicy(p: Policy)
      modifies this`policy
      ensures policy == if p.defaultAction == "" then p.(defaultAction := DENY) else p
    {
      policy := if p.defaultAction == "" then p.(defaultAction := DENY) else p;
    }

    /** The common end of the handlers: nft first, the proxy only if nft took it. */
    method Replace(p: Policy, k: Kernel) returns (ok: bool)
      requires ValidOptions(config.options) && p.defaultAction != ""
      modifies this
      ensures ok == (config.nft ==> Applies(old(table), k))
      ensures Now() == Install(old(Now()), Some(p), k, config)
    {
      hide Compile, ValidOptions, Extended;
      ok := true;
      if config.nft {
        var extended := WithExtraAllowIPs(p, config);
        ok := ApplyStatic(extended, k);
        if !ok {
          return;
        }
      }
      UpdatePolicy(p);
    }

    /** handlePost. */
    method HandlePost(b: PostBody, k: Kernel) returns (ok: bool)
      requires ValidOptions(config.options)
      modifies this
      ensures Now() == Step(old(Now()), Post(b, k), config)
      ensures ok <==> Replacement(b, config.classify).Some? && (config.nft ==> Applies(old(table), k))
    {
      hide ValidOptions, Install, NormalRules, ValidRules, NormalAction;
      match b
      case UnreadablePost =>
        InstallNothing(Now(), k, config);
        ok := false;
      case BadPost =>
        InstallNothing(Now(), k, config);
        ok := false;
      case BlankPost =>
        ok := Replace(DENY_ALL, k);
      case EmptyPost =>
        ok := Replace(DENY_ALL, k);
      case PolicyPost(raw) =>
        var parsed := NormalizePolicy(raw, config.classify);
        if parsed.None? {
          InstallNothing(Now(), k, config);
          return false;
        }
        ActionNotEmpty(raw.defaultAction);
        ok := Replace(parsed.value, k);
    }

    /** handlePatch. */
    method HandlePatch(b: PatchBody, k: Kernel) returns (ok: bool)
      requires ValidOptions(config.options)
      modifies this
      ensures Now() == Step(old(Now()), Patch(b, k), config)
      ensures ok <==> Patched(old(policy), b, config.classify).Some? && (config.nft ==> Applies(old(table), k))
    {
      hide ValidOptions, Install, NormalRules, ValidRules, NormalAction, Merged;
      InstallNothing(Now(), k, config);
      if !b.RulesPatch? || b.rules == [] {
        return false;
      }
      var merged := MergeEgressRules(RawRules(policy.rules), b.rules);
      var parsed := NormalizePolicy(RawPolicy(merged, policy.defaultAction), config.classify);
      if parsed.None? {
        return false;
      }
      ActionNotEmpty(policy.defaultAction);
      ok := Replace(parsed.value, k);
    }

    /** AddResolvedIPs splits the addresses by family and adds each batch. */
    method AddResolvedIPs(addrs: seq<Addr>, works: bool)
      requires table.Some? ==> HasDyn(table)
      modifies this`table
      ensures Now() == Step(old(Now()), Resolved(addrs, works), config)
    {
      if !config.nft {
        return;
      }
      if addrs == [] {
        assert Learn(table, addrs) == table by {
          LearnNothing(table);
        }
        return;
      }
      var v4: seq<Element>, v6: seq<Element> := [], [];
      var i := 0;
      while i < |addrs|
        invariant 0 <= i <= |addrs|
        invariant v4 == Singles(addrs[..i], true) && v6 == Singles(addrs[..i], false)
      {
        assert addrs[..i + 1][..i] == addrs[..i];
        if addrs[i].V4? {
          v4 := v4 + [Single(addrs[i])];
        } else {
          v6 := v6 + [Single(addrs[i])];
        }
        i := i + 1;
      }
      assert addrs[..i] == addrs;
      var script := [];
      script := if v4 != [] then script + [AddElements(DynV4, v4)] else script;
      script := if v6 != [] then script + [AddElements(DynV6, v6)] else script;
      assert script == LearnScript(v4, v6);
      if table.Some? {
        LearnIs(table, addrs);
      } else {
        LearnNowhere(v4, v6);
        if script == [] {
          return;
        }
      }
      hide LearnScript, RunScript, Singles;
      var _ := RunNft(script, works);
    }
  }

  lemma {:induction false} InstallNothing(s: State, k: Kernel, c: Config)
    ensures Install(s, None, k, c) == s
  {
  }

  lemma {:induction false} ActionNotEmpty(a: string)
    ensures NormalAction(a) != ""
  {
  }

  lemma {:induction false} LearnNothing(table: Option<Table>)
    ensures Learn(table, []) == table
  {
    if HasDyn(table) {
      var t := table.value;
      assert t.sets[DynV4] + [] == t.sets[DynV4] && t.sets[DynV6] + [] == t.sets[DynV6];
      assert t.sets[DynV4 := t.sets[DynV4]][DynV6 := t.sets[DynV6]] == t.sets;
    }
  }

  lemma {:induction false} SinglesFamily(addrs: seq<Addr>, v4: bool)
    ensures OfFamily(Singles(addrs, v4), v4)
  {
    if addrs != [] {
      SinglesFamily(addrs[..|addrs| - 1], v4);
    }
  }

  function LearnScript(v4: seq<Element>, v6: seq<Element>): seq<Command> {
    (if v4 != [] then [AddElements(DynV4, v4)] else []) + (if v6 != [] then [AddElements(DynV6, v6)] else [])
  }

  lemma {:induction false} LearnNowhere(v4: seq<Element>, v6: seq<Element>)
    ensures !RunScript(LearnScript(v4, v6), None).Done? || LearnScript(v4, v6) == []
  {
  }

  /** The script for resolved addresses, run on a table with dynamic sets. */
  lemma {:induction false} LearnIs(table: Option<Table>, addrs: seq<Addr>)
    requires HasDyn(table)
    ensures RunScript(LearnScript(Singles(addrs, true), Singles(addrs, false)), table) == Done(Learn(table, addrs))
  {
    var t, v4, v6 := table.value, Singles(addrs, true), Singles(addrs, false);
    SinglesFamily(addrs, true);
    SinglesFamily(addrs, false);
    hide Singles, OfFamily;
    var s4, s6 := if v4 != [] then [AddElements(DynV4, v4)] else [], if v6 != [] then [AddElements(DynV6, v6)] else [];
    var t4 := t.(sets := t.sets[DynV4 := t.sets[DynV4] + v4]);
    RunOne(AddElements(DynV4, v4), table);
    RunOne(AddElements(DynV6, v6), Some(t4));
    RunConcat(s4, s6, table);
    assert t.sets[DynV4] + [] == t.sets[DynV4] && t.sets[DynV6] + [] == t.sets[DynV6];
    assert v4 == [] ==> t4.sets == t.sets;
    assert v6 == [] ==> t4.sets[DynV6 := t.sets[DynV6] + v6] == t4.sets;
  }

  // ------------------------------------------------------------------
  // Runs
  // ------------------------------------------------------------------

  function Run(s: State, rs: seq<Request>, c: Config): State {
    if rs == [] then s else Step(Run(s, rs[..|rs| - 1], c), rs[|rs| - 1], c)
  }

  /**
   * The proxy and nft agree: the stored policy is a normal one and the table is
   * its compilation together with the nameservers, up to the dynamic sets.
   */
  ghost predicate InStep(s: State, c: Config) {
    && Normal(s.policy, c.classify)
    && (c.nft ==>
          && HasDyn(s.table)
          && s.table.value == Learned(Extended(s.policy, c), c.options, s.table.value.sets[DynV4],
                                      s.table.value.sets[DynV6]))
  }

  lemma {:induction false} CompiledIsLearned(p: Policy, o: Options)
    ensures HasDyn(Some(Compile(p, o)))
    ensures Compile(p, o) == Learned(p, o, [], [])
    ensures Compile(p, o).sets[DynV4] == [] && Compile(p, o).sets[DynV6] == []
  {
    hide Bucket, Names, ChainRules;
    NamesHave(o);
    var sets := CompiledSets(p, o);
    assert sets[DynV4] == [] && sets[DynV6] == [];
    assert sets[DynV4 := []][DynV6 := []] == sets;
  }

  lemma {:induction false} DynOnlyKeepsStep(s: State, c: Config, dyn4: seq<Element>, dyn6: seq<Element>)
    requires InStep(s, c) && c.nft
    ensures InStep(s.(table := Some(WithDyn(s.table.value, dyn4, dyn6))), c)
  {
    hide Normal, CompiledSets, ChainRules, Extended;
    var t := s.table.value;
    var base := CompiledSets(Extended(s.policy, c), c.options);
    assert t.sets == base[DynV4 := t.sets[DynV4]][DynV6 := t.sets[DynV6]];
    assert t.sets[DynV4 := dyn4][DynV6 := dyn6] == base[DynV4 := dyn4][DynV6 := dyn6];
  }

  lemma {:induction false} DenyAllIsNormal(classify: Classifier)
    ensures Normal(DENY_ALL, classify)
  {
    ActionTexts();
  }

  lemma {:induction false} InstallKeepsStep(s: State, wanted: Option<Policy>, k: Kernel, c: Config)
    requires InStep(s, c)
    requires wanted.Some? ==> Normal(wanted.value, c.classify)
    ensures InStep(Install(s, wanted, k, c), c)
  {
    hide Normal, Compile, Extended;
    if wanted.Some? {
      CompiledIsLearned(Extended(wanted.value, c), c.options);
      hide Learned;
    }
  }

  lemma {:induction false} WantedIsNormal(raw: RawPolicy, classify: Classifier)
    ensures Normalized(raw, classify).Some? ==> Normal(Normalized(raw, classify).value, classify)
  {
    hide Normal, NormalRules, NormalAction;
    if ValidRules(raw.rules) {
      NormalizedIsNormal(raw, classify);
    }
  }

  /** Every request, rejected, failed or accepted, keeps the proxy and nft in step. */
  lemma {:induction false} StepKeepsStep(s: State, r: Request, c: Config)
    requires InStep(s, c)
    ensures InStep(Step(s, r, c), c)
  {
    hide InStep, Install, Normalized, WithDyn, Normal;
    match r
    case Post(b, k) =>
      if b.PolicyPost? {
        WantedIsNormal(b.raw, c.classify);
      }
      DenyAllIsNormal(c.classify);
      InstallKeepsStep(s, Replacement(b, c.classify), k, c);
    case Patch(b, k) =>
      if b.RulesPatch? {
        WantedIsNormal(RawPolicy(Merged(RawRules(s.policy.rules), b.rules), s.policy.defaultAction), c.classify);
      }
      InstallKeepsStep(s, Patched(s.policy, b, c.classify), k, c);
    case Resolved(addrs, works) =>
      if works && c.nft && HasDyn(s.table) {
        DynOnlyKeepsStep(s, c, s.table.value.sets[DynV4] + Singles(addrs, true),
                         s.table.value.sets[DynV6] + Singles(addrs, false));
      }
    case Lapse(dyn4, dyn6) =>
      if HasDyn(s.table) {
        LapseKeepsStep(s, c, dyn4, dyn6);
      }
  }

  lemma {:induction false} LapseKeepsStep(s: State, c: Config, dyn4: seq<Element>, dyn6: seq<Element>)
    requires InStep(s, c) && HasDyn(s.table)
    ensures InStep(s.(table := Some(WithDyn(s.table.value, dyn4, dyn6))), c)
  {
    hide Normal, Learned, WithDyn;
    if c.nft {
      DynOnlyKeepsStep(s, c, dyn4, dyn6);
    }
  }

  /** Whenever the lock is free, the table is the compilation of the proxy's policy plus nameservers. */
  lemma {:induction false} RunsStayInStep(s: State, rs: seq<Request>, c: Config)
    requires InStep(s, c)
    ensures InStep(Run(s, rs, c), c)
  {
    hide InStep, Step;
    if rs != [] {
      RunsStayInStep(s, rs[..|rs| - 1], c);
      StepKeepsStep(Run(s, rs[..|rs| - 1], c), rs[|rs| - 1], c);
    }
  }

  /**
   * Over every run the stored policy has a default, so the default that the
   * proxy would fill in is never used and it holds exactly what was accepted.
   */
  lemma {:induction false} StoredDefaultIsSet(s: State, rs: seq<Request>, c: Config)
    requires InStep(s, c)
    ensures Run(s, rs, c).policy.defaultAction != ""
  {
    RunsStayInStep(s, rs, c);
    var action := Run(s, rs, c).policy.defaultAction;
    assert NormalAction(action) == action;
    ActionNotEmpty(action);
    hide NormalAction, Run, InStep;
  }

  predicate IsNameserver(c: Config, a: Addr) {
    a in c.nameservers
  }

  lemma {:induction false} ExtendedNames(p: Policy, c: Config, a: Addr)
    ensures NamedBy(Extended(p, c).rules, false, a) <==> NamedBy(p.rules, false, a)
    ensures NamedBy(Extended(p, c).rules, true, a) <==> NamedBy(p.rules, true, a) || IsNameserver(c, a)
  {
    hide Covers;
    var extra, rules := NameserverRules(c.nameservers, c.show), Extended(p, c).rules;
    assert forall i :: 0 <= i < |p.rules| ==> rules[i] == p.rules[i];
    forall i | 0 <= i < |extra|
      ensures rules[|p.rules| + i] == extra[i]
      ensures !RuleNames(extra[i], false, a) && (RuleNames(extra[i], true, a) <==> c.nameservers[i] == a)
    {
      ExactlyItself(c.nameservers[i], a);
    }
    hide RuleNames;
    forall allow | NamedBy(p.rules, allow, a)
      ensures NamedBy(rules, allow, a)
    {
      var i :| 0 <= i < |p.rules| && RuleNames(p.rules[i], allow, a);
      assert RuleNames(rules[i], allow, a);
    }
    forall allow | NamedBy(rules, allow, a)
      ensures NamedBy(p.rules, allow, a) || (allow && IsNameserver(c, a))
    {
      var i :| 0 <= i < |rules| && RuleNames(rules[i], allow, a);
      if i < |p.rules| {
        assert RuleNames(p.rules[i], allow, a);
      } else {
        assert rules[i] == extra[i - |p.rules|];
      }
    }
    if IsNameserver(c, a) {
      var i :| 0 <= i < |c.nameservers| && c.nameservers[i] == a;
      assert rules[|p.rules| + i] == extra[i];
      assert RuleNames(rules[|p.rules| + i], true, a);
    }
  }

  lemma {:induction false} ExactlyItself(x: Addr, a: Addr)
    ensures Covers(Single(x), a) <==> x == a
  {
  }

  /**
   * After every run a packet is treated as the proxy's current policy says,
   * except that nameservers are allowed unless a deny rule covers them.
   */
  lemma {:induction false} RunsMeanThePolicy(s: State, rs: seq<Request>, c: Config, k: Packet)
    requires InStep(s, c) && c.nft
    ensures var now := Run(s, rs, c);
      && HasDyn(now.table)
      && (Accepts(now.table.value, k) <==>
          || Bypasses(k)
          || (&& !DnsDropped(c.options, k)
              && !NamedBy(now.policy.rules, false, k.daddr)
              && (|| AnyCovers(now.table.value.sets[if k.daddr.V4? then DynV4 else DynV6], k.daddr)
                  || NamedBy(now.policy.rules, true, k.daddr)
                  || IsNameserver(c, k.daddr)
                  || now.policy.defaultAction == ALLOW)))
  {
    hide Accepts, NamedBy, DnsDropped, AnyCovers, Learned, Run, Normal;
    RunsStayInStep(s, rs, c);
    var now := Run(s, rs, c);
    ExtendedNames(now.policy, c, k.daddr);
    var t := now.table.value;
    ChainMeansPolicy(Extended(now.policy, c), c.options, t.sets[DynV4], t.sets[DynV6], k);
  }

  // ------------------------------------------------------------------
  // The policy of a run
  // ------------------------------------------------------------------

  predicate Takes(s: State, k: Kernel, c: Config) {
    c.nft ==> Applies(s.table, k)
  }

  /** An accepted update. */
  datatype Update = Whole(policy: Policy) | Rules(patch: seq<RawRule>)

  function UpdateOf(s: State, r: Request, c: Config): Option<Update> {
    match r
    case Post(b, k) =>
      if Replacement(b, c.classify).Some? && Takes(s, k, c) then Some(Whole(Replacement(b, c.classify).value)) else None
    case Patch(b, k) =>
      if Patched(s.policy, b, c.classify).Some? && Takes(s, k, c) then Some(Rules(b.rules)) else None
    case _ => None
  }

  /**
   * What the accepted updates amount to when patches are simply stacked in
   * front, with no merging and no second normalization.
   */
  function Stacked(s: State, rs: seq<Request>, c: Config): Policy {
    if rs == [] then s.policy
    else
      var front := rs[..|rs| - 1];
      Stack(Stacked(s, front, c), UpdateOf(Run(s, front, c), rs[|rs| - 1], c), c.classify)
  }

  function Stack(below: Policy, u: Option<Update>, classify: Classifier): Policy {
    match u
    case None => below
    case Some(Whole(p)) => p
    case Some(Rules(patch)) => Policy(NormalRules(patch, classify) + below.rules, below.defaultAction)
  }

  /** Two policies that decide alike for every name. */
  ghost predicate Alike(p: Policy, q: Policy) {
    p.defaultAction == q.defaultAction && forall d :: FirstMatch(p.rules, d) == FirstMatch(q.rules, d)
  }

  lemma {:induction false} PatchStacks(p: Policy, below: Policy, patch: seq<RawRule>, c: Config)
    requires Normal(p, c.classify) && CaseBlind(c.classify) && Alike(p, below) && patch != []
    requires Patched(p, RulesPatch(patch), c.classify).Some?
    ensures Alike(Patched(p, RulesPatch(patch), c.classify).value, Stack(below, Some(Rules(patch)), c.classify))
  {
    hide CaseBlind, Merged, FirstMatch, NormalRules, ValidRules, NormalAction, RawRules;
    assert NormalAction(p.defaultAction) == p.defaultAction;
    hide Normal;
    var merged := Patched(p, RulesPatch(patch), c.classify).value;
    forall d
      ensures FirstMatch(merged.rules, d) == FirstMatch(NormalRules(patch, c.classify) + below.rules, d)
    {
      PatchFirstMatch(p, patch, c.classify, d);
      FirstMatchConcat(NormalRules(patch, c.classify), p.rules, d);
      FirstMatchConcat(NormalRules(patch, c.classify), below.rules, d);
    }
  }

  lemma {:induction false} StepStacks(s: State, r: Request, below: Policy, c: Config)
    requires InStep(s, c) && CaseBlind(c.classify) && Alike(s.policy, below)
    ensures Alike(Step(s, r, c).policy, Stack(below, UpdateOf(s, r, c), c.classify))
  {
    hide CaseBlind, FirstMatch, Normal, Learned, Compile, Normalized, NormalRules;
    if r.Patch? && Patched(s.policy, r.patch, c.classify).Some? && Takes(s, r.kernel, c) {
      PatchStacks(s.policy, below, r.patch.rules, c);
      hide Patched;
    }
    hide Alike;
    if r.Post? && Replacement(r.post, c.classify).Some? && Takes(s, r.kernel, c) {
      AlikeItself(Replacement(r.post, c.classify).value);
    }
  }

  lemma {:induction false} AlikeItself(p: Policy)
    ensures Alike(p, p)
  {
  }

  lemma {:induction false} RunStacks(s: State, rs: seq<Request>, c: Config)
    requires InStep(s, c) && CaseBlind(c.classify)
    ensures Alike(Run(s, rs, c).policy, Stacked(s, rs, c))
  {
    hide CaseBlind, InStep, Alike, Step, Stack, UpdateOf;
    if rs == [] {
      AlikeItself(s.policy);
    } else {
      var front := rs[..|rs| - 1];
      RunStacks(s, front, c);
      RunsStayInStep(s, front, c);
      StepStacks(Run(s, front, c), rs[|rs| - 1], Stacked(s, front, c), c);
    }
  }

  /**
   * After every run each name is decided by the first match over the accepted
   * patches, newest first, followed by the last accepted POST; rejected bodies
   * and failed nft updates leave no trace.
   */
  lemma {:induction false} RunDecides(s: State, rs: seq<Request>, c: Config, domain: string)
    requires InStep(s, c) && CaseBlind(c.classify)
    ensures var now, stacked := Run(s, rs, c).policy, Stacked(s, rs, c);
            Decide(now.rules, now.defaultAction, domain) == Decide(stacked.rules, stacked.defaultAction, domain)
  {
    hide CaseBlind, InStep, FirstMatch, Run, Stacked, CanonicalName;
    RunStacks(s, rs, c);
  }

  /** An update applied to a policy alone: no proxy, no nft, no kernel. */
  function Updated(p: Policy, u: Update, classify: Classifier): Policy {
    match u
    case Whole(q) => q
    case Rules(patch) => Policy(NormalRules(Merged(RawRules(p.rules), patch), classify), NormalAction(p.defaultAction))
  }

  function Fold(p: Policy, us: seq<Update>, classify: Classifier): Policy {
    if us == [] then p else Updated(Fold(p, us[..|us| - 1], classify), us[|us| - 1], classify)
  }

  /** The updates a run accepts, in lock order. */
  function AcceptedUpdates(s: State, rs: seq<Request>, c: Config): seq<Update> {
    if rs == [] then []
    else
      var front := rs[..|rs| - 1];
      var u := UpdateOf(Run(s, front, c), rs[|rs| - 1], c);
      AcceptedUpdates(s, front, c) + if u.Some? then [u.value] else []
  }

  lemma {:induction false} StepUpdates(s: State, r: Request, c: Config)
    ensures var u := UpdateOf(s, r, c);
      Step(s, r, c).policy == if u.Some? then Updated(s.policy, u.value, c.classify) else s.policy
  {
    hide Compile, Extended, NormalRules, Merged, ValidRules, RawRules, NormalAction, Learn, WithDyn, HasDyn;
  }

  /** The stored policy is the fold of the accepted updates in lock order. */
  lemma {:induction false} PolicyIsFold(s: State, rs: seq<Request>, c: Config)
    ensures Run(s, rs, c).policy == Fold(s.policy, AcceptedUpdates(s, rs, c), c.classify)
  {
    hide Step, UpdateOf, Updated;
    if rs != [] {
      var front, last := rs[..|rs| - 1], rs[|rs| - 1];
      PolicyIsFold(s, front, c);
      StepUpdates(Run(s, front, c), last, c);
      var us, u := AcceptedUpdates(s, front, c), UpdateOf(Run(s, front, c), last, c);
      if u.Some? {
        assert (us + [u.value])[..|us|] == us;
      } else {
        assert us + [] == us;
      }
    }
  }

  /** The stored policy is the same whatever the nameservers are. */
  lemma {:induction false} PolicyIgnoresNameservers(s: State, t: State, rs: seq<Request>, c: Config, others: seq<Addr>)
    requires s.policy == t.policy && s.table.Some? == t.table.Some?
    ensures var a, b := Run(s, rs, c), Run(t, rs, c.(nameservers := others));
            a.policy == b.policy && a.table.Some? == b.table.Some?
  {
    hide Compile, Extended, Replacement, Patched, Singles, WithDyn;
    if rs != [] {
      PolicyIgnoresNameservers(s, t, rs[..|rs| - 1], c, others);
    }
  }

  // ------------------------------------------------------------------
  // What gets through
  // ------------------------------------------------------------------

  /** The kernel takes every script. */
  predicate Willing(k: Kernel) {
    k.first && k.retry
  }

  /** A POST that can be carried out takes effect; one that cannot be read or is not valid changes nothing. */
  lemma {:induction false} PostTakesEffect(s: State, b: PostBody, k: Kernel, c: Config)
    requires Willing(k)
    ensures var t := Step(s, Post(b, k), c);
      match b
      case UnreadablePost => t == s
      case BadPost => t == s
      case BlankPost => t.policy == Policy([], "deny") && (c.nft ==> t.table.Some?)
      case EmptyPost => t.policy == Policy([], "deny") && (c.nft ==> t.table.Some?)
      case PolicyPost(raw) =>
        if forall i :: 0 <= i < |raw.rules| ==> ValidRule(raw.rules[i])
        then t.policy == Policy(NormalRules(raw.rules, c.classify), NormalAction(raw.defaultAction))
             && (c.nft ==> t.table.Some?)
        else t == s
  {
    hide Compile, NormalRules, NormalAction, ValidRule, Extended;
  }

  /** After a reset every name is denied. */
  lemma {:induction false} ResetDeniesAll(s: State, k: Kernel, c: Config, domain: string)
    requires Willing(k)
    ensures var p := Step(s, Post(BlankPost, k), c).policy; Decide(p.rules, p.defaultAction, domain) == "deny"
  {
    PostTakesEffect(s, BlankPost, k, c);
    hide Step, CanonicalName;
    assert FirstMatch([], CanonicalName(domain)) == None;
  }

  /** The merged rules are usable exactly if the first rule of the patch for each key is. */
  lemma {:induction false} MergedValidIff(p: Policy, patch: seq<RawRule>, classify: Classifier)
    requires Normal(p, classify) && patch != []
    ensures ValidRules(Merged(RawRules(p.rules), patch)) <==>
      forall i :: 0 <= i < |patch| && !KeySeen(patch, i) ==> ValidRule(patch[i])
  {
    var base := RawRules(p.rules);
    var all := patch + base;
    var merged := Dedupe(all, |all|);
    assert forall i :: 0 <= i < |base| ==> ValidRule(base[i]);
    hide ValidRule, Normal, Dedupe, RawRules, Key;
    if ValidRules(merged) {
      forall i | 0 <= i < |patch| && !KeySeen(patch, i)
        ensures ValidRule(patch[i])
      {
        SeenInPatch(patch, base, i);
        var a := FirstUseIsKept(all, |all|, i);
        assert ValidRule(merged[a]);
      }
    }
    if forall i :: 0 <= i < |patch| && !KeySeen(patch, i) ==> ValidRule(patch[i]) {
      forall a | 0 <= a < |merged|
        ensures ValidRule(merged[a])
      {
        var i := KeptIsFirstUse(all, |all|, a);
        if i < |patch| {
          SeenInPatch(patch, base, i);
        } else {
          assert all[i] == base[i - |patch|];
        }
      }
    }
  }

  lemma {:induction false} SeenInPatch(patch: seq<RawRule>, base: seq<RawRule>, i: nat)
    requires i < |patch|
    ensures (patch + base)[i] == patch[i]
    ensures KeySeen(patch + base, i) <==> KeySeen(patch, i)
  {
    hide Key;
    var all := patch + base;
    if KeySeen(all, i) {
      var j :| 0 <= j < i && Key(all[j]) == Key(all[i]);
      assert Key(patch[j]) == Key(patch[i]);
    }
    if KeySeen(patch, i) {
      var j :| 0 <= j < i && Key(patch[j]) == Key(patch[i]);
      assert Key(all[j]) == Key(all[i]);
    }
  }

  /**
   * A PATCH that can be carried out takes effect exactly if it has rules and
   * the first one for each key is usable; otherwise nothing changes.
   */
  lemma {:induction false} PatchTakesEffectIff(s: State, b: PatchBody, k: Kernel, c: Config)
    requires Willing(k) && Normal(s.policy, c.classify)
    ensures var t := Step(s, Patch(b, k), c);
      if && b.RulesPatch? && b.rules != []
         && (forall i :: 0 <= i < |b.rules| && !KeySeen(b.rules, i) ==> ValidRule(b.rules[i]))
      then
        && t.policy.rules == NormalRules(Merged(RawRules(s.policy.rules), b.rules), c.classify)
        && t.policy.defaultAction == s.policy.defaultAction && (c.nft ==> t.table.Some?)
      else t == s
  {
    if b.RulesPatch? && b.rules != [] {
      MergedValidIff(s.policy, b.rules, c.classify);
    }
    assert NormalAction(s.policy.defaultAction) == s.policy.defaultAction;
    hide Compile, NormalRules, NormalAction, ValidRules, Extended, Merged, Normal, RawRules, KeySeen;
  }

  /** A request the kernel refuses changes nothing. */
  lemma {:induction false} RefusedChangesNothing(s: State, r: Request, c: Config)
    requires (r.Post? || r.Patch?) && c.nft && !r.kernel.first
    ensures Step(s, r, c) == s
  {
    hide Replacement, Patched;
  }

  lemma {:induction false} SinglesCover(addrs: seq<Addr>, a: Addr)
    ensures AnyCovers(Singles(addrs, a.V4?), a) <==> a in addrs
  {
    if addrs != [] {
      var n := |addrs| - 1;
      var front, before := addrs[..n], Singles(addrs[..n], a.V4?);
      SinglesCover(front, a);
      assert addrs == front + [addrs[n]];
      var now := Singles(addrs, a.V4?);
      if AnyCovers(before, a) {
        var i :| 0 <= i < |before| && Covers(before[i], a);
        assert now[i] == before[i];
      }
      if addrs[n] == a {
        assert Covers(now[|before|], a);
      }
      if i :| 0 <= i < |now| && Covers(now[i], a) {
        assert i < |before| ==> now[i] == before[i];
      }
    }
  }

  lemma {:induction false} CoversConcat(es: seq<Element>, more: seq<Element>, a: Addr)
    ensures AnyCovers(es + more, a) <==> AnyCovers(es, a) || AnyCovers(more, a)
  {
    hide Covers;
    var all := es + more;
    if i :| 0 <= i < |es| && Covers(es[i], a) {
      assert all[i] == es[i];
    }
    if i :| 0 <= i < |more| && Covers(more[i], a) {
      assert all[|es| + i] == more[i];
    }
    if i :| 0 <= i < |all| && Covers(all[i], a) {
      assert all[i] == if i < |es| then es[i] else more[i - |es|];
    }
  }

  /** Resolved addresses join the dynamic set of their family: afterwards it covers them and what it covered before. */
  lemma {:induction false} ResolvedAreLearned(s: State, addrs: seq<Addr>, c: Config, a: Addr)
    requires c.nft && HasDyn(s.table)
    ensures var t, set_ := Step(s, Resolved(addrs, true), c), if a.V4? then DynV4 else DynV6;
      && t.policy == s.policy && HasDyn(t.table)
      && (AnyCovers(t.table.value.sets[set_], a) <==> AnyCovers(s.table.value.sets[set_], a) || a in addrs)
      && (forall n :: n in s.table.value.sets && n != DynV4 && n != DynV6 ==>
            n in t.table.value.sets && t.table.value.sets[n] == s.table.value.sets[n])
      && t.table.value.chain == s.table.value.chain
  {
    SinglesCover(addrs, a);
    CoversConcat(s.table.value.sets[if a.V4? then DynV4 else DynV6], Singles(addrs, a.V4?), a);
    hide AnyCovers, Singles;
  }
}
