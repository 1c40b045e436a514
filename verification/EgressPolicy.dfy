/**
 * The egress policy: rules in order, the first domain rule that matches
 * decides, and a PATCH that merges new rules in front of the old ones.
 */
module EgressPolicy {
  import opened Common

  // ------------------------------------------------------------------
  // Text. Names compare without regard to case (section 2.3.3 of RFC 1035).
  // ------------------------------------------------------------------

  function LowerChar(c: char): char {
    if 'A' <= c <= 'Z' then c - 'A' + 'a' else c
  }

  function ToLower(s: string): (r: string)
    ensures |r| == |s|
    ensures forall i :: 0 <= i < |s| ==> r[i] == LowerChar(s[i])
  {
    seq(|s|, i requires 0 <= i < |s| => LowerChar(s[i]))
  }

  /** Tab, line feed, vertical tab, form feed, carriage return and blank. */
  predicate IsSpace(c: char) {
    c == ' ' || '\t' <= c <= '\r'
  }

  function TrimLeft(s: string): string {
    if s != [] && IsSpace(s[0]) then TrimLeft(s[1..]) else s
  }

  function TrimRight(s: string): string {
    if s != [] && IsSpace(s[|s| - 1]) then TrimRight(s[..|s| - 1]) else s
  }

  function TrimSpace(s: string): string {
    TrimRight(TrimLeft(s))
  }

  function TrimDot(s: string): string {
    if s != [] && s[|s| - 1] == '.' then s[..|s| - 1] else s
  }

  predicate HasSuffix(s: string, suffix: string) {
    |suffix| <= |s| && s[|s| - |suffix|..] == suffix
  }

  lemma {:induction false} TrimLeftLower(s: string)
    ensures ToLower(TrimLeft(s)) == TrimLeft(ToLower(s))
  {
    if s != [] && IsSpace(s[0]) {
      TrimLeftLower(s[1..]);
      assert ToLower(s)[1..] == ToLower(s[1..]);
    }
  }

  lemma {:induction false} TrimRightLower(s: string)
    ensures ToLower(TrimRight(s)) == TrimRight(ToLower(s))
  {
    if s != [] && IsSpace(s[|s| - 1]) {
      TrimRightLower(s[..|s| - 1]);
      assert ToLower(s)[..|s| - 1] == ToLower(s[..|s| - 1]);
    }
  }

  /** Trimming and lower-casing commute. */
  lemma {:induction false} TrimLower(s: string)
    ensures ToLower(TrimSpace(s)) == TrimSpace(ToLower(s))
  {
    TrimLeftLower(s);
    TrimRightLower(TrimLeft(s));
  }

  predicate Trimmed(s: string) {
    s == [] || (!IsSpace(s[0]) && !IsSpace(s[|s| - 1]))
  }

  lemma {:induction false} TrimLeftStarts(s: string)
    ensures TrimLeft(s) == [] || !IsSpace(TrimLeft(s)[0])
  {
    if s != [] && IsSpace(s[0]) {
      TrimLeftStarts(s[1..]);
    }
  }

  lemma {:induction false} TrimRightEnds(s: string)
    requires s == [] || !IsSpace(s[0])
    ensures Trimmed(TrimRight(s))
  {
    if s != [] && IsSpace(s[|s| - 1]) {
      TrimRightEnds(s[..|s| - 1]);
    }
  }

  lemma {:induction false} TrimTwice(s: string)
    ensures Trimmed(TrimSpace(s)) && TrimSpace(TrimSpace(s)) == TrimSpace(s)
  {
    TrimLeftStarts(s);
    TrimRightEnds(TrimLeft(s));
  }

  predicate Blank(s: string) {
    forall i :: 0 <= i < |s| ==> IsSpace(s[i])
  }

  lemma {:induction false} TrimLeftIs(s: string) returns (left: string)
    ensures Blank(left) && s == left + TrimLeft(s)
  {
    if s != [] && IsSpace(s[0]) {
      var rest := TrimLeftIs(s[1..]);
      left := [s[0]] + rest;
      assert s == [s[0]] + s[1..];
    } else {
      left := [];
    }
  }

  lemma {:induction false} TrimRightIs(s: string) returns (right: string)
    ensures Blank(right) && s == TrimRight(s) + right
  {
    if s != [] && IsSpace(s[|s| - 1]) {
      var rest := TrimRightIs(s[..|s| - 1]);
      right := rest + [s[|s| - 1]];
      assert s == s[..|s| - 1] + [s[|s| - 1]];
    } else {
      right := [];
    }
  }

  /** Trimming takes white space, and all of it, from both ends. */
  lemma {:induction false} TrimIs(s: string) returns (left: string, right: string)
    ensures Blank(left) && Blank(right) && Trimmed(TrimSpace(s)) && s == left + TrimSpace(s) + right
  {
    left := TrimLeftIs(s);
    right := TrimRightIs(TrimLeft(s));
    TrimTwice(s);
    hide TrimLeft, TrimRight, Trimmed;
  }

  /** Only white space trims to nothing. */
  lemma {:induction false} BlankIff(s: string)
    ensures TrimSpace(s) == "" <==> Blank(s)
  {
    var left, right := TrimIs(s);
    var core := TrimSpace(s);
    hide TrimSpace;
    if core == "" {
      assert s == left + right;
    } else {
      assert s[|left|] == core[0];
    }
  }

  /** Two texts that differ at most in the case of letters. */
  predicate SameUpToCase(a: string, b: string) {
    |a| == |b| && forall i :: 0 <= i < |a| ==> a[i] == b[i] || SameLetter(a[i], b[i])
  }

  predicate SameLetter(x: char, y: char) {
    || ('A' <= x <= 'Z' && 'a' <= y <= 'z' && x - 'A' == y - 'a')
    || ('a' <= x <= 'z' && 'A' <= y <= 'Z' && x - 'a' == y - 'A')
  }

  lemma {:induction false} LowerCharIff(x: char, y: char)
    ensures LowerChar(x) == LowerChar(y) <==> x == y || SameLetter(x, y)
  {
  }

  lemma {:induction false} LowerIff(a: string, b: string)
    ensures ToLower(a) == ToLower(b) <==> SameUpToCase(a, b)
  {
    hide LowerChar, SameLetter;
    forall i | 0 <= i < |a| && i < |b|
      ensures ToLower(a)[i] == ToLower(b)[i] <==> a[i] == b[i] || SameLetter(a[i], b[i])
    {
      LowerCharIff(a[i], b[i]);
    }
    if ToLower(a) == ToLower(b) {
      assert |a| == |ToLower(a)| == |b|;
    }
  }

  // ------------------------------------------------------------------
  // Rules
  // ------------------------------------------------------------------

  const ALLOW := "allow"
  const DENY := "deny"

  datatype Addr = V4(bits: nat) | V6(bits: nat)
  datatype Prefix = Prefix(addr: Addr, len: nat)

  /** What the text of a target turns out to be. */
  datatype Target = Domain | Ip(addr: Addr) | Cidr(prefix: Prefix)

  /** A rule as it arrives. */
  datatype RawRule = RawRule(action: string, target: string)

  /** A rule after normalization. */
  datatype Rule = Rule(action: string, target: string, kind: Target)

  datatype RawPolicy = RawPolicy(rules: seq<RawRule>, defaultAction: string)
  datatype Policy = Policy(rules: seq<Rule>, defaultAction: string)

  const DENY_ALL := Policy([], DENY)

  /** Address parsing is a parameter; it must not depend on case. */
  type Classifier = string -> Target

  ghost predicate CaseBlind(classify: Classifier) {
    forall a, b :: ToLower(a) == ToLower(b) ==> classify(a) == classify(b)
  }

  function NormalAction(action: string): string {
    var a := ToLower(TrimSpace(action));
    if a == "" then DENY else a
  }

  function NormalRule(r: RawRule, classify: Classifier): Rule {
    Rule(NormalAction(r.action), TrimSpace(r.target), classify(TrimSpace(r.target)))
  }

  predicate ValidRule(r: RawRule) {
    (NormalAction(r.action) == ALLOW || NormalAction(r.action) == DENY) && TrimSpace(r.target) != ""
  }

  function NormalRules(rules: seq<RawRule>, classify: Classifier): (r: seq<Rule>)
    ensures |r| == |rules|
  {
    seq(|rules|, i requires 0 <= i < |rules| => NormalRule(rules[i], classify))
  }

  predicate ValidRules(rules: seq<RawRule>) {
    forall i :: 0 <= i < |rules| ==> ValidRule(rules[i])
  }

  /** normalizePolicy: rules in order, the first unusable one rejects the policy. */
  method NormalizePolicy(raw: RawPolicy, classify: Classifier) returns (r: Option<Policy>)
    ensures r.None? <==> !ValidRules(raw.rules)
    ensures r.Some? ==> r.value == Policy(NormalRules(raw.rules, classify), NormalAction(raw.defaultAction))
  {
    hide ToLower, TrimSpace;
    var out: seq<Rule> := [];
    var i := 0;
    while i < |raw.rules|
      invariant 0 <= i <= |raw.rules|
      invariant forall j :: 0 <= j < i ==> ValidRule(raw.rules[j])
      invariant out == NormalRules(raw.rules, classify)[..i]
    {
      var rule := raw.rules[i];
      var action := ToLower(TrimSpace(rule.action));
      if action == "" {
        action := DENY;
      }
      if action != ALLOW && action != DENY {
        return None;
      }
      var target := TrimSpace(rule.target);
      if target == "" {
        return None;
      }
      out := out + [Rule(action, target, classify(target))];
      i := i + 1;
    }
    r := Some(Policy(out, NormalAction(raw.defaultAction)));
  }

  // ------------------------------------------------------------------
  // Evaluation
  // ------------------------------------------------------------------

  /** Whether a pattern, already trimmed and lower case, covers a lower-case name. */
  predicate PatternCovers(pattern: string, d: string) {
    && pattern != ""
    && (|| pattern == d
        || (|pattern| >= 2 && pattern[..2] == "*." && HasSuffix(d, pattern[1..]) && d != pattern[2..]))
  }

  predicate MatchesDomain(r: Rule, d: string) {
    PatternCovers(ToLower(TrimSpace(r.target)), d)
  }

  /** The action of the first domain rule that matches, if any. */
  function FirstMatch(rules: seq<Rule>, d: string): Option<string> {
    if rules == [] then None
    else
      var earlier := FirstMatch(rules[..|rules| - 1], d);
      var last := rules[|rules| - 1];
      if earlier.Some? then earlier
      else if last.kind.Domain? && MatchesDomain(last, d) then Some(if last.action == "" then DENY else last.action)
      else None
  }

  predicate Hits(r: Rule, d: string) {
    r.kind.Domain? && MatchesDomain(r, d)
  }

  /** Rule i hits and none before it does. */
  predicate FirstHit(rules: seq<Rule>, d: string, i: int) {
    0 <= i < |rules| && Hits(rules[i], d) && forall j :: 0 <= j < i ==> !Hits(rules[j], d)
  }

  function ActionOf(r: Rule): string {
    if r.action == "" then DENY else r.action
  }

  /** Either no rule hits, or the decision is that of a rule with no hit before it. */
  lemma {:induction false} FirstMatchIsFirst(rules: seq<Rule>, d: string)
    ensures FirstMatch(rules, d).None? ==> forall i :: 0 <= i < |rules| ==> !Hits(rules[i], d)
    ensures FirstMatch(rules, d).Some? ==>
      exists i :: FirstHit(rules, d, i) && FirstMatch(rules, d) == Some(ActionOf(rules[i]))
  {
    hide MatchesDomain;
    if rules != [] {
      var n := |rules| - 1;
      var front := rules[..n];
      FirstMatchIsFirst(front, d);
      assert FirstMatch(rules, d) == if FirstMatch(front, d).Some? then FirstMatch(front, d)
                                     else if Hits(rules[n], d) then Some(ActionOf(rules[n])) else None;
      hide FirstMatch, Hits;
      if FirstMatch(front, d).Some? {
        var i :| FirstHit(front, d, i) && FirstMatch(front, d) == Some(ActionOf(front[i]));
        assert FirstHit(rules, d, i);
      } else if Hits(rules[n], d) {
        assert FirstHit(rules, d, n);
      }
    }
  }

  /** "*.zone" covers the names below the zone, never the zone itself. */
  lemma {:induction false} WildcardCoversBelow(zone: string, d: string)
    ensures PatternCovers("*." + zone, d) <==> d == "*." + zone || exists host :: d == host + "." + zone
  {
    var pattern := "*." + zone;
    assert pattern[..2] == "*." && pattern[1..] == "." + zone && pattern[2..] == zone;
    if HasSuffix(d, "." + zone) {
      assert d == d[..|d| - |zone| - 1] + "." + zone;
    }
    if host :| d == host + "." + zone {
      assert d[|host|..] == "." + zone;
    }
  }

  function CanonicalName(domain: string): string {
    ToLower(TrimDot(domain))
  }

  function Decide(rules: seq<Rule>, defaultAction: string, domain: string): string {
    var m := FirstMatch(rules, CanonicalName(domain));
    if m.Some? then m.value else if defaultAction == "" then DENY else defaultAction
  }

  /** A pattern that is no wildcard covers its own name and nothing else. */
  lemma {:induction false} PlainCoversItself(pattern: string, d: string)
    requires pattern != "" && !(|pattern| >= 2 && pattern[0] == '*' && pattern[1] == '.')
    ensures PatternCovers(pattern, d) <==> pattern == d
  {
    assert |pattern| >= 2 ==> (pattern[..2] == "*." <==> pattern[0] == '*' && pattern[1] == '.');
  }

  /** Names that differ in case only, or in a final dot, are decided alike. */
  lemma {:induction false} NamesAreDecidedAlike(rules: seq<Rule>, defaultAction: string, a: string, b: string)
    requires SameUpToCase(a, b) || (a == b + "." && (b == "" || b[|b| - 1] != '.'))
    ensures Decide(rules, defaultAction, a) == Decide(rules, defaultAction, b)
  {
    if SameUpToCase(a, b) {
      assert TrimDot(a) == a <==> TrimDot(b) == b;
      LowerIff(TrimDot(a), TrimDot(b));
    } else {
      assert TrimDot(a) == b == TrimDot(b);
    }
    hide FirstMatch, ToLower;
  }

  /** Without a matching rule the default decides, and without a default the answer is deny. */
  lemma {:induction false} DefaultDecides(rules: seq<Rule>, defaultAction: string, domain: string)
    requires forall i :: 0 <= i < |rules| ==> !Hits(rules[i], CanonicalName(domain))
    ensures defaultAction != "" ==> Decide(rules, defaultAction, domain) == defaultAction
    ensures defaultAction == "" ==> Decide(rules, defaultAction, domain) == "deny"
  {
    FirstMatchIsFirst(rules, CanonicalName(domain));
    hide FirstMatch, CanonicalName, Hits;
  }

  /** A missing action is deny; the two actions are recognized in any case and with white space around them. */
  lemma {:induction false} ActionsAre(action: string)
    ensures Blank(action) ==> NormalAction(action) == "deny"
    ensures NormalAction(action) == "allow" <==> SameUpToCase(TrimSpace(action), "allow")
    ensures NormalAction(action) == "deny" <==> Blank(action) || SameUpToCase(TrimSpace(action), "deny")
  {
    BlankIff(action);
    LowerIff(TrimSpace(action), "allow");
    LowerIff(TrimSpace(action), "deny");
    assert ToLower("allow") == "allow" && ToLower("deny") == "deny";
    hide ToLower, TrimSpace, SameUpToCase, Blank;
  }

  /** A rule is usable exactly if its action is missing, allow or deny, and its target is not blank. */
  lemma {:induction false} ValidRuleIff(r: RawRule)
    ensures ValidRule(r) <==>
      && (|| Blank(r.action) || SameUpToCase(TrimSpace(r.action), "allow")
          || SameUpToCase(TrimSpace(r.action), "deny"))
      && !Blank(r.target)
  {
    ActionsAre(r.action);
    BlankIff(r.target);
    hide NormalAction, TrimSpace, SameUpToCase, Blank;
  }

  /** Two rules have the same key exactly if their targets, as they were sent, differ at most in case. */
  lemma {:induction false} SameKeyIff(r: RawRule, r': RawRule)
    ensures Key(r) == Key(r') <==> SameUpToCase(r.target, r'.target)
  {
    LowerIff(r.target, r'.target);
  }

  lemma {:induction false} FirstMatchStable(rules: seq<Rule>, k: nat, d: string)
    requires k <= |rules| && FirstMatch(rules[..k], d).Some?
    ensures FirstMatch(rules, d) == FirstMatch(rules[..k], d)
    decreases |rules|
  {
    if k < |rules| {
      var front := rules[..|rules| - 1];
      assert front[..k] == rules[..k];
      FirstMatchStable(front, k, d);
    } else {
      assert rules[..k] == rules;
    }
  }

  /** The loop of Evaluate returns at the first match. */
  method Evaluate(p: Policy, domain: string) returns (action: string)
    ensures action == Decide(p.rules, p.defaultAction, domain)
  {
    hide MatchesDomain, ToLower, TrimDot;
    var d := ToLower(TrimDot(domain));
    var i := 0;
    while i < |p.rules|
      invariant 0 <= i <= |p.rules|
      invariant FirstMatch(p.rules[..i], d).None?
    {
      var r := p.rules[i];
      assert p.rules[..i + 1][..i] == p.rules[..i];
      if r.kind.Domain? && MatchesDomain(r, d) {
        FirstMatchStable(p.rules, i + 1, d);
        return if r.action == "" then DENY else r.action;
      }
      i := i + 1;
    }
    assert p.rules[..i] == p.rules;
    action := if p.defaultAction == "" then DENY else p.defaultAction;
  }

  // ------------------------------------------------------------------
  // PATCH
  // ------------------------------------------------------------------

  /** mergeKey: the raw text in lower case, not trimmed. */
  function Key(r: RawRule): string {
    ToLower(r.target)
  }

  predicate KeySeen(rules: seq<RawRule>, k: nat)
    requires k < |rules|
  {
    exists j :: 0 <= j < k && Key(rules[j]) == Key(rules[k])
  }

  /** The first k rules without those whose key occurred before. */
  function Dedupe(rules: seq<RawRule>, k: nat): seq<RawRule>
    requires k <= |rules|
  {
    if k == 0 then []
    else Dedupe(rules, k - 1) + (if KeySeen(rules, k - 1) then [] else [rules[k - 1]])
  }

  function Merged(base: seq<RawRule>, additions: seq<RawRule>): seq<RawRule> {
    var all := additions + base;
    if additions == [] then base else Dedupe(all, |all|)
  }

  ghost predicate SeenAre(seen: set<string>, rules: seq<RawRule>, k: nat)
    requires k <= |rules|
  {
    forall key :: key in seen <==> exists j :: 0 <= j < k && Key(rules[j]) == key
  }

  /** mergeEgressRules: additions first, base rules only if their key is new. */
  method MergeEgressRules(base: seq<RawRule>, additions: seq<RawRule>) returns (out: seq<RawRule>)
    ensures out == Merged(base, additions)
  {
    if additions == [] {
      return base;
    }
    ghost var all := additions + base;
    var seen: set<string> := {};
    out := [];
    assert SeenAre(seen, all, 0) && Dedupe(all, 0) == out;
    hide SeenAre, Dedupe;
    var i := 0;
    while i < |additions|
      invariant 0 <= i <= |additions|
      invariant SeenAre(seen, all, i)
      invariant out == Dedupe(all, i)
    {
      out, seen := MergeOne(out, seen, additions[i], all, i);
      i := i + 1;
    }
    while i < |additions| + |base|
      invariant |additions| <= i <= |all|
      invariant SeenAre(seen, all, i)
      invariant out == Dedupe(all, i)
    {
      out, seen := MergeOne(out, seen, base[i - |additions|], all, i);
      i := i + 1;
    }
  }

  method MergeOne(out: seq<RawRule>, seen: set<string>, r: RawRule, ghost all: seq<RawRule>, ghost i: nat)
    returns (out': seq<RawRule>, seen': set<string>)
    requires i < |all| && all[i] == r && out == Dedupe(all, i)
    requires SeenAre(seen, all, i)
    ensures out' == Dedupe(all, i + 1)
    ensures SeenAre(seen', all, i + 1)
  {
    var key := Key(r);
    if key in seen {
      out', seen' := out, seen;
    } else {
      out', seen' := out + [r], seen + {key};
    }
    forall k
      ensures k in seen' <==> exists j :: 0 <= j < i + 1 && Key(all[j]) == k
    {
      if k in seen {
        var j :| 0 <= j < i && Key(all[j]) == k;
        assert 0 <= j < i + 1;
      }
      if k == key {
        assert Key(all[i]) == k;
      }
    }
  }

  /** Rules of the same key match the same names. */
  lemma {:induction false} SameKeySameMeaning(r: RawRule, r': RawRule, classify: Classifier)
    requires CaseBlind(classify) && Key(r) == Key(r')
    ensures NormalRule(r, classify).kind == NormalRule(r', classify).kind
    ensures forall d :: MatchesDomain(NormalRule(r, classify), d) == MatchesDomain(NormalRule(r', classify), d)
  {
    TrimLower(r.target);
    TrimLower(r'.target);
    TrimTwice(r.target);
    TrimTwice(r'.target);
    hide ToLower, TrimSpace;
  }

  lemma {:induction false} MatchIsFound(rules: seq<Rule>, j: nat, d: string)
    requires j < |rules| && rules[j].kind.Domain? && MatchesDomain(rules[j], d)
    ensures FirstMatch(rules, d).Some?
    decreases |rules|
  {
    hide MatchesDomain;
    if j < |rules| - 1 {
      MatchIsFound(rules[..|rules| - 1], j, d);
    }
  }

  lemma {:induction false} FirstMatchSnoc(rules: seq<Rule>, last: Rule, d: string)
    ensures FirstMatch(rules + [last], d) ==
      if FirstMatch(rules, d).Some? then FirstMatch(rules, d)
      else if last.kind.Domain? && MatchesDomain(last, d) then Some(if last.action == "" then DENY else last.action)
      else None
  {
    hide MatchesDomain;
    assert (rules + [last])[..|rules|] == rules;
  }

  lemma {:induction false} NormalRulesSnoc(rules: seq<RawRule>, r: RawRule, classify: Classifier)
    ensures NormalRules(rules + [r], classify) == NormalRules(rules, classify) + [NormalRule(r, classify)]
  {
    hide NormalRule;
  }

  /** A rule whose key occurred before matches only where an earlier one does. */
  lemma {:induction false} SeenMatchesEarlier(rules: seq<RawRule>, k: nat, classify: Classifier, d: string)
    requires k < |rules| && CaseBlind(classify) && KeySeen(rules, k)
    ensures var r := NormalRule(rules[k], classify);
            r.kind.Domain? && MatchesDomain(r, d) ==> FirstMatch(NormalRules(rules[..k], classify), d).Some?
  {
    hide NormalRule, MatchesDomain, CaseBlind, FirstMatch, Key;
    var front := NormalRules(rules[..k], classify);
    var j :| 0 <= j < k && Key(rules[j]) == Key(rules[k]);
    SameKeySameMeaning(rules[j], rules[k], classify);
    assert front[j] == NormalRule(rules[j], classify);
    if front[j].kind.Domain? && MatchesDomain(front[j], d) {
      MatchIsFound(front, j, d);
    }
  }

  /** Dropping rules whose key occurred before changes no decision. */
  lemma {:induction false} DedupeKeepsMeaning(rules: seq<RawRule>, k: nat, classify: Classifier, d: string)
    requires k <= |rules| && CaseBlind(classify)
    ensures FirstMatch(NormalRules(Dedupe(rules, k), classify), d) == FirstMatch(NormalRules(rules[..k], classify), d)
  {
    hide NormalRule, MatchesDomain, CaseBlind, FirstMatch, NormalRules, KeySeen;
    if k == 0 {
      assert Dedupe(rules, 0) == rules[..0];
    } else {
      var r, kept := rules[k - 1], Dedupe(rules, k - 1);
      DedupeKeepsMeaning(rules, k - 1, classify, d);
      assert rules[..k] == rules[..k - 1] + [r];
      NormalRulesSnoc(rules[..k - 1], r, classify);
      FirstMatchSnoc(NormalRules(rules[..k - 1], classify), NormalRule(r, classify), d);
      if KeySeen(rules, k - 1) {
        SeenMatchesEarlier(rules, k - 1, classify, d);
        assert Dedupe(rules, k) == kept;
      } else {
        NormalRulesSnoc(kept, r, classify);
        FirstMatchSnoc(NormalRules(kept, classify), NormalRule(r, classify), d);
      }
    }
  }

  function Raw(r: Rule): RawRule {
    RawRule(r.action, r.target)
  }

  /** The rules of a stored policy as they are marshalled again. */
  function RawRules(rules: seq<Rule>): (r: seq<RawRule>)
    ensures |r| == |rules|
  {
    seq(|rules|, i requires 0 <= i < |rules| => Raw(rules[i]))
  }

  /** A policy that came out of normalization. */
  ghost predicate Normal(p: Policy, classify: Classifier) {
    && NormalAction(p.defaultAction) == p.defaultAction
    && forall i :: 0 <= i < |p.rules| ==>
      ValidRule(Raw(p.rules[i])) && NormalRule(Raw(p.rules[i]), classify) == p.rules[i]
  }

  lemma {:induction false} NormalActionTwice(action: string)
    ensures NormalAction(NormalAction(action)) == NormalAction(action)
  {
    var a := TrimSpace(action);
    TrimTwice(action);
    TrimLower(a);
    assert ToLower(ToLower(a)) == ToLower(a);
    assert ToLower(TrimSpace(DENY)) == DENY by {
      assert TrimSpace(DENY) == DENY && ToLower(DENY) == DENY;
    }
    hide ToLower, TrimSpace;
  }

  lemma {:induction false} NormalizedIsNormal(raw: RawPolicy, classify: Classifier)
    requires ValidRules(raw.rules)
    ensures Normal(Policy(NormalRules(raw.rules, classify), NormalAction(raw.defaultAction)), classify)
  {
    NormalActionTwice(raw.defaultAction);
    forall i | 0 <= i < |raw.rules|
      ensures var r := NormalRules(raw.rules, classify)[i]; ValidRule(Raw(r)) && NormalRule(Raw(r), classify) == r
    {
      NormalActionTwice(raw.rules[i].action);
      TrimTwice(raw.rules[i].target);
      hide NormalAction, TrimSpace;
      assert ValidRule(raw.rules[i]);
    }
    hide NormalRule, ValidRule, NormalAction;
  }

  lemma {:induction false} NormalRulesOfStored(p: Policy, classify: Classifier)
    requires Normal(p, classify)
    ensures NormalRules(RawRules(p.rules), classify) == p.rules
  {
    hide ValidRule, NormalRule;
  }

  lemma {:induction false} NormalRulesConcat(a: seq<RawRule>, b: seq<RawRule>, classify: Classifier)
    ensures NormalRules(a + b, classify) == NormalRules(a, classify) + NormalRules(b, classify)
  {
    hide NormalRule;
  }

  lemma {:induction false} FirstMatchConcat(a: seq<Rule>, b: seq<Rule>, d: string)
    ensures FirstMatch(a + b, d) == if FirstMatch(a, d).Some? then FirstMatch(a, d) else FirstMatch(b, d)
  {
    hide MatchesDomain;
    if b == [] {
      assert a + b == a;
    } else {
      assert (a + b)[..|a + b| - 1] == a + b[..|b| - 1];
      FirstMatchConcat(a, b[..|b| - 1], d);
    }
  }

  /** The merged and normalized rules match first what the patch, then the old rules, match first. */
  lemma {:induction false} PatchFirstMatch(p: Policy, patch: seq<RawRule>, classify: Classifier, d: string)
    requires Normal(p, classify) && CaseBlind(classify)
    ensures FirstMatch(NormalRules(Merged(RawRules(p.rules), patch), classify), d)
         == FirstMatch(NormalRules(patch, classify) + p.rules, d)
  {
    var base := RawRules(p.rules);
    NormalRulesOfStored(p, classify);
    NormalRulesConcat(patch, base, classify);
    var all := patch + base;
    assert all[..|all|] == all;
    if patch == [] {
      assert all == base;
    } else {
      DedupeKeepsMeaning(all, |all|, classify, d);
    }
    hide NormalRules, FirstMatch, Dedupe, CaseBlind, RawRules, ToLower;
  }

  /**
   * PATCH keeps first-match meaning: for every name the merged policy decides
   * as the patch rules followed by the old rules would, with the old default.
   */
  lemma {:induction false} PatchKeepsFirstMatch(p: Policy, patch: seq<RawRule>, classify: Classifier, domain: string)
    requires Normal(p, classify) && CaseBlind(classify)
    ensures Decide(NormalRules(Merged(RawRules(p.rules), patch), classify), NormalAction(p.defaultAction), domain)
         == Decide(NormalRules(patch, classify) + p.rules, p.defaultAction, domain)
  {
    PatchFirstMatch(p, patch, classify, CanonicalName(domain));
    hide NormalRules, FirstMatch, Merged, CaseBlind, RawRules, CanonicalName;
  }

  // ------------------------------------------------------------------
  // One rule per target
  // ------------------------------------------------------------------

  /** The first rule that names the key. */
  function FirstOfKey(rules: seq<RawRule>, key: string): Option<RawRule> {
    if rules == [] then None
    else
      var earlier := FirstOfKey(rules[..|rules| - 1], key);
      var last := rules[|rules| - 1];
      if earlier.Some? then earlier else if Key(last) == key then Some(last) else None
  }

  ghost predicate KeysDistinct(rules: seq<RawRule>) {
    forall i, j :: 0 <= i < j < |rules| ==> Key(rules[i]) != Key(rules[j])
  }

  lemma {:induction false} FirstOfKeySnoc(rules: seq<RawRule>, last: RawRule, key: string)
    ensures FirstOfKey(rules + [last], key) ==
      if FirstOfKey(rules, key).Some? then FirstOfKey(rules, key)
      else if Key(last) == key then Some(last) else None
  {
    hide Key;
    assert (rules + [last])[..|rules|] == rules;
  }

  /** A key has a first rule exactly when some rule names it. */
  lemma {:induction false} FirstOfKeyIs(rules: seq<RawRule>, key: string)
    ensures FirstOfKey(rules, key).Some? <==> exists j :: 0 <= j < |rules| && Key(rules[j]) == key
    ensures FirstOfKey(rules, key).Some? ==>
      FirstOfKey(rules, key).value in rules && Key(FirstOfKey(rules, key).value) == key
  {
    hide Key;
    if rules != [] {
      var front := rules[..|rules| - 1];
      FirstOfKeyIs(front, key);
      if FirstOfKey(front, key).Some? {
        var j :| 0 <= j < |front| && Key(front[j]) == key;
        assert Key(rules[j]) == key;
      }
    }
  }

  lemma {:induction false} FirstOfKeyConcat(a: seq<RawRule>, b: seq<RawRule>, key: string)
    ensures FirstOfKey(a + b, key) == if FirstOfKey(a, key).Some? then FirstOfKey(a, key) else FirstOfKey(b, key)
  {
    hide Key;
    if b == [] {
      assert a + b == a;
    } else {
      assert (a + b)[..|a + b| - 1] == a + b[..|b| - 1];
      FirstOfKeyConcat(a, b[..|b| - 1], key);
    }
  }

  /** Deduping keeps the first rule of every key and nothing else. */
  lemma {:induction false} DedupeKeepsFirst(rules: seq<RawRule>, k: nat, key: string)
    requires k <= |rules|
    ensures FirstOfKey(Dedupe(rules, k), key) == FirstOfKey(rules[..k], key)
  {
    hide Key, FirstOfKey, KeySeen;
    if k == 0 {
      assert rules[..0] == Dedupe(rules, 0);
    } else {
      var front, kept, r := rules[..k - 1], Dedupe(rules, k - 1), rules[k - 1];
      DedupeKeepsFirst(rules, k - 1, key);
      assert rules[..k] == front + [r];
      FirstOfKeySnoc(front, r, key);
      FirstOfKeySnoc(kept, r, key);
      SeenMeansFound(rules, k - 1);
      assert KeySeen(rules, k - 1) ==> Dedupe(rules, k) == kept;
    }
  }

  lemma {:induction false} SeenMeansFound(rules: seq<RawRule>, k: nat)
    requires k < |rules|
    ensures KeySeen(rules, k) <==> FirstOfKey(rules[..k], Key(rules[k])).Some?
  {
    hide Key, FirstOfKey;
    var front := rules[..k];
    FirstOfKeyIs(front, Key(rules[k]));
    if KeySeen(rules, k) {
      var j :| 0 <= j < k && Key(rules[j]) == Key(rules[k]);
      assert Key(front[j]) == Key(rules[k]);
    }
  }

  lemma {:induction false} DedupeIsDistinct(rules: seq<RawRule>, k: nat)
    requires k <= |rules|
    ensures KeysDistinct(Dedupe(rules, k))
  {
    hide Key, FirstOfKey;
    if k > 0 {
      var kept, r := Dedupe(rules, k - 1), rules[k - 1];
      DedupeIsDistinct(rules, k - 1);
      DedupeKeepsFirst(rules, k - 1, Key(r));
      SeenMeansFound(rules, k - 1);
      FirstOfKeyIs(kept, Key(r));
    }
  }

  /**
   * After a PATCH every key has exactly one rule: the first the patch gives
   * it if the patch names it, the stored one otherwise.
   */
  lemma {:induction false} PatchWinsPerKey(base: seq<RawRule>, patch: seq<RawRule>, key: string)
    requires patch != []
    ensures KeysDistinct(Merged(base, patch))
    ensures FirstOfKey(Merged(base, patch), key) ==
      if FirstOfKey(patch, key).Some? then FirstOfKey(patch, key) else FirstOfKey(base, key)
  {
    var all := patch + base;
    assert all[..|all|] == all;
    DedupeIsDistinct(all, |all|);
    DedupeKeepsFirst(all, |all|, key);
    FirstOfKeyConcat(patch, base, key);
  }

  /** No two rules speak of the same address or the same prefix. */
  ghost predicate OneRulePerAddress(rules: seq<Rule>) {
    forall i, j :: 0 <= i < j < |rules| && rules[i].kind == rules[j].kind ==> rules[i].kind.Domain?
  }

  /** Wherever an address or a prefix is named, the text is the same up to case. */
  ghost predicate SpelledOnce(rules: seq<RawRule>, classify: Classifier) {
    forall i, j :: 0 <= i < j < |rules| && KindOf(rules[i], classify) == KindOf(rules[j], classify)
      && !KindOf(rules[i], classify).Domain?
      ==> Key(rules[i]) == Key(rules[j])
  }

  function KindOf(r: RawRule, classify: Classifier): Target {
    NormalRule(r, classify).kind
  }

  /**
   * After a PATCH each address and each prefix has one rule if and only if the
   * patch and the stored rules spell each of them in one way. The key is taken
   * before the text is trimmed, and two texts can denote the same address, so
   * this is not always so.
   */
  lemma {:induction false} OneRulePerAddressIff(base: seq<RawRule>, patch: seq<RawRule>, classify: Classifier)
    requires patch != [] && CaseBlind(classify)
    ensures OneRulePerAddress(NormalRules(Merged(base, patch), classify)) <==> SpelledOnce(patch + base, classify)
  {
    var all, merged := patch + base, Merged(base, patch);
    PatchWinsPerKey(base, patch, "");
    if SpelledOnce(all, classify) {
      OnceSpelledIsOnce(all, merged, classify);
    }
    if OneRulePerAddress(NormalRules(merged, classify)) {
      SpelledTwiceIsTwice(base, patch, classify);
    }
  }

  /** Rules for the same address or the same prefix have the same action. */
  ghost predicate OneActionPerAddress(rules: seq<Rule>) {
    forall i, j :: 0 <= i < j < |rules| && rules[i].kind == rules[j].kind && !rules[i].kind.Domain? ==>
      rules[i].action == rules[j].action
  }

  /** Different spellings of an address or a prefix, each at its first use, ask for the same action. */
  ghost predicate SpellingsAgree(rules: seq<RawRule>, classify: Classifier) {
    forall i, j ::
      0 <= i < j < |rules| && !KeySeen(rules, i) && !KeySeen(rules, j)
      && KindOf(rules[i], classify) == KindOf(rules[j], classify) && !KindOf(rules[i], classify).Domain?
      ==> NormalAction(rules[i].action) == NormalAction(rules[j].action)
  }

  /** Each kept rule is the first use of its key. */
  lemma {:induction false} KeptIsFirstUse(rules: seq<RawRule>, k: nat, a: nat) returns (i: nat)
    requires k <= |rules| && a < |Dedupe(rules, k)|
    ensures i < k && !KeySeen(rules, i) && Dedupe(rules, k)[a] == rules[i]
  {
    hide KeySeen;
    if a < |Dedupe(rules, k - 1)| {
      i := KeptIsFirstUse(rules, k - 1, a);
    } else {
      i := k - 1;
    }
  }

  /** Each first use of a key is kept. */
  lemma {:induction false} FirstUseIsKept(rules: seq<RawRule>, k: nat, i: nat) returns (a: nat)
    requires i < k <= |rules| && !KeySeen(rules, i)
    ensures a < |Dedupe(rules, k)| && Dedupe(rules, k)[a] == rules[i]
  {
    hide KeySeen;
    if i < k - 1 {
      a := FirstUseIsKept(rules, k - 1, i);
    } else {
      a := |Dedupe(rules, k - 1)|;
    }
  }

  /**
   * After a PATCH each address and each prefix has one action if and only if
   * its spellings in the patch and the stored rules agree, where a rule whose
   * spelling occurred before does not count.
   */
  lemma {:induction false} OneActionPerAddressIff(base: seq<RawRule>, patch: seq<RawRule>, classify: Classifier)
    requires patch != []
    ensures OneActionPerAddress(NormalRules(Merged(base, patch), classify)) <==> SpellingsAgree(patch + base, classify)
  {
    hide KeySeen, NormalAction, TrimSpace, Dedupe;
    var all := patch + base;
    var normal := NormalRules(Dedupe(all, |all|), classify);
    if OneActionPerAddress(normal) {
      forall i, j | 0 <= i < j < |all| && !KeySeen(all, i) && !KeySeen(all, j)
                    && KindOf(all[i], classify) == KindOf(all[j], classify) && !KindOf(all[i], classify).Domain?
        ensures NormalAction(all[i].action) == NormalAction(all[j].action)
      {
        var a := FirstUseIsKept(all, |all|, i);
        var b := FirstUseIsKept(all, |all|, j);
        assert normal[a].kind == normal[b].kind;
      }
    }
    if SpellingsAgree(all, classify) {
      forall a, b | 0 <= a < b < |normal| && normal[a].kind == normal[b].kind && !normal[a].kind.Domain?
        ensures normal[a].action == normal[b].action
      {
        var i := KeptIsFirstUse(all, |all|, a);
        var j := KeptIsFirstUse(all, |all|, b);
        assert KindOf(all[i], classify) == KindOf(all[j], classify);
      }
    }
  }

  lemma {:induction false} MergedSubset(rules: seq<RawRule>, k: nat)
    requires k <= |rules|
    ensures forall r :: r in Dedupe(rules, k) ==> r in rules
  {
    if k > 0 {
      MergedSubset(rules, k - 1);
    }
  }

  lemma {:induction false} OnceSpelledIsOnce(all: seq<RawRule>, merged: seq<RawRule>, classify: Classifier)
    requires KeysDistinct(merged) && SpelledOnce(all, classify) && merged == Dedupe(all, |all|)
    ensures OneRulePerAddress(NormalRules(merged, classify))
  {
    hide Key, NormalRule, Dedupe;
    MergedSubset(all, |all|);
    var normal := NormalRules(merged, classify);
    forall i, j | 0 <= i < j < |normal| && normal[i].kind == normal[j].kind
      ensures normal[i].kind.Domain?
    {
      assert merged[i] in all && merged[j] in all;
      var a :| 0 <= a < |all| && all[a] == merged[i];
      var b :| 0 <= b < |all| && all[b] == merged[j];
      assert KindOf(all[a], classify) == KindOf(all[b], classify);
      assert Key(all[a]) != Key(all[b]);
    }
  }

  lemma {:induction false} SpelledTwiceIsTwice(base: seq<RawRule>, patch: seq<RawRule>, classify: Classifier)
    requires patch != [] && CaseBlind(classify)
    requires OneRulePerAddress(NormalRules(Merged(base, patch), classify))
    ensures SpelledOnce(patch + base, classify)
  {
    hide Key, NormalRule, Merged, CaseBlind, FirstOfKey;
    var all, merged := patch + base, Merged(base, patch);
    forall i, j | 0 <= i < j < |all| && KindOf(all[i], classify) == KindOf(all[j], classify)
      && !KindOf(all[i], classify).Domain?
      ensures Key(all[i]) == Key(all[j])
    {
      var a := KeptUnderKey(base, patch, classify, i);
      var b := KeptUnderKey(base, patch, classify, j);
      var normal := NormalRules(merged, classify);
      assert normal[a].kind == normal[b].kind && !normal[a].kind.Domain?;
      assert a == b;
    }
  }

  /** Where the merged rules keep the key of the i-th rule. */
  lemma {:induction false} KeptUnderKey(base: seq<RawRule>, patch: seq<RawRule>, classify: Classifier, i: nat)
    returns (a: nat)
    requires patch != [] && CaseBlind(classify) && i < |patch + base|
    ensures a < |Merged(base, patch)|
    ensures Key(Merged(base, patch)[a]) == Key((patch + base)[i])
    ensures KindOf(Merged(base, patch)[a], classify) == KindOf((patch + base)[i], classify)
  {
    hide Key, NormalRule, Merged, CaseBlind, FirstOfKey;
    var all, merged := patch + base, Merged(base, patch);
    var key := Key(all[i]);
    FirstOfKeyConcat(patch, base, key);
    FirstOfKeyIs(all, key);
    PatchWinsPerKey(base, patch, key);
    FirstOfKeyIs(merged, key);
    a :| 0 <= a < |merged| && Key(merged[a]) == key;
    SameKeySameMeaning(merged[a], all[i], classify);
  }

  lemma {:induction false} ActionTexts()
    ensures NormalAction(ALLOW) == ALLOW && NormalAction(DENY) == DENY
  {
    assert ToLower(ALLOW) == ALLOW && ToLower(DENY) == DENY;
    assert TrimSpace(ALLOW) == ALLOW && TrimSpace(DENY) == DENY;
  }

  lemma {:induction false} BlankIsTrimmed(t: string)
    requires t != "" && Trimmed(t)
    ensures TrimSpace(t) == t && TrimSpace(" " + t) == t
  {
    assert (" " + t)[1..] == t;
  }

  lemma {:induction false} BlankIsAnotherKey(t: string, action: string, action': string)
    ensures Key(RawRule(action, " " + t)) != Key(RawRule(action', t))
  {
    assert |Key(RawRule(action, " " + t))| == |t| + 1;
  }

  lemma {:induction false} BothAreKept(first: RawRule, second: RawRule)
    requires Key(first) != Key(second)
    ensures Merged([second], [first]) == [first, second]
  {
    hide Key;
    var all := [first] + [second];
    assert all == [first, second];
    assert !KeySeen(all, 0) && !KeySeen(all, 1);
    assert Dedupe(all, 1) == Dedupe(all, 0) + [first] == [first];
    assert Dedupe(all, 2) == [first, second];
  }

  /**
   * For every text of an address or a prefix: a stored deny survives a patch
   * that allows the same text after a blank, and the target has both actions.
   */
  lemma {:induction false} BlankHidesTheAddress(t: string, classify: Classifier)
    requires t != "" && Trimmed(t) && !classify(t).Domain?
    ensures var base, patch := [RawRule(DENY, t)], [RawRule(ALLOW, " " + t)];
      var rules := NormalRules(Merged(base, patch), classify);
      && ValidRules(patch + base) && |rules| == 2
      && rules[0].kind == rules[1].kind == classify(t) && rules[0].action == ALLOW && rules[1].action == DENY
  {
    ActionTexts();
    BlankIsTrimmed(t);
    BlankIsAnotherKey(t, ALLOW, DENY);
    hide NormalAction, TrimSpace, Key, Merged;
    BothAreKept(RawRule(ALLOW, " " + t), RawRule(DENY, t));
  }
}
