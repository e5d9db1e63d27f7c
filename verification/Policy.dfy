/** Policy files: validation and the defaulting done when one is parsed. */
module Policy {
  import opened Wrappers

  datatype Match = Match(target: string, user: string, sourceIp: string, protocol: string)

  datatype Rule = Rule(name: string, effect: string, conditions: Match)

  datatype Policy = Policy(fallback: string, rules: seq<Rule>)

  datatype RuleError = NoName | BadEffect | BadSourceIp | BadProtocol

  datatype PolicyError = BadDefault | BadRule(index: nat, error: RuleError) | DuplicateName(name: string)

  const PROTOCOLS: seq<string> := ["tcp", "udp", "http", "https", "stcp", "sudp", "xtcp"]

  predicate IsEffect(e: string) {
    e == "allow" || e == "deny"
  }

  // ---------------------------------------------------------------- what is accepted

  /**
   Simple case folding onto lower-case ASCII. Besides the capitals, the long s and the Kelvin
   sign fold onto ASCII letters.
   */
  function FoldChar(c: char): char {
    if 'A' <= c <= 'Z' then c - 'A' + 'a'
    else if c == '\U{017F}' then 's'
    else if c == '\U{212A}' then 'k'
    else c
  }

  function Fold(s: string): (f: string)
    ensures |f| == |s|
  {
    seq(|s|, i requires 0 <= i < |s| => FoldChar(s[i]))
  }

  /** Whether a rule is wrong, and the first way in which it is; `cidr` accepts CIDR notation. */
  function RuleFault(cidr: string -> bool, r: Rule): Option<RuleError> {
    if r.name == "" then Some(NoName)
    else if !IsEffect(r.effect) then Some(BadEffect)
    else MatchFault(cidr, r.conditions)
  }

  function MatchFault(cidr: string -> bool, m: Match): Option<RuleError> {
    if m.sourceIp != "" && !cidr(m.sourceIp) then Some(BadSourceIp)
    else if m.protocol != "" && Fold(m.protocol) !in PROTOCOLS then Some(BadProtocol)
    else None
  }

  predicate Repeats(rules: seq<Rule>, i: nat)
    requires i < |rules|
  {
    exists j :: 0 <= j < i && rules[j].name == rules[i].name
  }

  /** Rule i is wrong by itself or has the name of an earlier one. */
  predicate Offends(cidr: string -> bool, rules: seq<Rule>, i: nat)
    requires i < |rules|
  {
    RuleFault(cidr, rules[i]).Some? || Repeats(rules, i)
  }

  ghost predicate FirstOffender(cidr: string -> bool, rules: seq<Rule>, i: int) {
    && 0 <= i < |rules| && Offends(cidr, rules, i)
    && forall j :: 0 <= j < i ==> !Offends(cidr, rules, j)
  }

  ghost predicate RulesOk(cidr: string -> bool, rules: seq<Rule>) {
    && (forall i :: 0 <= i < |rules| ==> RuleFault(cidr, rules[i]).None?)
    && (forall i, j :: 0 <= i < j < |rules| ==> rules[i].name != rules[j].name)
  }

  ghost predicate Acceptable(cidr: string -> bool, p: Policy) {
    (p.fallback == "" || IsEffect(p.fallback)) && RulesOk(cidr, p.rules)
  }

  lemma NoOffenders(cidr: string -> bool, rules: seq<Rule>)
    ensures RulesOk(cidr, rules) <==> forall i :: 0 <= i < |rules| ==> !Offends(cidr, rules, i)
  {
    if forall i :: 0 <= i < |rules| ==> !Offends(cidr, rules, i) {
      forall j | 0 <= j < |rules|
        ensures RuleFault(cidr, rules[j]).None? && forall i :: 0 <= i < j ==> rules[i].name != rules[j].name
      {
        assert !Offends(cidr, rules, j);
      }
    }
  }

  /** A character that stands for this lower-case letter whatever the case. */
  predicate IsLetter(c: char, lower: char)
    requires 'a' <= lower <= 'z'
  {
    || c == lower
    || c == lower - 'a' + 'A'
    || (lower == 's' && c == '\U{017F}')
    || (lower == 'k' && c == '\U{212A}')
  }

  /** A string spells a lower-case word, letter by letter. */
  predicate Spells(s: string, word: string)
    requires forall i :: 0 <= i < |word| ==> 'a' <= word[i] <= 'z'
  {
    |s| == |word| && forall i :: 0 <= i < |s| ==> IsLetter(s[i], word[i])
  }

  lemma FoldsOntoExactly(s: string, word: string)
    requires forall i :: 0 <= i < |word| ==> 'a' <= word[i] <= 'z'
    ensures Fold(s) == word <==> Spells(s, word)
  {
    if Fold(s) == word {
      forall i | 0 <= i < |s| ensures IsLetter(s[i], word[i]) {
        assert FoldChar(s[i]) == word[i];
      }
    }
  }

  /** The protocols that are accepted: the seven names in any capitalisation. */
  lemma ProtocolsAccepted(s: string)
    ensures Fold(s) in PROTOCOLS <==>
              || Spells(s, "tcp") || Spells(s, "udp") || Spells(s, "http") || Spells(s, "https")
              || Spells(s, "stcp") || Spells(s, "sudp") || Spells(s, "xtcp")
  {
    FoldsOntoExactly(s, "tcp");
    FoldsOntoExactly(s, "udp");
    FoldsOntoExactly(s, "http");
    FoldsOntoExactly(s, "https");
    FoldsOntoExactly(s, "stcp");
    FoldsOntoExactly(s, "sudp");
    FoldsOntoExactly(s, "xtcp");
  }

  /** What each fault of a rule means; the first that applies is reported. */
  lemma RuleFaults(cidr: string -> bool, r: Rule)
    ensures var m := r.conditions;
            var ipOk := m.sourceIp == "" || cidr(m.sourceIp);
            var protocolOk := m.protocol == "" || Fold(m.protocol) in PROTOCOLS;
            var effectOk := r.effect == "allow" || r.effect == "deny";
            && (RuleFault(cidr, r).None? <==> r.name != "" && effectOk && ipOk && protocolOk)
            && (RuleFault(cidr, r) == Some(NoName) <==> r.name == "")
            && (RuleFault(cidr, r) == Some(BadEffect) <==> r.name != "" && !effectOk)
            && (RuleFault(cidr, r) == Some(BadSourceIp) <==> r.name != "" && effectOk && !ipOk)
            && (RuleFault(cidr, r) == Some(BadProtocol) <==> r.name != "" && effectOk && ipOk && !protocolOk)
  {
  }

  // ---------------------------------------------------------------- validation

  method ValidateMatch(cidr: string -> bool, m: Match) returns (fault: Option<RuleError>)
    ensures fault == MatchFault(cidr, m)
  {
    if m.sourceIp != "" {
      if !cidr(m.sourceIp) {
        return Some(BadSourceIp);
      }
    }
    if m.protocol != "" {
      var found := false;
      var i := 0;
      while i < |PROTOCOLS| && !found
        invariant 0 <= i <= |PROTOCOLS|
        invariant found ==> Fold(m.protocol) in PROTOCOLS
        invariant !found ==> Fold(m.protocol) !in PROTOCOLS[..i]
        decreases |PROTOCOLS| - i, !found
      {
        if Fold(m.protocol) == PROTOCOLS[i] {
          found := true;
        }
        i := i + 1;
      }
      if !found {
        return Some(BadProtocol);
      }
    }
    return None;
  }

  method ValidateRule(cidr: string -> bool, r: Rule) returns (fault: Option<RuleError>)
    ensures fault == RuleFault(cidr, r)
  {
    if r.name == "" {
      return Some(NoName);
    }
    if !IsEffect(r.effect) {
      return Some(BadEffect);
    }
    fault := ValidateMatch(cidr, r.conditions);
  }

  /**
   Accepts exactly the acceptable policies. With an acceptable default, a rejection is about
   the first offending rule, and calls it a duplicate only if it is not wrong by itself.
   */
  method ValidatePolicy(cidr: string -> bool, p: Policy) returns (fault: Option<PolicyError>)
    ensures fault.None? <==> Acceptable(cidr, p)
    ensures fault == Some(BadDefault) <==> p.fallback != "" && !IsEffect(p.fallback)
    ensures fault.Some? && fault.value.BadRule? ==>
              && FirstOffender(cidr, p.rules, fault.value.index)
              && RuleFault(cidr, p.rules[fault.value.index]) == Some(fault.value.error)
    ensures fault.Some? && fault.value.DuplicateName? ==>
              exists i :: && FirstOffender(cidr, p.rules, i)
                          && RuleFault(cidr, p.rules[i]).None?
                          && p.rules[i].name == fault.value.name
  {
    if p.fallback != "" && !IsEffect(p.fallback) {
      return Some(BadDefault);
    }
    NoOffenders(cidr, p.rules);
    var names: set<string> := {};
    for i := 0 to |p.rules|
      invariant forall j :: 0 <= j < i ==> !Offends(cidr, p.rules, j)
      invariant forall n :: n in names <==> exists j :: 0 <= j < i && p.rules[j].name == n
    {
      var rule := p.rules[i];
      var wrong := ValidateRule(cidr, rule);
      if wrong.Some? {
        return Some(BadRule(i, wrong.value));
      }
      if rule.name in names {
        assert FirstOffender(cidr, p.rules, i);
        return Some(DuplicateName(rule.name));
      }
      names := names + {rule.name};
    }
    return None;
  }

  /** A default that is not given is deny; what is returned is acceptable and has a default. */
  method Parse(cidr: string -> bool, decoded: Option<Policy>) returns (r: Option<Policy>)
    ensures r.Some? ==>
              && decoded.Some? && IsEffect(r.value.fallback) && Acceptable(cidr, r.value)
              && r.value.rules == decoded.value.rules
              && (decoded.value.fallback != "" ==> r.value == decoded.value)
              && (decoded.value.fallback == "" ==> r.value.fallback == "deny")
    ensures r.Some? <==> decoded.Some? && Acceptable(cidr, decoded.value)
  {
    if decoded.None? {
      return None;
    }
    var policy := decoded.value;
    if policy.fallback == "" {
      policy := policy.(fallback := "deny");
    }
    var fault := ValidatePolicy(cidr, policy);
    if fault.Some? {
      return None;
    }
    return Some(policy);
  }

  // ---------------------------------------------------------------- deleting rules

  /** The rules whose positions are kept, in order. */
  function Kept(rules: seq<Rule>, keep: set<nat>): seq<Rule> {
    if rules == [] then []
    else
      var n := |rules| - 1;
      Kept(rules[..n], keep) + if n in keep then [rules[n]] else []
  }

  /** What is left are the rules at the kept positions, and no others. */
  lemma {:induction false} KeptExactly(rules: seq<Rule>, keep: set<nat>, r: Rule)
    ensures r in Kept(rules, keep) <==> exists i :: 0 <= i < |rules| && i in keep && rules[i] == r
  {
    if rules != [] {
      var n := |rules| - 1;
      KeptExactly(rules[..n], keep, r);
      assert forall i :: 0 <= i < n ==> rules[..n][i] == rules[i];
    }
  }

  lemma {:induction false} DeletingKeepsRulesOk(cidr: string -> bool, rules: seq<Rule>, keep: set<nat>)
    requires RulesOk(cidr, rules)
    ensures RulesOk(cidr, Kept(rules, keep))
  {
    if rules != [] {
      var n := |rules| - 1;
      var before := Kept(rules[..n], keep);
      DeletingKeepsRulesOk(cidr, rules[..n], keep);
      forall i | 0 <= i < |before| ensures before[i].name != rules[n].name {
        KeptExactly(rules[..n], keep, before[i]);
        var j :| 0 <= j < n && rules[..n][j] == before[i];
      }
    }
  }

  /** Deleting rules, any of them, keeps a policy acceptable. */
  lemma DeletingKeepsAcceptable(cidr: string -> bool, p: Policy, keep: set<nat>)
    requires Acceptable(cidr, p)
    ensures Acceptable(cidr, p.(rules := Kept(p.rules, keep)))
  {
    DeletingKeepsRulesOk(cidr, p.rules, keep);
  }
}
