/** Building the rule list and what it decides (`priority_ordered_items`, `build_rules`, src/config_builder.py). */
module RuleList {
  import opened Options
  import opened RuleText

  // ----- priority order ---------------------------------------------------------------------------------------------------

  /** The members of s that are in (or, with keep false, not in) t, in the order of s. */
  function Filter(s: seq<string>, t: seq<string>, keep: bool): seq<string> {
    if s == [] then []
    else Filter(s[..|s| - 1], t, keep) + (if (s[|s| - 1] in t) == keep then [s[|s| - 1]] else [])
  }

  /** s without repetitions, first ones kept. */
  function Once(s: seq<string>): seq<string> {
    if s == [] then []
    else
      var front := s[..|s| - 1];
      Once(front) + (if s[|s| - 1] in front then [] else [s[|s| - 1]])
  }

  /** Priority names first, deferred names last, the others between them in the order of the mapping. */
  function Ordered(keys: seq<string>, priority: seq<string>, deferred: seq<string>): seq<string> {
    Filter(priority, keys, true) + Filter(Filter(keys, priority, false), deferred, false)
    + Filter(Filter(Once(deferred), keys, true), priority, false)
  }

  /** `priority_ordered_items`, by the keys. */
  method PriorityOrdered(keys: seq<string>, priority: seq<string>, deferred: seq<string>) returns (items: seq<string>)
    requires Distinct(keys)
    ensures items == Ordered(keys, priority, deferred)
  {
    var seen;
    items, seen := PriorityFirst(keys, priority);
    var others;
    others, seen := OthersNext(keys, priority, deferred, seen);
    var late := DeferredLast(keys, priority, deferred, seen);
    items := items + others + late;
  }

  method PriorityFirst(keys: seq<string>, priority: seq<string>) returns (items: seq<string>, seen: set<string>)
    ensures items == Filter(priority, keys, true)
    ensures forall x :: x in seen <==> x in priority && x in keys
  {
    items, seen := [], {};
    var i := 0;
    while i < |priority|
      invariant i <= |priority|
      invariant items == Filter(priority[..i], keys, true)
      invariant forall x :: x in seen <==> x in priority[..i] && x in keys
    {
      assert priority[..i + 1] == priority[..i] + [priority[i]];
      FilterLast(priority[..i], priority[i], keys, true);
      if priority[i] in keys {
        seen := seen + {priority[i]};
        items := items + [priority[i]];
      }
      i := i + 1;
    }
    assert priority[..i] == priority;
  }

  method OthersNext(keys: seq<string>, priority: seq<string>, deferred: seq<string>, first: set<string>)
    returns (items: seq<string>, seen: set<string>)
    requires Distinct(keys) && forall x :: x in first <==> x in priority && x in keys
    ensures forall x :: x in seen <==> x in keys && (x in priority || x !in deferred)
    ensures items == Filter(Filter(keys, priority, false), deferred, false)
  {
    hide Filter;
    items, seen := [], first;
    FilterNone(priority, deferred);
    var i := 0;
    while i < |keys|
      invariant i <= |keys|
      invariant items == Filter(Filter(keys[..i], priority, false), deferred, false)
      invariant forall x :: x in seen <==> x in keys && (x in priority || (x in keys[..i] && x !in deferred))
    {
      assert keys[..i + 1] == keys[..i] + [keys[i]];
      FilterPush(keys[..i], keys[i], priority, deferred);
      FreshKey(keys, i);
      if keys[i] !in seen && keys[i] !in deferred {
        seen := seen + {keys[i]};
        items := items + [keys[i]];
      }
      i := i + 1;
    }
    assert keys[..i] == keys;
  }

  lemma FreshKey(keys: seq<string>, i: nat)
    requires i < |keys| && Distinct(keys)
    ensures keys[i] !in keys[..i]
  {
  }

  lemma FilterNone(t: seq<string>, u: seq<string>)
    ensures Filter([], t, true) == [] && Filter(Filter([], t, false), u, false) == []
  {
  }

  method DeferredLast(keys: seq<string>, priority: seq<string>, deferred: seq<string>, before: set<string>) returns (items: seq<string>)
    requires forall x :: x in before <==> x in keys && (x in priority || x !in deferred)
    ensures items == Filter(Filter(Once(deferred), keys, true), priority, false)
  {
    hide Filter, Once;
    var seen := before;
    items := [];
    DeferNone(keys, priority);
    var i := 0;
    while i < |deferred|
      invariant i <= |deferred|
      invariant items == Filter(Filter(Once(deferred[..i]), keys, true), priority, false)
      invariant forall x :: x in seen <==> x in keys && (x in priority || x !in deferred || x in deferred[..i])
    {
      assert deferred[..i + 1] == deferred[..i] + [deferred[i]];
      DeferPush(deferred[..i], deferred[i], keys, priority);
      if deferred[i] in keys && deferred[i] !in seen {
        seen := seen + {deferred[i]};
        items := items + [deferred[i]];
      }
      i := i + 1;
    }
    assert deferred[..i] == deferred;
  }

  lemma DeferNone(keys: seq<string>, priority: seq<string>)
    ensures Filter(Filter(Once([]), keys, true), priority, false) == []
  {
  }

  ghost predicate Distinct(s: seq<string>) { forall i, j :: 0 <= i < j < |s| ==> s[i] != s[j] }

  lemma FilterLast(s: seq<string>, x: string, t: seq<string>, keep: bool)
    ensures Filter(s + [x], t, keep) == Filter(s, t, keep) + (if (x in t) == keep then [x] else [])
  {
    assert (s + [x])[..|s|] == s;
  }

  lemma FilterPush(s: seq<string>, x: string, t: seq<string>, u: seq<string>)
    ensures Filter(Filter(s + [x], t, false), u, false)
         == Filter(Filter(s, t, false), u, false) + (if x !in t && x !in u then [x] else [])
  {
    FilterLast(s, x, t, false);
    FilterLast(Filter(s, t, false), x, u, false);
    if x in t { assert Filter(s, t, false) + [] == Filter(s, t, false); }
  }

  lemma DeferPush(s: seq<string>, x: string, keys: seq<string>, priority: seq<string>)
    ensures Filter(Filter(Once(s + [x]), keys, true), priority, false)
         == Filter(Filter(Once(s), keys, true), priority, false) + (if x !in s && x in keys && x !in priority then [x] else [])
  {
    OnceLast(s, x);
    hide Once, Filter;
    if x in s {
      assert Once(s + [x]) == Once(s);
    } else {
      FilterLast(Once(s), x, keys, true);
      FilterLast(Filter(Once(s), keys, true), x, priority, false);
      assert Filter(Once(s), keys, true) + [] == Filter(Once(s), keys, true);
    }
    assert Filter(Filter(Once(s), keys, true), priority, false) + [] == Filter(Filter(Once(s), keys, true), priority, false);
  }

  lemma OnceLast(s: seq<string>, x: string)
    ensures Once(s + [x]) == if x in s then Once(s) else Once(s) + [x]
  {
    assert (s + [x])[..|s|] == s;
  }

  lemma {:induction false} FilterCounts(s: seq<string>, t: seq<string>, keep: bool, x: string)
    ensures multiset(Filter(s, t, keep))[x] == if (x in t) == keep then multiset(s)[x] else 0
  {
    if s != [] {
      FilterCounts(s[..|s| - 1], t, keep, x);
      assert s == s[..|s| - 1] + [s[|s| - 1]];
    }
  }

  lemma {:induction false} OnceCounts(s: seq<string>, x: string)
    ensures multiset(Once(s))[x] == if x in s then 1 else 0
  {
    if s != [] {
      OnceCounts(s[..|s| - 1], x);
      assert s == s[..|s| - 1] + [s[|s| - 1]];
    }
  }

  lemma OrderedCounts(keys: seq<string>, priority: seq<string>, deferred: seq<string>, x: string)
    ensures multiset(Ordered(keys, priority, deferred))[x] ==
      if x !in keys then 0
      else if x in priority then multiset(priority)[x]
      else if x in deferred then 1
      else multiset(keys)[x]
  {
    hide Filter, Once;
    var middle := Filter(keys, priority, false);
    var late := Filter(Once(deferred), keys, true);
    FilterCounts(priority, keys, true, x);
    FilterCounts(keys, priority, false, x);
    FilterCounts(middle, deferred, false, x);
    OnceCounts(deferred, x);
    FilterCounts(Once(deferred), keys, true, x);
    FilterCounts(late, priority, false, x);
    KeyCount(keys, x);
    KeyCount(priority, x);
  }

  lemma KeyCount(s: seq<string>, x: string)
    ensures multiset(s)[x] > 0 <==> x in s
  {
    assert x in multiset(s) <==> x in s;
  }

  /** The items are a permutation of the mapping exactly when no priority name that it holds is listed twice. */
  lemma OrderedIsPermutation(keys: seq<string>, priority: seq<string>, deferred: seq<string>)
    requires Distinct(keys)
    ensures multiset(Ordered(keys, priority, deferred)) == multiset(keys)
       <==> forall x :: x in keys ==> multiset(priority)[x] <= 1
  {
    hide Ordered;
    var all := Ordered(keys, priority, deferred);
    if forall x :: x in keys ==> multiset(priority)[x] <= 1 {
      forall x ensures multiset(all)[x] == multiset(keys)[x] {
        OrderedCounts(keys, priority, deferred, x);
        DistinctCount(keys, x);
        KeyCount(priority, x);
      }
    }
    if multiset(all) == multiset(keys) {
      forall x | x in keys ensures multiset(priority)[x] <= 1 {
        OrderedCounts(keys, priority, deferred, x);
        DistinctCount(keys, x);
        KeyCount(priority, x);
      }
    }
  }

  lemma {:induction false} DistinctCount(s: seq<string>, x: string)
    requires Distinct(s)
    ensures multiset(s)[x] == if x in s then 1 else 0
  {
    if s != [] {
      DistinctCount(s[1..], x);
      assert s == [s[0]] + s[1..];
    }
  }

  // ----- the rule list ------------------------------------------------------------------------------------------------------

  /** A provider as `build_rules` reads it: from a base table or from the draft. */
  datatype Provider = Provider(name: string, target: string, first: bool, noResolve: bool)

  datatype Source = DustinWin | Lhie1 | NoBase | Legacy

  /** The rules that every base list starts with, and those that end a list. */
  const FIXED: seq<Rule> := [
    Rule("DOMAIN-SUFFIX", "xn--ngstr-lra8j.com", "Proxy", false),
    Rule("DOMAIN-SUFFIX", "services.googleapis.cn", "Google", false)]

  const LHIE1_END: seq<Rule> := [Rule("RULE-SET", "google", "Google", false), Rule("GEOIP", "CN", "Domestic", true)]

  const LEGACY_END: seq<Rule> := [
    Rule("DOMAIN-SUFFIX", "google.com", "Google", false),
    Rule("DOMAIN-SUFFIX", "youtube.com", "Youtube", false),
    Rule("GEOIP", "CN", "DIRECT", true)]

  function Printed(rules: seq<Rule>): (r: seq<string>)
    ensures |r| == |rules| && forall i :: 0 <= i < |rules| ==> r[i] == Print(rules[i])
  {
    seq(|rules|, i requires 0 <= i < |rules| => Print(rules[i]))
  }

  function ProviderRule(p: Provider): string { Print(Rule("RULE-SET", p.name, p.target, p.noResolve)) }

  /** Whether each rule of s is (or is not) a MATCH rule: the two comprehensions of `build_rules`. */
  function Matching(s: seq<string>, match_: bool): seq<string> {
    if s == [] then []
    else Matching(s[..|s| - 1], match_) + (if IsMatch(s[|s| - 1]) == match_ then [s[|s| - 1]] else [])
  }

  function ProviderRules(ps: seq<Provider>, first: bool): seq<string> {
    if ps == [] then []
    else
      var p := ps[|ps| - 1];
      ProviderRules(ps[..|ps| - 1], first) + (if p.first == first then [ProviderRule(p.(noResolve := false))] else [])
  }

  /** The last rules: the first custom MATCH, or else those of the base list. */
  function LastMatch(custom: seq<string>, base: seq<string>): seq<string> {
    var own := Matching(custom, true);
    if own != [] then own[..1] else Matching(base, true)
  }

  predicate IsPlainMatch(rule: string) { "MATCH," <= rule }

  function Assembled(source: Source, base: seq<string>, custom: seq<string>, providers: seq<Provider>): seq<string> {
    Matching(custom, false) + ProviderRules(providers, true) + Matching(base, false) + ProviderRules(providers, false)
    + LastMatch(custom, base)
  }

  function Final(source: Source, base: seq<string>, custom: seq<string>, providers: seq<Provider>): seq<string> {
    var rules := Assembled(source, base, custom, providers);
    rules + (if !source.NoBase? && forall r :: r in rules ==> !IsPlainMatch(r) then ["MATCH,Proxy"] else [])
  }

  method SplitRules(rules: seq<string>) returns (normal: seq<string>, matches: seq<string>)
    ensures normal == Matching(rules, false) && matches == Matching(rules, true)
  {
    normal, matches := [], [];
    var i := 0;
    while i < |rules|
      invariant i <= |rules| && normal == Matching(rules[..i], false) && matches == Matching(rules[..i], true)
    {
      assert rules[..i + 1][..i] == rules[..i];
      if IsMatch(rules[i]) { matches := matches + [rules[i]]; } else { normal := normal + [rules[i]]; }
      i := i + 1;
    }
    assert rules[..i] == rules;
  }

  /** The end of `build_rules`: custom providers, MATCH handling and the fallback. */
  method BuildRules(source: Source, base: seq<string>, custom: seq<string>, providers: seq<Provider>) returns (final: seq<string>)
    ensures final == Final(source, base, custom, providers)
  {
    hide IsMatch, ProviderRule;
    var prepend, append: seq<string> := [], [];
    var i := 0;
    while i < |providers|
      invariant i <= |providers|
      invariant prepend == ProviderRules(providers[..i], true) && append == ProviderRules(providers[..i], false)
    {
      assert providers[..i + 1][..i] == providers[..i];
      var rule := ProviderRule(providers[i].(noResolve := false));
      if providers[i].first { prepend := prepend + [rule]; } else { append := append + [rule]; }
      i := i + 1;
    }
    assert providers[..i] == providers;
    var presetNormal, presetMatch := SplitRules(base);
    var customNormal, customMatch := SplitRules(custom);
    var finalMatch := if customMatch != [] then customMatch[..1] else presetMatch;
    final := customNormal + prepend + presetNormal + append + finalMatch;
    if !source.NoBase? && forall r | r in final :: !IsPlainMatch(r) { final := final + ["MATCH,Proxy"]; }
  }

  // ----- the base lists --------------------------------------------------------------------------------------------------------

  /** The targets chosen in the draft override those of the table. */
  function Override(p: Provider, chosen: map<string, string>): Provider {
    if p.name in chosen && chosen[p.name] != "" then p.(target := chosen[p.name]) else p
  }

  function TableRules(items: seq<Provider>, chosen: map<string, string>): seq<string> {
    if items == [] then []
    else TableRules(items[..|items| - 1], chosen) + [ProviderRule(Override(items[|items| - 1], chosen))]
  }

  /** The base list of a source whose table is already in priority order. */
  function BaseRules(source: Source, items: seq<Provider>, chosen: map<string, string>): seq<string> {
    match source
    case DustinWin => Printed(FIXED) + TableRules(items, chosen) + ["MATCH,Others"]
    case Lhie1 => Printed(FIXED) + TableRules(items, chosen) + Printed(LHIE1_END) + ["MATCH,Others"]
    case NoBase => []
    case Legacy => Printed(FIXED) + Printed(LEGACY_END) + ["MATCH,Proxy"]
  }

  // ----- what a rule list decides --------------------------------------------------------------------------------------------

  /** The first rule that is a MATCH rule or that the packet hits. */
  function Decision(rules: seq<string>, hits: string -> bool): Option<string> {
    if rules == [] then None
    else if IsMatch(rules[0]) || hits(rules[0]) then Some(rules[0])
    else Decision(rules[1..], hits)
  }

  function OrElse(a: Option<string>, b: Option<string>): Option<string> { if a.Some? then a else b }

  lemma {:induction false} DecisionConcat(a: seq<string>, b: seq<string>, hits: string -> bool)
    ensures Decision(a + b, hits) == OrElse(Decision(a, hits), Decision(b, hits))
  {
    hide IsMatch;
    if a == [] {
      assert a + b == b;
    } else {
      assert (a + b)[1..] == a[1..] + b;
      DecisionConcat(a[1..], b, hits);
    }
  }

  lemma {:induction false} MatchingFacts(s: seq<string>, match_: bool)
    ensures forall r :: r in Matching(s, match_) <==> r in s && IsMatch(r) == match_
  {
    hide IsMatch;
    if s != [] {
      MatchingFacts(s[..|s| - 1], match_);
      assert s == s[..|s| - 1] + [s[|s| - 1]];
    }
  }

  lemma RuleSetPlain(p: Provider)
    ensures !IsMatch(ProviderRule(p))
  {
    hide Split, Upper, Trim, Print;
    RuleSetKind();
    PrintedKind(Rule("RULE-SET", p.name, p.target, p.noResolve));
  }

  lemma RuleSetKind()
    ensures NoComma("RULE-SET") && Upper(Trim("RULE-SET")) != "MATCH"
  {
    assert TrimLeft("RULE-SET") == "RULE-SET" && TrimRight("RULE-SET") == "RULE-SET";
    assert Upper("RULE-SET")[0] == 'R';
  }

  lemma {:induction false} ProvidersPlain(ps: seq<Provider>, first: bool)
    ensures forall r :: r in ProviderRules(ps, first) ==> !IsMatch(r)
  {
    hide IsMatch, ProviderRule;
    if ps != [] {
      ProvidersPlain(ps[..|ps| - 1], first);
      RuleSetPlain(ps[|ps| - 1].(noResolve := false));
    }
  }

  /** A rule that starts with "MATCH," is a MATCH rule. */
  lemma PlainIsMatch(rule: string)
    requires IsPlainMatch(rule)
    ensures IsMatch(rule)
  {
    var tail := rule[6..];
    assert rule == "MATCH" + "," + tail;
    SplitComma("MATCH", tail);
    SplitPlain("MATCH");
    hide Split;
    assert Split(rule)[0] == "MATCH";
    assert TrimLeft("MATCH") == "MATCH" && TrimRight("MATCH") == "MATCH";
    assert Upper("MATCH") == "MATCH";
  }

  lemma {:induction false} NormalDecision(s: seq<string>, hits: string -> bool)
    requires forall r :: r in s ==> !IsMatch(r)
    ensures Decision(s, hits).None? <==> forall r :: r in s ==> !hits(r)
    ensures Decision(s, hits).Some? ==> Decision(s, hits).value in s && hits(Decision(s, hits).value)
  {
    hide IsMatch;
    if s != [] { NormalDecision(s[1..], hits); }
  }

  /** What is left of the rules when no ordinary rule hits. */
  function Fallback(source: Source, base: seq<string>, custom: seq<string>): Option<string> {
    var own, preset := Matching(custom, true), Matching(base, true);
    if own != [] then Some(own[0])
    else if preset != [] then Some(preset[0])
    else if source.NoBase? then None
    else Some("MATCH,Proxy")
  }

  lemma LastDecision(source: Source, base: seq<string>, custom: seq<string>, providers: seq<Provider>, hits: string -> bool)
    ensures var extra := Final(source, base, custom, providers)[|Assembled(source, base, custom, providers)|..];
      Decision(LastMatch(custom, base) + extra, hits) == Fallback(source, base, custom)
  {
    MatchingFacts(custom, true);
    MatchingFacts(base, true);
    hide Assembled, ProviderRule, Matching;
    var rules := Assembled(source, base, custom, providers);
    var extra := Final(source, base, custom, providers)[|rules|..];
    PlainIsMatch("MATCH,Proxy");
    hide IsMatch;
    var last := LastMatch(custom, base);
    if last != [] {
      assert last[0] in last;
      assert (last + extra)[0] == last[0];
    } else {
      assert last + extra == extra;
      NoMatchLeft(source, base, custom, providers);
    }
  }

  lemma NoMatchLeft(source: Source, base: seq<string>, custom: seq<string>, providers: seq<Provider>)
    requires LastMatch(custom, base) == []
    ensures forall r :: r in Assembled(source, base, custom, providers) ==> !IsMatch(r) && !IsPlainMatch(r)
  {
    hide IsMatch, ProviderRule, Matching;
    MatchingFacts(custom, false);
    MatchingFacts(base, false);
    ProvidersPlain(providers, true);
    ProvidersPlain(providers, false);
    forall r | r in Assembled(source, base, custom, providers) ensures !IsMatch(r) && !IsPlainMatch(r) {
      if IsPlainMatch(r) { PlainIsMatch(r); }
    }
  }

  /** Every packet's decision: the first hit of the custom rules, the priority providers, the base rules and the appended
      providers, and otherwise the first custom MATCH or the fallback of the base. */
  lemma DecisionOrder(source: Source, base: seq<string>, custom: seq<string>, providers: seq<Provider>, hits: string -> bool)
    ensures Decision(Final(source, base, custom, providers), hits) ==
      OrElse(Decision(Matching(custom, false), hits),
      OrElse(Decision(ProviderRules(providers, true), hits),
      OrElse(Decision(Matching(base, false), hits),
      OrElse(Decision(ProviderRules(providers, false), hits),
             Fallback(source, base, custom)))))
  {
    LastDecision(source, base, custom, providers, hits);
    hide Matching, ProviderRules, LastMatch, Fallback, Decision, IsMatch, IsPlainMatch;
    var a, b, c, d := Matching(custom, false), ProviderRules(providers, true), Matching(base, false), ProviderRules(providers, false);
    var m := LastMatch(custom, base);
    var rules := Assembled(source, base, custom, providers);
    var extra := Final(source, base, custom, providers)[|rules|..];
    assert Final(source, base, custom, providers) == a + (b + (c + (d + (m + extra))));
    DecisionConcat(a, b + (c + (d + (m + extra))), hits);
    DecisionConcat(b, c + (d + (m + extra)), hits);
    DecisionConcat(c, d + (m + extra), hits);
    DecisionConcat(d, m + extra, hits);
  }

  /** The ordinary rules come first and the rest are MATCH rules. */
  lemma FinalSplits(source: Source, base: seq<string>, custom: seq<string>, providers: seq<Provider>)
    returns (ordinary: seq<string>, matches: seq<string>)
    ensures Final(source, base, custom, providers) == ordinary + matches
    ensures forall r :: r in ordinary ==> !IsMatch(r)
    ensures forall r :: r in matches ==> IsMatch(r)
  {
    hide Matching, ProviderRules, IsMatch, IsPlainMatch, LastMatch;
    MatchingFacts(custom, false);
    MatchingFacts(base, false);
    ProvidersPlain(providers, true);
    ProvidersPlain(providers, false);
    var a, b, c, d := Matching(custom, false), ProviderRules(providers, true), Matching(base, false), ProviderRules(providers, false);
    ordinary := a + b + c + d;
    var final := Final(source, base, custom, providers);
    var m := LastMatch(custom, base);
    matches := m + final[|ordinary + m|..];
    FallbackRules(custom, base);
    assert final == ordinary + matches;
  }

  lemma FallbackRules(custom: seq<string>, base: seq<string>)
    ensures forall r :: r in LastMatch(custom, base) ==> IsMatch(r)
    ensures IsMatch("MATCH,Proxy")
  {
    hide IsMatch, IsPlainMatch, Matching;
    MatchingFacts(custom, true);
    MatchingFacts(base, true);
    PlainIsMatch("MATCH,Proxy") by { ProxyIsPlain(); }
  }

  lemma ProxyIsPlain()
    ensures IsPlainMatch("MATCH,Proxy")
  {
  }

  /** No ordinary rule follows a MATCH rule. */
  lemma MatchRulesLast(source: Source, base: seq<string>, custom: seq<string>, providers: seq<Provider>, i: nat, j: nat)
    requires i < j < |Final(source, base, custom, providers)| && IsMatch(Final(source, base, custom, providers)[i])
    ensures IsMatch(Final(source, base, custom, providers)[j])
  {
    hide Final, IsMatch;
    var ordinary, matches := FinalSplits(source, base, custom, providers);
    Placed(ordinary, matches, i);
    Placed(ordinary, matches, j);
  }

  lemma Placed(a: seq<string>, b: seq<string>, i: nat)
    requires i < |a + b|
    ensures if i < |a| then (a + b)[i] in a else (a + b)[i] in b
  {
  }

  /** Every source but the empty one ends in a fallback, which the validator also finds. */
  lemma EndsInFallback(source: Source, base: seq<string>, custom: seq<string>, providers: seq<Provider>)
    requires !source.NoBase?
    ensures var final := Final(source, base, custom, providers);
      && final != [] && IsMatch(final[|final| - 1])
      && exists r :: r in final && IsPlainMatch(r)
  {
    hide Assembled, IsMatch, IsPlainMatch, Final;
    var rules := Assembled(source, base, custom, providers);
    var final := Final(source, base, custom, providers);
    FinalShape(source, base, custom, providers);
    var r :| r in final && IsPlainMatch(r);
    PlainIsMatch(r);
    var i :| 0 <= i < |final| && final[i] == r;
    if i < |final| - 1 { MatchRulesLast(source, base, custom, providers, i, |final| - 1); }
  }

  lemma FinalShape(source: Source, base: seq<string>, custom: seq<string>, providers: seq<Provider>)
    requires !source.NoBase?
    ensures exists r :: r in Final(source, base, custom, providers) && IsPlainMatch(r)
  {
    hide Assembled;
    var rules := Assembled(source, base, custom, providers);
    if forall r :: r in rules ==> !IsPlainMatch(r) {
      assert Final(source, base, custom, providers)[|rules|] == "MATCH,Proxy";
      assert IsPlainMatch("MATCH,Proxy");
    } else {
      var r :| r in rules && IsPlainMatch(r);
      assert r in Final(source, base, custom, providers);
    }
  }

  /** `build_rules` for the table of a source. */
  method BuildBase(source: Source, items: seq<Provider>, chosen: map<string, string>) returns (base: seq<string>)
    ensures base == BaseRules(source, items, chosen)
  {
    hide ProviderRule, Override, Printed;
    if source.NoBase? { return []; }
    base := Printed(FIXED);
    if source.Legacy? {
      base := base + Printed(LEGACY_END) + ["MATCH,Proxy"];
      return;
    }
    var i := 0;
    while i < |items|
      invariant i <= |items| && base == Printed(FIXED) + TableRules(items[..i], chosen)
    {
      assert items[..i + 1][..i] == items[..i];
      base := base + [ProviderRule(Override(items[i], chosen))];
      i := i + 1;
    }
    assert items[..i] == items;
    if source.Lhie1? { base := base + Printed(LHIE1_END); }
    base := base + ["MATCH,Others"];
  }
}
