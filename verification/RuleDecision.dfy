/** What a packet meets in a built configuration, in terms of the rule lists as they are given: which index of which list decides
    (`build_rules`, `priority_ordered_items`, src/config_builder.py). */
module RuleDecision {
  import opened Options
  import opened RuleText
  import opened RuleList
  import opened BuildConfig

  /** A MATCH rule, or an ordinary rule that the packet hits. */
  ghost predicate Wanted(match_: bool, hits: string -> bool, rule: string) {
    if match_ then IsMatch(rule) else !IsMatch(rule) && hits(rule)
  }

  /** Index i is the least at which such a rule stands. */
  ghost predicate Least(s: seq<string>, match_: bool, hits: string -> bool, i: nat) {
    i < |s| && Wanted(match_, hits, s[i]) && forall j: nat :: j < i ==> !Wanted(match_, hits, s[j])
  }

  ghost predicate Nowhere(s: seq<string>, match_: bool, hits: string -> bool) {
    forall i: nat :: i < |s| ==> !Wanted(match_, hits, s[i])
  }

  /** The text of a provider's rule. */
  function RuleSetText(p: Provider): string { "RULE-SET," + p.name + "," + p.target }

  ghost predicate Called(p: Provider, first: bool, hits: string -> bool) { p.first == first && hits(RuleSetText(p)) }

  ghost predicate LeastProvider(ps: seq<Provider>, first: bool, hits: string -> bool, i: nat) {
    i < |ps| && Called(ps[i], first, hits) && forall j: nat :: j < i ==> !Called(ps[j], first, hits)
  }

  ghost predicate NoProvider(ps: seq<Provider>, first: bool, hits: string -> bool) {
    forall i: nat :: i < |ps| ==> !Called(ps[i], first, hits)
  }

  lemma ProviderText(p: Provider)
    ensures ProviderRule(p.(noResolve := false)) == RuleSetText(p)
  {
  }

  // ----- the parts of the final list -------------------------------------------------------------------------------------

  lemma DecisionLast(s: seq<string>, x: string, hits: string -> bool)
    ensures Decision(s + [x], hits)
         == if Decision(s, hits).Some? then Decision(s, hits) else if IsMatch(x) || hits(x) then Some(x) else None
  {
    hide IsMatch;
    DecisionConcat(s, [x], hits);
  }

  lemma NoDecision(hits: string -> bool)
    ensures Decision([], hits) == None
    ensures Matching([], false) == [] && Matching([], true) == [] && ProviderRules([], true) == [] && ProviderRules([], false) == []
  {
  }

  lemma LastMatching(s: seq<string>, match_: bool)
    requires s != []
    ensures IsMatch(s[|s| - 1]) == match_ ==> Matching(s, match_) == Matching(s[..|s| - 1], match_) + [s[|s| - 1]]
    ensures IsMatch(s[|s| - 1]) != match_ ==> Matching(s, match_) == Matching(s[..|s| - 1], match_)
  {
  }

  lemma LeastFront(s: seq<string>, match_: bool, hits: string -> bool, i: nat)
    requires s != [] && Least(s, match_, hits, i)
    ensures if i < |s| - 1 then Least(s[..|s| - 1], match_, hits, i) else Nowhere(s[..|s| - 1], match_, hits)
  {
    hide Wanted;
  }

  lemma NowhereFront(s: seq<string>, match_: bool, hits: string -> bool)
    requires s != [] && Nowhere(s, match_, hits)
    ensures Nowhere(s[..|s| - 1], match_, hits)
  {
    hide Wanted;
  }

  /** The ordinary rules of a list decide by the least index that is hit. */
  lemma {:induction false} OrdinaryDecision(s: seq<string>, hits: string -> bool, i: nat)
    ensures Least(s, false, hits, i) ==> Decision(Matching(s, false), hits) == Some(s[i])
    ensures Nowhere(s, false, hits) ==> Decision(Matching(s, false), hits) == None
  {
    hide IsMatch, Decision, Matching;
    if s == [] {
      NoDecision(hits);
    } else {
      var n := |s| - 1;
      OrdinaryDecision(s[..n], hits, i);
      LastMatching(s, false);
      DecisionLast(Matching(s[..n], false), s[n], hits);
      if Least(s, false, hits, i) { LeastFront(s, false, hits, i); }
      if Nowhere(s, false, hits) { NowhereFront(s, false, hits); }
    }
  }

  /** The first MATCH rule of a list is the one of least index. */
  lemma {:induction false} FirstMatch(s: seq<string>, hits: string -> bool, i: nat)
    ensures Least(s, true, hits, i) ==> Matching(s, true) != [] && Matching(s, true)[0] == s[i]
    ensures Nowhere(s, true, hits) ==> Matching(s, true) == []
  {
    hide IsMatch, Matching;
    if s == [] {
      NoDecision(hits);
    } else {
      var n := |s| - 1;
      FirstMatch(s[..n], hits, i);
      LastMatching(s, true);
      if Least(s, true, hits, i) { LeastFront(s, true, hits, i); }
      if Nowhere(s, true, hits) { NowhereFront(s, true, hits); }
    }
  }

  lemma LastProvider(ps: seq<Provider>, first: bool)
    requires ps != []
    ensures var p := ps[|ps| - 1];
      && (p.first == first ==> ProviderRules(ps, first) == ProviderRules(ps[..|ps| - 1], first) + [RuleSetText(p)])
      && (p.first != first ==> ProviderRules(ps, first) == ProviderRules(ps[..|ps| - 1], first))
      && !IsMatch(RuleSetText(p))
  {
    hide IsMatch, ProviderRule, RuleSetText;
    ProviderText(ps[|ps| - 1]);
    RuleSetPlain(ps[|ps| - 1].(noResolve := false));
  }

  lemma ProviderFront(ps: seq<Provider>, first: bool, hits: string -> bool, i: nat)
    requires ps != []
    ensures LeastProvider(ps, first, hits, i) ==>
      if i < |ps| - 1 then LeastProvider(ps[..|ps| - 1], first, hits, i) else NoProvider(ps[..|ps| - 1], first, hits)
    ensures NoProvider(ps, first, hits) ==> NoProvider(ps[..|ps| - 1], first, hits)
  {
    hide Called;
  }

  lemma {:induction false} ProviderDecision(ps: seq<Provider>, first: bool, hits: string -> bool, i: nat)
    ensures LeastProvider(ps, first, hits, i) ==> Decision(ProviderRules(ps, first), hits) == Some(RuleSetText(ps[i]))
    ensures NoProvider(ps, first, hits) ==> Decision(ProviderRules(ps, first), hits) == None
  {
    hide IsMatch, Decision, RuleSetText, ProviderRules;
    if ps == [] {
      NoDecision(hits);
    } else {
      var n := |ps| - 1;
      ProviderDecision(ps[..n], first, hits, i);
      LastProvider(ps, first);
      DecisionLast(ProviderRules(ps[..n], first), RuleSetText(ps[n]), hits);
      ProviderFront(ps, first, hits, i);
    }
  }

  // ----- the decision ------------------------------------------------------------------------------------------------------

  /** d is the rule of some least index of the list. */
  ghost predicate IsLeast(s: seq<string>, match_: bool, hits: string -> bool, d: Option<string>) {
    exists i: nat :: Least(s, match_, hits, i) && d == Some(s[i])
  }

  ghost predicate IsLeastProvider(ps: seq<Provider>, first: bool, hits: string -> bool, d: Option<string>) {
    exists i: nat :: LeastProvider(ps, first, hits, i) && d == Some("RULE-SET," + ps[i].name + "," + ps[i].target)
  }

  /** The ordinary custom rule of least index that is hit; or else the priority provider of least index; or else the ordinary base
      rule; or else the appended provider; or else the custom MATCH rule of least index, the base MATCH rule of least index, or the
      fallback that every source but the empty one has. */
  ghost predicate Decides(source: Source, base: seq<string>, custom: seq<string>, providers: seq<Provider>, hits: string -> bool, d: Option<string>) {
    if !Nowhere(custom, false, hits) then IsLeast(custom, false, hits, d)
    else if !NoProvider(providers, true, hits) then IsLeastProvider(providers, true, hits, d)
    else if !Nowhere(base, false, hits) then IsLeast(base, false, hits, d)
    else if !NoProvider(providers, false, hits) then IsLeastProvider(providers, false, hits, d)
    else if !Nowhere(custom, true, hits) then IsLeast(custom, true, hits, d)
    else if !Nowhere(base, true, hits) then IsLeast(base, true, hits, d)
    else d == if source.NoBase? then None else Some("MATCH,Proxy")
  }

  lemma {:induction false} LeastExists(s: seq<string>, match_: bool, hits: string -> bool, n: nat) returns (i: nat)
    requires n <= |s| && exists k: nat :: k < n && Wanted(match_, hits, s[k])
    ensures Least(s, match_, hits, i)
  {
    hide Wanted;
    if exists k: nat :: k < n - 1 && Wanted(match_, hits, s[k]) {
      i := LeastExists(s, match_, hits, n - 1);
    } else {
      i := n - 1;
    }
  }

  lemma {:induction false} LeastProviderExists(ps: seq<Provider>, first: bool, hits: string -> bool, n: nat) returns (i: nat)
    requires n <= |ps| && exists k: nat :: k < n && Called(ps[k], first, hits)
    ensures LeastProvider(ps, first, hits, i)
  {
    hide Called;
    if exists k: nat :: k < n - 1 && Called(ps[k], first, hits) {
      i := LeastProviderExists(ps, first, hits, n - 1);
    } else {
      i := n - 1;
    }
  }

  lemma OrdinaryPart(s: seq<string>, hits: string -> bool)
    ensures Nowhere(s, false, hits) ==> Decision(Matching(s, false), hits) == None
    ensures !Nowhere(s, false, hits) ==> Decision(Matching(s, false), hits).Some? && IsLeast(s, false, hits, Decision(Matching(s, false), hits))
  {
    hide Wanted, Decision, Matching;
    if Nowhere(s, false, hits) {
      OrdinaryDecision(s, hits, 0);
    } else {
      var i := LeastExists(s, false, hits, |s|);
      OrdinaryDecision(s, hits, i);
    }
  }

  lemma MatchPart(s: seq<string>, hits: string -> bool)
    ensures Nowhere(s, true, hits) ==> Matching(s, true) == []
    ensures !Nowhere(s, true, hits) ==> Matching(s, true) != [] && IsLeast(s, true, hits, Some(Matching(s, true)[0]))
  {
    hide Wanted, Matching;
    if Nowhere(s, true, hits) {
      FirstMatch(s, hits, 0);
    } else {
      var i := LeastExists(s, true, hits, |s|);
      FirstMatch(s, hits, i);
    }
  }

  lemma ProviderPart(ps: seq<Provider>, first: bool, hits: string -> bool)
    ensures var d := Decision(ProviderRules(ps, first), hits);
      if NoProvider(ps, first, hits) then d == None else d.Some? && IsLeastProvider(ps, first, hits, d)
  {
    hide Called, Decision, ProviderRules;
    if NoProvider(ps, first, hits) {
      ProviderDecision(ps, first, hits, 0);
    } else {
      var i := LeastProviderExists(ps, first, hits, |ps|);
      ProviderDecision(ps, first, hits, i);
    }
  }

  /** Every packet's decision in the list that `build_rules` ends with, by the indices of the lists it is given. */
  lemma DecidedBy(source: Source, base: seq<string>, custom: seq<string>, providers: seq<Provider>, hits: string -> bool)
    ensures Decides(source, base, custom, providers, hits, Decision(Final(source, base, custom, providers), hits))
  {
    hide IsMatch, Decision, Matching, ProviderRules, Final, Nowhere, NoProvider, IsLeast, IsLeastProvider;
    DecisionOrder(source, base, custom, providers, hits);
    OrdinaryPart(custom, hits);
    OrdinaryPart(base, hits);
    ProviderPart(providers, true, hits);
    ProviderPart(providers, false, hits);
    MatchPart(custom, hits);
    MatchPart(base, hits);
  }

  /** Every packet's decision in a built configuration. */
  lemma BuiltDecidedBy(r: Request, hits: string -> bool)
    ensures r.minimal && !r.source.NoBase? ==> Decision(Rules(r), hits) == Some("MATCH,Proxy")
    ensures !r.minimal || r.source.NoBase? ==> Decides(r.source, Base(r), r.custom, r.providers, hits, Decision(Rules(r), hits))
  {
    hide Decision, Decides, Base, Final;
    if r.minimal && !r.source.NoBase? {
      BuiltDecision(r, hits);
    } else {
      DecidedBy(r.source, Base(r), r.custom, r.providers, hits);
    }
  }
}
