/** The groups and rules of a built configuration (`build_config`, src/config_builder.py): which builders a generation profile
    calls, what a packet meets, and when the references are in order. */
module BuildConfig {
  import opened Options
  import opened RuleText
  import opened RuleList
  import opened ProxyGroups

  // ----- the table of a base source, in priority order -----

  function Priority(source: Source): seq<string> {
    match source
    case DustinWin => ["ai", "youtube", "google"]
    case Lhie1 => ["AI Suite"]
    case _ => []
  }

  function Deferred(source: Source): seq<string> {
    match source
    case DustinWin => ["cnip"]
    case Lhie1 => ["Domestic", "Domestic IPs"]
    case _ => []
  }

  function Keys(table: seq<Provider>): (keys: seq<string>)
    ensures |keys| == |table| && forall i :: 0 <= i < |table| ==> keys[i] == table[i].name
  {
    seq(|table|, i requires 0 <= i < |table| => table[i].name)
  }

  function Place(table: seq<Provider>, name: string): (i: nat)
    ensures i <= |table|
    ensures i < |table| ==> table[i].name == name
    ensures name in Keys(table) ==> i < |table|
  {
    if table == [] || table[0].name == name then 0 else
      assert name in Keys(table) ==> name in Keys(table[1..]);
      1 + Place(table[1..], name)
  }

  /** The entries with the given names, in their order. */
  function Entries(table: seq<Provider>, names: seq<string>): (items: seq<Provider>)
    ensures forall p :: p in items ==> p in table
  {
    if names == [] then []
    else
      var i := Place(table, names[|names| - 1]);
      Entries(table, names[..|names| - 1]) + if i < |table| then [table[i]] else []
  }

  function Items(table: seq<Provider>, source: Source): seq<Provider> {
    Entries(table, Ordered(Keys(table), Priority(source), Deferred(source)))
  }

  lemma NoRepeats(source: Source, x: string)
    ensures multiset(Priority(source))[x] <= 1
  {
    assert "ai" != "youtube" && "ai" != "google" && "youtube"[0] != "google"[0];
  }

  /** With the priority and deferred names the program uses, the entries of any table come out as a permutation. */
  lemma TablePermuted(table: seq<Provider>, source: Source)
    requires Distinct(Keys(table))
    ensures multiset(Ordered(Keys(table), Priority(source), Deferred(source))) == multiset(Keys(table))
  {
    hide Ordered, Distinct, Priority, Deferred;
    forall x | x in Keys(table) ensures multiset(Priority(source))[x] <= 1 { NoRepeats(source, x); }
    OrderedIsPermutation(Keys(table), Priority(source), Deferred(source));
  }

  // ----- what is built -----

  /** What `build_config` reads for groups and rules; `table` is the provider table of the source. */
  datatype Request = Request(minimal: bool, source: Source, table: seq<Provider>, chosen: map<string, string>,
    custom: seq<string>, providers: seq<Provider>)

  function Base(r: Request): seq<string> { BaseRules(r.source, Items(r.table, r.source), r.chosen) }

  function Groups(r: Request, nodes: seq<string>): seq<Group> { if r.minimal then MinimalGroups(nodes) else FullGroups(nodes) }

  /** The minimal profile with a base source has one rule; every other combination goes through `build_rules`. */
  function Rules(r: Request): seq<string> {
    if r.minimal && !r.source.NoBase? then ["MATCH,Proxy"] else Final(r.source, Base(r), r.custom, r.providers)
  }

  method BuildGroupsAndRules(r: Request, nodes: seq<string>) returns (groups: seq<Group>, rules: seq<string>)
    requires Distinct(Keys(r.table))
    ensures groups == Groups(r, nodes) && rules == Rules(r)
  {
    hide Ordered, BaseRules, Final, FullGroups, Distinct;
    if r.minimal { groups := MinimalGroups(nodes); } else { groups := GenerateProxyGroups(nodes); }
    if r.minimal && !r.source.NoBase? {
      rules := ["MATCH,Proxy"];
      return;
    }
    var names := PriorityOrdered(Keys(r.table), Priority(r.source), Deferred(r.source));
    var base := BuildBase(r.source, Entries(r.table, names), r.chosen);
    rules := BuildRules(r.source, base, r.custom, r.providers);
  }

  /** A packet's decision in a built configuration. */
  lemma BuiltDecision(r: Request, hits: string -> bool)
    ensures r.minimal && !r.source.NoBase? ==> Decision(Rules(r), hits) == Some("MATCH,Proxy")
    ensures !(r.minimal && !r.source.NoBase?) ==>
      Decision(Rules(r), hits) ==
        OrElse(Decision(Matching(r.custom, false), hits),
        OrElse(Decision(ProviderRules(r.providers, true), hits),
        OrElse(Decision(Matching(Base(r), false), hits),
        OrElse(Decision(ProviderRules(r.providers, false), hits),
               Fallback(r.source, Base(r), r.custom)))))
  {
    if r.minimal && !r.source.NoBase? {
      ProxyMatches();
    } else {
      hide Matching, ProviderRules, Fallback, Decision, Base, Final;
      DecisionOrder(r.source, Base(r), r.custom, r.providers, hits);
    }
  }

  lemma ProxyMatches()
    ensures IsMatch("MATCH,Proxy")
  {
    hide IsMatch, IsPlainMatch;
    PlainIsMatch("MATCH,Proxy") by { ProxyIsPlain(); }
  }

  // ----- when the references are in order -----

  /** The custom rules that are kept: the ordinary ones and the first MATCH. */
  ghost predicate CustomKnown(groups: seq<Group>, nodes: seq<string>, custom: seq<string>) {
    && (forall r :: r in Matching(custom, false) ==> RuleKnown(groups, nodes, r))
    && (Matching(custom, true) != [] ==> RuleKnown(groups, nodes, Matching(custom, true)[0]))
  }

  ghost predicate AllKnown(groups: seq<Group>, nodes: seq<string>, rules: seq<string>) {
    forall r :: r in rules ==> RuleKnown(groups, nodes, r)
  }

  lemma AllKnownIs(groups: seq<Group>, nodes: seq<string>, rules: seq<string>)
    ensures AllKnown(groups, nodes, rules) <==> TargetsKnown(groups, nodes, rules)
  {
    hide RuleKnown;
    if TargetsKnown(groups, nodes, rules) {
      forall r | r in rules ensures RuleKnown(groups, nodes, r) {
        var i :| 0 <= i < |rules| && rules[i] == r;
      }
    }
  }

  lemma AllKnownConcat(groups: seq<Group>, nodes: seq<string>, a: seq<string>, b: seq<string>)
    ensures AllKnown(groups, nodes, a + b) <==> AllKnown(groups, nodes, a) && AllKnown(groups, nodes, b)
  {
    hide RuleKnown;
    assert forall r :: r in a + b <==> r in a || r in b;
  }

  ghost predicate ProvidersKnownAll(groups: seq<Group>, nodes: seq<string>, ps: seq<Provider>) {
    forall p :: p in ps ==> RuleKnown(groups, nodes, ProviderRule(p.(noResolve := false)))
  }

  ghost predicate HasRule(ps: seq<Provider>, first: bool, rule: string) {
    exists p :: p in ps && p.first == first && rule == ProviderRule(p.(noResolve := false))
  }

  lemma {:induction false} ProviderRulesAre(ps: seq<Provider>, first: bool, rule: string)
    ensures rule in ProviderRules(ps, first) <==> HasRule(ps, first, rule)
  {
    hide ProviderRule;
    if ps != [] {
      var front, last := ps[..|ps| - 1], ps[|ps| - 1];
      ProviderRulesAre(front, first, rule);
      assert ps == front + [last];
      if HasRule(front, first, rule) {
        var p :| p in front && p.first == first && rule == ProviderRule(p.(noResolve := false));
        assert p in ps;
      }
    }
  }

  lemma ProviderRulesKnown(groups: seq<Group>, nodes: seq<string>, ps: seq<Provider>)
    ensures AllKnown(groups, nodes, ProviderRules(ps, true)) && AllKnown(groups, nodes, ProviderRules(ps, false))
       <==> ProvidersKnownAll(groups, nodes, ps)
  {
    hide ProviderRules, ProviderRule, RuleKnown;
    forall rule, first ensures rule in ProviderRules(ps, first) <==> HasRule(ps, first, rule) { ProviderRulesAre(ps, first, rule); }
    if AllKnown(groups, nodes, ProviderRules(ps, true)) && AllKnown(groups, nodes, ProviderRules(ps, false)) {
      forall p | p in ps ensures RuleKnown(groups, nodes, ProviderRule(p.(noResolve := false))) {
        assert HasRule(ps, p.first, ProviderRule(p.(noResolve := false)));
      }
    }
  }

  /** The list that `build_rules` ends with names known targets exactly when its parts do. */
  lemma FinalKnown(source: Source, base: seq<string>, custom: seq<string>, providers: seq<Provider>, groups: seq<Group>, nodes: seq<string>)
    requires AllKnown(groups, nodes, Matching(base, true)) && RuleKnown(groups, nodes, "MATCH,Proxy")
    ensures AllKnown(groups, nodes, Final(source, base, custom, providers))
       <==> && CustomKnown(groups, nodes, custom) && ProvidersKnownAll(groups, nodes, providers)
            && AllKnown(groups, nodes, Matching(base, false))
  {
    hide Matching, ProviderRules, RuleKnown, IsPlainMatch, ProvidersKnownAll;
    var a, b, c, d := Matching(custom, false), ProviderRules(providers, true), Matching(base, false), ProviderRules(providers, false);
    var m := LastMatch(custom, base);
    var rules := Assembled(source, base, custom, providers);
    AllKnownConcat(groups, nodes, a, b);
    AllKnownConcat(groups, nodes, a + b, c);
    AllKnownConcat(groups, nodes, a + b + c, d);
    AllKnownConcat(groups, nodes, a + b + c + d, m);
    var extra := if !source.NoBase? && forall r :: r in rules ==> !IsPlainMatch(r) then ["MATCH,Proxy"] else [];
    AllKnownConcat(groups, nodes, rules, extra);
    ProviderRulesKnown(groups, nodes, providers);
  }

  lemma ProxyKnown(r: Request, nodes: seq<string>)
    ensures RuleKnown(Groups(r, nodes), nodes, "MATCH,Proxy")
  {
    hide FullGroups;
    if r.minimal {
      assert MinimalGroups(nodes)[1].name == "Proxy";
      assert "MATCH" + "," + "Proxy" == "MATCH,Proxy";
      hide MinimalGroups;
      MatchKnown(MinimalGroups(nodes), nodes, "Proxy");
    } else {
      MatchStanding(nodes);
    }
  }

  lemma GroupsClosed(r: Request, nodes: seq<string>)
    ensures Closed(Groups(r, nodes), nodes, Groups(r, nodes))
  {
    hide FullGroups, MinimalGroups, Known;
    var groups := Groups(r, nodes);
    forall i | 0 <= i < |groups| ensures MembersKnown(groups, nodes, groups[i].members) {
      forall j | 0 <= j < |groups[i].members| ensures Known(groups, nodes, groups[i].members[j]) {
        if r.minimal {
          TwoGroups(nodes);
          MinimalClosed(nodes, i, groups[i].members[j]);
        } else {
          FullClosed(nodes, i, groups[i].members[j]);
        }
      }
    }
  }

  lemma TwoGroups(nodes: seq<string>)
    ensures |MinimalGroups(nodes)| == 2
  {
  }

  /** The minimal profile with a base source drops custom rules and providers and draws no reference error, for any nodes. */
  lemma MinimalBaseClean(r: Request, nodes: seq<string>)
    requires r.minimal && !r.source.NoBase?
    ensures Rules(r) == ["MATCH,Proxy"]
    ensures Closed(Groups(r, nodes), nodes, Groups(r, nodes)) && TargetsKnown(Groups(r, nodes), nodes, Rules(r))
  {
    hide Groups, Known;
    GroupsClosed(r, nodes);
    ProxyKnown(r, nodes);
  }

  /** The minimal profile without a base source draws no reference error exactly when every custom rule that is kept and every
      provider names a node, a minimal group or a built-in target. */
  lemma MinimalNoBaseClean(r: Request, nodes: seq<string>)
    requires r.minimal && r.source.NoBase?
    ensures var groups := MinimalGroups(nodes);
      Closed(groups, nodes, groups) && TargetsKnown(groups, nodes, Rules(r))
      <==> CustomKnown(groups, nodes, r.custom) && ProvidersKnownAll(groups, nodes, r.providers)
  {
    hide RuleKnown, MinimalGroups, Final, CustomKnown, ProvidersKnownAll;
    var groups := MinimalGroups(nodes);
    GroupsClosed(r, nodes);
    ProxyKnown(r, nodes);
    assert Base(r) == [];
    AllKnownIs(groups, nodes, Rules(r));
    FinalKnown(r.source, [], r.custom, r.providers, groups, nodes);
  }

  /** Any other profile draws no reference error exactly when, besides, every table entry names such a target after the draft's
      choices. */
  lemma FullClean(r: Request, nodes: seq<string>)
    requires !r.minimal
    ensures var groups := FullGroups(nodes);
      Closed(groups, nodes, groups) && TargetsKnown(groups, nodes, Rules(r))
      <==> && CustomKnown(groups, nodes, r.custom) && ProvidersKnownAll(groups, nodes, r.providers)
           && (r.source.DustinWin? || r.source.Lhie1? ==> AllKnown(groups, nodes, TableRules(Items(r.table, r.source), r.chosen)))
  {
    hide RuleKnown, FullGroups, Final, CustomKnown, ProvidersKnownAll, Items, TableRules;
    var groups := FullGroups(nodes);
    GroupsClosed(r, nodes);
    ProxyKnown(r, nodes);
    BaseParts(r.source, Items(r.table, r.source), r.chosen, nodes);
    AllKnownIs(groups, nodes, Rules(r));
    FinalKnown(r.source, Base(r), r.custom, r.providers, groups, nodes);
  }

  /** The rules a base list adds to its table are always known. */
  lemma BaseParts(source: Source, items: seq<Provider>, chosen: map<string, string>, nodes: seq<string>)
    ensures var groups := FullGroups(nodes); var base := BaseRules(source, items, chosen);
      && AllKnown(groups, nodes, Matching(base, true))
      && (AllKnown(groups, nodes, Matching(base, false))
          <==> (source.DustinWin? || source.Lhie1? ==> AllKnown(groups, nodes, TableRules(items, chosen))))
  {
    hide RuleKnown, FullGroups, IsMatch, Printed, TableRules, Matching;
    var base := BaseRules(source, items, chosen);
    MatchingFacts(base, true);
    MatchingFacts(base, false);
    FixedKnown(nodes);
    MatchStanding(nodes);
    TablePlain(items, chosen);
  }

  lemma {:induction false} TablePlain(items: seq<Provider>, chosen: map<string, string>)
    ensures forall r :: r in TableRules(items, chosen) ==> !IsMatch(r)
  {
    hide IsMatch, ProviderRule, Override;
    if items != [] {
      TablePlain(items[..|items| - 1], chosen);
      RuleSetPlain(Override(items[|items| - 1], chosen));
    }
  }

  /** A provider with a plain target is in order exactly when its target exists. */
  lemma ProviderTargetKnown(groups: seq<Group>, nodes: seq<string>, p: Provider)
    requires NoComma(p.target) && p.target != NO_RESOLVE
    ensures RuleKnown(groups, nodes, ProviderRule(p.(noResolve := false))) <==> Known(groups, nodes, p.target)
  {
    hide Split, Print, Known;
    PlainKind();
    PrintedParts(Rule("RULE-SET", p.name, p.target, false));
  }
}
