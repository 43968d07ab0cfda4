/** The base lists written out, and the order of their tables (`priority_ordered_items`, `build_rules`, src/config_builder.py). */
module RuleOrder {
  import opened Options
  import opened RuleText
  import opened RuleList
  import opened BuildConfig

  // ----- the order -----------------------------------------------------------------------------------------------------------

  /** Some a stands before some b. */
  ghost predicate InOrder(s: seq<string>, a: string, b: string) {
    exists p: nat, q: nat :: p < q < |s| && s[p] == a && s[q] == b
  }

  /** The first a stands before every b. */
  ghost predicate FirstBefore(s: seq<string>, a: string, b: string) {
    exists p: nat :: p < |s| && s[p] == a && forall q: nat :: q < |s| && s[q] == b ==> p < q
  }

  /** Priority names by their list, then the names that are neither priority nor deferred by the mapping, then the deferred names by
      their list. */
  ghost predicate Earlier(keys: seq<string>, priority: seq<string>, deferred: seq<string>, a: string, b: string) {
    if a in priority && b in priority then InOrder(priority, a, b)
    else if a in priority then true
    else if b in priority then false
    else if a !in deferred && b !in deferred then InOrder(keys, a, b)
    else if a in deferred && b in deferred then FirstBefore(deferred, a, b)
    else b in deferred
  }

  lemma InOrderMore(s: seq<string>, x: string, a: string, b: string)
    ensures InOrder(s, a, b) ==> InOrder(s + [x], a, b)
    ensures a in s && b == x ==> InOrder(s + [x], a, b)
  {
    if InOrder(s, a, b) {
      var p: nat, q: nat :| p < q < |s| && s[p] == a && s[q] == b;
      assert (s + [x])[p] == a && (s + [x])[q] == b;
    }
    if a in s && b == x {
      var p: nat :| p < |s| && s[p] == a;
      assert (s + [x])[p] == a && (s + [x])[|s|] == b;
    }
  }

  lemma {:induction false} FilterMembers(s: seq<string>, t: seq<string>, keep: bool)
    ensures forall x :: x in Filter(s, t, keep) <==> x in s && (x in t) == keep
  {
    if s != [] {
      FilterMembers(s[..|s| - 1], t, keep);
      assert s == s[..|s| - 1] + [s[|s| - 1]];
    }
  }

  /** Filtering keeps the order. */
  lemma {:induction false} FilterInOrder(s: seq<string>, t: seq<string>, keep: bool, i: nat, j: nat)
    requires i < j < |Filter(s, t, keep)|
    ensures InOrder(s, Filter(s, t, keep)[i], Filter(s, t, keep)[j])
  {
    if s != [] {
      var front, last := s[..|s| - 1], s[|s| - 1];
      assert s == front + [last];
      hide InOrder;
      FilterLast(front, last, t, keep);
      InOrderMore(front, last, Filter(s, t, keep)[i], Filter(s, t, keep)[j]);
      FilterMembers(front, t, keep);
      hide Filter;
      if j < |Filter(front, t, keep)| {
        FilterInOrder(front, t, keep, i, j);
      } else {
        assert Filter(front, t, keep)[i] in Filter(front, t, keep);
      }
    }
  }

  lemma {:induction false} OnceMembers(s: seq<string>)
    ensures forall x :: x in Once(s) <==> x in s
  {
    if s != [] {
      OnceMembers(s[..|s| - 1]);
      assert s == s[..|s| - 1] + [s[|s| - 1]];
    }
  }

  lemma FirstBeforeMore(s: seq<string>, x: string, a: string, b: string)
    requires FirstBefore(s, a, b) || (a in s && b == x && x !in s)
    ensures FirstBefore(s + [x], a, b)
  {
    var p: nat :| p < |s| && s[p] == a && (FirstBefore(s, a, b) ==> forall q: nat :: q < |s| && s[q] == b ==> p < q);
    assert (s + [x])[p] == a;
    forall q: nat | q < |s + [x]| && (s + [x])[q] == b ensures p < q {
      if q < |s| { assert s[q] == b; }
    }
  }

  lemma {:induction false} OnceInOrder(s: seq<string>, i: nat, j: nat)
    requires i < j < |Once(s)|
    ensures FirstBefore(s, Once(s)[i], Once(s)[j])
  {
    if s != [] {
      var front, last := s[..|s| - 1], s[|s| - 1];
      assert s == front + [last];
      hide FirstBefore;
      OnceLast(front, last);
      OnceMembers(front);
      hide Once;
      if j < |Once(front)| {
        OnceInOrder(front, i, j);
      } else {
        assert Once(front)[i] in Once(front);
      }
      FirstBeforeMore(front, last, Once(s)[i], Once(s)[j]);
    }
  }

  lemma InOrderUnfiltered(s: seq<string>, t: seq<string>, keep: bool, a: string, b: string)
    requires InOrder(Filter(s, t, keep), a, b)
    ensures InOrder(s, a, b)
  {
    var p: nat, q: nat :| p < q < |Filter(s, t, keep)| && Filter(s, t, keep)[p] == a && Filter(s, t, keep)[q] == b;
    FilterInOrder(s, t, keep, p, q);
  }

  lemma IndexInOrder(s: seq<string>, i: nat, j: nat)
    requires i < j < |s|
    ensures InOrder(s, s[i], s[j])
  {
  }

  lemma FirstPart(keys: seq<string>, priority: seq<string>, deferred: seq<string>)
    ensures forall x :: x in Filter(priority, keys, true) ==> x in priority
    ensures forall x :: x in Filter(Filter(keys, priority, false), deferred, false) ==> x !in priority && x !in deferred
    ensures forall x :: x in Filter(Filter(Once(deferred), keys, true), priority, false) ==> x !in priority && x in deferred
  {
    hide Filter, Once;
    FilterMembers(priority, keys, true);
    FilterMembers(keys, priority, false);
    FilterMembers(Filter(keys, priority, false), deferred, false);
    OnceMembers(deferred);
    FilterMembers(Once(deferred), keys, true);
    FilterMembers(Filter(Once(deferred), keys, true), priority, false);
  }

  lemma SamePart(a: seq<string>, b: seq<string>, c: seq<string>, i: nat, j: nat)
    requires i < j < |a + b + c|
    ensures var s := a + b + c;
      || InOrder(a, s[i], s[j]) || InOrder(b, s[i], s[j]) || InOrder(c, s[i], s[j])
      || (s[i] in a && s[j] in b + c) || (s[i] in b && s[j] in c)
    ensures (a + b + c)[i] in a + b + c && (a + b + c)[j] in a + b + c
  {
    var s := a + b + c;
    if j < |a| {
      IndexInOrder(a, i, j);
    } else if i < |a| {
      assert s[j] == (b + c)[j - |a|];
    } else if j < |a + b| {
      IndexInOrder(b, i - |a|, j - |a|);
    } else if i < |a + b| {
      assert s[j] == c[j - |a + b|] && s[i] == b[i - |a|];
    } else {
      IndexInOrder(c, i - |a + b|, j - |a + b|);
    }
  }

  lemma InOrderMembers(s: seq<string>, a: string, b: string)
    requires InOrder(s, a, b)
    ensures a in s && b in s
  {
  }

  /** The items stand in the order of the three lists. */
  lemma OrderedEarlier(keys: seq<string>, priority: seq<string>, deferred: seq<string>, i: nat, j: nat)
    requires i < j < |Ordered(keys, priority, deferred)|
    ensures Earlier(keys, priority, deferred, Ordered(keys, priority, deferred)[i], Ordered(keys, priority, deferred)[j])
  {
    hide Filter, Once, InOrder, FirstBefore;
    var a := Filter(priority, keys, true);
    var b := Filter(Filter(keys, priority, false), deferred, false);
    var c := Filter(Filter(Once(deferred), keys, true), priority, false);
    var x, y := Ordered(keys, priority, deferred)[i], Ordered(keys, priority, deferred)[j];
    FirstPart(keys, priority, deferred);
    SamePart(a, b, c, i, j);
    if InOrder(a, x, y) {
      InOrderMembers(a, x, y);
      InOrderUnfiltered(priority, keys, true, x, y);
    } else if InOrder(b, x, y) {
      InOrderMembers(b, x, y);
      InOrderUnfiltered(Filter(keys, priority, false), deferred, false, x, y);
      InOrderUnfiltered(keys, priority, false, x, y);
    } else if InOrder(c, x, y) {
      InOrderMembers(c, x, y);
      InOrderUnfiltered(Filter(Once(deferred), keys, true), priority, false, x, y);
      InOrderUnfiltered(Once(deferred), keys, true, x, y);
      OnceOrder(deferred, x, y);
    }
  }

  lemma OnceOrder(s: seq<string>, a: string, b: string)
    requires InOrder(Once(s), a, b)
    ensures FirstBefore(s, a, b)
  {
    var p: nat, q: nat :| p < q < |Once(s)| && Once(s)[p] == a && Once(s)[q] == b;
    OnceInOrder(s, p, q);
  }

  // ----- the entries -----------------------------------------------------------------------------------------------------------

  /** The entries are those of the names, one for each, in their order. */
  lemma {:induction false} EntriesNamed(table: seq<Provider>, names: seq<string>, k: nat)
    requires forall x :: x in names ==> x in Keys(table)
    ensures |Entries(table, names)| == |names|
    ensures k < |names| ==> Entries(table, names)[k].name == names[k] && Entries(table, names)[k] in table
  {
    if names != [] {
      var front, last := names[..|names| - 1], names[|names| - 1];
      assert last in names;
      assert Place(table, last) < |table|;
      EntriesNamed(table, front, k);
    }
  }

  lemma OrderedMembers(keys: seq<string>, priority: seq<string>, deferred: seq<string>)
    ensures forall x :: x in Ordered(keys, priority, deferred) ==> x in keys
  {
    hide Filter, Once;
    FilterMembers(priority, keys, true);
    FilterMembers(keys, priority, false);
    FilterMembers(Filter(keys, priority, false), deferred, false);
    FilterMembers(Once(deferred), keys, true);
    FilterMembers(Filter(Once(deferred), keys, true), priority, false);
  }

  /** The table of a base source in priority order: a permutation of its names, each entry before the next. */
  lemma ItemsOrdered(table: seq<Provider>, source: Source, i: nat, j: nat)
    requires Distinct(Keys(table)) && i < j < |Items(table, source)|
    ensures Items(table, source)[i] in table && Items(table, source)[j] in table
    ensures match source
      case DustinWin => Earlier(Keys(table), ["ai", "youtube", "google"], ["cnip"], Items(table, source)[i].name, Items(table, source)[j].name)
      case Lhie1 => Earlier(Keys(table), ["AI Suite"], ["Domestic", "Domestic IPs"], Items(table, source)[i].name, Items(table, source)[j].name)
      case _ => Earlier(Keys(table), [], [], Items(table, source)[i].name, Items(table, source)[j].name)
    ensures |Items(table, source)| == |table|
  {
    hide Ordered, Entries, Earlier, Distinct;
    var names := Ordered(Keys(table), Priority(source), Deferred(source));
    OrderedMembers(Keys(table), Priority(source), Deferred(source));
    TablePermuted(table, source);
    assert |names| == |multiset(names)| == |multiset(Keys(table))| == |table|;
    EntriesNamed(table, names, i);
    EntriesNamed(table, names, j);
    OrderedEarlier(Keys(table), Priority(source), Deferred(source), i, j);
  }

  // ----- the text of the base lists --------------------------------------------------------------------------------------------

  /** The rule of a table entry: its target is the one chosen in the draft when there is one. */
  function EntryText(p: Provider, chosen: map<string, string>): string {
    "RULE-SET," + p.name + "," + (if p.name in chosen && chosen[p.name] != "" then chosen[p.name] else p.target)
    + (if p.noResolve then ",no-resolve" else "")
  }

  lemma {:induction false} TableText(items: seq<Provider>, chosen: map<string, string>, k: nat)
    ensures |TableRules(items, chosen)| == |items|
    ensures k < |items| ==> TableRules(items, chosen)[k] == EntryText(items[k], chosen)
  {
    hide EntryText, ProviderRule, Override;
    if items != [] {
      TableText(items[..|items| - 1], chosen, k);
      EntryRule(items[|items| - 1], chosen);
    }
  }

  lemma EntryRule(p: Provider, chosen: map<string, string>)
    ensures ProviderRule(Override(p, chosen)) == EntryText(p, chosen)
  {
  }

  /** The base list of every source, rule by rule. */
  lemma BaseText(source: Source, items: seq<Provider>, chosen: map<string, string>)
    ensures var table := seq(|items|, k requires 0 <= k < |items| => EntryText(items[k], chosen));
      BaseRules(source, items, chosen) ==
        match source
        case DustinWin =>
          ["DOMAIN-SUFFIX,xn--ngstr-lra8j.com,Proxy", "DOMAIN-SUFFIX,services.googleapis.cn,Google"] + table + ["MATCH,Others"]
        case Lhie1 =>
          ["DOMAIN-SUFFIX,xn--ngstr-lra8j.com,Proxy", "DOMAIN-SUFFIX,services.googleapis.cn,Google"] + table
          + ["RULE-SET,google,Google", "GEOIP,CN,Domestic,no-resolve", "MATCH,Others"]
        case NoBase => []
        case Legacy =>
          ["DOMAIN-SUFFIX,xn--ngstr-lra8j.com,Proxy", "DOMAIN-SUFFIX,services.googleapis.cn,Google",
           "DOMAIN-SUFFIX,google.com,Google", "DOMAIN-SUFFIX,youtube.com,Youtube", "GEOIP,CN,DIRECT,no-resolve", "MATCH,Proxy"]
  {
    hide EntryText, Print;
    var table := seq(|items|, k requires 0 <= k < |items| => EntryText(items[k], chosen));
    TableText(items, chosen, 0);
    forall k: nat | k < |items| { TableText(items, chosen, k); }
    assert TableRules(items, chosen) == table;
    FixedText();
    hide TableRules;
    assert Printed(FIXED) == ["DOMAIN-SUFFIX,xn--ngstr-lra8j.com,Proxy", "DOMAIN-SUFFIX,services.googleapis.cn,Google"];
    assert Printed(LHIE1_END) == ["RULE-SET,google,Google", "GEOIP,CN,Domestic,no-resolve"];
    assert Printed(LEGACY_END) == ["DOMAIN-SUFFIX,google.com,Google", "DOMAIN-SUFFIX,youtube.com,Youtube", "GEOIP,CN,DIRECT,no-resolve"];
  }

  lemma FixedText()
    ensures Print(FIXED[0]) == "DOMAIN-SUFFIX,xn--ngstr-lra8j.com,Proxy"
    ensures Print(FIXED[1]) == "DOMAIN-SUFFIX,services.googleapis.cn,Google"
    ensures Print(LHIE1_END[0]) == "RULE-SET,google,Google" && Print(LHIE1_END[1]) == "GEOIP,CN,Domestic,no-resolve"
    ensures Print(LEGACY_END[0]) == "DOMAIN-SUFFIX,google.com,Google" && Print(LEGACY_END[1]) == "DOMAIN-SUFFIX,youtube.com,Youtube"
    ensures Print(LEGACY_END[2]) == "GEOIP,CN,DIRECT,no-resolve"
  {
    hide Print;
    PrintPlain("DOMAIN-SUFFIX", "xn--ngstr-lra8j.com", "Proxy");
    PrintPlain("DOMAIN-SUFFIX", "services.googleapis.cn", "Google");
    PrintPlain("RULE-SET", "google", "Google");
    PrintPlain("DOMAIN-SUFFIX", "google.com", "Google");
    PrintPlain("DOMAIN-SUFFIX", "youtube.com", "Youtube");
    PrintModified("GEOIP", "CN", "Domestic");
    PrintModified("GEOIP", "CN", "DIRECT");
    FirstLiteral();
    SecondLiteral();
    GoogleLiterals();
    YoutubeLiteral();
    ModifiedLiterals();
  }

  lemma PrintPlain(kind: string, value: string, target: string)
    ensures Print(Rule(kind, value, target, false)) == kind + "," + value + "," + target
  {
  }

  lemma PrintModified(kind: string, value: string, target: string)
    ensures Print(Rule(kind, value, target, true)) == kind + "," + value + "," + target + "," + NO_RESOLVE
  {
  }

  lemma FirstLiteral()
    ensures "DOMAIN-SUFFIX" + "," + "xn--ngstr-lra8j.com" + "," + "Proxy" == "DOMAIN-SUFFIX,xn--ngstr-lra8j.com,Proxy"
  {
  }

  lemma SecondLiteral()
    ensures "DOMAIN-SUFFIX" + "," + "services.googleapis.cn" + "," + "Google" == "DOMAIN-SUFFIX,services.googleapis.cn,Google"
  {
  }

  lemma GoogleLiterals()
    ensures "RULE-SET" + "," + "google" + "," + "Google" == "RULE-SET,google,Google"
    ensures "DOMAIN-SUFFIX" + "," + "google.com" + "," + "Google" == "DOMAIN-SUFFIX,google.com,Google"
  {
  }

  lemma YoutubeLiteral()
    ensures "DOMAIN-SUFFIX" + "," + "youtube.com" + "," + "Youtube" == "DOMAIN-SUFFIX,youtube.com,Youtube"
  {
  }

  lemma ModifiedLiterals()
    ensures "GEOIP" + "," + "CN" + "," + "Domestic" + "," + NO_RESOLVE == "GEOIP,CN,Domestic,no-resolve"
    ensures "GEOIP" + "," + "CN" + "," + "DIRECT" + "," + NO_RESOLVE == "GEOIP,CN,DIRECT,no-resolve"
  {
  }

  // ----- which rules are MATCH rules -------------------------------------------------------------------------------------------

  /** Blanks, the word in any case, blanks, and then a comma or the end. */
  ghost predicate Spelled(rule: string, a: nat, b: nat) {
    && a + 5 <= b <= |rule| && Spaces(rule, 0, a) && Spaces(rule, a + 5, b) && (b == |rule| || rule[b] == ',')
    && (rule[a] == 'M' || rule[a] == 'm') && (rule[a + 1] == 'A' || rule[a + 1] == 'a') && (rule[a + 2] == 'T' || rule[a + 2] == 't')
    && (rule[a + 3] == 'C' || rule[a + 3] == 'c') && (rule[a + 4] == 'H' || rule[a + 4] == 'h')
  }

  lemma {:induction false} HeadIs(s: string) returns (c: nat)
    ensures c <= |s| && Split(s)[0] == s[..c] && ',' !in s[..c] && (c < |s| ==> s[c] == ',')
  {
    if s == "" || s[0] == ',' {
      c := 0;
    } else {
      var rest := HeadIs(s[1..]);
      c := rest + 1;
      assert s[..c] == [s[0]] + s[1..][..rest];
    }
  }

  lemma {:induction false} UpperAt(s: string, i: nat)
    ensures |Upper(s)| == |s|
    ensures i < |s| ==> Upper(s)[i] == if 'a' <= s[i] <= 'z' then s[i] - 'a' + 'A' else s[i]
  {
    if s != "" { UpperAt(s[1..], if i > 0 then i - 1 else 0); }
  }

  lemma UpperMatch(s: string)
    ensures Upper(s) == "MATCH" <==>
      && |s| == 5 && (s[0] == 'M' || s[0] == 'm') && (s[1] == 'A' || s[1] == 'a') && (s[2] == 'T' || s[2] == 't')
      && (s[3] == 'C' || s[3] == 'c') && (s[4] == 'H' || s[4] == 'h')
  {
    hide Upper;
    UpperAt(s, 0);
    WordIs(Upper(s));
    if |s| == 5 {
      UpperLetter(s, 0, 'M', 'm');
      UpperLetter(s, 1, 'A', 'a');
      UpperLetter(s, 2, 'T', 't');
      UpperLetter(s, 3, 'C', 'c');
      UpperLetter(s, 4, 'H', 'h');
    }
  }

  lemma WordIs(s: string)
    ensures s == "MATCH" <==> |s| == 5 && s[0] == 'M' && s[1] == 'A' && s[2] == 'T' && s[3] == 'C' && s[4] == 'H'
  {
  }

  lemma UpperLetter(s: string, i: nat, large: char, small: char)
    requires i < |s| == |Upper(s)| && 'A' <= large <= 'Z' && small == large - 'A' + 'a'
    ensures Upper(s)[i] == large <==> s[i] == large || s[i] == small
  {
    hide Upper;
    UpperAt(s, i);
  }

  /** A rule is a MATCH rule exactly when its first field is that word, in any case and between blanks. */
  lemma MatchSpelled(rule: string)
    ensures IsMatch(rule) <==> exists a: nat, b: nat :: Spelled(rule, a, b)
  {
    hide Split, Trim, Upper, Spelled, Spaces;
    var c := HeadIs(rule);
    var a, b := TrimIs(rule[..c]);
    UpperMatch(rule[..c][a..b]);
    if IsMatch(rule) { MatchFound(rule, c, a, b); }
    if exists a: nat, b: nat :: Spelled(rule, a, b) {
      var p: nat, q: nat :| Spelled(rule, p, q);
      WordFound(rule, c, a, b, p, q);
    }
  }

  lemma MatchFound(rule: string, c: nat, a: nat, b: nat)
    requires c <= |rule| && (c < |rule| ==> rule[c] == ',')
    requires a <= b <= c && Spaces(rule[..c], 0, a) && Spaces(rule[..c], b, c)
    requires var s := rule[..c][a..b];
      && |s| == 5 && (s[0] == 'M' || s[0] == 'm') && (s[1] == 'A' || s[1] == 'a') && (s[2] == 'T' || s[2] == 't')
      && (s[3] == 'C' || s[3] == 'c') && (s[4] == 'H' || s[4] == 'h')
    ensures Spelled(rule, a, c)
  {
  }

  lemma WordFound(rule: string, c: nat, a: nat, b: nat, p: nat, q: nat)
    requires c <= |rule| && ',' !in rule[..c] && (c < |rule| ==> rule[c] == ',')
    requires a <= b <= c && Spaces(rule[..c], 0, a) && Spaces(rule[..c], b, c)
    requires a < b ==> !IsSpace(rule[a]) && !IsSpace(rule[b - 1])
    requires Spelled(rule, p, q)
    ensures var s := rule[..c][a..b];
      && |s| == 5 && (s[0] == 'M' || s[0] == 'm') && (s[1] == 'A' || s[1] == 'a') && (s[2] == 'T' || s[2] == 't')
      && (s[3] == 'C' || s[3] == 'c') && (s[4] == 'H' || s[4] == 'h')
  {
    CommaPlace(rule, c, p, q);
    assert forall i: nat :: i < c ==> rule[..c][i] == rule[i];
    assert a == p;
    assert b == p + 5;
  }

  lemma CommaPlace(rule: string, c: nat, p: nat, q: nat)
    requires c <= |rule| && ',' !in rule[..c] && (c < |rule| ==> rule[c] == ',') && Spelled(rule, p, q)
    ensures c == q
  {
  }
}
