/** The proxy groups of a built configuration: closure of their references, and when following them comes to an end
    (`generate_proxy_groups`, `create_group`, src/clash_meta_gen.py; `generate_minimal_proxy_groups`, `validate_config`,
    src/config_builder.py). */
module ProxyGroups {
  import opened Options
  import opened RuleText
  import opened RuleList
  import opened RuleTables

  datatype Group = Group(name: string, members: seq<string>)

  const AUTO := "Auto - UrlTest"

  const GLOBAL_TV_APPS: seq<string> := ["HBO Max", "Netflix", "Disney Plus", "Discovery Plus", "DAZN", "Spotify"]

  const APPS: seq<string> := [
    "Microsoft", "AI Suite", "Apple", "Apple TV", "Google", "Google FCM", "Scholar", "Bilibili",
    "Bahamut", "HBO Max", "Pornhub", "Netflix", "Disney Plus", "Discovery Plus", "DAZN", "Spotify",
    "Steam", "TikTok", "miHoYo", "Telegram", "Crypto", "Discord", "Speedtest", "PayPal"]

  const VIA_PROXY: seq<string> := ["Proxy", "DIRECT"]
  const VIA_GLOBAL_TV: seq<string> := ["Global TV", "DIRECT", "Proxy"]
  const VIA_ASIAN_TV: seq<string> := ["Asian TV", "DIRECT", "Proxy"]
  const VIA_MAINLAND_TV: seq<string> := ["CN Mainland TV", "DIRECT", "Proxy"]

  /** The members of an application's group ahead of the nodes. */
  function AppExtras(app: string): seq<string> {
    if app in GLOBAL_TV_APPS then VIA_GLOBAL_TV
    else if app == "Bahamut" then VIA_ASIAN_TV
    else if app == "Bilibili" then VIA_MAINLAND_TV
    else VIA_PROXY
  }

  /** `create_group`: the extra members, then all nodes. */
  function Made(name: string, extras: seq<string>, nodes: seq<string>): Group { Group(name, extras + nodes) }

  function HeadGroups(nodes: seq<string>): seq<Group> {
    [Made(AUTO, [], nodes), Made("Proxy", [AUTO, "DIRECT"], nodes),
     Group("Domestic", ["DIRECT", "Proxy"]), Group("Others", ["Proxy", "DIRECT", "Domestic"])]
  }

  function AppGroups(apps: seq<string>, nodes: seq<string>): (r: seq<Group>)
    ensures |r| == |apps| && forall i :: 0 <= i < |apps| ==> r[i] == Made(apps[i], AppExtras(apps[i]), nodes)
  {
    if apps == [] then []
    else
      var app := apps[|apps| - 1];
      AppGroups(apps[..|apps| - 1], nodes) + [Made(app, AppExtras(app), nodes)]
  }

  function TailGroups(nodes: seq<string>): seq<Group> {
    [Made("Youtube", VIA_GLOBAL_TV, nodes),
     Group("AdBlock", ["REJECT", "DIRECT", "Proxy"]), Group("HTTPDNS", ["REJECT", "DIRECT", "Proxy"]),
     Made("Global TV", VIA_PROXY, nodes), Made("Asian TV", VIA_PROXY, nodes), Group("CN Mainland TV", ["DIRECT", "Proxy"])]
  }

  function FullGroups(nodes: seq<string>): seq<Group> { HeadGroups(nodes) + AppGroups(APPS, nodes) + TailGroups(nodes) }

  function MinimalGroups(nodes: seq<string>): seq<Group> { [Group(AUTO, nodes), Group("Proxy", [AUTO, "DIRECT"] + nodes)] }

  /** `generate_proxy_groups` */
  method GenerateProxyGroups(nodes: seq<string>) returns (groups: seq<Group>)
    ensures groups == FullGroups(nodes)
  {
    hide AppExtras;
    groups := [Made(AUTO, [], nodes)];
    groups := groups + [Made("Proxy", [AUTO, "DIRECT"], nodes)];
    groups := groups + [Group("Domestic", ["DIRECT", "Proxy"])];
    groups := groups + [Group("Others", ["Proxy", "DIRECT", "Domestic"])];
    assert groups == HeadGroups(nodes);
    var i := 0;
    while i < |APPS|
      invariant i <= |APPS| && groups == HeadGroups(nodes) + AppGroups(APPS[..i], nodes)
    {
      assert APPS[..i + 1][..i] == APPS[..i];
      groups := groups + [Made(APPS[i], AppExtras(APPS[i]), nodes)];
      i := i + 1;
    }
    assert APPS[..i] == APPS;
    groups := groups + TailGroups(nodes);
  }

  // ----- the groups written out -----------------------------------------------------------------------------------------------------

  /** Where the applications stand that go through the global television group, the Asian and the mainland one. */
  predicate IsGlobalTv(app: string) {
    app == "HBO Max" || app == "Netflix" || app == "Disney Plus" || app == "Discovery Plus" || app == "DAZN" || app == "Spotify"
  }

  lemma ExtrasOf(app: string)
    ensures AppExtras(app) ==
      if IsGlobalTv(app) then ["Global TV", "DIRECT", "Proxy"]
      else if app == "Bahamut" then ["Asian TV", "DIRECT", "Proxy"]
      else if app == "Bilibili" then ["CN Mainland TV", "DIRECT", "Proxy"]
      else ["Proxy", "DIRECT"]
  {
    assert app in GLOBAL_TV_APPS <==> IsGlobalTv(app);
  }

  /** Every application's group lists its default first, the other ways next and then every node in order. */
  lemma AppDefaults(nodes: seq<string>, i: nat)
    requires i < 24
    ensures |FullGroups(nodes)| == 34
    ensures var g := FullGroups(nodes)[4 + i];
      && g.name == ["Microsoft", "AI Suite", "Apple", "Apple TV", "Google", "Google FCM", "Scholar", "Bilibili", "Bahamut", "HBO Max", "Pornhub",
                    "Netflix", "Disney Plus", "Discovery Plus", "DAZN", "Spotify", "Steam", "TikTok", "miHoYo", "Telegram", "Crypto",
                    "Discord", "Speedtest", "PayPal"][i]
      && g.members ==
        (if IsGlobalTv(g.name) then ["Global TV", "DIRECT", "Proxy"]
         else if g.name == "Bahamut" then ["Asian TV", "DIRECT", "Proxy"]
         else if g.name == "Bilibili" then ["CN Mainland TV", "DIRECT", "Proxy"]
         else ["Proxy", "DIRECT"]) + nodes
  {
    assert |APPS| == 24;
    ExtrasOf(APPS[i]);
    hide AppExtras, IsGlobalTv;
    assert FullGroups(nodes)[4 + i] == Made(APPS[i], AppExtras(APPS[i]), nodes);
  }

  /** The ten other groups. */
  lemma OtherDefaults(nodes: seq<string>)
    ensures |FullGroups(nodes)| == 34
    ensures var g := FullGroups(nodes);
      && g[0] == Group("Auto - UrlTest", nodes) && g[1] == Group("Proxy", ["Auto - UrlTest", "DIRECT"] + nodes)
      && g[2] == Group("Domestic", ["DIRECT", "Proxy"]) && g[3] == Group("Others", ["Proxy", "DIRECT", "Domestic"])
      && g[28] == Group("Youtube", ["Global TV", "DIRECT", "Proxy"] + nodes)
      && g[29] == Group("AdBlock", ["REJECT", "DIRECT", "Proxy"]) && g[30] == Group("HTTPDNS", ["REJECT", "DIRECT", "Proxy"])
      && g[31] == Group("Global TV", ["Proxy", "DIRECT"] + nodes) && g[32] == Group("Asian TV", ["Proxy", "DIRECT"] + nodes)
      && g[33] == Group("CN Mainland TV", ["DIRECT", "Proxy"])
  {
    assert |APPS| == 24;
    hide AppExtras;
    assert [] + nodes == nodes;
  }

  // ----- names --------------------------------------------------------------------------------------------------------------------

  predicate Builtin(t: string) { t == "DIRECT" || t == "REJECT" || t == "REJECT-DROP" || t == "PASS" }

  predicate IsApp(name: string) {
    || name == "Microsoft" || name == "AI Suite" || name == "Apple" || name == "Apple TV" || name == "Google" || name == "Google FCM"
    || name == "Scholar" || name == "Bilibili" || name == "Bahamut" || name == "HBO Max" || name == "Pornhub" || name == "Netflix"
    || name == "Disney Plus" || name == "Discovery Plus" || name == "DAZN" || name == "Spotify" || name == "Steam" || name == "TikTok"
    || name == "miHoYo" || name == "Telegram" || name == "Crypto" || name == "Discord" || name == "Speedtest" || name == "PayPal"
  }

  /** How far a full group is from the nodes: members of a group that are groups have a smaller rank. */
  function Rank(name: string): nat {
    if IsApp(name) || name == "Others" || name == "Youtube" then 4
    else if name == AUTO then 1
    else if name == "Proxy" then 2
    else if name == "Domestic" || name == "Global TV" || name == "Asian TV" || name == "CN Mainland TV"
         || name == "AdBlock" || name == "HTTPDNS" then 3
    else 0
  }

  ghost predicate IsGroup(groups: seq<Group>, name: string) { exists i :: 0 <= i < |groups| && groups[i].name == name }

  /** What the validator accepts as a member or a target. */
  ghost predicate Known(groups: seq<Group>, nodes: seq<string>, t: string) { t in nodes || IsGroup(groups, t) || Builtin(t) }

  /** The validator accepts four targets besides nodes and groups. */
  lemma KnownTargets(groups: seq<Group>, nodes: seq<string>, t: string)
    ensures Known(groups, nodes, t) <==> t in nodes || IsGroup(groups, t) || t in ["DIRECT", "REJECT", "REJECT-DROP", "PASS"]
  {
    hide IsGroup;
    var four := ["DIRECT", "REJECT", "REJECT-DROP", "PASS"];
    assert four[0] == "DIRECT" && four[1] == "REJECT" && four[2] == "REJECT-DROP" && four[3] == "PASS";
  }

  lemma NotAppsOne()
    ensures !IsApp(AUTO) && !IsApp("Proxy") && !IsApp("Domestic") && !IsApp("DIRECT")
  {
  }

  lemma NotAppsTwo()
    ensures !IsApp("Global TV") && !IsApp("Asian TV") && !IsApp("CN Mainland TV")
  {
  }

  lemma NotAppsThree()
    ensures !IsApp("AdBlock") && !IsApp("HTTPDNS") && !IsApp("REJECT")
  {
  }

  lemma AppsAre()
    ensures forall i :: 0 <= i < |APPS| ==> IsApp(APPS[i])
  {
  }

  lemma AppIndex(name: string) returns (i: nat)
    requires IsApp(name)
    ensures i < |APPS| && APPS[i] == name
  {
    assert name in APPS;
    i :| i < |APPS| && APPS[i] == name;
  }

  lemma Ranks()
    ensures Rank(AUTO) == 1 && Rank("Proxy") == 2 && Rank("Domestic") == 3 && Rank("Global TV") == 3 && Rank("Asian TV") == 3
    ensures Rank("CN Mainland TV") == 3 && Rank("AdBlock") == 3 && Rank("HTTPDNS") == 3 && Rank("Others") == 4 && Rank("Youtube") == 4
    ensures Rank("DIRECT") == 0 && Rank("REJECT") == 0
    ensures forall i :: 0 <= i < |APPS| ==> Rank(APPS[i]) == 4
  {
    NotAppsOne();
    NotAppsTwo();
    NotAppsThree();
    AppsAre();
    hide IsApp;
  }

  // ----- every group is good --------------------------------------------------------------------------------------------------

  /** A member is a node, a built-in target or a group of smaller rank. */
  predicate GoodMember(m: string, rank: nat, nodes: seq<string>) { m in nodes || Builtin(m) || 0 < Rank(m) < rank }

  predicate GoodGroup(g: Group, nodes: seq<string>) {
    Rank(g.name) > 0 && forall m | m in g.members :: GoodMember(m, Rank(g.name), nodes)
  }

  lemma GoodExtras(nodes: seq<string>, m: string)
    ensures m in VIA_PROXY ==> GoodMember(m, 3, nodes)
    ensures m in VIA_GLOBAL_TV || m in VIA_ASIAN_TV || m in VIA_MAINLAND_TV ==> GoodMember(m, 4, nodes)
    ensures GoodMember(m, 3, nodes) ==> GoodMember(m, 4, nodes)
  {
    Ranks();
    hide Rank;
  }

  lemma GoodMade(name: string, extras: seq<string>, nodes: seq<string>)
    requires Rank(name) > 0 && forall m :: m in extras ==> GoodMember(m, Rank(name), nodes)
    ensures GoodGroup(Made(name, extras, nodes), nodes)
  {
    hide Rank;
  }

  lemma GoodHead(nodes: seq<string>, i: nat)
    requires i < 4
    ensures GoodGroup(HeadGroups(nodes)[i], nodes)
  {
    Ranks();
    hide Rank;
    if i == 0 {
      GoodMade(AUTO, [], nodes);
    } else if i == 1 {
      GoodMade("Proxy", [AUTO, "DIRECT"], nodes);
    }
  }

  lemma GoodApp(nodes: seq<string>, i: nat)
    requires i < |APPS|
    ensures GoodGroup(AppGroups(APPS, nodes)[i], nodes)
  {
    Ranks();
    hide Rank;
    forall m | m in AppExtras(APPS[i]) ensures GoodMember(m, 4, nodes) { GoodExtras(nodes, m); }
    GoodMade(APPS[i], AppExtras(APPS[i]), nodes);
  }

  lemma GoodTail(nodes: seq<string>, i: nat)
    requires i < 6
    ensures GoodGroup(TailGroups(nodes)[i], nodes)
  {
    Ranks();
    hide Rank;
    forall m { GoodExtras(nodes, m); }
    if i == 0 {
      GoodMade("Youtube", VIA_GLOBAL_TV, nodes);
    } else if i == 3 {
      GoodMade("Global TV", VIA_PROXY, nodes);
    } else if i == 4 {
      GoodMade("Asian TV", VIA_PROXY, nodes);
    }
  }

  lemma GoodFull(nodes: seq<string>, i: nat)
    requires i < |FullGroups(nodes)|
    ensures GoodGroup(FullGroups(nodes)[i], nodes)
  {
    hide GoodGroup, AppGroups;
    var n := |APPS|;
    assert n == 24;
    if i < 4 {
      GoodHead(nodes, i);
    } else if i < 4 + n {
      GoodApp(nodes, i - 4);
    } else {
      GoodTail(nodes, i - 4 - n);
    }
  }

  /** The group names are exactly the names with a rank. */
  lemma GroupNames(nodes: seq<string>, name: string)
    ensures IsGroup(FullGroups(nodes), name) <==> Rank(name) > 0
  {
    var groups := FullGroups(nodes);
    if IsGroup(groups, name) {
      var i :| 0 <= i < |groups| && groups[i].name == name;
      GoodFull(nodes, i);
    }
    if Rank(name) > 0 { RankedGroup(nodes, name); }
  }

  lemma RankedGroup(nodes: seq<string>, name: string)
    requires Rank(name) > 0
    ensures IsGroup(FullGroups(nodes), name)
  {
    hide AppGroups, IsApp, FullGroups;
    if IsApp(name) { AppIsGroup(nodes, name); } else { FixedNames(nodes); }
  }

  lemma AppIsGroup(nodes: seq<string>, name: string)
    requires IsApp(name)
    ensures IsGroup(FullGroups(nodes), name)
  {
    hide AppGroups;
    var i := AppIndex(name);
    assert |APPS| == 24;
    assert FullGroups(nodes)[4 + i].name == name;
  }

  /** The groups around those of the applications. */
  lemma FixedNames(nodes: seq<string>)
    ensures |FullGroups(nodes)| == 34
    ensures var groups := FullGroups(nodes);
      && groups[0].name == AUTO && groups[1].name == "Proxy" && groups[2].name == "Domestic" && groups[3].name == "Others"
      && groups[28].name == "Youtube" && groups[29].name == "AdBlock" && groups[30].name == "HTTPDNS"
      && groups[31].name == "Global TV" && groups[32].name == "Asian TV" && groups[33].name == "CN Mainland TV"
  {
    hide AppGroups, IsApp;
    assert |APPS| == 24;
  }

  /** Every reference of every group is a node, a group or a built-in target. */
  lemma FullClosed(nodes: seq<string>, i: nat, m: string)
    requires i < |FullGroups(nodes)| && m in FullGroups(nodes)[i].members
    ensures Known(FullGroups(nodes), nodes, m)
  {
    hide FullGroups, Rank, IsGroup;
    GoodFull(nodes, i);
    GroupNames(nodes, m);
  }

  lemma MinimalClosed(nodes: seq<string>, i: nat, m: string)
    requires i < 2 && m in MinimalGroups(nodes)[i].members
    ensures Known(MinimalGroups(nodes), nodes, m)
  {
    assert MinimalGroups(nodes)[0].name == AUTO;
  }

  // ----- following references ---------------------------------------------------------------------------------------------------

  /** b may be chosen in a group called a. */
  ghost predicate Leads(groups: seq<Group>, a: string, b: string) {
    exists i :: 0 <= i < |groups| && groups[i].name == a && b in groups[i].members
  }

  /** A sequence of choices. */
  ghost predicate Chain(groups: seq<Group>, s: seq<string>) {
    forall i :: 0 <= i < |s| - 1 ==> Leads(groups, s[i], s[i + 1])
  }

  ghost predicate Avoids(groups: seq<Group>, nodes: seq<string>) { forall n :: n in nodes ==> !IsGroup(groups, n) }

  lemma LeadsDown(nodes: seq<string>, a: string, b: string)
    requires Avoids(FullGroups(nodes), nodes) && Leads(FullGroups(nodes), a, b)
    ensures Rank(b) < Rank(a) <= 4
  {
    hide Rank, IsGroup, FullGroups;
    var groups := FullGroups(nodes);
    var i :| 0 <= i < |groups| && groups[i].name == a && b in groups[i].members;
    GoodFull(nodes, i);
    GroupNames(nodes, b);
    GroupNames(nodes, a);
    if Builtin(b) { BuiltinRank(b); }
    RankBound(a);
  }

  lemma BuiltinRank(t: string)
    requires Builtin(t)
    ensures Rank(t) == 0
  {
    NotAppsOne();
    NotAppsThree();
    NotPass();
  }

  lemma NotPass()
    ensures !IsApp("PASS") && !IsApp("REJECT-DROP")
  {
  }

  lemma RankBound(t: string)
    ensures Rank(t) <= 4
  {
  }

  lemma {:induction false} ChainFalls(nodes: seq<string>, s: seq<string>)
    requires Avoids(FullGroups(nodes), nodes) && Chain(FullGroups(nodes), s) && s != []
    ensures |s| <= 1 + Rank(s[0]) <= 5
  {
    hide Rank, Leads, Avoids, FullGroups;
    RankBound(s[0]);
    if |s| > 1 {
      assert Leads(FullGroups(nodes), s[0], s[1]);
      LeadsDown(nodes, s[0], s[1]);
      forall i | 0 <= i < |s[1..]| - 1 ensures Leads(FullGroups(nodes), s[1..][i], s[1..][i + 1]) {
        assert Leads(FullGroups(nodes), s[i + 1], s[i + 1 + 1]);
      }
      ChainFalls(nodes, s[1..]);
    }
  }

  /** A node named like a group closes a cycle through the automatic group. */
  lemma Cycle(nodes: seq<string>, name: string)
    requires name in nodes && IsGroup(FullGroups(nodes), name)
    ensures exists s :: Chain(FullGroups(nodes), s) && |s| == 7
  {
    hide Leads, Chain, FullGroups, IsGroup;
    AutoLeads(nodes, name);
    if name == AUTO {
      Loop(FullGroups(nodes), AUTO, AUTO, AUTO);
    } else {
      ProxyLeads(nodes);
      if name == "Proxy" {
        ShortLoop(FullGroups(nodes), AUTO, "Proxy");
      } else {
        GroupNames(nodes, name);
        OthersLead(nodes, name);
        Loop(FullGroups(nodes), AUTO, name, "Proxy");
      }
    }
  }

  lemma Loop(groups: seq<Group>, a: string, b: string, c: string)
    requires Leads(groups, a, b) && Leads(groups, b, c) && Leads(groups, c, a)
    ensures exists s :: Chain(groups, s) && |s| == 7
  {
    hide Leads;
    var s := [a, b, c, a, b, c, a];
    assert Chain(groups, s);
  }

  lemma ShortLoop(groups: seq<Group>, a: string, b: string)
    requires Leads(groups, a, b) && Leads(groups, b, a)
    ensures exists s :: Chain(groups, s) && |s| == 7
  {
    hide Leads;
    var s := [a, b, a, b, a, b, a];
    assert Chain(groups, s);
  }

  lemma AutoLeads(nodes: seq<string>, name: string)
    requires name in nodes
    ensures Leads(FullGroups(nodes), AUTO, name)
  {
    assert FullGroups(nodes)[0] == Group(AUTO, [] + nodes);
  }

  lemma ProxyLeads(nodes: seq<string>)
    ensures Leads(FullGroups(nodes), "Proxy", AUTO)
  {
    var g := FullGroups(nodes)[1];
    assert g == Made("Proxy", [AUTO, "DIRECT"], nodes);
    assert g.members[0] == AUTO;
  }

  /** Every other group offers the main group. */
  lemma OthersLead(nodes: seq<string>, name: string)
    requires Rank(name) > 0 && name != AUTO && name != "Proxy"
    ensures Leads(FullGroups(nodes), name, "Proxy")
  {
    FixedNames(nodes);
    hide FullGroups, Rank;
    var groups := FullGroups(nodes);
    RankedGroup(nodes, name);
    var i :| 0 <= i < |groups| && groups[i].name == name;
    OffersProxy(nodes, i);
  }

  lemma OffersProxy(nodes: seq<string>, i: nat)
    requires 2 <= i < |FullGroups(nodes)|
    ensures "Proxy" in FullGroups(nodes)[i].members
  {
    hide AppGroups, IsApp;
    assert |APPS| == 24;
    var g := FullGroups(nodes)[i];
    if i < 4 {
      assert g == HeadGroups(nodes)[i];
      assert g.members[0] == "Proxy" || g.members[1] == "Proxy";
    } else if i < 28 {
      assert g == Made(APPS[i - 4], AppExtras(APPS[i - 4]), nodes);
      assert g.members[0] == "Proxy" || g.members[2] == "Proxy";
    } else {
      assert g == TailGroups(nodes)[i - 28];
      assert g.members[0] == "Proxy" || g.members[1] == "Proxy" || g.members[2] == "Proxy";
    }
  }

  /** Following any choice of members comes to an end, after at most four groups, exactly when no node is named like a group. */
  lemma Terminates(nodes: seq<string>)
    ensures (forall s :: Chain(FullGroups(nodes), s) ==> |s| <= 5) <==> Avoids(FullGroups(nodes), nodes)
  {
    hide FullGroups, Chain, IsGroup;
    if Avoids(FullGroups(nodes), nodes) {
      forall s | Chain(FullGroups(nodes), s) ensures |s| <= 5 {
        if s != [] { ChainFalls(nodes, s); }
      }
    } else {
      var name :| name in nodes && IsGroup(FullGroups(nodes), name);
      Cycle(nodes, name);
    }
  }

  /** The same for the minimal groups: a choice ends after at most two groups. */
  lemma MinimalTerminates(nodes: seq<string>)
    ensures (forall s :: Chain(MinimalGroups(nodes), s) ==> |s| <= 3) <==> Avoids(MinimalGroups(nodes), nodes)
  {
    hide Chain, IsGroup, MinimalGroups;
    if Avoids(MinimalGroups(nodes), nodes) {
      forall s | Chain(MinimalGroups(nodes), s) ensures |s| <= 3 { MinimalFalls(nodes, s); }
    } else {
      var name :| name in nodes && IsGroup(MinimalGroups(nodes), name);
      MinimalCycle(nodes, name);
      assert |[name, name, name, name]| == 4;
    }
  }

  lemma MinimalLeads(nodes: seq<string>, a: string, b: string)
    ensures Leads(MinimalGroups(nodes), a, b) <==> (a == AUTO && b in nodes) || (a == "Proxy" && (b == AUTO || b == "DIRECT" || b in nodes))
    ensures IsGroup(MinimalGroups(nodes), a) <==> a == AUTO || a == "Proxy"
  {
    var groups := MinimalGroups(nodes);
    assert groups[0].name == AUTO && groups[1].name == "Proxy";
  }

  /** Proxy may lead to the automatic group, which leads to nodes, which lead nowhere. */
  lemma MinimalFalls(nodes: seq<string>, s: seq<string>)
    requires Avoids(MinimalGroups(nodes), nodes) && Chain(MinimalGroups(nodes), s)
    ensures |s| <= 3
  {
    forall a, b ensures Leads(MinimalGroups(nodes), a, b) <==> (a == AUTO && b in nodes) || (a == "Proxy" && (b == AUTO || b == "DIRECT" || b in nodes)) {
      MinimalLeads(nodes, a, b);
    }
    forall a ensures IsGroup(MinimalGroups(nodes), a) <==> a == AUTO || a == "Proxy" { MinimalLeads(nodes, a, a); }
    assert AUTO != "DIRECT" && "Proxy" != "DIRECT" && AUTO != "Proxy";
    hide MinimalGroups, Leads, IsGroup;
    if |s| > 3 {
      assert Leads(MinimalGroups(nodes), s[0], s[1]) && Leads(MinimalGroups(nodes), s[1], s[2]) && Leads(MinimalGroups(nodes), s[2], s[3]);
    }
  }

  /** A node named like a group is offered by that very group. */
  lemma MinimalCycle(nodes: seq<string>, name: string)
    requires name in nodes && IsGroup(MinimalGroups(nodes), name)
    ensures Chain(MinimalGroups(nodes), [name, name, name, name])
  {
    MinimalLeads(nodes, name, name);
  }

  // ----- the validator's reference checks -----------------------------------------------------------------------------------------

  datatype ReferenceError = BadMember(group: string, member: string) | BadTarget(rule: string, target: string)

  function Names(groups: seq<Group>): seq<string> {
    if groups == [] then [] else Names(groups[..|groups| - 1]) + [groups[|groups| - 1].name]
  }

  predicate Valid(groups: seq<Group>, nodes: seq<string>, t: string) { t in nodes || t in Names(groups) || Builtin(t) }

  lemma {:induction false} NamesAre(groups: seq<Group>, t: string)
    ensures t in Names(groups) <==> IsGroup(groups, t)
  {
    if groups != [] {
      var n := |groups| - 1;
      NamesAre(groups[..n], t);
      if IsGroup(groups, t) {
        var i :| 0 <= i < |groups| && groups[i].name == t;
        if i < n { assert groups[..n][i].name == t; }
      }
      if IsGroup(groups[..n], t) {
        var i :| 0 <= i < n && groups[..n][i].name == t;
        assert groups[i].name == t;
      }
      assert groups[n].name == t ==> IsGroup(groups, t);
    }
  }

  ghost predicate MembersKnown(groups: seq<Group>, nodes: seq<string>, members: seq<string>) {
    forall i :: 0 <= i < |members| ==> Known(groups, nodes, members[i])
  }

  ghost predicate Closed(groups: seq<Group>, nodes: seq<string>, part: seq<Group>) {
    forall i :: 0 <= i < |part| ==> MembersKnown(groups, nodes, part[i].members)
  }

  ghost predicate RuleKnown(groups: seq<Group>, nodes: seq<string>, rule: string) {
    Target(rule).Some? ==> Known(groups, nodes, Target(rule).value)
  }

  ghost predicate TargetsKnown(groups: seq<Group>, nodes: seq<string>, rules: seq<string>) {
    forall i :: 0 <= i < |rules| ==> RuleKnown(groups, nodes, rules[i])
  }

  lemma ValidIsKnown(groups: seq<Group>, nodes: seq<string>, t: string)
    ensures Valid(groups, nodes, t) <==> Known(groups, nodes, t)
  {
    NamesAre(groups, t);
  }

  /** The loops of `validate_config` over the groups and the rules: no reference error exactly when every member and every
      target exists. */
  method ReferenceErrors(groups: seq<Group>, nodes: seq<string>, rules: seq<string>) returns (errors: seq<ReferenceError>)
    ensures errors == [] <==> Closed(groups, nodes, groups) && TargetsKnown(groups, nodes, rules)
  {
    errors := [];
    var i := 0;
    while i < |groups|
      invariant i <= |groups| && (errors == [] <==> Closed(groups, nodes, groups[..i]))
    {
      errors := CheckMembers(groups, nodes, groups[i], errors);
      assert groups[..i + 1] == groups[..i] + [groups[i]];
      i := i + 1;
    }
    assert groups[..i] == groups;
    i := 0;
    while i < |rules|
      invariant i <= |rules| && (errors == [] <==> Closed(groups, nodes, groups) && TargetsKnown(groups, nodes, rules[..i]))
    {
      hide Target, Known;
      errors := CheckRule(groups, nodes, rules[i], errors);
      assert rules[..i + 1] == rules[..i] + [rules[i]];
      i := i + 1;
    }
    assert rules[..i] == rules;
  }

  method CheckMembers(groups: seq<Group>, nodes: seq<string>, group: Group, start: seq<ReferenceError>) returns (errors: seq<ReferenceError>)
    ensures errors == [] <==> start == [] && MembersKnown(groups, nodes, group.members)
  {
    hide Valid, Known;
    errors := start;
    var j := 0;
    while j < |group.members|
      invariant j <= |group.members| && (errors == [] <==> start == [] && MembersKnown(groups, nodes, group.members[..j]))
    {
      ValidIsKnown(groups, nodes, group.members[j]);
      if !Valid(groups, nodes, group.members[j]) { errors := errors + [BadMember(group.name, group.members[j])]; }
      assert group.members[..j + 1] == group.members[..j] + [group.members[j]];
      j := j + 1;
    }
    assert group.members[..j] == group.members;
  }

  method CheckRule(groups: seq<Group>, nodes: seq<string>, rule: string, start: seq<ReferenceError>) returns (errors: seq<ReferenceError>)
    ensures errors == [] <==> start == [] && RuleKnown(groups, nodes, rule)
  {
    hide Valid, Known, Target;
    errors := start;
    var target := Target(rule);
    if target.Some? {
      ValidIsKnown(groups, nodes, target.value);
      if !Valid(groups, nodes, target.value) { errors := errors + [BadTarget(rule, target.value)]; }
    }
  }

  // ----- a built configuration draws no reference error ---------------------------------------------------------------------------

  /** A target that a rule can name. */
  ghost predicate Usable(groups: seq<Group>, nodes: seq<string>, p: Provider) {
    NoComma(p.target) && (p.noResolve || p.target != NO_RESOLVE) && Known(groups, nodes, p.target)
  }

  lemma PrintedKnown(groups: seq<Group>, nodes: seq<string>, r: Rule)
    requires NoComma(r.kind) && NoComma(r.target) && (r.noResolve || r.target != NO_RESOLVE) && Known(groups, nodes, r.target)
    ensures RuleKnown(groups, nodes, Print(r))
  {
    hide Split, Print, Known;
    PrintedParts(r);
    NoResolveText();
  }

  lemma {:induction false} ProvidersKnown(groups: seq<Group>, nodes: seq<string>, ps: seq<Provider>, first: bool)
    requires forall p :: p in ps ==> Usable(groups, nodes, p.(noResolve := false))
    ensures forall r :: r in ProviderRules(ps, first) ==> RuleKnown(groups, nodes, r)
  {
    hide Known, Print, RuleKnown;
    if ps != [] {
      ProvidersKnown(groups, nodes, ps[..|ps| - 1], first);
      var p := ps[|ps| - 1];
      PlainKind();
      PrintedKnown(groups, nodes, Rule("RULE-SET", p.name, p.target, false));
    }
  }

  lemma PlainKind()
    ensures NoComma("RULE-SET")
  {
  }

  lemma {:induction false} TableKnown(groups: seq<Group>, nodes: seq<string>, items: seq<Provider>, chosen: map<string, string>)
    requires forall p :: p in items ==> Usable(groups, nodes, Override(p, chosen))
    ensures forall r :: r in TableRules(items, chosen) ==> RuleKnown(groups, nodes, r)
  {
    hide Known, Print, RuleKnown, Override;
    if items != [] {
      TableKnown(groups, nodes, items[..|items| - 1], chosen);
      var p := Override(items[|items| - 1], chosen);
      PlainKind();
      PrintedKnown(groups, nodes, Rule("RULE-SET", p.name, p.target, p.noResolve));
    }
  }

  lemma MatchKnown(groups: seq<Group>, nodes: seq<string>, t: string)
    requires NoComma(t) && Known(groups, nodes, t)
    ensures RuleKnown(groups, nodes, "MATCH" + "," + t)
  {
    hide Known;
    SplitComma("MATCH", t);
    SplitPlain("MATCH");
    SplitPlain(t);
    hide Split;
  }

  /** A full configuration always knows this target. */
  predicate Standing(t: string) { NoComma(t) && t != NO_RESOLVE && (Rank(t) > 0 || Builtin(t)) }

  lemma StandingKnown(nodes: seq<string>, t: string)
    requires Standing(t)
    ensures Known(FullGroups(nodes), nodes, t)
  {
    hide Rank, IsGroup, FullGroups;
    GroupNames(nodes, t);
  }

  predicate Plain(t: string) { NoComma(t) && t != NO_RESOLVE }

  lemma PlainGroups()
    ensures Plain("Proxy") && Plain("Domestic") && Plain("DIRECT") && Plain("Youtube") && Plain("Others")
    ensures Plain("Global TV") && Plain("Asian TV") && Plain("CN Mainland TV") && Plain("AdBlock") && Plain("HTTPDNS")
  {
  }

  lemma PlainApps()
    ensures forall i :: 0 <= i < |APPS| ==> Plain(APPS[i])
  {
  }

  lemma AppStanding(t: string)
    requires IsApp(t)
    ensures Standing(t)
  {
    PlainApps();
    Ranks();
    var i := AppIndex(t);
    hide Rank, IsApp;
  }

  lemma StandingNames()
    ensures Standing("Proxy") && Standing("Google") && Standing("Domestic") && Standing("DIRECT")
    ensures Standing("Youtube") && Standing("Others") && Standing("Global TV") && Standing("Asian TV")
    ensures Standing("CN Mainland TV") && Standing("AdBlock") && Standing("HTTPDNS")
  {
    AppStanding("Google");
    hide IsApp, NoComma, Rank;
    PlainGroups();
    Ranks();
  }

  /** The targets of a table are the applications' groups and a few others. */
  predicate TableTarget(t: string) {
    IsApp(t) || t == "Proxy" || t == "Domestic" || t == "DIRECT" || t == "Youtube" || t == "Global TV" || t == "Asian TV"
    || t == "CN Mainland TV" || t == "AdBlock" || t == "HTTPDNS"
  }

  lemma TableStanding(t: string)
    requires TableTarget(t)
    ensures Standing(t)
  {
    StandingNames();
    hide Rank, NoComma;
    if IsApp(t) { AppStanding(t); }
  }

  lemma KindsPlain()
    ensures NoComma("DOMAIN-SUFFIX") && NoComma("GEOIP") && NoComma("RULE-SET")
  {
  }

  lemma StandingRule(nodes: seq<string>, r: Rule)
    requires NoComma(r.kind) && Standing(r.target)
    ensures RuleKnown(FullGroups(nodes), nodes, Print(r))
  {
    hide Rank, FullGroups, Print, Target, Known;
    StandingKnown(nodes, r.target);
    PrintedKnown(FullGroups(nodes), nodes, r);
  }

  lemma FixedKnown(nodes: seq<string>)
    ensures forall r :: r in Printed(FIXED) || r in Printed(LHIE1_END) || r in Printed(LEGACY_END) ==> RuleKnown(FullGroups(nodes), nodes, r)
  {
    hide FullGroups, Print, Standing, RuleKnown;
    StandingNames();
    KindsPlain();
    StandingRule(nodes, FIXED[0]);
    StandingRule(nodes, FIXED[1]);
    StandingRule(nodes, LHIE1_END[0]);
    StandingRule(nodes, LHIE1_END[1]);
    StandingRule(nodes, LEGACY_END[0]);
    StandingRule(nodes, LEGACY_END[1]);
    StandingRule(nodes, LEGACY_END[2]);
  }

  lemma MatchStanding(nodes: seq<string>)
    ensures RuleKnown(FullGroups(nodes), nodes, "MATCH,Others") && RuleKnown(FullGroups(nodes), nodes, "MATCH,Proxy")
  {
    hide FullGroups, Known, Rank;
    StandingNames();
    StandingKnown(nodes, "Others");
    StandingKnown(nodes, "Proxy");
    MatchKnown(FullGroups(nodes), nodes, "Others");
    MatchKnown(FullGroups(nodes), nodes, "Proxy");
    assert "MATCH" + "," + "Others" == "MATCH,Others";
    assert "MATCH" + "," + "Proxy" == "MATCH,Proxy";
  }

  /** The base list of every source names targets of the full groups only. */
  lemma BaseKnown(source: Source, items: seq<Provider>, chosen: map<string, string>, nodes: seq<string>)
    requires forall p :: p in items ==> Usable(FullGroups(nodes), nodes, Override(p, chosen))
    ensures forall r :: r in BaseRules(source, items, chosen) ==> RuleKnown(FullGroups(nodes), nodes, r)
  {
    hide FullGroups, RuleKnown, Usable, Override, TableRules, Printed;
    FixedKnown(nodes);
    MatchStanding(nodes);
    TableKnown(FullGroups(nodes), nodes, items, chosen);
  }

  /** A full configuration whose custom rules, providers and chosen targets name existing targets passes the reference checks. */
  lemma BuiltClean(source: Source, items: seq<Provider>, chosen: map<string, string>, custom: seq<string>, providers: seq<Provider>, nodes: seq<string>)
    requires forall p :: p in items ==> Usable(FullGroups(nodes), nodes, Override(p, chosen))
    requires forall p :: p in providers ==> Usable(FullGroups(nodes), nodes, p.(noResolve := false))
    requires forall r :: r in custom ==> RuleKnown(FullGroups(nodes), nodes, r)
    ensures var groups := FullGroups(nodes);
      && Closed(groups, nodes, groups)
      && TargetsKnown(groups, nodes, Final(source, BaseRules(source, items, chosen), custom, providers))
  {
    hide FullGroups, RuleKnown, Usable, Override, BaseRules, Matching, ProviderRules, Known, IsPlainMatch;
    var groups := FullGroups(nodes);
    var base := BaseRules(source, items, chosen);
    forall i | 0 <= i < |groups| ensures MembersKnown(groups, nodes, groups[i].members) {
      forall j | 0 <= j < |groups[i].members| ensures Known(groups, nodes, groups[i].members[j]) {
        FullClosed(nodes, i, groups[i].members[j]);
      }
    }
    BaseKnown(source, items, chosen, nodes);
    ProvidersKnown(groups, nodes, providers, true);
    ProvidersKnown(groups, nodes, providers, false);
    MatchStanding(nodes);
    MatchingFacts(custom, true);
    MatchingFacts(custom, false);
    MatchingFacts(base, true);
    MatchingFacts(base, false);
    forall r | r in Final(source, base, custom, providers) ensures RuleKnown(groups, nodes, r) { }
  }

  lemma DustinWinPart1()
    ensures forall i :: 0 <= i < |DUSTINWIN_1| ==> TableTarget(DUSTINWIN_1[i].target)
  {
  }

  lemma DustinWinPart2()
    ensures forall i :: 0 <= i < |DUSTINWIN_2| ==> TableTarget(DUSTINWIN_2[i].target)
  {
  }

  lemma DustinWinPart3()
    ensures forall i :: 0 <= i < |DUSTINWIN_3| ==> TableTarget(DUSTINWIN_3[i].target)
  {
  }

  lemma Lhie1Part1()
    ensures forall i :: 0 <= i < |LHIE1_1| ==> TableTarget(LHIE1_1[i].target)
  {
  }

  lemma Lhie1Part2()
    ensures forall i :: 0 <= i < |LHIE1_2| ==> TableTarget(LHIE1_2[i].target)
  {
  }

  lemma Lhie1Part3()
    ensures forall i :: 0 <= i < |LHIE1_3| ==> TableTarget(LHIE1_3[i].target)
  {
  }

  lemma Lhie1Part4()
    ensures forall i :: 0 <= i < |LHIE1_4| ==> TableTarget(LHIE1_4[i].target)
  {
  }

  lemma Lhie1Part5()
    ensures forall i :: 0 <= i < |LHIE1_5| ==> TableTarget(LHIE1_5[i].target)
  {
  }

  lemma Lhie1Part6()
    ensures forall i :: 0 <= i < |LHIE1_6| ==> TableTarget(LHIE1_6[i].target)
  {
  }

  lemma Lhie1Part7()
    ensures forall i :: 0 <= i < |LHIE1_7| ==> TableTarget(LHIE1_7[i].target)
  {
  }

  predicate AllTargets(ps: seq<Provider>) { forall i | 0 <= i < |ps| :: TableTarget(ps[i].target) }

  lemma TargetsAll(ps: seq<Provider>)
    requires forall i :: 0 <= i < |ps| ==> TableTarget(ps[i].target)
    ensures AllTargets(ps)
  {
    hide TableTarget;
  }

  lemma TargetsJoin(a: seq<Provider>, b: seq<Provider>)
    requires AllTargets(a) && AllTargets(b)
    ensures AllTargets(a + b)
  {
    hide TableTarget;
  }

  /** Every entry of both tables names a group or a built-in target. */
  lemma DustinWinTargets()
    ensures AllTargets(DUSTINWIN)
  {
    hide AllTargets, TableTarget;
    DustinWinPart1();
    TargetsAll(DUSTINWIN_1);
    DustinWinPart2();
    TargetsAll(DUSTINWIN_2);
    DustinWinPart3();
    TargetsAll(DUSTINWIN_3);
    TargetsJoin(DUSTINWIN_1, DUSTINWIN_2);
    TargetsJoin(DUSTINWIN_1 + DUSTINWIN_2, DUSTINWIN_3);
  }

  lemma Lhie1Targets()
    ensures AllTargets(LHIE1)
  {
    hide AllTargets, TableTarget;
    Lhie1Part1();
    TargetsAll(LHIE1_1);
    Lhie1Part2();
    TargetsAll(LHIE1_2);
    Lhie1Part3();
    TargetsAll(LHIE1_3);
    Lhie1Part4();
    TargetsAll(LHIE1_4);
    Lhie1Part5();
    TargetsAll(LHIE1_5);
    Lhie1Part6();
    TargetsAll(LHIE1_6);
    Lhie1Part7();
    TargetsAll(LHIE1_7);
    TargetsJoin(LHIE1_1, LHIE1_2);
    TargetsJoin(LHIE1_1 + LHIE1_2, LHIE1_3);
    TargetsJoin(LHIE1_1 + LHIE1_2 + LHIE1_3, LHIE1_4);
    TargetsJoin(LHIE1_1 + LHIE1_2 + LHIE1_3 + LHIE1_4, LHIE1_5);
    TargetsJoin(LHIE1_1 + LHIE1_2 + LHIE1_3 + LHIE1_4 + LHIE1_5, LHIE1_6);
    TargetsJoin(LHIE1_1 + LHIE1_2 + LHIE1_3 + LHIE1_4 + LHIE1_5 + LHIE1_6, LHIE1_7);
  }

  /** A table entry is usable unless the draft chose a target that is not. */
  lemma EntryUsable(p: Provider, chosen: map<string, string>, nodes: seq<string>)
    requires Standing(p.target)
    requires p.name in chosen && chosen[p.name] != "" ==> Usable(FullGroups(nodes), nodes, p.(target := chosen[p.name]))
    ensures Usable(FullGroups(nodes), nodes, Override(p, chosen))
  {
    hide FullGroups, Known, Rank;
    StandingKnown(nodes, p.target);
  }

  /** The tables meet the condition of `BuiltClean` on their own, and so do the draft's choices when they are usable. */
  lemma TablesUsable(items: seq<Provider>, chosen: map<string, string>, nodes: seq<string>)
    requires forall p :: p in items ==> TableTarget(p.target)
    requires forall p :: p in items && p.name in chosen && chosen[p.name] != "" ==>
      Usable(FullGroups(nodes), nodes, p.(target := chosen[p.name]))
    ensures forall p :: p in items ==> Usable(FullGroups(nodes), nodes, Override(p, chosen))
  {
    hide FullGroups, Usable, Override, TableTarget, Standing;
    forall p | p in items ensures Usable(FullGroups(nodes), nodes, Override(p, chosen)) {
      TableStanding(p.target);
      EntryUsable(p, chosen, nodes);
    }
  }
}
