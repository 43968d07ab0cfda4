/** Merging the server's draft into the local one by content (`reconcileDraft`, design/assets/app.js). */
module Reconcile {
  import opened Options
  import opened StableText


  /** An object of the draft: its identity and its content. */
  datatype Node = Node(id: nat, value: Json)

  function Content(n: Node): string { Stable(n.value) }

  /** Where the local nodes with content t are, in order. */
  function Positions(local: seq<Node>, t: string): seq<nat> {
    if local == [] then []
    else
      var n := |local| - 1;
      Positions(local[..n], t) + (if Content(local[n]) == t then [n] else [])
  }

  /** How many nodes have content t. */
  function Count(nodes: seq<Node>, t: string): nat {
    if nodes == [] then 0
    else Count(nodes[..|nodes| - 1], t) + (if Content(nodes[|nodes| - 1]) == t then 1 else 0)
  }

  /** The c-th incoming node with some content takes the c-th local node with that content. */
  function Chosen(local: seq<Node>, next: seq<Node>, k: nat): Option<nat>
    requires k < |next|
  {
    var ps := Positions(local, Content(next[k]));
    var c := Count(next[..k], Content(next[k]));
    if c < |ps| then Some(ps[c]) else None
  }

  lemma {:induction false} PositionFacts(local: seq<Node>, t: string)
    ensures forall i :: 0 <= i < |Positions(local, t)| ==> Positions(local, t)[i] < |local| && Content(local[Positions(local, t)[i]]) == t
    ensures forall i, j :: 0 <= i < j < |Positions(local, t)| ==> Positions(local, t)[i] < Positions(local, t)[j]
    ensures |Positions(local, t)| == Count(local, t)
  {
    hide Content;
    if local != [] { PositionFacts(local[..|local| - 1], t); }
  }

  /** The position of a node is found by counting the earlier ones with its content. */
  lemma {:induction false} PositionAt(local: seq<Node>, k: nat)
    requires k < |local|
    ensures var t := Content(local[k]);
      Count(local[..k], t) < |Positions(local, t)| && Positions(local, t)[Count(local[..k], t)] == k
  {
    hide Content;
    var n := |local| - 1;
    var t := Content(local[k]);
    PositionFacts(local[..n], t);
    if k < n {
      PositionAt(local[..n], k);
      assert local[..n][..k] == local[..k];
    }
  }

  /** Each local node is used at most once. */
  lemma UsedOnce(local: seq<Node>, next: seq<Node>, k: nat, l: nat)
    requires k < l < |next| && Chosen(local, next, k).Some? && Chosen(local, next, l).Some?
    ensures Chosen(local, next, k).value < |local| && Chosen(local, next, l).value < |local|
    ensures Chosen(local, next, k) != Chosen(local, next, l)
  {
    hide Content, Positions, Count;
    PositionFacts(local, Content(next[k]));
    PositionFacts(local, Content(next[l]));
    if Content(next[k]) == Content(next[l]) { CountGrows(next, k, l, Content(next[k])); }
  }

  lemma {:induction false} CountGrows(nodes: seq<Node>, k: nat, l: nat, t: string)
    requires k < l <= |nodes| && Content(nodes[k]) == t
    ensures Count(nodes[..k], t) < Count(nodes[..l], t)
    decreases l
  {
    hide Content;
    assert nodes[..l][..l - 1] == nodes[..l - 1];
    if k < l - 1 { CountGrows(nodes, k, l - 1, t); }
  }

  /** A new node is taken only when every local node with its content has been used. */
  lemma {:induction false} NewOnlyWhenUsedUp(local: seq<Node>, next: seq<Node>, k: nat, c: nat)
    requires k <= |next|
    ensures forall t :: c < Count(next[..k], t) && c < |Positions(local, t)| ==>
      exists l :: 0 <= l < k && Content(next[l]) == t && Chosen(local, next, l) == Some(Positions(local, t)[c])
  {
    hide Content, Positions;
    if k > 0 {
      NewOnlyWhenUsedUp(local, next, k - 1, c);
      assert next[..k][..k - 1] == next[..k - 1];
      forall t | c < Count(next[..k], t) && c < |Positions(local, t)|
        ensures exists l :: 0 <= l < k && Content(next[l]) == t && Chosen(local, next, l) == Some(Positions(local, t)[c])
      {
        if c < Count(next[..k - 1], t) {
        } else {
          assert Content(next[k - 1]) == t && Chosen(local, next, k - 1) == Some(Positions(local, t)[c]);
        }
      }
    }
  }

  lemma {:induction false} SameCounts(a: seq<Node>, b: seq<Node>, t: string)
    requires |a| == |b| && forall i :: 0 <= i < |a| ==> Content(a[i]) == Content(b[i])
    ensures Count(a, t) == Count(b, t)
  {
    hide Content;
    if a != [] { SameCounts(a[..|a| - 1], b[..|b| - 1], t); }
  }

  /** When the contents agree position by position, duplicates included, every node takes its own place. */
  lemma OwnPlaces(local: seq<Node>, next: seq<Node>, k: nat)
    requires |local| == |next| && k < |next|
    requires forall i :: 0 <= i < |next| ==> Content(local[i]) == Content(next[i])
    ensures Chosen(local, next, k) == Some(k)
  {
    hide Content, Positions, Count;
    SameCounts(local[..k], next[..k], Content(next[k]));
    PositionAt(local, k);
  }

  // ----- the loops -----------------------------------------------------------------------------------------------------

  function Bucket(pool: map<string, seq<nat>>, t: string): seq<nat> { if t in pool then pool[t] else [] }

  method BuildPool(local: seq<Node>) returns (pool: map<string, seq<nat>>)
    ensures forall t :: Bucket(pool, t) == Positions(local, t)
  {
    hide Content;
    pool := map[];
    var i := 0;
    while i < |local|
      invariant i <= |local|
      invariant forall t :: Bucket(pool, t) == Positions(local[..i], t)
    {
      assert local[..i + 1][..i] == local[..i];
      var key := Content(local[i]);
      if key !in pool { pool := pool[key := []]; }
      pool := pool[key := pool[key] + [i]];
      i := i + 1;
    }
    assert local[..i] == local;
  }

  function Least(a: nat, b: nat): nat { if a < b then a else b }

  /** The local nodes with content t that are still free before place k. */
  function Left(local: seq<Node>, next: seq<Node>, k: nat, t: string): seq<nat>
    requires k <= |next|
  {
    Positions(local, t)[Least(Count(next[..k], t), |Positions(local, t)|)..]
  }

  ghost predicate PoolIs(pool: map<string, seq<nat>>, local: seq<Node>, next: seq<Node>, k: nat)
    requires k <= |next|
  {
    forall t :: Bucket(pool, t) == Left(local, next, k, t)
  }

  lemma LeftStep(local: seq<Node>, next: seq<Node>, k: nat, u: string)
    requires k < |next|
    ensures var t := Content(next[k]); var left := Left(local, next, k, t);
      && Chosen(local, next, k) == (if left == [] then None else Some(left[0]))
      && Left(local, next, k + 1, u) == (if u == t && left != [] then left[1..] else Left(local, next, k, u))
  {
    hide Content, Positions;
    assert next[..k + 1][..k] == next[..k];
  }

  lemma PoolStep(pool: map<string, seq<nat>>, local: seq<Node>, next: seq<Node>, k: nat)
    requires k < |next| && PoolIs(pool, local, next, k)
    ensures var t := Content(next[k]);
      && Chosen(local, next, k) == (if Bucket(pool, t) == [] then None else Some(pool[t][0]))
      && (Bucket(pool, t) == [] ==> PoolIs(pool, local, next, k + 1))
      && (Bucket(pool, t) != [] ==> PoolIs(pool[t := pool[t][1..]], local, next, k + 1))
  {
    hide Content, Left, Chosen;
    var t := Content(next[k]);
    LeftStep(local, next, k, t);
    assert Bucket(pool, t) == Left(local, next, k, t);
    if Bucket(pool, t) != [] {
      var less := pool[t := pool[t][1..]];
      forall u ensures Bucket(less, u) == Left(local, next, k + 1, u) {
        LeftStep(local, next, k, u);
        assert Bucket(pool, u) == Left(local, next, k, u);
      }
    } else {
      forall u ensures Bucket(pool, u) == Left(local, next, k + 1, u) { LeftStep(local, next, k, u); }
    }
  }

  /** The contents agree at the first n places. */
  ghost predicate Agree(local: seq<Node>, next: seq<Node>, n: nat) {
    n <= |local| && n <= |next| && forall i :: 0 <= i < n ==> Content(local[i]) == Content(next[i])
  }

  /** The node list of a merge: `same` tells that the local list is kept as it is. */
  method MergeNodes(local: seq<Node>, next: seq<Node>) returns (merged: seq<Node>, same: bool)
    ensures |merged| == |next|
    ensures forall k :: 0 <= k < |next| ==> TakesChosen(local, next, merged, k)
    ensures same <==> |local| == |next| && Agree(local, next, |next|)
    ensures same ==> merged == local
  {
    hide Content, Chosen, PoolIs, TakesChosen, Agree;
    var pool := BuildPool(local);
    PoolStart(pool, local, next);
    AgreeStart(local, next);
    merged := [];
    same := |next| == |local|;
    var index := 0;
    while index < |next|
      invariant index <= |next| && |merged| == index
      invariant PoolIs(pool, local, next, index)
      invariant forall k :: 0 <= k < index ==> TakesChosen(local, next, merged, k)
      invariant same ==> |next| == |local| && merged == local[..index] && Agree(local, next, index)
      invariant !same ==> !(|local| == |next| && Agree(local, next, |next|))
    {
      ghost var before := merged;
      var node := next[index];
      PoolStep(pool, local, next, index);
      ChosenFits(local, next, index);
      AgreeStep(local, next, index);
      if Bucket(pool, Content(node)) != [] {
        var reuse := pool[Content(node)][0];
        pool := pool[Content(node) := pool[Content(node)][1..]];
        if index >= |local| || local[reuse] != local[index] { same := false; }
        merged := merged + [local[reuse]];
      } else {
        same := false;
        merged := merged + [node];
      }
      TakesMore(local, next, before, merged, index);
      index := index + 1;
    }
    assert local[..|local|] == local;
  }

  lemma PoolStart(pool: map<string, seq<nat>>, local: seq<Node>, next: seq<Node>)
    requires forall t :: Bucket(pool, t) == Positions(local, t)
    ensures PoolIs(pool, local, next, 0)
  {
    hide Content;
  }

  lemma AgreeStart(local: seq<Node>, next: seq<Node>)
    ensures Agree(local, next, 0)
  {
  }

  lemma ChosenFits(local: seq<Node>, next: seq<Node>, k: nat)
    requires k < |next|
    ensures Chosen(local, next, k).Some? ==>
      Chosen(local, next, k).value < |local| && Content(local[Chosen(local, next, k).value]) == Content(next[k])
  {
    hide Content, Positions, Count;
    PositionFacts(local, Content(next[k]));
  }

  lemma AgreeStep(local: seq<Node>, next: seq<Node>, k: nat)
    requires k < |next|
    ensures Agree(local, next, k) && k < |local| && Content(local[k]) == Content(next[k]) ==> Agree(local, next, k + 1)
    ensures |local| == |next| && Agree(local, next, |next|) ==> Chosen(local, next, k) == Some(k)
  {
    hide Content, Chosen;
    if |local| == |next| && Agree(local, next, |next|) { OwnPlaces(local, next, k); }
  }

  lemma TakesMore(local: seq<Node>, next: seq<Node>, before: seq<Node>, merged: seq<Node>, k: nat)
    requires |before| == k < |next| && |merged| == k + 1 && merged[..k] == before
    requires forall i :: 0 <= i < k ==> TakesChosen(local, next, before, i)
    requires match Chosen(local, next, k)
      case Some(p) => p < |local| && merged[k] == local[p] && Content(local[p]) == Content(next[k])
      case None => merged[k] == next[k]
    ensures forall i :: 0 <= i < k + 1 ==> TakesChosen(local, next, merged, i)
  {
    hide Content, Chosen;
    forall i | 0 <= i < k ensures TakesChosen(local, next, merged, i) { assert TakesChosen(local, next, before, i); }
  }

  /** Place k holds the chosen local node, or the incoming one when there is none; its content is the incoming one's. */
  ghost predicate TakesChosen(local: seq<Node>, next: seq<Node>, merged: seq<Node>, k: nat) {
    && k < |next| && k < |merged|
    && Content(merged[k]) == Content(next[k])
    && match Chosen(local, next, k)
       case Some(p) => p < |local| && merged[k] == local[p]
       case None => merged[k] == next[k]
  }

  // ----- the whole draft ------------------------------------------------------------------------------------------------

  datatype Key = Proxies | GlobalConfig | CustomRules | RuleProviders | ImportSources | RuleType

  /** The draft: its nodes, the four fields compared by text, and the rule type. */
  datatype Draft = Draft(proxies: seq<Node>, globalConfig: Node, customRules: Node, providers: Node, sources: Node, ruleType: string) {
    predicate WellFormedAll() {
      && (forall i | 0 <= i < |proxies| :: WellFormed(proxies[i].value))
      && WellFormed(globalConfig.value) && WellFormed(customRules.value) && WellFormed(providers.value) && WellFormed(sources.value)
    }
  }

  /** The same content, up to the order of object keys. */
  ghost predicate SameDraft(a: Draft, b: Draft) {
    && |a.proxies| == |b.proxies| && (forall i :: 0 <= i < |a.proxies| ==> Same(a.proxies[i].value, b.proxies[i].value))
    && Same(a.globalConfig.value, b.globalConfig.value) && Same(a.customRules.value, b.customRules.value)
    && Same(a.providers.value, b.providers.value) && Same(a.sources.value, b.sources.value)
    && a.ruleType == b.ruleType
  }

  method MergeField(local: Node, incoming: Node) returns (merged: Node, changed: bool)
    ensures merged == if changed then incoming else local
    ensures changed <==> Content(local) != Content(incoming)
  {
    if Content(local) == Content(incoming) { return local, false; }
    return incoming, true;
  }

  lemma SameContent(a: Node, b: Node)
    requires WellFormed(a.value) && WellFormed(b.value) && Content(a) == Content(b)
    ensures Same(a.value, b.value)
  {
    hide Same, Stable;
    StableIffSame(a.value, b.value);
  }

  /** The closure of app.js around state.config. */
  class Editor {
    var config: Draft

    /** `reconcileDraft`: afterwards the local draft has the incoming content; what did not change keeps its objects. */
    method ReconcileDraft(incoming: Draft) returns (changed: set<Key>)
      requires config.WellFormedAll() && incoming.WellFormedAll()
      modifies this
      ensures SameDraft(config, incoming)
      ensures |config.proxies| == |incoming.proxies|
      ensures Proxies !in changed ==> config.proxies == old(config.proxies)
      ensures Proxies !in changed <==>
        |old(config.proxies)| == |incoming.proxies| && Agree(old(config.proxies), incoming.proxies, |incoming.proxies|)
      ensures forall k :: 0 <= k < |incoming.proxies| ==> TakesChosen(old(config.proxies), incoming.proxies, config.proxies, k)
      ensures config.globalConfig == if GlobalConfig in changed then incoming.globalConfig else old(config.globalConfig)
      ensures GlobalConfig in changed <==> Content(old(config.globalConfig)) != Content(incoming.globalConfig)
      ensures config.customRules == if CustomRules in changed then incoming.customRules else old(config.customRules)
      ensures CustomRules in changed <==> Content(old(config.customRules)) != Content(incoming.customRules)
      ensures config.providers == if RuleProviders in changed then incoming.providers else old(config.providers)
      ensures RuleProviders in changed <==> Content(old(config.providers)) != Content(incoming.providers)
      ensures config.sources == if ImportSources in changed then incoming.sources else old(config.sources)
      ensures ImportSources in changed <==> Content(old(config.sources)) != Content(incoming.sources)
      ensures RuleType in changed <==> old(config.ruleType) != incoming.ruleType
    {
      hide Content, Same, WellFormed, Chosen, Agree;
      changed := {};
      var local := config;
      var proxies, same := MergeNodes(local.proxies, incoming.proxies);
      MergedSame(local.proxies, incoming.proxies, proxies);
      if !same { changed := changed + {Proxies}; }
      var globalConfig, g := MergeField(local.globalConfig, incoming.globalConfig);
      if g { changed := changed + {GlobalConfig}; }
      var customRules, c := MergeField(local.customRules, incoming.customRules);
      if c { changed := changed + {CustomRules}; }
      var providers, p := MergeField(local.providers, incoming.providers);
      if p { changed := changed + {RuleProviders}; }
      var sources, s := MergeField(local.sources, incoming.sources);
      if s { changed := changed + {ImportSources}; }
      if local.ruleType != incoming.ruleType { changed := changed + {RuleType}; }
      SameContent(globalConfig, incoming.globalConfig);
      SameContent(customRules, incoming.customRules);
      SameContent(providers, incoming.providers);
      SameContent(sources, incoming.sources);
      config := Draft(proxies, globalConfig, customRules, providers, sources, incoming.ruleType);
    }
  }

  lemma MergedSame(local: seq<Node>, next: seq<Node>, merged: seq<Node>)
    requires |merged| == |next| && forall k :: 0 <= k < |next| ==> TakesChosen(local, next, merged, k)
    requires forall i :: 0 <= i < |local| ==> WellFormed(local[i].value)
    requires forall i :: 0 <= i < |next| ==> WellFormed(next[i].value)
    ensures forall i :: 0 <= i < |next| ==> Same(merged[i].value, next[i].value)
  {
    hide Content, Same, WellFormed, Chosen;
    forall i | 0 <= i < |next| ensures Same(merged[i].value, next[i].value) {
      assert TakesChosen(local, next, merged, i);
      SameContent(merged[i], next[i]);
    }
  }
}
