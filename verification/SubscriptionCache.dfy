/** The subscription response and its LRU cache (`_build_subscription_response`, src/api.py).

    Loading YAML, rewriting private provider URLs, normalising nodes, the checks other than the MATCH one and printing are
    arbitrary functions of what they read; the public base URL is fixed while the process runs. */
module SubscriptionCache {
  import opened Options
  import opened RuleText
  import opened RuleList
  import Normalizer
  import NormalWords

  const MAX_ENTRIES: nat := 32

  /** A subscription row joined with its user. */
  datatype Row = Row(token: string, user: int, username: string, enabled: bool, ruleType: string, yaml: string)

  datatype Nodes<N> = List(nodes: seq<N>) | NotList(size: nat)

  /** A loaded document: its nodes, the number of its groups, its rules, its providers and the rest. */
  datatype Doc<N, P> = Doc(nodes: Nodes<N>, groups: nat, rules: seq<string>, providers: P, rest: string)

  datatype Env<!N, !P> = Env(
    load: string -> Option<Doc<N, P>>,
    relink: (P, int, string) -> (P, bool),
    normal: seq<N> -> seq<N>,
    faulty: Doc<N, P> -> bool,
    dump: Doc<N, P> -> string)

  predicate NoBase(ruleType: string) {
    Normalizer.Lower(Trim(ruleType)) in ["none", "无基础规则", "自定义规则", "custom"]
  }

  /** A rule type without base rules: one of four words, in any case and between blanks. */
  lemma NoBaseWords(ruleType: string)
    ensures NoBase(ruleType) <==>
      NormalWords.Says(ruleType, "none") || NormalWords.Says(ruleType, "custom") || NormalWords.Says(ruleType, "无基础规则")
      || NormalWords.Says(ruleType, "自定义规则")
  {
    hide Trim, Normalizer.Lower, NormalWords.Says;
    NormalWords.SaysIs(ruleType, "none");
    NormalWords.SaysIs(ruleType, "custom");
    NormalWords.SaysIs(ruleType, "无基础规则");
    NormalWords.SaysIs(ruleType, "自定义规则");
  }

  /** What the cache stores for a published document. */
  datatype Value = Value(body: string, proxies: nat, groups: nat)

  datatype Built = Fine(value: Value) | Corrupt | Rejected

  datatype Answer =
    | NotFound
    | Unpublished
    | Broken
    | Refused
    | Page(body: string, proxies: nat, groups: nat, username: string)

  function Size<N>(nodes: Nodes<N>): nat { if nodes.List? then |nodes.nodes| else nodes.size }

  /** The document with private URLs and nodes brought up to date. */
  function Ready<N, P>(env: Env<N, P>, doc: Doc<N, P>, user: int, token: string): Doc<N, P> {
    Doc(if doc.nodes.List? then List(env.normal(doc.nodes.nodes)) else doc.nodes, doc.groups, doc.rules,
        env.relink(doc.providers, user, token).0, doc.rest)
  }

  predicate HasMatch(rules: seq<string>) { exists r | r in rules :: IsPlainMatch(r) }

  /** A fault that no rule type excuses. */
  predicate Faulty<N, P>(env: Env<N, P>, doc: Doc<N, P>) { Size(doc.nodes) == 0 || doc.groups == 0 || env.faulty(doc) }

  function Build<N, P>(env: Env<N, P>, row: Row): Built {
    match env.load(row.yaml)
    case None => Corrupt
    case Some(doc) =>
      var ready := Ready(env, doc, row.user, row.token);
      if Faulty(env, ready) || (!NoBase(row.ruleType) && !HasMatch(doc.rules)) then Rejected
      else
        var rebuilt := doc.nodes.List? || env.relink(doc.providers, row.user, row.token).1;
        Fine(Value(if rebuilt then env.dump(ready) else row.yaml, Size(ready.nodes), doc.groups))
  }

  /** The answer without a cache. */
  function Serve<N, P>(env: Env<N, P>, row: Option<Row>, head: bool): Answer {
    if row.None? || !row.value.enabled then NotFound
    else if Trim(row.value.yaml) == "" then Unpublished
    else
      match Build(env, row.value)
      case Corrupt => Broken
      case Rejected => Refused
      case Fine(v) => Reply(v, head, row.value.username)
  }

  function Reply(v: Value, head: bool, username: string): Answer {
    Page(if head then "" else v.body, v.proxies, v.groups, username)
  }

  function Lookup(rows: seq<Row>, token: string): Option<Row> {
    if rows == [] then None else if rows[0].token == token then Some(rows[0]) else Lookup(rows[1..], token)
  }

  // ----- what a client receives -----

  /** The row of the token: the first one that carries it. */
  ghost predicate IsRow(rows: seq<Row>, token: string, row: Option<Row>) {
    match row
    case None => forall r :: r in rows ==> r.token != token
    case Some(found) => exists i: nat :: i < |rows| && rows[i] == found && found.token == token && forall j: nat :: j < i ==> rows[j].token != token
  }

  /** The document a client gets: the URLs of private providers carry the user's present token, a list of nodes is normalised, and the
      rest is as published. */
  ghost predicate IsUpdate<N(!new), P(!new)>(env: Env<N, P>, row: Row, doc: Doc<N, P>, sent: Doc<N, P>) {
    && sent.providers == env.relink(doc.providers, row.user, row.token).0
    && (doc.nodes.List? ==> sent.nodes == List(env.normal(doc.nodes.nodes)))
    && (doc.nodes.NotList? ==> sent.nodes == doc.nodes)
    && sent.groups == doc.groups && sent.rules == doc.rules && sent.rest == doc.rest
  }

  ghost predicate Usable<N(!new), P(!new)>(env: Env<N, P>, row: Row, doc: Doc<N, P>, sent: Doc<N, P>) {
    && (match sent.nodes case List(nodes) => nodes != [] case NotList(size) => size > 0)
    && doc.groups > 0 && !env.faulty(sent)
    && (NoBase(row.ruleType) || exists i: nat :: i < |doc.rules| && "MATCH," <= doc.rules[i])
  }

  /** The answer to a request for an enabled user's row whose text loads as the document. */
  ghost predicate AnswersWith<N(!new), P(!new)>(env: Env<N, P>, row: Row, doc: Doc<N, P>, sent: Doc<N, P>, head: bool, answer: Answer) {
    if !Usable(env, row, doc, sent) then answer == Refused
    else
      && answer.Page? && answer.username == row.username && answer.groups == doc.groups
      && answer.proxies == (match sent.nodes case List(nodes) => |nodes| case NotList(size) => size)
      && (head ==> answer.body == "")
      && (!head && (doc.nodes.List? || env.relink(doc.providers, row.user, row.token).1) ==> answer.body == env.dump(sent))
      && (!head && doc.nodes.NotList? && !env.relink(doc.providers, row.user, row.token).1 ==> answer.body == row.yaml)
  }

  /** What each request must be answered with. */
  ghost predicate Answers<N(!new), P(!new)>(env: Env<N, P>, row: Option<Row>, head: bool, answer: Answer) {
    if row.None? || !row.value.enabled then answer == NotFound
    else if forall c :: c in row.value.yaml ==> IsSpace(c) then answer == Unpublished
    else if env.load(row.value.yaml).None? then answer == Broken
    else
      exists sent ::
        IsUpdate(env, row.value, env.load(row.value.yaml).value, sent)
        && AnswersWith(env, row.value, env.load(row.value.yaml).value, sent, head, answer)
  }

  lemma {:induction false} LookupRow(rows: seq<Row>, token: string)
    ensures IsRow(rows, token, Lookup(rows, token))
  {
    if rows != [] && rows[0].token != token {
      LookupRow(rows[1..], token);
      var found := Lookup(rows[1..], token);
      if found.Some? {
        var i: nat :| i < |rows[1..]| && rows[1..][i] == found.value && forall j: nat :: j < i ==> rows[1..][j].token != token;
        assert rows[i + 1] == found.value;
        forall j: nat | j < i + 1 ensures rows[j].token != token {
          if j > 0 { assert rows[1..][j - 1] == rows[j]; }
        }
      }
    }
  }

  lemma ReadyIsUpdate<N(!new), P(!new)>(env: Env<N, P>, row: Row, doc: Doc<N, P>)
    ensures IsUpdate(env, row, doc, Ready(env, doc, row.user, row.token))
  {
  }

  /** The served answer is the required one. */
  lemma ServeAnswers<N(!new), P(!new)>(env: Env<N, P>, row: Option<Row>, head: bool)
    ensures Answers(env, row, head, Serve(env, row, head))
  {
    hide Trim, NoBase;
    if row.Some? && row.value.enabled {
      BlankTrimmed(row.value.yaml);
      if Trim(row.value.yaml) != "" && env.load(row.value.yaml).Some? {
        var doc := env.load(row.value.yaml).value;
        ReadyIsUpdate(env, row.value, doc);
        BuiltAnswer(env, row.value, doc, head);
      }
    }
  }

  lemma BuiltAnswer<N(!new), P(!new)>(env: Env<N, P>, row: Row, doc: Doc<N, P>, head: bool)
    requires env.load(row.yaml) == Some(doc)
    ensures AnswersWith(env, row, doc, Ready(env, doc, row.user, row.token), head,
      match Build(env, row) case Corrupt => Broken case Rejected => Refused case Fine(v) => Reply(v, head, row.username))
  {
    hide NoBase;
    var sent := Ready(env, doc, row.user, row.token);
    assert HasMatch(doc.rules) <==> exists i: nat :: i < |doc.rules| && "MATCH," <= doc.rules[i] by { MatchIndex(doc.rules); }
    hide HasMatch;
  }

  lemma MatchIndex(rules: seq<string>)
    ensures HasMatch(rules) <==> exists i: nat :: i < |rules| && "MATCH," <= rules[i]
  {
    if HasMatch(rules) {
      var r :| r in rules && IsPlainMatch(r);
      var i: nat :| i < |rules| && rules[i] == r;
    }
    if i: nat :| i < |rules| && "MATCH," <= rules[i] { assert IsPlainMatch(rules[i]); }
  }

  // ----- the cache -----

  datatype Key<D> = Key(token: string, user: int, ruleType: string, digest: D)

  datatype Entry<D> = Entry(key: Key<D>, value: Value)

  function KeyOf<D>(digest: string -> D, row: Row): Key<D> { Key(row.token, row.user, row.ruleType, digest(row.yaml)) }

  function Find<D(==)>(cache: seq<Entry<D>>, key: Key<D>): (i: nat)
    ensures i <= |cache|
    ensures i < |cache| ==> cache[i].key == key
    ensures forall j :: 0 <= j < i ==> cache[j].key != key
  {
    if cache == [] || cache[0].key == key then 0 else 1 + Find(cache[1..], key)
  }

  function Hit<D(==)>(cache: seq<Entry<D>>, key: Key<D>): Option<Value> {
    var i := Find(cache, key);
    if i < |cache| then Some(cache[i].value) else None
  }

  function Without<D(==)>(cache: seq<Entry<D>>, key: Key<D>): seq<Entry<D>> {
    var i := Find(cache, key);
    if i < |cache| then cache[..i] + cache[i + 1..] else cache
  }

  /** The entry just used moves to the end. */
  function Touch<D(==)>(cache: seq<Entry<D>>, key: Key<D>): seq<Entry<D>> {
    var i := Find(cache, key);
    if i < |cache| then Without(cache, key) + [cache[i]] else cache
  }

  /** The new entry goes to the end, and the least recently used one leaves when there is one too many. */
  function Put<D(==)>(cache: seq<Entry<D>>, key: Key<D>, value: Value): seq<Entry<D>> {
    var all := Without(cache, key) + [Entry(key, value)];
    if |all| > MAX_ENTRIES then all[1..] else all
  }

  /** An entry that is there moves to the end with its value; a lookup that finds nothing changes nothing. */
  lemma TouchExact<D>(cache: seq<Entry<D>>, key: Key<D>, i: nat)
    requires forall j: nat :: j < |cache| && j < i ==> cache[j].key != key
    ensures i < |cache| && cache[i].key == key ==> Hit(cache, key) == Some(cache[i].value) && Touch(cache, key) == cache[..i] + cache[i + 1..] + [cache[i]]
    ensures i >= |cache| ==> Hit(cache, key) == None && Touch(cache, key) == cache
  {
    hide Find;
  }

  /** A new entry goes to the end; an entry with the same key makes room for it, or else, with 32 entries already there, the first one. */
  lemma PutExact<D>(cache: seq<Entry<D>>, key: Key<D>, value: Value, i: nat)
    requires |cache| <= 32 && forall j: nat :: j < |cache| && j < i ==> cache[j].key != key
    ensures i < |cache| && cache[i].key == key ==> Put(cache, key, value) == cache[..i] + cache[i + 1..] + [Entry(key, value)]
    ensures i >= |cache| && |cache| < 32 ==> Put(cache, key, value) == cache + [Entry(key, value)]
    ensures i >= |cache| && |cache| == 32 ==> Put(cache, key, value) == cache[1..] + [Entry(key, value)]
  {
    hide Find;
  }

  ghost predicate Injective<D(!new)>(digest: string -> D) { forall s, t :: digest(s) == digest(t) ==> s == t }

  /** Every entry holds what building gives for any row with its key. */
  ghost predicate Faithful<N, P, D>(env: Env<N, P>, digest: string -> D, cache: seq<Entry<D>>) {
    forall e, row :: e in cache && KeyOf(digest, row) == e.key ==> Build(env, row) == Fine(e.value)
  }

  lemma Elements<D>(cache: seq<Entry<D>>, key: Key<D>, value: Value)
    ensures forall e :: e in Touch(cache, key) ==> e in cache
    ensures forall e :: e in Put(cache, key, value) ==> e in cache || e == Entry(key, value)
    ensures |Touch(cache, key)| == |cache|
    ensures |cache| <= MAX_ENTRIES ==> |Put(cache, key, value)| <= MAX_ENTRIES
    ensures Put(cache, key, value) != [] && Put(cache, key, value)[|Put(cache, key, value)| - 1] == Entry(key, value)
  {
    hide Find;
  }

  /** Rows with one key build the same, so an entry made from one of them stands for all. */
  lemma SameKeySameBuild<N, P, D(!new)>(env: Env<N, P>, digest: string -> D, a: Row, b: Row)
    requires Injective(digest) && KeyOf(digest, a) == KeyOf(digest, b)
    ensures Build(env, a) == Build(env, b)
  {
    assert digest(a.yaml) == digest(b.yaml);
  }

  lemma TouchFaithful<N, P, D>(env: Env<N, P>, digest: string -> D, cache: seq<Entry<D>>, key: Key<D>)
    requires Faithful(env, digest, cache)
    ensures Faithful(env, digest, Touch(cache, key))
  {
    hide Touch, Put, Build, KeyOf;
    Elements(cache, key, Value("", 0, 0));
  }

  lemma PutFaithful<N, P, D(!new)>(env: Env<N, P>, digest: string -> D, cache: seq<Entry<D>>, row: Row, value: Value)
    requires Injective(digest) && Faithful(env, digest, cache) && Build(env, row) == Fine(value)
    ensures Faithful(env, digest, Put(cache, KeyOf(digest, row), value))
  {
    hide Touch, Put, Build, KeyOf, Injective;
    Elements(cache, KeyOf(digest, row), value);
    forall e, r | e in Put(cache, KeyOf(digest, row), value) && KeyOf(digest, r) == e.key ensures Build(env, r) == Fine(e.value) {
      if e !in cache { SameKeySameBuild(env, digest, row, r); }
    }
  }

  lemma HitBuild<N, P, D>(env: Env<N, P>, digest: string -> D, cache: seq<Entry<D>>, row: Row)
    requires Faithful(env, digest, cache) && Hit(cache, KeyOf(digest, row)).Some?
    ensures Build(env, row) == Fine(Hit(cache, KeyOf(digest, row)).value)
  {
    hide Build, KeyOf;
    assert cache[Find(cache, KeyOf(digest, row))] in cache;
  }

  // ----- the server, one request at a time -----

  class Server<!N(!new), !P(!new), !D(==, !new)> {
    const env: Env<N, P>
    const digest: string -> D
    var rows: seq<Row>
    var cache: seq<Entry<D>>

    ghost predicate Valid()
      reads this
    {
      Injective(digest) && Faithful(env, digest, cache) && |cache| <= MAX_ENTRIES
    }

    constructor (env: Env<N, P>, digest: string -> D, rows: seq<Row>)
      requires Injective(digest)
      ensures Valid() && cache == [] && this.rows == rows && this.env == env && this.digest == digest
    {
      this.env, this.digest, this.rows, cache := env, digest, rows, [];
    }

    /** Any write to the tables: publish, draft save, token reset, enabling, deletion. The cache is not told. */
    method Write(next: seq<Row>)
      requires Valid()
      modifies this`rows
      ensures Valid() && rows == next
    {
      rows := next;
    }

    method CacheGet(key: Key<D>) returns (cached: Option<Value>)
      requires Valid()
      modifies this`cache
      ensures Valid() && cached == Hit(old(cache), key) && cache == Touch(old(cache), key)
    {
      hide Faithful, Injective, Find;
      TouchFaithful(env, digest, cache, key);
      Elements(cache, key, Value("", 0, 0));
      cached := Hit(cache, key);
      if cached.Some? {
        cache := Without(cache, key) + [Entry(key, cached.value)];
      }
    }

    method CachePut(row: Row, value: Value)
      requires Valid() && Build(env, row) == Fine(value)
      modifies this`cache
      ensures Valid() && cache == Put(old(cache), KeyOf(digest, row), value)
    {
      hide Faithful, Injective, Find, Build;
      var key := KeyOf(digest, row);
      PutFaithful(env, digest, cache, row, value);
      Elements(cache, key, value);
      cache := Without(cache, key) + [Entry(key, value)];
      ghost var all := cache;
      while |cache| > MAX_ENTRIES
        invariant cache == all || (|all| > MAX_ENTRIES && cache == all[1..])
        invariant |all| <= MAX_ENTRIES + 1
      {
        cache := cache[1..];
      }
    }

    /** A GET or HEAD: the answer is the one without a cache. */
    method Respond(token: string, head: bool) returns (answer: Answer)
      requires Valid()
      modifies this`cache
      ensures Valid() && answer == Serve(env, Lookup(rows, token), head)
      ensures exists row :: IsRow(rows, token, row) && Answers(env, row, head, answer)
    {
      LookupRow(rows, token);
      ServeAnswers(env, Lookup(rows, token), head);
      hide Answers, IsRow;
      hide Faithful, Injective, Find, Build, Trim;
      var found := Lookup(rows, token);
      if found.None? || !found.value.enabled { return NotFound; }
      var row := found.value;
      if Trim(row.yaml) == "" { return Unpublished; }
      ghost var before := cache;
      var cached := CacheGet(KeyOf(digest, row));
      if cached.Some? {
        HitBuild(env, digest, before, row);
        return Reply(cached.value, head, row.username);
      }
      var built := Build(env, row);
      match built
      case Corrupt => answer := Broken;
      case Rejected => answer := Refused;
      case Fine(value) =>
        if !head { CachePut(row, value); }
        answer := Reply(value, head, row.username);
    }
  }
}
