/** Concurrent subscription requests (`_build_subscription_response`, src/api.py): reading the row, asking the cache and building
    are separate steps, and any writes to the tables come between them. The server with the cache is compared with the server
    without it over the same events. */
module SubscriptionRuns {
  import opened Options
  import RuleText
  import opened SubscriptionCache

  datatype Request =
    | Open(row: Row, head: bool, missed: bool)
    | Done(answer: Answer)

  type Requests = map<nat, Request>

  datatype World<D> = World(rows: seq<Row>, cache: seq<Entry<D>>, requests: Requests)

  datatype Event =
    | Write(rows: seq<Row>)
    | Read(id: nat, token: string, head: bool)
    | AskCache(id: nat)
    | Finish(id: nat)

  datatype Server<!N, !P, !D(==)> = Server(env: Env<N, P>, digest: string -> D, caching: bool)

  /** A request without a published row is answered at once. */
  function Started<N, P>(env: Env<N, P>, row: Option<Row>, head: bool): Request {
    if row.None? || !row.value.enabled then Done(NotFound)
    else if RuleText.Trim(row.value.yaml) == "" then Done(Unpublished)
    else Open(row.value, head, false)
  }

  function AskStep<N, P, D(==)>(s: Server<N, P, D>, w: World<D>, id: nat): World<D>
    requires id in w.requests && w.requests[id].Open?
  {
    var asked := w.requests[id];
    var key := KeyOf(s.digest, asked.row);
    var cached := if s.caching then Hit(w.cache, key) else None;
    if cached.Some? then
      World(w.rows, Touch(w.cache, key), w.requests[id := Done(Reply(cached.value, asked.head, asked.row.username))])
    else w.(requests := w.requests[id := asked.(missed := true)])
  }

  function FinishStep<N, P, D(==)>(s: Server<N, P, D>, w: World<D>, id: nat): World<D>
    requires id in w.requests && w.requests[id].Open?
  {
    var asked := w.requests[id];
    match Build(s.env, asked.row)
    case Corrupt => w.(requests := w.requests[id := Done(Broken)])
    case Rejected => w.(requests := w.requests[id := Done(Refused)])
    case Fine(v) =>
      World(w.rows, if s.caching && !asked.head then Put(w.cache, KeyOf(s.digest, asked.row), v) else w.cache,
            w.requests[id := Done(Reply(v, asked.head, asked.row.username))])
  }

  predicate Pending(q: Requests, id: nat, missed: bool) { id in q && q[id].Open? && q[id].missed == missed }

  function Apply<N, P, D(==)>(s: Server<N, P, D>, w: World<D>, e: Event): World<D> {
    match e
    case Write(rows) => w.(rows := rows)
    case Read(id, token, head) =>
      if id in w.requests then w else w.(requests := w.requests[id := Started(s.env, Lookup(w.rows, token), head)])
    case AskCache(id) => if Pending(w.requests, id, false) then AskStep(s, w, id) else w
    case Finish(id) => if Pending(w.requests, id, true) then FinishStep(s, w, id) else w
  }

  function Run<N, P, D(==)>(s: Server<N, P, D>, events: seq<Event>): World<D> {
    if events == [] then World([], [], map[]) else Apply(s, Run(s, events[..|events| - 1]), events[|events| - 1])
  }

  /** An open request has a published row. */
  ghost predicate Published(q: Requests) {
    forall id :: id in q && q[id].Open? ==> q[id].row.enabled && RuleText.Trim(q[id].row.yaml) != ""
  }

  /** The cached server has answered with what the plain one is bound to answer. */
  ghost predicate Foretold<N, P>(env: Env<N, P>, fast: Request, slow: Request) {
    fast.Done? && slow.Open? && slow.missed && fast.answer == Serve(env, Some(slow.row), slow.head)
  }

  ghost predicate Ahead<N, P>(env: Env<N, P>, fast: Requests, slow: Requests) {
    && fast.Keys == slow.Keys
    && forall id :: id in fast ==> fast[id] == slow[id] || Foretold(env, fast[id], slow[id])
  }

  ghost predicate CacheFits<N, P, D>(s: Server<N, P, D>, cache: seq<Entry<D>>) {
    Faithful(s.env, s.digest, cache) && |cache| <= MAX_ENTRIES
  }

  ghost predicate Inv<N, P, D>(s: Server<N, P, D>, w: World<D>, p: World<D>) {
    p.rows == w.rows && Published(p.requests) && Ahead(s.env, w.requests, p.requests) && CacheFits(s, w.cache)
  }

  /** Both servers move one request. */
  lemma MoveBoth<N, P>(env: Env<N, P>, fast: Requests, slow: Requests, id: nat, f: Request, p: Request)
    requires Ahead(env, fast, slow) && Published(slow) && (f == p || Foretold(env, f, p))
    requires p.Open? ==> p.row.enabled && RuleText.Trim(p.row.yaml) != ""
    ensures Ahead(env, fast[id := f], slow[id := p]) && Published(slow[id := p])
  {
    hide Foretold, RuleText.Trim;
  }

  /** Only the plain server moves a request that the cached one has answered. */
  lemma MoveSlow<N, P>(env: Env<N, P>, fast: Requests, slow: Requests, id: nat, p: Request)
    requires Ahead(env, fast, slow) && Published(slow) && id in fast && (fast[id] == p || Foretold(env, fast[id], p))
    requires p.Open? ==> p.row.enabled && RuleText.Trim(p.row.yaml) != ""
    ensures Ahead(env, fast, slow[id := p]) && Published(slow[id := p])
  {
    hide Foretold, RuleText.Trim;
  }

  /** What the plain server answers when it finishes. */
  lemma FinishAnswer<N, P, D>(s: Server<N, P, D>, w: World<D>, id: nat)
    requires id in w.requests && w.requests[id].Open?
    requires w.requests[id].row.enabled && RuleText.Trim(w.requests[id].row.yaml) != ""
    ensures FinishStep(s, w, id).requests
         == w.requests[id := Done(Serve(s.env, Some(w.requests[id].row), w.requests[id].head))]
  {
    hide Build, RuleText.Trim;
  }

  lemma KeepAsk<N, P, D(!new)>(s: Server<N, P, D>, w: World<D>, p: World<D>, id: nat)
    requires Injective(s.digest) && s.caching && Inv(s, w, p)
    ensures Inv(s, Apply(s, w, AskCache(id)), Apply(s.(caching := false), p, AskCache(id)))
  {
    hide Published, Build, Faithful, Injective, Hit, Touch, Put, RuleText.Trim, Ahead;
    AheadAt(s.env, w.requests, p.requests, id);
    if Pending(p.requests, id, false) {
      var asked := p.requests[id];
      RowPublished(p.requests, id);
      if Hit(w.cache, KeyOf(s.digest, asked.row)).Some? {
        var key := KeyOf(s.digest, asked.row);
        HitBuild(s.env, s.digest, w.cache, asked.row);
        TouchFaithful(s.env, s.digest, w.cache, key);
        Elements(w.cache, key, Value("", 0, 0));
        MoveBoth(s.env, w.requests, p.requests, id, Done(Serve(s.env, Some(asked.row), asked.head)), asked.(missed := true));
      } else {
        MoveBoth(s.env, w.requests, p.requests, id, asked.(missed := true), asked.(missed := true));
      }
    }
  }

  lemma AheadAt<N, P>(env: Env<N, P>, fast: Requests, slow: Requests, id: nat)
    requires Ahead(env, fast, slow)
    ensures id in fast <==> id in slow
    ensures id in fast ==> fast[id] == slow[id] || Foretold(env, fast[id], slow[id])
  {
  }

  lemma RowPublished(q: Requests, id: nat)
    requires Published(q) && id in q && q[id].Open?
    ensures q[id].row.enabled && RuleText.Trim(q[id].row.yaml) != ""
  {
  }

  lemma KeepFinish<N, P, D(!new)>(s: Server<N, P, D>, w: World<D>, p: World<D>, id: nat)
    requires Injective(s.digest) && s.caching && Inv(s, w, p)
    ensures Inv(s, Apply(s, w, Finish(id)), Apply(s.(caching := false), p, Finish(id)))
  {
    hide Published, Ahead, Build, Faithful, Injective, Hit, Touch, Put, Serve, RuleText.Trim;
    AheadAt(s.env, w.requests, p.requests, id);
    if Pending(p.requests, id, true) {
      RowPublished(p.requests, id);
      var asked := p.requests[id];
      var done := Done(Serve(s.env, Some(asked.row), asked.head));
      FinishAnswer(s.(caching := false), p, id);
      if w.requests[id] == asked {
        MoveBoth(s.env, w.requests, p.requests, id, done, done);
        FinishAnswer(s, w, id);
        if Build(s.env, asked.row).Fine? {
          PutFaithful(s.env, s.digest, w.cache, asked.row, Build(s.env, asked.row).value);
          Elements(w.cache, KeyOf(s.digest, asked.row), Build(s.env, asked.row).value);
        }
      } else {
        MoveSlow(s.env, w.requests, p.requests, id, done);
      }
    }
  }

  lemma KeepRead<N, P, D>(s: Server<N, P, D>, w: World<D>, p: World<D>, id: nat, token: string, head: bool)
    requires Inv(s, w, p)
    ensures Inv(s, Apply(s, w, Read(id, token, head)), Apply(s.(caching := false), p, Read(id, token, head)))
  {
    hide Published, Ahead, CacheFits, Lookup, RuleText.Trim;
    AheadAt(s.env, w.requests, p.requests, id);
    if id !in p.requests {
      var started := Started(s.env, Lookup(w.rows, token), head);
      MoveBoth(s.env, w.requests, p.requests, id, started, started);
    }
  }

  lemma {:induction false} KeepRun<N, P, D(!new)>(s: Server<N, P, D>, events: seq<Event>)
    requires Injective(s.digest) && s.caching
    ensures Inv(s, Run(s, events), Run(s.(caching := false), events))
  {
    hide Published, Ahead, CacheFits, Injective, AskStep, FinishStep, Started, Lookup;
    if events == [] {
      EmptyFits(s);
    } else {
      var before, e := events[..|events| - 1], events[|events| - 1];
      KeepRun(s, before);
      var w, p := Run(s, before), Run(s.(caching := false), before);
      match e
      case Write(rows) =>
      case Read(id, token, head) => KeepRead(s, w, p, id, token, head);
      case AskCache(id) => KeepAsk(s, w, p, id);
      case Finish(id) => KeepFinish(s, w, p, id);
    }
  }

  lemma EmptyFits<N, P, D>(s: Server<N, P, D>)
    ensures Published(map[]) && Ahead(s.env, map[], map[]) && CacheFits(s, [])
  {
  }

  /** Whatever is published, drafted, reset or asked and however requests overlap: the two servers have seen the same requests, an
      answer of the plain one is the answer of the cached one, any answer the cached one gives earlier is the one the plain one
      is bound to give, and the cache never holds more than its share. */
  lemma CacheInvisible<N, P, D(!new)>(s: Server<N, P, D>, events: seq<Event>, id: nat)
    requires Injective(s.digest) && s.caching
    ensures var fast, slow := Run(s, events), Run(s.(caching := false), events);
      && |fast.cache| <= MAX_ENTRIES
      && (id in slow.requests <==> id in fast.requests)
      && (id in slow.requests && slow.requests[id].Done? ==> fast.requests[id] == slow.requests[id])
      && (id in slow.requests && slow.requests[id].Open? && fast.requests[id].Done? ==>
           fast.requests[id].answer == Serve(s.env, Some(slow.requests[id].row), slow.requests[id].head))
  {
    hide Run, Serve, Faithful, Ahead;
    KeepRun(s, events);
    AheadAt(s.env, Run(s, events).requests, Run(s.(caching := false), events).requests, id);
  }

  // ----- what a draft write can change -----

  /** Saving a draft touches the rule type of the row and nothing else that is served. The answer stays the same except when it
      depends on the missing MATCH rule alone and the rule type moves between base rules and none. */
  lemma DraftChangesAnswer<N, P>(env: Env<N, P>, row: Row, ruleType: string, head: bool)
    ensures Serve(env, Some(row), head) != Serve(env, Some(row.(ruleType := ruleType)), head)
       <==> && row.enabled && RuleText.Trim(row.yaml) != "" && NoBase(row.ruleType) != NoBase(ruleType)
            && env.load(row.yaml).Some? && !HasMatch(env.load(row.yaml).value.rules)
            && !Faulty(env, Ready(env, env.load(row.yaml).value, row.user, row.token))
  {
    hide RuleText.Trim, NoBase, HasMatch, Faulty, Ready;
  }
}
