/** No edit is lost and every publication carries what was validated, in the runs in which no load of the present login epoch lands
    while a save is queued or a check of an edited draft is under way. `DraftOvertaken` shows that this guard is exact for edits;
    `DraftStamps` gives the exact condition for publications. */
module DraftKept {
  import opened Options
  import opened DraftPage
  import opened DraftProtocol
  import opened DraftSafety

  /** The server's normal form of a draft is its own normal form. */
  ghost predicate Idempotent(normal: Draft -> Draft) { forall d :: normal(normal(d)) == normal(d) }

  /** A validation or publication of the present epoch whose answer has not arrived. */
  predicate UnderWay(w: World, id: nat) { id in w.net && !w.net[id].kind.Load? && w.net[id].epoch == w.page.auth.epoch }

  /** Nothing is under way that a load could overtake. */
  ghost predicate Clear(w: World) { w.page.queue == [] && forall id :: UnderWay(w, id) ==> w.net[id].generation == 0 }

  /** The event is the arrival of a load that the page will apply. */
  predicate Lands(w: World, e: Event) { e.Deliver? && e.id in w.net && w.net[e.id].kind.Load? && w.net[e.id].epoch == w.page.auth.epoch }

  ghost predicate Guarded(w: World, e: Event) { Lands(w, e) ==> Clear(w) }

  // ----- the invariant -------------------------------------------------------------------------------------------------

  /** A write of the present generation carries the present edit, up to normalization. */
  predicate Matches(normal: Draft -> Draft, edits: Edits, body: Draft, generation: nat) {
    generation <= edits.dirty && (0 < generation == edits.dirty ==> normal(body) == normal(edits.content))
  }

  ghost predicate SavesOk(normal: Draft -> Draft, edits: Edits, queue: seq<Save>) {
    forall i :: 0 <= i < |queue| ==> Matches(normal, edits, queue[i].snapshot, queue[i].generation)
  }

  ghost predicate ChecksOk(normal: Draft -> Draft, edits: Edits, net: map<nat, Request>, epoch: nat) {
    forall id :: id in net ==>
      && net[id].epoch <= epoch
      && (!net[id].kind.Load? && net[id].epoch == epoch ==> Matches(normal, edits, net[id].body, net[id].generation))
      && (!net[id].kind.Load? && net[id].answer.Some? ==> net[id].answer.value.config == normal(net[id].body))
  }

  ghost predicate ServedOk(normal: Draft -> Draft, page: Page, served: Option<Draft>) {
    served.Some? ==> page.queue != [] && served.value == normal(page.queue[0].snapshot)
  }

  predicate StampOk(normal: Draft -> Draft, p: Page, lastOk: Draft) {
    && (p.Current() ==> p.edits.content == lastOk && normal(p.edits.content) == p.edits.content)
    && (p.stamp.Some? ==> p.stamp.value <= p.edits.dirty)
    && (p.health == Broken(false) ==> p.edits.base == p.edits.content)
  }

  ghost predicate Kept(normal: Draft -> Draft, w: World) {
    && QueueFine(w.page.queue, w.page.auth.epoch)
    && SavesOk(normal, w.page.edits, w.page.queue)
    && ChecksOk(normal, w.page.edits, w.net, w.page.auth.epoch)
    && ServedOk(normal, w.page, w.served)
    && StampOk(normal, w.page, w.lastOk)
  }

  // ----- local steps of the page ------------------------------------------------------------------------------------------

  /** An edit makes every earlier write one of an older generation. */
  lemma EditKept(normal: Draft -> Draft, w: World, edited: Draft, proceed: bool)
    requires Kept(normal, w)
    ensures Kept(normal, Local(w, Edit(w.page, edited, proceed)))
  {
    hide QueueFine;
  }

  /** A page that differs in timer, error or busy flags only, or queues the present draft. */
  lemma QueuedKept(normal: Draft -> Draft, w: World, p: Page)
    requires Kept(normal, w)
    requires Queues(w.page, p)
    ensures Kept(normal, Local(w, p))
  {
    hide ChecksOk;
  }

  /** What the flushes do to a page: perhaps a save of the present draft is queued. */
  predicate Queues(p: Page, q: Page) {
    && q.edits == p.edits && q.auth == p.auth && q.health == p.health && q.stamp == p.stamp
    && (q.queue == p.queue || (p.edits.Gap() && q.queue == p.queue + [Save(p.edits.dirty, p.edits.content, p.auth.epoch)]))
  }

  lemma FlushQueues(p: Page)
    ensures Queues(p, Flush(p)) && Queues(p, TimerFires(p)) && Queues(p, ClickValidate(p)) && Queues(p, ClickPublish(p))
    ensures p.busy.validate.Saving? ==> Queues(p, ResumeValidate(p))
    ensures p.busy.publish.Saving? ==> Queues(p, ResumePublish(p))
  {
  }

  lemma SentKept(normal: Draft -> Draft, w: World, id: nat, kind: Kind)
    requires Kept(normal, w) && id !in w.net
    ensures Kept(normal, SentCheck(w, id, kind))
  {
    hide QueueFine, SavesOk, ServedOk, StampOk;
    ServedSame(normal, w, SentCheck(w, id, kind));
  }

  lemma ServedSame(normal: Draft -> Draft, w: World, v: World)
    requires v.page.queue == w.page.queue && v.page.edits == w.page.edits && v.page.health == w.page.health && v.page.stamp == w.page.stamp
    ensures ServedOk(normal, w.page, w.served) ==> ServedOk(normal, v.page, w.served)
    ensures StampOk(normal, w.page, w.lastOk) ==> StampOk(normal, v.page, w.lastOk)
  {
  }

  lemma PageStepKept(normal: Draft -> Draft, w: World, e: Event, v: World)
    requires Kept(normal, w) && PageStep(w, e, v)
    ensures Kept(normal, v)
  {
    hide Kept, Local, Flush, TimerFires, Edit, SentCheck, ClickValidate, ClickPublish, ResumeValidate, ResumePublish;
    FlushQueues(w.page);
    match e
    case Change(edited, proceed) => EditKept(normal, w, edited, proceed);
    case Timer => QueuedKept(normal, w, TimerFires(w.page));
    case SaveClick => QueuedKept(normal, w, Flush(w.page));
    case FlushAgain => QueuedKept(normal, w, Queue(w.page, w.page.edits.dirty));
    case ValidateClick => QueuedKept(normal, w, ClickValidate(w.page));
    case PublishClick => QueuedKept(normal, w, ClickPublish(w.page));
    case GoOnValidate => QueuedKept(normal, w, ResumeValidate(w.page));
    case GoOnPublish => QueuedKept(normal, w, ResumePublish(w.page));
    case SendValidate(id) => SentKept(normal, w, id, Validate);
    case SendPublish(id) => SentKept(normal, w, id, Publish);
    case RefusePublish =>
      var p := w.page.(busy := w.page.busy.(publish := Off));
      QueuedKept(normal, w, p);
      LocalIs(w, p);
    case _ =>
  }

  lemma LocalIs(w: World, p: Page)
    requires p.queue == w.page.queue
    ensures Local(w, p) == w.(page := p)
  {
  }

  lemma PageStepForm(w: World, e: Event, v: World)
    requires PageStep(w, e, v)
    ensures e.Change? || v.page.edits == w.page.edits
  {
    hide Flush, TimerFires, ClickValidate, ClickPublish, ResumeValidate, ResumePublish;
    FlushQueues(w.page);
  }

  // ----- saves ------------------------------------------------------------------------------------------------------------------

  lemma StoreSaveKept(normal: Draft -> Draft, w: World, v: World)
    requires Kept(normal, w) && SaveStep(w, normal, StoreSave, v)
    ensures Kept(normal, v) && v.page == w.page
  {
    hide QueueFine, SavesOk, ChecksOk, StampOk;
  }

  /** A draft in the same normal form, under the same generation. */
  lemma SameForm(normal: Draft -> Draft, a: Edits, b: Edits, queue: seq<Save>, net: map<nat, Request>, epoch: nat)
    requires b.dirty == a.dirty && (b.dirty > 0 ==> normal(b.content) == normal(a.content))
    ensures SavesOk(normal, a, queue) ==> SavesOk(normal, b, queue)
    ensures ChecksOk(normal, a, net, epoch) ==> ChecksOk(normal, b, net, epoch)
  {
  }

  lemma QueueTail(normal: Draft -> Draft, edits: Edits, queue: seq<Save>, epoch: nat)
    requires queue != []
    ensures SavesOk(normal, edits, queue) ==> SavesOk(normal, edits, queue[1..])
    ensures QueueFine(queue, epoch) ==> QueueFine(queue[1..], epoch)
  {
  }

  lemma HeadMatches(normal: Draft -> Draft, w: World)
    requires Kept(normal, w) && w.page.queue != []
    ensures var save := w.page.queue[0];
      Matches(normal, w.page.edits, save.snapshot, save.generation) && save.generation > 0 && save.epoch == w.page.auth.epoch
  {
  }

  lemma AnswerSaveKept(normal: Draft -> Draft, w: World, v: World)
    requires Kept(normal, w) && Idempotent(normal) && SaveStep(w, normal, AnswerSave, v)
    ensures Kept(normal, v) && normal(v.page.edits.content) == normal(w.page.edits.content)
  {
    HeadMatches(normal, w);
    var save := w.page.queue[0];
    assert normal(normal(save.snapshot)) == normal(save.snapshot);
    hide QueueFine, SavesOk, ChecksOk, Idempotent;
    QueueTail(normal, w.page.edits, w.page.queue, w.page.auth.epoch);
    SameForm(normal, w.page.edits, v.page.edits, w.page.queue[1..], w.net, w.page.auth.epoch);
  }

  lemma FailSaveKept(normal: Draft -> Draft, w: World, v: World)
    requires Kept(normal, w) && SaveStep(w, normal, FailSave, v)
    ensures Kept(normal, v) && v.page.edits == w.page.edits
  {
    hide QueueFine, SavesOk, ChecksOk;
    QueueTail(normal, w.page.edits, w.page.queue, w.page.auth.epoch);
  }

  lemma StrayKept(normal: Draft -> Draft, w: World, e: Event, v: World)
    requires Kept(normal, w) && SaveStep(w, normal, e, v) && (e.StoreStray? || e.EndStray?)
    ensures Kept(normal, v) && v.page == w.page
  {
    hide QueueFine, SavesOk, ChecksOk, ServedOk, StampOk;
  }

  lemma SaveStepKept(normal: Draft -> Draft, w: World, e: Event, v: World)
    requires Kept(normal, w) && Idempotent(normal) && SaveStep(w, normal, e, v)
    ensures Kept(normal, v) && normal(v.page.edits.content) == normal(w.page.edits.content)
  {
    hide Kept, SaveStep, Idempotent;
    match e
    case StoreSave => StoreSaveKept(normal, w, v);
    case AnswerSave => AnswerSaveKept(normal, w, v);
    case FailSave => FailSaveKept(normal, w, v);
    case StoreStray(_) => StrayKept(normal, w, e, v);
    case EndStray(_) => StrayKept(normal, w, e, v);
    case _ => NotASave(w, normal, e, v);
  }

  lemma NotASave(w: World, normal: Draft -> Draft, e: Event, v: World)
    ensures SaveStep(w, normal, e, v) ==> e.StoreSave? || e.AnswerSave? || e.FailSave? || e.StoreStray? || e.EndStray?
  {
  }

  // ----- requests ---------------------------------------------------------------------------------------------------------------

  lemma ServeKept(normal: Draft -> Draft, w: World, id: nat, answer: Answer, v: World)
    requires Kept(normal, w) && NetStep(w, normal, Serve(id, answer), v)
    ensures Kept(normal, v) && v.page == w.page
  {
    hide QueueFine, SavesOk, StampOk;
  }

  /** A request that goes and leaves the draft alone. */
  lemma DropKept(normal: Draft -> Draft, w: World, id: nat, p: Page)
    requires Kept(normal, w) && p.edits == w.page.edits && p.auth.epoch == w.page.auth.epoch && p.queue == w.page.queue
    requires p.health == w.page.health && p.stamp == w.page.stamp
    ensures Kept(normal, w.(net := w.net - {id}, page := p))
  {
    hide QueueFine, SavesOk;
  }

  lemma LoadKept(normal: Draft -> Draft, w: World, id: nat)
    requires Kept(normal, w) && Lands(w, Deliver(id)) && w.net[id].answer.Some? && Clear(w)
    ensures Kept(normal, Delivered(w, id))
  {
    forall i | UnderWay(w, i) ensures w.net[i].generation == 0 {}
  }

  /** What an answer to a check does to the page. */
  ghost predicate Checked(p: Page, config: Draft, generation: nat, q: Page) {
    && q.queue == p.queue && q.auth == p.auth && q.edits.dirty == p.edits.dirty
    && (if generation == p.edits.dirty
        then q.edits.content == config && q.health == Intact && (q.stamp == None || q.stamp == Some(generation))
        else q.edits == p.edits && q.health == p.health && (q.stamp == None || q.stamp == p.stamp))
  }

  lemma ValidateChecked(p: Page, config: Draft, ok: bool, generation: nat)
    ensures var q := ValidateAnswered(p, config, ok, generation);
      Checked(p, config, generation, q) && (generation == p.edits.dirty && q.stamp.Some? ==> ok)
  {
  }

  lemma PublishChecked(p: Page, config: Draft, generation: nat)
    ensures Checked(p, config, generation, PublishAnswered(p, config, generation))
  {
  }

  /** An answer of the present generation puts the normal form of the checked draft on the page; any other leaves the draft. */
  lemma CheckParts(normal: Draft -> Draft, w: World, id: nat)
    requires Kept(normal, w) && UnderWay(w, id) && w.net[id].answer.Some?
    ensures var r := w.net[id]; var v := Delivered(w, id);
      && v.net == w.net - {id} && v.served == w.served && Checked(w.page, normal(r.body), r.generation, v.page)
      && (if r.generation == w.page.edits.dirty then v.page.stamp.Some? ==> v.lastOk == normal(r.body) else v.lastOk == w.lastOk)
  {
    assert w.net[id].answer.value.config == normal(w.net[id].body);
    hide Kept, Checked, ValidateAnswered, PublishAnswered;
    var r := w.net[id];
    ValidateChecked(w.page, r.answer.value.config, r.answer.value.ok, r.generation);
    PublishChecked(w.page, r.answer.value.config, r.generation);
  }

  lemma CheckMatches(normal: Draft -> Draft, w: World, id: nat)
    requires Kept(normal, w) && UnderWay(w, id)
    ensures Matches(normal, w.page.edits, w.net[id].body, w.net[id].generation)
  {
  }

  lemma CheckKept(normal: Draft -> Draft, w: World, id: nat)
    requires Kept(normal, w) && Idempotent(normal) && UnderWay(w, id) && w.net[id].answer.Some?
    ensures var v := Delivered(w, id);
      Kept(normal, v) && (w.page.edits.dirty > 0 ==> normal(v.page.edits.content) == normal(w.page.edits.content))
  {
    hide Delivered;
    var r := w.net[id];
    var v := Delivered(w, id);
    CheckMatches(normal, w, id);
    CheckParts(normal, w, id);
    assert normal(normal(r.body)) == normal(r.body);
    hide QueueFine, SavesOk, ChecksOk, Idempotent;
    NetLess(normal, w, v, id);
    SameForm(normal, w.page.edits, v.page.edits, w.page.queue, v.net, w.page.auth.epoch);
  }

  lemma NetLess(normal: Draft -> Draft, w: World, v: World, id: nat)
    requires v.net == w.net - {id}
    ensures ChecksOk(normal, w.page.edits, w.net, w.page.auth.epoch) ==> ChecksOk(normal, w.page.edits, v.net, w.page.auth.epoch)
  {
  }

  lemma NetStepKept(normal: Draft -> Draft, w: World, e: Event, v: World)
    requires Kept(normal, w) && Idempotent(normal) && NetStep(w, normal, e, v) && Guarded(w, e)
    ensures Kept(normal, v)
    ensures !Lands(w, e) && w.page.edits.dirty > 0 ==> normal(v.page.edits.content) == normal(w.page.edits.content)
  {
    hide Kept, Idempotent, Clear, Delivered;
    match e
    case Serve(id, answer) => ServeKept(normal, w, id, answer, v);
    case Deliver(id) =>
      if w.net[id].epoch != w.page.auth.epoch {
        StaleDelivery(w, id);
        DropKept(normal, w, id, w.page);
      } else if w.net[id].kind.Load? {
        LoadKept(normal, w, id);
      } else {
        CheckKept(normal, w, id);
      }
    case Fail(id) => DropKept(normal, w, id, v.page);
    case FailUnsigned(id) => DropKept(normal, w, id, v.page);
    case _ =>
  }

  lemma StaleDelivery(w: World, id: nat)
    requires id in w.net && w.net[id].answer.Some? && w.net[id].epoch != w.page.auth.epoch
    ensures Delivered(w, id) == w.(net := w.net - {id}, page := w.page)
  {
  }

  // ----- sessions ------------------------------------------------------------------------------------------------------------------

  lemma AuthenticatedParts(p: Page, expired: bool, sameUser: bool, keep: bool)
    ensures var r := Authenticated(p, expired, sameUser, keep); var q := r.0;
      && (if expired && !sameUser then q.edits == Edits(EMPTY, EMPTY, 0, 0) && q.health == Intact && q.stamp == None
          else q.edits == p.edits && q.health == p.health && q.stamp == p.stamp)
      && q.auth.epoch > p.auth.epoch
      && (q.queue == [] || (q.queue == [Save(q.edits.dirty, q.edits.content, q.auth.epoch)] && r.1 && q.edits.Gap()))
  {
  }

  /** A new epoch, with no save or a save of the present draft. */
  lemma EpochKept(normal: Draft -> Draft, w: World, v: World)
    requires Kept(normal, w) && v.page.auth.epoch > w.page.auth.epoch && v.served.None?
    requires v.page.queue == [] || (v.page.edits.Gap()
      && v.page.queue == [Save(v.page.edits.dirty, v.page.edits.content, v.page.auth.epoch)])
    requires forall id :: id in v.net ==> (id in w.net && v.net[id] == w.net[id]) || (v.net[id].kind.Load? && v.net[id].epoch == v.page.auth.epoch)
    requires StampOk(normal, v.page, v.lastOk)
    ensures Kept(normal, v)
  {
    hide StampOk;
  }

  lemma LoginWorld(w: World, e: Event, v: World)
    requires SessionStep(w, e, v) && e.Login?
    ensures v.page == Authenticated(w.page, e.expired, e.sameUser, e.keep).0 && v.served.None? && v.lastOk == w.lastOk
    ensures forall id :: id in v.net ==> (id in w.net && v.net[id] == w.net[id]) || (v.net[id].kind.Load? && v.net[id].epoch == v.page.auth.epoch)
  {
    hide Authenticated;
  }

  lemma LoginKept(normal: Draft -> Draft, w: World, e: Event, v: World)
    requires Kept(normal, w) && SessionStep(w, e, v) && e.Login?
    ensures Kept(normal, v)
    ensures !(e.expired && !e.sameUser) ==> v.page.edits == w.page.edits
  {
    LoginWorld(w, e, v);
    AuthenticatedParts(w.page, e.expired, e.sameUser, e.keep);
    StampFact(normal, w);
    hide Authenticated, Kept, SessionStep;
    EpochKept(normal, w, v);
  }

  lemma StampFact(normal: Draft -> Draft, w: World)
    requires Kept(normal, w)
    ensures StampOk(normal, w.page, w.lastOk)
  {
  }

  lemma ResetKept(normal: Draft -> Draft, w: World, e: Event, v: World)
    requires Kept(normal, w) && SessionStep(w, e, v) && (e.OtherAccount? || e.Logout?)
    ensures Kept(normal, v)
  {
    hide Kept;
    EpochKept(normal, w, v);
  }

  lemma OwnSessionKept(normal: Draft -> Draft, w: World, e: Event, v: World)
    requires Kept(normal, w) && SessionStep(w, e, v) && !e.Login? && !e.OtherAccount? && !e.Logout?
    ensures Kept(normal, v) && v.page.edits == w.page.edits
  {
  }

  /** The events that replace the draft on purpose, and the load. */
  predicate Replaces(w: World, e: Event) {
    e.Change? || Lands(w, e) || e.OtherAccount? || e.Logout? || (e.Login? && e.expired && !e.sameUser)
  }

  lemma SessionStepKept(normal: Draft -> Draft, w: World, e: Event, v: World)
    requires Kept(normal, w) && SessionStep(w, e, v)
    ensures Kept(normal, v)
    ensures !Replaces(w, e) ==> v.page.edits == w.page.edits
  {
    hide Kept, SessionStep;
    if e.Login? {
      LoginKept(normal, w, e, v);
    } else if e.OtherAccount? || e.Logout? {
      ResetKept(normal, w, e, v);
    } else {
      OwnSessionKept(normal, w, e, v);
    }
  }

  // ----- guarded runs -----------------------------------------------------------------------------------------------------------

  lemma StepKept(normal: Draft -> Draft, w: World, e: Event, v: World)
    requires Kept(normal, w) && Idempotent(normal) && Step(w, normal, e, v) && Guarded(w, e)
    ensures Kept(normal, v)
    ensures !Replaces(w, e) && w.page.edits.dirty > 0 ==> normal(v.page.edits.content) == normal(w.page.edits.content)
  {
    hide Kept, PageStep, SaveStep, NetStep, SessionStep, Idempotent, Guarded;
    if PageStep(w, e, v) { PageStepKept(normal, w, e, v); PageStepForm(w, e, v); }
    if SaveStep(w, normal, e, v) { SaveStepKept(normal, w, e, v); }
    if NetStep(w, normal, e, v) { NetStepKept(normal, w, e, v); }
    if SessionStep(w, e, v) { SessionStepKept(normal, w, e, v); }
  }

  ghost predicate GuardedRun(ws: seq<World>, normal: Draft -> Draft, es: seq<Event>) {
    Run(ws, normal, es) && Idempotent(normal) && forall i :: 0 <= i < |es| ==> Guarded(ws[i], es[i])
  }

  lemma OpenedKept(normal: Draft -> Draft, w: World)
    requires Opened(w)
    ensures Kept(normal, w)
  {
  }

  lemma {:induction false} RunKept(ws: seq<World>, normal: Draft -> Draft, es: seq<Event>, n: nat)
    requires GuardedRun(ws, normal, es) && n < |ws|
    ensures Kept(normal, ws[n])
  {
    hide Step, Kept, Guarded, Opened, Idempotent;
    if n == 0 {
      OpenedKept(normal, ws[0]);
    } else {
      RunKept(ws, normal, es, n - 1);
      StepKept(normal, ws[n - 1], es[n - 1], ws[n]);
    }
  }

  /** No edit is lost: apart from further edits, loads, logout and a change of account, no event changes an edited draft beyond
      bringing it into its normal form. What a load does is in `LoadDiscards`. */
  lemma NoEditLost(ws: seq<World>, normal: Draft -> Draft, es: seq<Event>, n: nat)
    requires GuardedRun(ws, normal, es) && n < |es| && !Replaces(ws[n], es[n]) && ws[n].page.edits.dirty > 0
    ensures normal(ws[n + 1].page.edits.content) == normal(ws[n].page.edits.content)
  {
    hide Step, Kept, Guarded, Idempotent;
    RunKept(ws, normal, es, n);
    StepKept(normal, ws[n], es[n], ws[n + 1]);
  }

  /** Every publication carries exactly the draft the server last answered ok for, with no edit in between. */
  lemma PublishesValidated(ws: seq<World>, normal: Draft -> Draft, es: seq<Event>, n: nat, id: nat)
    requires GuardedRun(ws, normal, es) && n < |es| && es[n] == SendPublish(id)
    ensures id in ws[n + 1].net && ws[n + 1].net[id].kind.Publish?
    ensures ws[n + 1].net[id].body == ws[n].lastOk == ws[n].page.edits.content
    ensures ws[n].page.stamp == Some(ws[n].page.edits.dirty)
  {
    hide Guarded;
    RunKept(ws, normal, es, n);
    assert Step(ws[n], normal, es[n], ws[n + 1]);
  }

  // ----- what a load discards ------------------------------------------------------------------------------------------------------

  /** The page held an edit that it counted as unsaved, and afterwards it shows the draft of the answer as saved. */
  predicate Discards(w: World, id: nat, v: World)
    requires id in w.net && w.net[id].answer.Some?
  {
    && w.page.edits.Gap()
    && v.page.edits == Edits(w.net[id].answer.value.config, w.net[id].answer.value.config, 0, 0)
  }

  /** In every run: an arriving load discards an unsaved edit exactly when it is of the present epoch and the draft has one. */
  lemma LoadDiscards(ws: seq<World>, normal: Draft -> Draft, es: seq<Event>, n: nat, id: nat)
    requires Run(ws, normal, es) && n < |es| && es[n] == Deliver(id) && id in ws[n].net && ws[n].net[id].kind.Load?
    ensures ws[n].net[id].answer.Some?
    ensures Discards(ws[n], id, ws[n + 1])
       <==> ws[n].net[id].epoch == ws[n].page.auth.epoch && ws[n].page.edits.dirty > ws[n].page.edits.saved
  {
    RunFine(ws, normal, es, n);
    assert Step(ws[n], normal, es[n], ws[n + 1]);
    GapPositive(ws[n].page);
  }

  lemma GapPositive(p: Page)
    ensures p.edits.Gap() ==> p.edits != Edits(p.edits.content, p.edits.base, 0, 0)
  {
  }
}
