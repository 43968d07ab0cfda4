/** When "saved" means stored: rules on what the page does, under which a draft that it shows as saved is the server's draft.
    `DraftRules` shows that none of the rules can be left out. */
module DraftStored {
  import opened Options
  import opened DraftPage
  import opened DraftProtocol
  import opened DraftSafety
  import opened DraftFlows
  import opened DraftKept
  import opened DraftWaits

  /** A load lands only if no write was issued after it was sent; the session is asked for, and left, only while no write is under
      way; a save is queued only while no check of an earlier edit is under way; the session is lost only while no check waits for
      its saves. */
  datatype Rule = FreshLoad | IdleSession | IdleOtherAccount | IdleLogin | IdleLogout | SaveAfterChecks | SessionKept

  ghost predicate Obeys(rule: Rule, w: World, e: Event, v: World) {
    match rule
    case FreshLoad => Lands(w, e) ==> w.issued == w.net[e.id].generation
    case IdleSession => e.Session? ==> Idle(w)
    case IdleOtherAccount => e.OtherAccount? ==> Idle(w)
    case IdleLogin => e.Login? ==> Idle(w)
    case IdleLogout => e.Logout? ==> Idle(w)
    case SaveAfterChecks => |v.page.queue| > |w.page.queue| ==> ChecksAt(w.net, w.page.edits.dirty)
    case SessionKept => KeepsSession(w, v)
  }

  ghost predicate Careful(w: World, e: Event, v: World) { forall rule :: Obeys(rule, w, e, v) }

  // ----- the invariant -------------------------------------------------------------------------------------------------

  ghost predicate ChecksNow(normal: Draft -> Draft, edits: Edits, net: map<nat, Request>, epoch: nat) {
    forall id :: IsCheck(net, id) ==>
      && net[id].epoch == epoch && net[id].generation <= edits.dirty
      && (net[id].generation == edits.dirty ==> normal(net[id].body) == normal(edits.content))
  }

  /** Writes that the server may still store come in the order of their generations: no save follows a later one or a later check, and
      nothing of an earlier generation accompanies a publication. */
  ghost predicate Ordered(queue: seq<Save>, net: map<nat, Request>) {
    && (forall i, j :: 0 <= i < j < |queue| ==> queue[i].generation <= queue[j].generation)
    && (forall i, id :: 0 <= i < |queue| && IsCheck(net, id) ==> queue[i].generation <= net[id].generation)
    && (forall i, id :: 0 <= i < |queue| && IsCheck(net, id) && net[id].kind.Publish? ==> net[id].generation <= queue[i].generation)
    && (forall p, id :: IsCheck(net, p) && net[p].kind.Publish? && IsCheck(net, id) ==> net[p].generation <= net[id].generation)
  }

  /** What the server has stored last is no older than what it has answered. */
  ghost predicate Recent(queue: seq<Save>, served: Option<Draft>, net: map<nat, Request>, last: nat) {
    && (served.Some? ==> queue != [] && queue[0].generation <= last)
    && (forall id :: IsCheck(net, id) && net[id].kind.Publish? && net[id].answer.Some? ==> net[id].generation <= last)
  }

  /** A load that no write has followed brings what the server holds. */
  ghost predicate LoadsNow(normal: Draft -> Draft, w: World) {
    forall id :: id in w.net && w.net[id].kind.Load? ==>
      && w.net[id].generation <= w.issued && w.net[id].epoch <= w.page.auth.epoch
      && (w.net[id].epoch == w.page.auth.epoch && w.net[id].generation == w.issued ==>
            Idle(w) && (w.net[id].answer.Some? ==> w.net[id].answer.value.config == normal(w.stored)))
  }

  /** The draft against the server's; once it counts as saved, every write under way carries it. */
  ghost predicate EditsNow(normal: Draft -> Draft, edits: Edits, last: nat, stored: Draft, loaded: bool) {
    && edits.saved <= edits.dirty && last <= edits.dirty
    && (loaded && last == edits.dirty ==> normal(stored) == normal(edits.content))
    && (loaded && edits.saved == edits.dirty ==> normal(edits.content) == edits.content && last == edits.dirty)
  }

  ghost predicate Settled(edits: Edits, queue: seq<Save>, net: map<nat, Request>, loaded: bool) {
    loaded && edits.saved == edits.dirty ==> SavesAt(queue, edits.dirty) && ChecksAt(net, edits.dirty)
  }

  ghost predicate Sync(normal: Draft -> Draft, w: World) {
    && w.strays == []
    && ChecksNow(normal, w.page.edits, w.net, w.page.auth.epoch)
    && Ordered(w.page.queue, w.net)
    && Recent(w.page.queue, w.served, w.net, w.last)
    && LoadsNow(normal, w)
    && EditsNow(normal, w.page.edits, w.last, w.stored, w.loaded)
    && Settled(w.page.edits, w.page.queue, w.net, w.loaded)
  }

  // ----- local steps of the page ------------------------------------------------------------------------------------------

  lemma EditSync(normal: Draft -> Draft, w: World, edited: Draft, proceed: bool)
    requires Kept(normal, w) && Sync(normal, w)
    ensures Sync(normal, Local(w, Edit(w.page, edited, proceed)))
  {
    hide QueueFine, SavesOk, ChecksOk, ServedOk, Ordered, Recent;
  }

  /** A page that differs in timer, error or busy flags only. */
  lemma FlagsSync(normal: Draft -> Draft, w: World, p: Page)
    requires Sync(normal, w)
    requires p.edits == w.page.edits && p.auth.epoch == w.page.auth.epoch && p.queue == w.page.queue
    ensures Sync(normal, w.(page := p))
  {
    hide ChecksNow, Ordered, Recent, EditsNow, Settled;
  }

  lemma OrderedMore(normal: Draft -> Draft, edits: Edits, queue: seq<Save>, net: map<nat, Request>, epoch: nat, s: Save)
    requires Ordered(queue, net) && ChecksNow(normal, edits, net, epoch) && SavesOk(normal, edits, queue)
    requires ChecksAt(net, edits.dirty) && s.generation == edits.dirty
    ensures Ordered(queue + [s], net)
  {
  }

  lemma LoadsAge(normal: Draft -> Draft, w: World, v: World)
    requires LoadsNow(normal, w) && v.page.auth.epoch == w.page.auth.epoch && v.issued > w.issued
    requires forall id :: id in v.net && v.net[id].kind.Load? ==> id in w.net && w.net[id] == v.net[id]
    ensures LoadsNow(normal, v)
  {
  }

  /** One more save of the present draft. */
  lemma QueuedSync(normal: Draft -> Draft, w: World, p: Page)
    requires Kept(normal, w) && Sync(normal, w) && ChecksAt(w.net, w.page.edits.dirty)
    requires p.edits == w.page.edits && p.auth == w.page.auth && p.edits.Gap()
    requires p.queue == w.page.queue + [Save(p.edits.dirty, p.edits.content, p.auth.epoch)]
    ensures Sync(normal, Local(w, p))
  {
    hide ChecksNow, Ordered, EditsNow, LoadsNow, ChecksAt, SavesOk, ChecksOk;
    OrderedMore(normal, p.edits, w.page.queue, w.net, p.auth.epoch, Save(p.edits.dirty, p.edits.content, p.auth.epoch));
    LoadsAge(normal, w, Local(w, p));
  }

  lemma LocalSync(normal: Draft -> Draft, w: World, p: Page)
    requires Kept(normal, w) && Sync(normal, w)
    requires p.edits == w.page.edits && p.auth == w.page.auth
    requires p.queue == w.page.queue || (p.edits.Gap() && p.queue == w.page.queue + [Save(p.edits.dirty, p.edits.content, p.auth.epoch)])
    requires |p.queue| > |w.page.queue| ==> ChecksAt(w.net, w.page.edits.dirty)
    ensures Sync(normal, Local(w, p))
  {
    hide Sync, Kept, ChecksAt;
    if p.queue == w.page.queue { FlagsSync(normal, w, p); } else { QueuedSync(normal, w, p); }
  }

  lemma OrderedSent(normal: Draft -> Draft, edits: Edits, queue: seq<Save>, net: map<nat, Request>, epoch: nat, id: nat, r: Request)
    requires Ordered(queue, net) && ChecksNow(normal, edits, net, epoch) && SavesOk(normal, edits, queue) && id !in net
    requires r == Request(r.kind, edits.content, edits.dirty, epoch, None) && !r.kind.Load?
    requires r.kind.Publish? ==> SavesAt(queue, edits.dirty) && ChecksAt(net, edits.dirty)
    ensures Ordered(queue, net[id := r]) && ChecksNow(normal, edits, net[id := r], epoch)
  {
  }

  lemma SentSync(normal: Draft -> Draft, w: World, id: nat, kind: Kind)
    requires Kept(normal, w) && Sync(normal, w) && id !in w.net && !kind.Load?
    requires kind.Publish? ==> SavesAt(w.page.queue, w.page.edits.dirty) && ChecksAt(w.net, w.page.edits.dirty)
    ensures Sync(normal, SentCheck(w, id, kind))
  {
    hide Ordered, ChecksNow, EditsNow, SavesAt, LoadsNow, SavesOk, ChecksOk;
    var r := Request(kind, w.page.edits.content, w.page.edits.dirty, w.page.auth.epoch, None);
    OrderedSent(normal, w.page.edits, w.page.queue, w.net, w.page.auth.epoch, id, r);
    LoadsAge(normal, w, SentCheck(w, id, kind));
  }

  lemma PageStepSync(normal: Draft -> Draft, w: World, e: Event, v: World)
    requires Kept(normal, w) && Sync(normal, w) && PageStep(w, e, v)
    requires Obeys(SaveAfterChecks, w, e, v)
    requires e.SendPublish? ==> SavesAt(w.page.queue, w.page.edits.dirty) && ChecksAt(w.net, w.page.edits.dirty)
    ensures Sync(normal, v)
  {
    hide Sync, Kept, Flush, TimerFires, Edit, SentCheck, ChecksAt, SavesAt, ClickValidate, ClickPublish, ResumeValidate, ResumePublish;
    match e
    case SendValidate(id) => SentSync(normal, w, id, Validate);
    case SendPublish(id) => SentSync(normal, w, id, Publish);
    case RefusePublish => FlagsSync(normal, w, w.page.(busy := w.page.busy.(publish := Off)));
    case Change(edited, proceed) => EditSync(normal, w, edited, proceed);
    case _ => HandlerSync(normal, w, e, v);
  }

  lemma HandlerSync(normal: Draft -> Draft, w: World, e: Event, v: World)
    requires Kept(normal, w) && Sync(normal, w) && PageStep(w, e, v)
    requires !e.SendValidate? && !e.SendPublish? && !e.RefusePublish? && !e.Change?
    requires Obeys(SaveAfterChecks, w, e, v)
    ensures Sync(normal, v)
  {
    hide Sync, Kept, Flush, TimerFires, SentCheck, ChecksAt, ClickValidate, ClickPublish, ResumeValidate, ResumePublish;
    FlushQueues(w.page);
    match e
    case Timer => LocalSync(normal, w, TimerFires(w.page));
    case SaveClick => LocalSync(normal, w, Flush(w.page));
    case FlushAgain => LocalSync(normal, w, Queue(w.page, w.page.edits.dirty));
    case ValidateClick => LocalSync(normal, w, ClickValidate(w.page));
    case PublishClick => LocalSync(normal, w, ClickPublish(w.page));
    case GoOnValidate => LocalSync(normal, w, ResumeValidate(w.page));
    case GoOnPublish => LocalSync(normal, w, ResumePublish(w.page));
    case _ =>
  }

  // ----- what the server stores ---------------------------------------------------------------------------------------------

  /** The server stores a write that is at its place in the order. */
  lemma StoredNow(normal: Draft -> Draft, edits: Edits, last: nat, stored: Draft, loaded: bool, body: Draft, generation: nat)
    requires EditsNow(normal, edits, last, stored, loaded) && Idempotent(normal) && generation <= edits.dirty
    requires generation == edits.dirty ==> normal(body) == normal(edits.content)
    requires loaded && edits.saved == edits.dirty ==> generation == edits.dirty
    ensures EditsNow(normal, edits, generation, normal(body), loaded)
  {
    assert normal(normal(body)) == normal(body);
  }

  lemma LoadsLater(normal: Draft -> Draft, w: World, v: World)
    requires LoadsNow(normal, w) && !Idle(w)
    requires v.issued == w.issued && v.page.auth.epoch == w.page.auth.epoch
    requires forall id :: id in v.net && v.net[id].kind.Load? ==> id in w.net && w.net[id] == v.net[id]
    ensures LoadsNow(normal, v)
  {
  }

  lemma HeadFacts(normal: Draft -> Draft, w: World)
    requires Kept(normal, w) && Sync(normal, w) && w.page.queue != []
    ensures var s := w.page.queue[0];
      && s.epoch == w.page.auth.epoch && s.generation <= w.page.edits.dirty && !Idle(w)
      && (s.generation == w.page.edits.dirty ==> normal(s.snapshot) == normal(w.page.edits.content))
      && (w.loaded && w.page.edits.saved == w.page.edits.dirty ==> s.generation == w.page.edits.dirty)
      && (w.served.Some? ==> w.served.value == normal(s.snapshot) && s.generation <= w.last)
      && forall id :: IsCheck(w.net, id) ==>
           s.generation <= w.net[id].generation && (w.net[id].kind.Publish? ==> w.net[id].generation <= s.generation)
  {
    hide StampOk, LoadsNow, EditsNow, ChecksOk, ChecksNow;
    HeadMatches(normal, w);
    var s := w.page.queue[0];
  }

  lemma StoreSaveSync(normal: Draft -> Draft, w: World, v: World)
    requires Kept(normal, w) && Sync(normal, w) && Idempotent(normal) && SaveStep(w, normal, StoreSave, v)
    ensures Sync(normal, v)
  {
    HeadFacts(normal, w);
    hide Kept, ChecksNow, Ordered, EditsNow, Idle, Settled, LoadsNow, Idempotent;
    var s := w.page.queue[0];
    StoredNow(normal, w.page.edits, w.last, w.stored, w.loaded, s.snapshot, s.generation);
    LoadsLater(normal, w, v);
  }

  /** The draft takes its normal form; it may become saved. */
  lemma TailSync(queue: seq<Save>, net: map<nat, Request>, last: nat)
    requires queue != [] && Ordered(queue, net)
    ensures Ordered(queue[1..], net)
    ensures Recent(queue, None, net, last) ==> Recent(queue[1..], None, net, last)
  {
  }

  /** The writes under way when the running save is of the present generation. */
  lemma HeadLevel(normal: Draft -> Draft, edits: Edits, queue: seq<Save>, net: map<nat, Request>, epoch: nat)
    requires queue != [] && Ordered(queue, net) && SavesOk(normal, edits, queue) && ChecksNow(normal, edits, net, epoch)
    requires queue[0].generation == edits.dirty
    ensures SavesAt(queue[1..], edits.dirty) && ChecksAt(net, edits.dirty)
  {
    forall id | IsCheck(net, id) ensures net[id].generation == edits.dirty {
      assert queue[0].generation <= net[id].generation;
    }
    forall i | 0 <= i < |queue[1..]| ensures queue[1..][i].generation == edits.dirty {
      assert queue[1..][i] == queue[i + 1];
      assert Matches(normal, edits, queue[i + 1].snapshot, queue[i + 1].generation);
    }
  }

  lemma SameChecks(normal: Draft -> Draft, a: Edits, b: Edits, net: map<nat, Request>, epoch: nat)
    requires ChecksNow(normal, a, net, epoch) && b.dirty == a.dirty && normal(b.content) == normal(a.content)
    ensures ChecksNow(normal, b, net, epoch)
  {
  }

  lemma SettledTail(edits: Edits, queue: seq<Save>, net: map<nat, Request>, loaded: bool)
    requires queue != [] && Settled(edits, queue, net, loaded)
    ensures Settled(edits, queue[1..], net, loaded)
  {
  }

  lemma AnswerSaveSync(normal: Draft -> Draft, w: World, v: World)
    requires Kept(normal, w) && Sync(normal, w) && Idempotent(normal) && SaveStep(w, normal, AnswerSave, v)
    ensures Sync(normal, v)
  {
    HeadFacts(normal, w);
    var s := w.page.queue[0];
    assert normal(normal(s.snapshot)) == normal(s.snapshot);
    SavesFact(normal, w);
    hide Kept, ChecksNow, Ordered, Idle, LoadsNow, Idempotent, SavesAt, ChecksAt, SavesOk;
    TailSync(w.page.queue, w.net, w.last);
    LoadsLater(normal, w, v);
    if s.generation == w.page.edits.dirty {
      HeadLevel(normal, w.page.edits, w.page.queue, w.net, w.page.auth.epoch);
      SameChecks(normal, w.page.edits, v.page.edits, w.net, w.page.auth.epoch);
    } else {
      SettledTail(w.page.edits, w.page.queue, w.net, w.loaded);
    }
  }

  lemma SavesFact(normal: Draft -> Draft, w: World)
    requires Kept(normal, w)
    ensures SavesOk(normal, w.page.edits, w.page.queue)
  {
  }

  lemma FailSaveSync(normal: Draft -> Draft, w: World, v: World)
    requires Kept(normal, w) && Sync(normal, w) && SaveStep(w, normal, FailSave, v)
    ensures Sync(normal, v)
  {
    HeadFacts(normal, w);
    hide Kept, ChecksNow, Ordered, Idle, LoadsNow, EditsNow, Settled;
    TailSync(w.page.queue, w.net, w.last);
    LoadsLater(normal, w, v);
    SettledTail(w.page.edits, w.page.queue, w.net, w.loaded);
  }

  lemma SaveStepSync(normal: Draft -> Draft, w: World, e: Event, v: World)
    requires Kept(normal, w) && Sync(normal, w) && Idempotent(normal) && SaveStep(w, normal, e, v)
    ensures Sync(normal, v)
  {
    NoStrays(normal, w);
    hide Kept, Sync, Idempotent;
    match e
    case StoreSave => StoreSaveSync(normal, w, v);
    case AnswerSave => AnswerSaveSync(normal, w, v);
    case FailSave => FailSaveSync(normal, w, v);
    case _ =>
  }

  lemma NoStrays(normal: Draft -> Draft, w: World)
    requires Sync(normal, w)
    ensures w.strays == []
  {
  }

  // ----- requests ---------------------------------------------------------------------------------------------------------------

  /** A request gets its answer. */
  lemma AnsweredSame(normal: Draft -> Draft, edits: Edits, queue: seq<Save>, net: map<nat, Request>, epoch: nat, loaded: bool, id: nat, a: Answer)
    requires id in net
    ensures var rest := net[id := net[id].(answer := Some(a))];
      && (Ordered(queue, net) ==> Ordered(queue, rest)) && (ChecksNow(normal, edits, net, epoch) ==> ChecksNow(normal, edits, rest, epoch))
      && (Settled(edits, queue, net, loaded) ==> Settled(edits, queue, rest, loaded))
  {
  }

  lemma IdleStays(w: World, v: World)
    requires Idle(w) && v.page.queue == w.page.queue && forall id :: IsCheck(v.net, id) ==> IsCheck(w.net, id)
    ensures Idle(v)
  {
  }

  lemma LoadServed(normal: Draft -> Draft, w: World, id: nat, answer: Answer)
    requires LoadsNow(normal, w) && id in w.net && w.net[id].kind.Load? && answer.config == normal(w.stored)
    ensures LoadsNow(normal, Send(w, id, w.net[id].(answer := Some(answer))))
  {
    if Idle(w) { IdleStays(w, Send(w, id, w.net[id].(answer := Some(answer)))); }
    hide Idle;
  }

  lemma ServeLoadSync(normal: Draft -> Draft, w: World, id: nat, answer: Answer)
    requires Sync(normal, w) && id in w.net && w.net[id].kind.Load? && w.net[id].answer.None? && answer.config == normal(w.stored)
    ensures Sync(normal, Send(w, id, w.net[id].(answer := Some(answer))))
  {
    AnsweredSame(normal, w.page.edits, w.page.queue, w.net, w.page.auth.epoch, w.loaded, id, answer);
    LoadServed(normal, w, id, answer);
    hide Ordered, ChecksNow, EditsNow, Settled, LoadsNow;
  }

  lemma CheckFacts(normal: Draft -> Draft, w: World, id: nat)
    requires Kept(normal, w) && Sync(normal, w) && IsCheck(w.net, id)
    ensures var r := w.net[id];
      && !Idle(w) && UnderWay(w, id) && r.generation <= w.page.edits.dirty
      && (r.generation == w.page.edits.dirty ==> normal(r.body) == normal(w.page.edits.content))
      && (w.loaded && w.page.edits.saved == w.page.edits.dirty ==> r.generation == w.page.edits.dirty)
      && (r.answer.Some? ==> r.answer.value.config == normal(r.body))
      && (w.page.queue != [] ==> w.page.queue[0].generation <= r.generation)
      && forall p :: IsCheck(w.net, p) && w.net[p].kind.Publish? ==> w.net[p].generation <= r.generation
  {
    hide StampOk, LoadsNow, EditsNow, QueueFine, SavesOk, Recent;
  }

  lemma ServeCheckSync(normal: Draft -> Draft, w: World, id: nat, answer: Answer)
    requires Kept(normal, w) && Sync(normal, w) && Idempotent(normal)
    requires IsCheck(w.net, id) && w.net[id].answer.None? && answer.config == normal(w.net[id].body)
    ensures Sync(normal, Send(Store(w, normal, w.net[id].body, w.net[id].generation), id, w.net[id].(answer := Some(answer))))
  {
    CheckFacts(normal, w, id);
    AnsweredSame(normal, w.page.edits, w.page.queue, w.net, w.page.auth.epoch, w.loaded, id, answer);
    hide Kept, Ordered, ChecksNow, EditsNow, Settled, Idle, Idempotent, LoadsNow;
    var r := w.net[id];
    StoredNow(normal, w.page.edits, w.last, w.stored, w.loaded, r.body, r.generation);
    LoadsLater(normal, w, Send(Store(w, normal, r.body, r.generation), id, r.(answer := Some(answer))));
  }

  /** A request that goes. */
  lemma NetLess(normal: Draft -> Draft, edits: Edits, queue: seq<Save>, net: map<nat, Request>, epoch: nat, loaded: bool, id: nat)
    ensures Ordered(queue, net) ==> Ordered(queue, net - {id})
    ensures ChecksNow(normal, edits, net, epoch) ==> ChecksNow(normal, edits, net - {id}, epoch)
    ensures Settled(edits, queue, net, loaded) ==> Settled(edits, queue, net - {id}, loaded)
  {
  }

  lemma RecentLess(queue: seq<Save>, served: Option<Draft>, net: map<nat, Request>, last: nat, id: nat)
    ensures Recent(queue, served, net, last) ==> Recent(queue, served, net - {id}, last)
  {
  }

  lemma LoadsLess(normal: Draft -> Draft, w: World, v: World, id: nat)
    requires LoadsNow(normal, w) && v.net == w.net - {id} && v.page.queue == w.page.queue && v.page.auth.epoch == w.page.auth.epoch
    requires v.issued == w.issued && v.stored == w.stored
    ensures LoadsNow(normal, v)
  {
    if Idle(w) { IdleStays(w, v); }
    hide Idle;
  }

  lemma DropSync(normal: Draft -> Draft, w: World, id: nat, p: Page)
    requires Sync(normal, w) && p.edits == w.page.edits && p.auth.epoch == w.page.auth.epoch && p.queue == w.page.queue
    ensures Sync(normal, w.(net := w.net - {id}, page := p))
  {
    NetLess(normal, w.page.edits, w.page.queue, w.net, w.page.auth.epoch, w.loaded, id);
    RecentLess(w.page.queue, w.served, w.net, w.last, id);
    hide Ordered, ChecksNow, EditsNow, Settled, LoadsNow, Recent;
    LoadsLess(normal, w, w.(net := w.net - {id}, page := p), id);
  }

  lemma IdleClear(w: World)
    requires Idle(w)
    ensures Clear(w)
  {
    forall id ensures !UnderWay(w, id) { assert !IsCheck(w.net, id); }
  }

  /** A load that lands finds no write under way, so nothing is overtaken. */
  lemma LandsClear(normal: Draft -> Draft, w: World, e: Event)
    requires Sync(normal, w) && (Lands(w, e) ==> w.issued == w.net[e.id].generation)
    ensures Guarded(w, e) && (Lands(w, e) ==> Idle(w))
  {
    hide Ordered, ChecksNow, EditsNow, Settled, Recent;
    if Lands(w, e) {
      assert Idle(w);
      IdleClear(w);
    }
  }

  lemma LandSync(normal: Draft -> Draft, w: World, id: nat)
    requires Sync(normal, w) && Idempotent(normal) && Lands(w, Deliver(id)) && w.net[id].answer.Some?
    requires w.issued == w.net[id].generation
    ensures Sync(normal, Delivered(w, id))
  {
    hide Ordered, ChecksNow, EditsNow, Settled;
    assert Idle(w) && w.net[id].answer.value.config == normal(w.stored) && normal(normal(w.stored)) == normal(w.stored);
    var v := Delivered(w, id);
    LoadsLess(normal, w, v, id);
    IdleStays(w, v);
    hide LoadsNow, Idempotent, Idle;
    IdleSync(normal, v);
  }

  /** Nothing under way, and the draft just loaded. */
  lemma IdleSync(normal: Draft -> Draft, v: World)
    requires Idle(v) && v.strays == [] && v.served.None? && LoadsNow(normal, v)
    requires v.page.edits == Edits(v.page.edits.content, v.page.edits.base, 0, 0) && v.last == 0
    requires v.loaded ==> v.page.edits.content == normal(v.stored) && normal(v.page.edits.content) == v.page.edits.content
    ensures Sync(normal, v)
  {
    hide LoadsNow;
  }

  /** An answered check is applied: its draft in normal form, and as saved if it is a publication. */
  ghost predicate CheckApplied(w: World, id: nat, v: World)
    requires id in w.net && w.net[id].answer.Some?
  {
    var r := w.net[id]; var config := r.answer.value.config;
    && v.page.queue == w.page.queue && v.page.auth.epoch == w.page.auth.epoch && v.served == w.served && v.net == w.net - {id}
    && v.strays == w.strays && v.last == w.last && v.stored == w.stored && v.loaded == w.loaded && v.issued == w.issued
    && (if r.generation != w.page.edits.dirty then v.page.edits == w.page.edits
        else v.page.edits.content == config && v.page.edits.dirty == w.page.edits.dirty
             && v.page.edits.saved == if r.kind.Publish? then w.page.edits.dirty else w.page.edits.saved)
  }

  lemma Applied(w: World, id: nat)
    requires UnderWay(w, id) && w.net[id].answer.Some?
    ensures CheckApplied(w, id, Delivered(w, id))
  {
  }

  /** The writes under way when a publication of the present generation is answered. */
  lemma PublishLevel(normal: Draft -> Draft, edits: Edits, queue: seq<Save>, net: map<nat, Request>, epoch: nat, id: nat)
    requires Ordered(queue, net) && SavesOk(normal, edits, queue) && ChecksNow(normal, edits, net, epoch)
    requires IsCheck(net, id) && net[id].kind.Publish? && net[id].generation == edits.dirty
    ensures SavesAt(queue, edits.dirty) && ChecksAt(net - {id}, edits.dirty)
  {
    forall i | 0 <= i < |queue| ensures queue[i].generation == edits.dirty {
      assert Matches(normal, edits, queue[i].snapshot, queue[i].generation);
    }
  }

  lemma CheckSync(normal: Draft -> Draft, w: World, id: nat)
    requires Kept(normal, w) && Sync(normal, w) && Idempotent(normal) && IsCheck(w.net, id) && w.net[id].answer.Some?
    ensures Sync(normal, Delivered(w, id))
  {
    hide Delivered;
    CheckFacts(normal, w, id);
    SavesFact(normal, w);
    Applied(w, id);
    var r := w.net[id];
    var v := Delivered(w, id);
    assert normal(normal(r.body)) == normal(r.body);
    hide Kept, Idempotent, SavesOk, Ordered, ChecksNow, LoadsNow, SavesAt, ChecksAt;
    LoadsLess(normal, w, v, id);
    RecentLess(w.page.queue, w.served, w.net, w.last, id);
    NetLess(normal, w.page.edits, w.page.queue, w.net, w.page.auth.epoch, w.loaded, id);
    if r.generation == w.page.edits.dirty {
      SameChecks(normal, w.page.edits, v.page.edits, v.net, w.page.auth.epoch);
      if r.kind.Publish? { PublishLevel(normal, w.page.edits, w.page.queue, w.net, w.page.auth.epoch, id); }
    }
  }

  lemma NetStepSync(normal: Draft -> Draft, w: World, e: Event, v: World)
    requires Kept(normal, w) && Sync(normal, w) && Idempotent(normal) && NetStep(w, normal, e, v) && Obeys(FreshLoad, w, e, v)
    ensures Sync(normal, v)
  {
    hide Kept, Sync, Send, Store, Idempotent, Delivered;
    match e
    case Serve(id, answer) =>
      if w.net[id].kind.Load? { ServeLoadSync(normal, w, id, answer); } else { ServeCheckSync(normal, w, id, answer); }
    case Deliver(id) =>
      if w.net[id].epoch != w.page.auth.epoch {
        StaleDelivery(w, id);
        DropSync(normal, w, id, w.page);
      } else if w.net[id].kind.Load? {
        LandSync(normal, w, id);
      } else {
        CheckSync(normal, w, id);
      }
    case Fail(id) => DropSync(normal, w, id, v.page);
    case FailUnsigned(id) => DropSync(normal, w, id, v.page);
    case _ =>
  }

  // ----- sessions ------------------------------------------------------------------------------------------------------------------

  /** After a change of epoch the loads on their way are stale, but for the one just sent. */
  lemma NewEpochLoads(normal: Draft -> Draft, w: World, v: World, id: nat)
    requires LoadsNow(normal, w) && Idle(w) && v.page.auth.epoch > w.page.auth.epoch && v.issued >= w.issued
    requires v.net == w.net || (id !in w.net && v.page.queue == [] && v.net == w.net[id := LoadRequest(v, v.page.auth.epoch)])
    ensures LoadsNow(normal, v) && forall i :: !IsCheck(v.net, i)
  {
    forall i ensures !IsCheck(v.net, i) { assert !IsCheck(w.net, i); }
  }

  /** No check is under way, and at most a save of the present draft. */
  lemma OneSaveSync(normal: Draft -> Draft, v: World)
    requires v.strays == [] && v.served.None? && LoadsNow(normal, v) && forall id :: !IsCheck(v.net, id)
    requires EditsNow(normal, v.page.edits, v.last, v.stored, v.loaded)
    requires v.page.queue == [] || (exists s :: v.page.queue == [s] && v.page.edits.Gap())
    ensures Sync(normal, v)
  {
    hide LoadsNow;
  }

  lemma SyncParts(normal: Draft -> Draft, w: World)
    requires Sync(normal, w) && Idle(w)
    ensures w.strays == [] && w.served.None? && LoadsNow(normal, w) && EditsNow(normal, w.page.edits, w.last, w.stored, w.loaded)
  {
  }

  lemma LoginSync(normal: Draft -> Draft, w: World, e: Event, v: World)
    requires Sync(normal, w) && SessionStep(w, e, v) && e.Login? && Idle(w)
    ensures Sync(normal, v)
  {
    SyncParts(normal, w);
    AuthenticatedParts(w.page, e.expired, e.sameUser, e.keep);
    hide Authenticated, LoadsNow, Sync;
    NewEpochLoads(normal, w, v, e.id);
    OneSaveSync(normal, v);
  }

  lemma LeaveSync(normal: Draft -> Draft, w: World, e: Event, v: World)
    requires Sync(normal, w) && SessionStep(w, e, v) && (e.OtherAccount? || e.Logout?) && Idle(w)
    ensures Sync(normal, v)
  {
    SyncParts(normal, w);
    hide LoadsNow, Sync;
    NewEpochLoads(normal, w, v, if e.OtherAccount? then e.id else 0);
    OneSaveSync(normal, v);
  }

  /** The first session request is answered. */
  lemma SessionSync(normal: Draft -> Draft, w: World, e: Event, v: World)
    requires Sync(normal, w) && SessionStep(w, e, v) && e.Session? && Idle(w)
    ensures Sync(normal, v)
  {
    SyncParts(normal, w);
    SessionLoads(normal, w, e, v);
    hide LoadsNow, Sync;
    forall i ensures !IsCheck(v.net, i) { assert !IsCheck(w.net, i); }
    OneSaveSync(normal, v);
  }

  lemma SessionLoads(normal: Draft -> Draft, w: World, e: Event, v: World)
    requires LoadsNow(normal, w) && SessionStep(w, e, v) && e.Session? && Idle(w)
    ensures LoadsNow(normal, v)
  {
    forall i ensures !IsCheck(v.net, i) { assert !IsCheck(w.net, i); }
  }

  lemma SessionStepSync(normal: Draft -> Draft, w: World, e: Event, v: World)
    requires Sync(normal, w) && SessionStep(w, e, v) && Careful(w, e, v)
    ensures Sync(normal, v)
  {
    assert Obeys(IdleSession, w, e, v) && Obeys(IdleOtherAccount, w, e, v) && Obeys(IdleLogin, w, e, v) && Obeys(IdleLogout, w, e, v);
    hide Sync, Careful, Idle;
    match e
    case Login(_, _, _, _, _) => LoginSync(normal, w, e, v);
    case OtherAccount(_, _, _) => LeaveSync(normal, w, e, v);
    case Logout => LeaveSync(normal, w, e, v);
    case Session(_, _) => SessionSync(normal, w, e, v);
    case SessionLost(_) => FlagsSync(normal, w, Expire(w.page));
    case SessionBack(_) => FlagsSync(normal, w, Renew(w.page));
    case _ =>
  }

  // ----- careful runs -----------------------------------------------------------------------------------------------------------

  /** The seven rules make the page publish only over writes of its own generation. */
  lemma PublishesSync(normal: Draft -> Draft, w: World, e: Event, v: World)
    requires Kept(normal, w) && Wired(w) && Patient(w) && Sync(normal, w) && PageStep(w, e, v) && e.SendPublish?
    ensures SavesAt(w.page.queue, w.page.edits.dirty) && ChecksAt(w.net, w.page.edits.dirty)
  {
    SyncBounded(normal, w);
    hide Kept, Patient, Bounded, Wired, Ordered, Recent, LoadsNow, EditsNow, Settled;
    PublishesLevel(w, e.id, v);
  }

  lemma SyncBounded(normal: Draft -> Draft, w: World)
    requires Kept(normal, w) && Sync(normal, w)
    ensures Bounded(w)
  {
    hide Kept, ChecksNow, Ordered, Recent, LoadsNow, Settled;
    KeptBounded(normal, w);
  }

  lemma CarefulPatient(normal: Draft -> Draft, w: World, e: Event, v: World)
    requires Kept(normal, w) && Sync(normal, w) && Wired(w) && Patient(w) && Step(w, normal, e, v) && Careful(w, e, v)
    ensures Guarded(w, e) && Patient(v)
  {
    hide Sync, Kept, Wired, Patient, Bounded, Step, Guarded, Lands, Idle, KeepsSession;
    assert Obeys(FreshLoad, w, e, v) && Obeys(SessionKept, w, e, v);
    hide Careful;
    LandsClear(normal, w, e);
    SyncBounded(normal, w);
    StepPatient(w, normal, e, v);
  }

  lemma StepSync(normal: Draft -> Draft, w: World, e: Event, v: World)
    requires Kept(normal, w) && Sync(normal, w) && Wired(w) && Patient(w)
    requires Idempotent(normal) && Step(w, normal, e, v) && Careful(w, e, v)
    ensures Sync(normal, v) && Guarded(w, e) && Patient(v)
  {
    hide Sync, Kept, Wired, Patient, PageStep, SaveStep, NetStep, SessionStep, Idempotent, Guarded, Obeys, Lands;
    assert Obeys(FreshLoad, w, e, v) && Obeys(SaveAfterChecks, w, e, v);
    CarefulPatient(normal, w, e, v);
    if PageStep(w, e, v) {
      if e.SendPublish? { PublishesSync(normal, w, e, v); }
      PageStepSync(normal, w, e, v);
    }
    if SaveStep(w, normal, e, v) { SaveStepSync(normal, w, e, v); }
    if NetStep(w, normal, e, v) { NetStepSync(normal, w, e, v); }
    if SessionStep(w, e, v) { SessionStepSync(normal, w, e, v); }
  }

  ghost predicate CarefulRun(ws: seq<World>, normal: Draft -> Draft, es: seq<Event>) {
    Run(ws, normal, es) && Idempotent(normal) && forall i :: 0 <= i < |es| ==> Careful(ws[i], es[i], ws[i + 1])
  }

  lemma OpenedSync(normal: Draft -> Draft, w: World)
    requires Opened(w)
    ensures Kept(normal, w) && Sync(normal, w) && Patient(w)
  {
    OpenedKept(normal, w);
    hide Kept;
  }

  lemma {:induction false} RunSync(ws: seq<World>, normal: Draft -> Draft, es: seq<Event>, n: nat)
    requires CarefulRun(ws, normal, es) && n < |ws|
    ensures Kept(normal, ws[n]) && Sync(normal, ws[n]) && Patient(ws[n])
  {
    hide Step, Sync, Kept, Wired, Patient, Careful, Guarded, Opened, Idempotent;
    if n == 0 {
      OpenedSync(normal, ws[0]);
    } else {
      RunSync(ws, normal, es, n - 1);
      RunWired(ws, normal, es, n - 1);
      assert Step(ws[n - 1], normal, es[n - 1], ws[n]) && Careful(ws[n - 1], es[n - 1], ws[n]);
      StepSync(normal, ws[n - 1], es[n - 1], ws[n]);
      StepKept(normal, ws[n - 1], es[n - 1], ws[n]);
    }
  }

  /** The page shows the draft as saved, and it is not what the server holds. */
  predicate Unstored(normal: Draft -> Draft, w: World) {
    w.loaded && w.page.edits.dirty == w.page.edits.saved && w.page.edits.content != normal(w.stored)
  }

  /** "Saved" means stored: in every run that obeys the rules, once the draft is loaded, equal generations mean that the page shows
      exactly the normal form of what the server holds. */
  lemma SavedIsStored(ws: seq<World>, normal: Draft -> Draft, es: seq<Event>, n: nat)
    requires CarefulRun(ws, normal, es) && n < |ws|
    ensures !Unstored(normal, ws[n])
    ensures ws[n].loaded && ws[n].page.edits.dirty == ws[n].page.edits.saved ==> ws[n].page.edits.content == normal(ws[n].stored)
  {
    hide Step, Careful, Kept, Patient;
    RunSync(ws, normal, es, n);
  }

  /** The draft that the server stores by this event. */
  function Written(w: World, e: Event): Option<Draft> {
    match e
    case StoreSave => if w.page.queue != [] then Some(w.page.queue[0].snapshot) else None
    case StoreStray(i) => if i < |w.strays| && w.strays[i].saves != [] then Some(w.strays[i].saves[0].snapshot) else None
    case Serve(id, _) => if IsCheck(w.net, id) then Some(w.net[id].body) else None
    case _ => None
  }

  /** A write that the server stores while the page shows the stored draft as saved leaves it so if and only if it carries the same
      draft, whatever its generation and login epoch. */
  lemma WriteKeepsStored(w: World, normal: Draft -> Draft, e: Event, v: World)
    requires Idempotent(normal) && Step(w, normal, e, v) && Written(w, e).Some?
    requires w.loaded && w.page.edits.dirty == w.page.edits.saved && !Unstored(normal, w)
    ensures v.page == w.page && v.loaded && v.stored == normal(Written(w, e).value)
    ensures !Unstored(normal, v) <==> normal(Written(w, e).value) == w.page.edits.content
  {
    assert normal(normal(Written(w, e).value)) == normal(Written(w, e).value);
  }
}
