/** Exactly when a load that lands leads to the publication of a draft that was never validated: a check is under way that can still
    set the stamp, or saves are queued and a validation need not wait for the last of them before it looks at the draft again. */
module DraftStamps {
  import opened Options
  import opened DraftPage
  import opened DraftProtocol
  import opened DraftSafety
  import opened DraftFlows
  import opened DraftKept
  import opened DraftOvertaken
  import opened DraftUnvalidated

  /** What a load that lands now leaves behind can come between a validation and its publication. */
  ghost predicate Overtakable(w: World) {
    || (exists c :: Stamps(w, c))
    || (w.page.queue != [] && !(w.page.busy.validate.Saving? && w.page.busy.validate.ahead == |w.page.queue|))
  }

  // ----- what a load leaves that is not overtakable --------------------------------------------------------------------------

  ghost predicate UpTo(queue: seq<Save>, dirty: nat) { forall i :: 0 <= i < |queue| ==> queue[i].generation <= dirty }

  /** Writes from before the load may be queued only before the save that a validation in its loop waits for; its last wait covers
      everything that is queued. */
  ghost predicate Covered(normal: Draft -> Draft, p: Page) {
    match p.busy.validate
    case Saving(_, ahead) =>
      && ahead <= |p.queue| && UpTo(p.queue[ahead..], p.edits.dirty)
      && (p.edits.Gap() ==> SavesOk(normal, p.edits, p.queue[ahead..]))
    case Draining(ahead) => ahead == |p.queue| && !p.edits.Gap() && UpTo(p.queue, p.edits.dirty)
    case _ => UpTo(p.queue, p.edits.dirty)
  }

  /** Checks of an edited draft that are under way have been refused. */
  ghost predicate Refused(w: World) {
    forall id :: UnderWay(w, id) && w.net[id].generation > 0 ==>
      w.net[id].kind.Validate? && w.net[id].answer.Some? && !w.net[id].answer.value.ok
  }

  ghost predicate Answers(normal: Draft -> Draft, net: map<nat, Request>, epoch: nat) {
    forall id :: id in net ==>
      && net[id].epoch <= epoch
      && (!net[id].kind.Load? && net[id].answer.Some? ==> net[id].answer.value.config == normal(net[id].body))
  }

  predicate Marked(normal: Draft -> Draft, p: Page, lastOk: Draft) {
    && p.edits.saved <= p.edits.dirty
    && (p.Current() ==> p.edits.dirty == 0)
    && StampOk(normal, p, lastOk)
    && (p.auth.signedIn || p.auth.overlay)
  }

  ghost predicate Spent(normal: Draft -> Draft, w: World) {
    && QueueFine(w.page.queue, w.page.auth.epoch)
    && ServedOk(normal, w.page, w.served)
    && Answers(normal, w.net, w.page.auth.epoch)
    && Marked(normal, w.page, w.lastOk)
    && Covered(normal, w.page)
    && Refused(w)
  }

  lemma LandsSpent(normal: Draft -> Draft, w: World, id: nat)
    requires Kept(normal, w) && Wired(w) && Arrives(w, id) && !Overtakable(w)
    ensures Spent(normal, Delivered(w, id))
  {
    var v := Delivered(w, id);
    assert PageFits(w.page);
    if w.page.queue != [] { assert w.page.queue[|w.page.queue|..] == []; }
    forall c | UnderWay(v, c) && v.net[c].generation > 0
      ensures v.net[c].kind.Validate? && v.net[c].answer.Some? && !v.net[c].answer.value.ok
    {
      assert UnderWay(w, c) && !Stamps(w, c);
    }
    hide Flight;
  }

  /** Without a validation under way nothing of an edited draft is. */
  lemma NoneLeft(w: World)
    requires Wired(w) && Refused(w) && !w.page.busy.validate.Sent?
    ensures forall id :: UnderWay(w, id) ==> w.net[id].generation == 0
  {
    forall id | UnderWay(w, id) ensures w.net[id].generation == 0 {
      if w.net[id].kind.Validate? { assert InFlight(w.net, w.page.auth.epoch, Validate, id); }
    }
  }

  /** Where the guard's invariant holds again. */
  lemma SpentKept(normal: Draft -> Draft, w: World)
    requires Spent(normal, w) && Wired(w) && !w.page.busy.validate.Sent? && SavesOk(normal, w.page.edits, w.page.queue)
    ensures Kept(normal, w)
  {
    NoneLeft(w);
    hide Flight, Covered;
  }

  /** What every step that only moves the page must keep. */
  lemma SpentPage(normal: Draft -> Draft, w: World, v: World)
    requires Spent(normal, w) && v.net == w.net && v.served == w.served && v.lastOk == w.lastOk && v.page.auth.epoch == w.page.auth.epoch
    requires QueueFine(v.page.queue, v.page.auth.epoch) && ServedOk(normal, v.page, v.served)
    requires Marked(normal, v.page, v.lastOk) && Covered(normal, v.page)
    ensures Spent(normal, v)
  {
    hide QueueFine, ServedOk, Marked, Covered;
  }

  // ----- local steps -------------------------------------------------------------------------------------------------------

  lemma UpToMore(queue: seq<Save>, a: nat, b: nat)
    requires UpTo(queue, a) && a <= b
    ensures UpTo(queue, b)
  {
  }

  lemma EditSpent(normal: Draft -> Draft, w: World, edited: Draft, proceed: bool)
    requires Spent(normal, w) && Wired(w) && !w.page.busy.Due()
    ensures var v := Local(w, Edit(w.page, edited, proceed)); Spent(normal, v) || Kept(normal, v)
  {
    if w.page.busy.validate.Draining? {
      NoneLeft(w);
    }
    hide Flight;
  }

  /** A save of the present draft is queued behind. */
  lemma GrowCovered(normal: Draft -> Draft, p: Page, q: Page)
    requires Covered(normal, p) && Queues(p, q) && q.busy.validate == p.busy.validate
    ensures Covered(normal, q)
  {
    if q.queue != p.queue && p.busy.validate.Saving? {
      var n := p.busy.validate.ahead;
      assert q.queue[n..] == p.queue[n..] + [q.queue[|p.queue|]];
    }
  }

  lemma GrowSpent(normal: Draft -> Draft, w: World, q: Page)
    requires Spent(normal, w) && Queues(w.page, q) && Covered(normal, q)
    ensures Spent(normal, Local(w, q))
  {
    GrowServed(normal, w.page, q, w.served);
    hide Covered, ServedOk, SavesOk;
    SpentPage(normal, w, Local(w, q));
  }

  lemma GrowServed(normal: Draft -> Draft, p: Page, q: Page, served: Option<Draft>)
    requires Queues(p, q) && ServedOk(normal, p, served)
    ensures ServedOk(normal, q, served)
  {
  }

  /** The validation begins to wait. */
  lemma NewCovered(normal: Draft -> Draft, p: Page)
    requires p.auth.signedIn && UpTo(p.queue, p.edits.dirty)
    ensures Covered(normal, ClickValidate(p)) && Queues(p, ClickValidate(p))
  {
    FlushQueues(p);
    var q := ClickValidate(p);
    if q.busy.validate.Saving? { assert q.queue[q.busy.validate.ahead..] == []; }
  }

  /** The loop comes around without a gap, and the last wait begins. */
  lemma LastCovered(normal: Draft -> Draft, p: Page)
    requires p.busy.validate.Saving? && !p.edits.Gap() && UpTo(p.queue, p.edits.dirty)
    ensures Covered(normal, ResumeValidate(p)) && Queues(p, ResumeValidate(p))
  {
  }

  lemma SendSpent(normal: Draft -> Draft, w: World, id: nat)
    requires Spent(normal, w) && id !in w.net && w.page.Current()
    ensures Spent(normal, SentCheck(w, id, Publish))
  {
    hide QueueFine, SavesOk;
    var v := SentCheck(w, id, Publish);
    forall c | UnderWay(v, c) && v.net[c].generation > 0 ensures UnderWay(w, c) && c != id {}
  }

  lemma ClickSpent(normal: Draft -> Draft, w: World)
    requires Spent(normal, w) && w.page.busy.validate.Off? && !w.page.auth.overlay
    ensures Spent(normal, Local(w, ClickValidate(w.page)))
  {
    NewCovered(normal, w.page);
    hide ClickValidate, Covered;
    GrowSpent(normal, w, ClickValidate(w.page));
  }

  lemma GoOnSpent(normal: Draft -> Draft, w: World, v: World)
    requires Spent(normal, w) && Wired(w) && PageStep(w, GoOnValidate, v)
    ensures Spent(normal, v) || Kept(normal, v)
  {
    assert w.page.queue[0..] == w.page.queue;
    if w.page.edits.Gap() {
      SpentKept(normal, w);
      PageStepKept(normal, w, GoOnValidate, v);
    } else {
      LastCovered(normal, w.page);
      hide ResumeValidate, Covered;
      GrowSpent(normal, w, ResumeValidate(w.page));
    }
  }

  /** The page queues its draft, if anything, and the validation stays where it is. */
  lemma LocalSpent(normal: Draft -> Draft, w: World, q: Page)
    requires Spent(normal, w) && Queues(w.page, q) && q.busy.validate == w.page.busy.validate
    ensures Spent(normal, Local(w, q))
  {
    SpentCovered(normal, w);
    hide Spent, Covered, Queues;
    GrowCovered(normal, w.page, q);
    GrowSpent(normal, w, q);
  }

  lemma PageStepSpent(normal: Draft -> Draft, w: World, e: Event, v: World)
    requires Spent(normal, w) && Wired(w) && PageStep(w, e, v) && (w.page.busy.Due() ==> Urgent(e))
    ensures Spent(normal, v) || Kept(normal, v)
  {
    FlushQueues(w.page);
    SameValidate(w.page);
    if w.page.edits.Gap() { QueueQueues(w.page); }
    hide Spent, Kept, Wired, Flush, TimerFires, Edit, SentCheck, ClickValidate, ClickPublish, ResumeValidate, ResumePublish, Queues, Queue, Local;
    match e
    case Change(edited, proceed) => EditSpent(normal, w, edited, proceed);
    case Timer => LocalSpent(normal, w, TimerFires(w.page));
    case SaveClick => LocalSpent(normal, w, Flush(w.page));
    case FlushAgain => LocalSpent(normal, w, Queue(w.page, w.page.edits.dirty));
    case ValidateClick => ClickSpent(normal, w);
    case PublishClick => LocalSpent(normal, w, ClickPublish(w.page));
    case GoOnValidate => GoOnSpent(normal, w, v);
    case GoOnPublish => LocalSpent(normal, w, ResumePublish(w.page));
    case SendValidate(id) => DrainedKept(normal, w); SentKept(normal, w, id, Validate);
    case SendPublish(id) => SendSpent(normal, w, id);
    case RefusePublish => RefuseSpent(normal, w);
    case _ =>
  }

  lemma SameValidate(p: Page)
    ensures Flush(p).busy == p.busy && TimerFires(p).busy == p.busy && Queue(p, p.edits.dirty).busy == p.busy
    ensures ClickPublish(p).busy.validate == p.busy.validate
    ensures p.busy.publish.Saving? ==> ResumePublish(p).busy.validate == p.busy.validate
  {
  }

  lemma QueueQueues(p: Page)
    requires p.edits.Gap()
    ensures Queues(p, Queue(p, p.edits.dirty))
  {
  }

  lemma SpentCovered(normal: Draft -> Draft, w: World)
    requires Spent(normal, w)
    ensures Covered(normal, w.page)
  {
  }

  lemma DrainedKept(normal: Draft -> Draft, w: World)
    requires Spent(normal, w) && Wired(w) && w.page.busy.validate == Draining(0)
    ensures Kept(normal, w)
  {
    SpentKept(normal, w);
  }

  lemma RefuseSpent(normal: Draft -> Draft, w: World)
    requires Spent(normal, w)
    ensures Spent(normal, w.(page := w.page.(busy := w.page.busy.(publish := Off))))
  {
    hide QueueFine, SavesOk, UpTo;
  }

  // ----- saves -------------------------------------------------------------------------------------------------------------

  /** The running save goes. */
  lemma TailCovered(normal: Draft -> Draft, p: Page, q: Page)
    requires Covered(normal, p) && p.queue != [] && q.queue == p.queue[1..] && q.edits.dirty == p.edits.dirty && !p.busy.Due()
    requires q.edits == p.edits || !q.edits.Gap()
    requires q.busy.validate == p.busy.validate.Advanced() || q.busy.validate == p.busy.validate.Failing()
    ensures Covered(normal, q)
  {
    if p.busy.validate.Saving? {
      assert p.queue[1..][p.busy.validate.ahead - 1..] == p.queue[p.busy.validate.ahead..];
    }
  }

  lemma AnswerParts(normal: Draft -> Draft, p: Page, config: Draft, lastOk: Draft)
    requires p.queue != [] && p.queue[0].generation > 0 && p.queue[0].epoch == p.auth.epoch && Marked(normal, p, lastOk)
    ensures var q := SaveAnswered(p, config);
      && q.queue == p.queue[1..] && q.auth == p.auth && q.edits.dirty == p.edits.dirty && (q.edits == p.edits || !q.edits.Gap())
      && q.busy.validate == p.busy.validate.Advanced() && Marked(normal, q, lastOk)
  {
  }

  lemma AnswerSpent(normal: Draft -> Draft, w: World)
    requires Spent(normal, w) && w.page.queue != [] && !w.page.busy.Due() && w.served.Some?
    ensures Spent(normal, w.(page := SaveAnswered(w.page, w.served.value), served := None))
  {
    AnswerParts(normal, w.page, w.served.value, w.lastOk);
    QueueTail(normal, w.page.edits, w.page.queue, w.page.auth.epoch);
    hide SaveAnswered, SavesOk, Covered, Marked;
    TailCovered(normal, w.page, SaveAnswered(w.page, w.served.value));
  }

  lemma FailSpent(normal: Draft -> Draft, w: World)
    requires Spent(normal, w) && w.page.queue != [] && !w.page.busy.Due()
    ensures Spent(normal, w.(page := SaveFailed(w.page), served := None))
  {
    QueueTail(normal, w.page.edits, w.page.queue, w.page.auth.epoch);
    TailCovered(normal, w.page, SaveFailed(w.page));
    hide SavesOk, Covered;
  }

  lemma StoreSpent(normal: Draft -> Draft, w: World, v: World)
    requires Spent(normal, w) && SaveStep(w, normal, StoreSave, v)
    ensures Spent(normal, v)
  {
    hide QueueFine, SavesOk, Covered, Marked;
  }

  lemma SaveStepSpent(normal: Draft -> Draft, w: World, e: Event, v: World)
    requires Spent(normal, w) && SaveStep(w, normal, e, v) && !w.page.busy.Due()
    ensures Spent(normal, v)
  {
    hide SaveAnswered, SaveFailed;
    if e.AnswerSave? || e.FailSave? || e.StoreSave? {
      hide Spent;
      match e
      case AnswerSave => AnswerSpent(normal, w);
      case FailSave => FailSpent(normal, w);
      case StoreSave => StoreSpent(normal, w, v);
    } else {
      hide QueueFine, ServedOk, Marked, Covered;
    }
  }

  // ----- requests ----------------------------------------------------------------------------------------------------------

  lemma ServeSpent(normal: Draft -> Draft, w: World, id: nat, answer: Answer, v: World)
    requires Spent(normal, w) && NetStep(w, normal, Serve(id, answer), v)
    ensures Spent(normal, v)
  {
    hide QueueFine, ServedOk, Marked, Covered;
    forall c | UnderWay(v, c) && v.net[c].generation > 0
      ensures v.net[c].kind.Validate? && v.net[c].answer.Some? && !v.net[c].answer.value.ok
    {
      assert UnderWay(w, c) && w.net[c].generation > 0;
    }
  }

  /** A request goes and leaves the draft alone. */
  lemma GoneSpent(normal: Draft -> Draft, w: World, id: nat, v: World)
    requires Spent(normal, w) && v.net == w.net - {id} && v.served == w.served && v.lastOk == w.lastOk
    requires v.page.edits == w.page.edits && v.page.queue == w.page.queue && v.page.auth.epoch == w.page.auth.epoch
    requires v.page.stamp == w.page.stamp && v.page.health == w.page.health && (v.page.auth.signedIn || v.page.auth.overlay)
    requires v.page.busy.validate == w.page.busy.validate || (v.page.busy.validate == Off && w.page.busy.validate.Sent?)
    ensures Spent(normal, v)
  {
    hide QueueFine, SavesOk, UpTo;
    forall c | UnderWay(v, c) ensures UnderWay(w, c) && v.net[c] == w.net[c] {}
  }

  /** What the answer to a check leaves on the page. */
  ghost predicate CheckShown(normal: Draft -> Draft, w: World, id: nat, v: World)
    requires UnderWay(w, id)
  {
    var r := w.net[id];
    && v.net == w.net - {id} && v.served == w.served && v.page.queue == w.page.queue && v.page.auth == w.page.auth
    && v.page.edits.dirty == w.page.edits.dirty && v.page.busy.validate == (if r.kind.Validate? then Off else w.page.busy.validate)
    && (v.page.edits == w.page.edits || r.generation == w.page.edits.dirty)
    && Marked(normal, v.page, v.lastOk)
  }

  lemma ValidateMarked(normal: Draft -> Draft, p: Page, config: Draft, ok: bool, generation: nat, lastOk: Draft)
    requires Marked(normal, p, lastOk) && normal(config) == config && (generation > 0 ==> !ok)
    ensures var q := ValidateAnswered(p, config, ok, generation);
      && q.queue == p.queue && q.auth == p.auth && q.edits.dirty == p.edits.dirty && q.busy.validate == Off
      && (q.edits == p.edits || generation == p.edits.dirty)
      && Marked(normal, q, if generation == p.edits.dirty && ok then config else lastOk)
  {
  }

  lemma PublishMarked(normal: Draft -> Draft, p: Page, config: Draft, lastOk: Draft)
    requires Marked(normal, p, lastOk) && normal(config) == config
    ensures var q := PublishAnswered(p, config, 0);
      && q.queue == p.queue && q.auth == p.auth && q.edits.dirty == p.edits.dirty && q.busy.validate == p.busy.validate
      && (q.edits == p.edits || p.edits.dirty == 0)
      && Marked(normal, q, if p.edits.dirty == 0 then config else lastOk)
  {
  }

  lemma ZeroShown(normal: Draft -> Draft, w: World, id: nat)
    requires Spent(normal, w) && Idempotent(normal) && UnderWay(w, id) && w.net[id].answer.Some?
    ensures CheckShown(normal, w, id, Delivered(w, id))
  {
    var r := w.net[id];
    assert r.answer.value.config == normal(r.body) && normal(normal(r.body)) == normal(r.body);
    assert r.generation > 0 ==> r.kind.Validate? && !r.answer.value.ok;
    if r.kind.Validate? { ValidateMarked(normal, w.page, r.answer.value.config, r.answer.value.ok, r.generation, w.lastOk); }
    PublishMarked(normal, w.page, r.answer.value.config, w.lastOk);
    hide Spent, QueueFine, ServedOk, Answers, Covered, Refused, Idempotent, Marked, ValidateAnswered, PublishAnswered;
  }

  lemma CheckSpent(normal: Draft -> Draft, w: World, id: nat)
    requires Spent(normal, w) && Wired(w) && Idempotent(normal) && UnderWay(w, id) && w.net[id].answer.Some?
    ensures Spent(normal, Delivered(w, id))
  {
    ZeroShown(normal, w, id);
    CheckCovered(normal, w, id, Delivered(w, id));
    hide Delivered, Marked, Covered, SavesOk, QueueFine;
    var v := Delivered(w, id);
    forall c | UnderWay(v, c) ensures UnderWay(w, c) && v.net[c] == w.net[c] {}
  }

  /** A validation that is answered was under way; a publication of the loaded draft finds no gap. */
  lemma CheckCovered(normal: Draft -> Draft, w: World, id: nat, v: World)
    requires Spent(normal, w) && Wired(w) && UnderWay(w, id) && CheckShown(normal, w, id, v)
    ensures Covered(normal, v.page)
  {
    assert InFlight(w.net, w.page.auth.epoch, w.net[id].kind, id);
    assert w.net[id].kind.Validate? ==> w.page.busy.validate.Sent?;
    assert w.net[id].kind.Publish? ==> w.net[id].generation == 0;
    hide Flight, Refused;
  }

  lemma NetStepSpent(normal: Draft -> Draft, w: World, e: Event, v: World)
    requires Spent(normal, w) && Wired(w) && Idempotent(normal) && NetStep(w, normal, e, v) && !Lands(w, e)
    ensures Spent(normal, v)
  {
    SpentOpen(normal, w);
    hide Spent, Idempotent, Delivered, Failed, Wired;
    match e
    case Serve(id, answer) => ServeSpent(normal, w, id, answer, v);
    case Deliver(id) =>
      if w.net[id].epoch != w.page.auth.epoch {
        StaleDelivery(w, id);
        GoneSpent(normal, w, id, v);
      } else {
        CheckSpent(normal, w, id);
      }
    case Fail(id) => FailedRest(w, id); GoneSpent(normal, w, id, v);
    case FailUnsigned(id) => GoneSpent(normal, w, id, v);
    case _ =>
  }

  lemma SpentOpen(normal: Draft -> Draft, w: World)
    requires Spent(normal, w)
    ensures w.page.auth.signedIn || w.page.auth.overlay
  {
  }

  lemma FailedRest(w: World, id: nat)
    requires id in w.net && Wired(w)
    ensures var v := Failed(w, id);
      && v.net == w.net - {id} && v.served == w.served && v.lastOk == w.lastOk
      && v.page.edits == w.page.edits && v.page.queue == w.page.queue && v.page.auth == w.page.auth
      && v.page.stamp == w.page.stamp && v.page.health == w.page.health
      && (v.page.busy.validate == w.page.busy.validate || (v.page.busy.validate == Off && w.page.busy.validate.Sent?))
  {
    if w.net[id].kind.Validate? && w.net[id].epoch == w.page.auth.epoch { assert InFlight(w.net, w.page.auth.epoch, Validate, id); }
    hide Flight;
  }

  // ----- sessions ----------------------------------------------------------------------------------------------------------

  /** A new epoch, with no save or a save of the present draft. */
  lemma EpochSpent(normal: Draft -> Draft, w: World, v: World)
    requires Answers(normal, w.net, w.page.auth.epoch) && v.page.auth.epoch > w.page.auth.epoch && v.served.None?
    requires v.page.queue == [] || (v.page.edits.Gap()
      && v.page.queue == [Save(v.page.edits.dirty, v.page.edits.content, v.page.auth.epoch)])
    requires forall id :: id in v.net ==> (id in w.net && v.net[id] == w.net[id]) || (v.net[id].kind.Load? && v.net[id].epoch == v.page.auth.epoch)
    requires StampOk(normal, v.page, v.lastOk)
    ensures Kept(normal, v)
  {
    hide StampOk;
  }

  lemma SessionStepSpent(normal: Draft -> Draft, w: World, e: Event, v: World)
    requires Spent(normal, w) && SessionStep(w, e, v)
    ensures Spent(normal, v) || Kept(normal, v)
  {
    if e.Login? {
      LoginSpent(normal, w, e, v);
    } else if e.OtherAccount? || e.Logout? {
      SpentParts(normal, w);
      hide Kept, Spent;
      EpochSpent(normal, w, v);
    } else {
      OwnSessionSpent(normal, w, e, v);
    }
  }

  lemma SpentParts(normal: Draft -> Draft, w: World)
    requires Spent(normal, w)
    ensures Answers(normal, w.net, w.page.auth.epoch) && StampOk(normal, w.page, w.lastOk)
  {
  }

  lemma LoginSpent(normal: Draft -> Draft, w: World, e: Event, v: World)
    requires Spent(normal, w) && SessionStep(w, e, v) && e.Login?
    ensures Kept(normal, v)
  {
    SpentParts(normal, w);
    LoginWorld(w, e, v);
    AuthenticatedParts(w.page, e.expired, e.sameUser, e.keep);
    hide Authenticated, Spent, Answers, Kept, SessionStep;
    EpochSpent(normal, w, v);
  }

  lemma OwnSessionSpent(normal: Draft -> Draft, w: World, e: Event, v: World)
    requires Spent(normal, w) && SessionStep(w, e, v) && !e.Login? && !e.OtherAccount? && !e.Logout?
    ensures Spent(normal, v)
  {
    hide Spent;
    SpentOpen(normal, w);
    SameSpent(normal, w, v);
  }

  /** Only the session changes, or a load is sent. */
  lemma SameSpent(normal: Draft -> Draft, w: World, v: World)
    requires Spent(normal, w) && v.served == w.served && v.lastOk == w.lastOk && (v.page.auth.signedIn || v.page.auth.overlay)
    requires v.page == w.page.(auth := v.page.auth) && v.page.auth.epoch == w.page.auth.epoch
    requires forall id :: id in v.net ==> (id in w.net && v.net[id] == w.net[id]) || (v.net[id].kind.Load? && v.net[id].epoch == v.page.auth.epoch)
    ensures Spent(normal, v)
  {
    hide QueueFine, SavesOk, UpTo;
    forall c | UnderWay(v, c) ensures UnderWay(w, c) && v.net[c] == w.net[c] {}
  }

  // ----- whole runs ----------------------------------------------------------------------------------------------------------

  lemma StepSpent(normal: Draft -> Draft, w: World, e: Event, v: World)
    requires Spent(normal, w) && Wired(w) && Idempotent(normal) && Step(w, normal, e, v) && !Lands(w, e)
    ensures Spent(normal, v) || Kept(normal, v)
  {
    hide Spent, Kept, Wired, PageStep, SaveStep, NetStep, SessionStep, Idempotent, Lands;
    if PageStep(w, e, v) { PageStepSpent(normal, w, e, v); }
    if SaveStep(w, normal, e, v) { SavesWait(w, normal, e, v); SaveStepSpent(normal, w, e, v); }
    if NetStep(w, normal, e, v) { NetStepSpent(normal, w, e, v); }
    if SessionStep(w, e, v) { SessionStepSpent(normal, w, e, v); }
  }

  lemma SavesWait(w: World, normal: Draft -> Draft, e: Event, v: World)
    ensures SaveStep(w, normal, e, v) ==> !Urgent(e)
  {
  }

  lemma {:induction false} PathSpent(ws: seq<World>, normal: Draft -> Draft, es: seq<Event>, id: nat, n: nat)
    requires Overtaken(ws, normal, es) && es[0] == Deliver(id) && Kept(normal, ws[0]) && Wired(ws[0]) && Idempotent(normal)
    requires Arrives(ws[0], id) && !Overtakable(ws[0]) && 0 < n < |ws|
    ensures Spent(normal, ws[n]) || Kept(normal, ws[n])
  {
    assert Step(ws[n - 1], normal, es[n - 1], ws[n]);
    hide Spent, Kept, Wired, Idempotent, Overtakable, Lands, Delivered;
    if n == 1 {
      LandsSpent(normal, ws[0], id);
      LandedIs(ws, normal, id);
    } else {
      hide Step;
      PathSpent(ws, normal, es, id, n - 1);
      PathWired(ws, normal, es, n - 1);
      if Spent(normal, ws[n - 1]) {
        StepSpent(normal, ws[n - 1], es[n - 1], ws[n]);
      } else {
        StepKept(normal, ws[n - 1], es[n - 1], ws[n]);
      }
    }
  }

  lemma LandedIs(ws: seq<World>, normal: Draft -> Draft, id: nat)
    requires |ws| > 1 && Arrives(ws[0], id) && Step(ws[0], normal, Deliver(id), ws[1])
    ensures ws[1] == Delivered(ws[0], id)
  {
  }

  /** Every publication carries the draft last answered ok. */
  ghost predicate PublishesOk(ws: seq<World>, es: seq<Event>)
    requires |ws| == |es| + 1
  {
    forall n :: 0 <= n < |es| && es[n].SendPublish? && es[n].id in ws[n + 1].net && ws[n + 1].net[es[n].id].kind.Publish? ==>
      ws[n + 1].net[es[n].id].body == ws[n].lastOk
  }

  lemma SendsOk(normal: Draft -> Draft, w: World, e: Event, v: World)
    requires (Spent(normal, w) || Kept(normal, w)) && Step(w, normal, e, v) && e.SendPublish?
    ensures e.id in v.net && v.net[e.id].body == w.lastOk
  {
    hide QueueFine, SavesOk, ChecksOk, Covered, Answers;
  }

  lemma QuietPublishes(ws: seq<World>, normal: Draft -> Draft, es: seq<Event>, w: World, id: nat)
    requires Continues(ws, normal, es, w, id) && Kept(normal, w) && Wired(w) && Idempotent(normal) && Arrives(w, id) && !Overtakable(w)
    ensures |ws| == |es| + 1 && PublishesOk(ws, es)
  {
    hide Step, Kept, Spent, Wired, Idempotent, Lands, Overtakable, Arrives;
    forall n | 0 <= n < |es| && es[n].SendPublish?
      ensures es[n].id in ws[n + 1].net && ws[n + 1].net[es[n].id].body == ws[n].lastOk
    {
      PathSpent(ws, normal, es, id, n);
      SendsOk(normal, ws[n], es[n], ws[n + 1]);
    }
  }

  lemma BadPublishIs(ws: seq<World>, es: seq<Event>)
    requires |ws| == |es| + 1 && es != [] && BadPublish(ws, es)
    ensures !PublishesOk(ws, es)
  {
  }

  lemma BadRun(normal: Draft -> Draft, w: World, id: nat, j: nat, k: nat, a: Draft, b: Draft)
    returns (ws: seq<World>, es: seq<Event>)
    requires Kept(normal, w) && Wired(w) && Idempotent(normal) && Arrives(w, id) && normal(a) != normal(b) && Overtakable(w)
    requires j !in w.net && k !in w.net && j != k
    ensures Overtaken(ws, normal, es) && ws[0] == w && es[0] == Deliver(id) && |ws| == |es| + 1 && es != [] && BadPublish(ws, es)
  {
    hide Kept, Wired, Idempotent, Overtaken, BadPublish, Arrives;
    if c :| Stamps(w, c) {
      ws, es := PublishedOverCheck(normal, w, id, c, k, a, b);
    } else {
      ws, es := PublishedOverSave(normal, w, id, j, k, a, b);
    }
  }

  /** When a load lands, every continuation without another load publishes only what was last answered ok if and only if no check is
      under way that can still stamp an edited draft, and no save is queued but before the one that a validation in its loop waits
      for. `j` and `k` are unused request numbers. */
  lemma PublishGuardExact(normal: Draft -> Draft, w: World, id: nat, j: nat, k: nat, a: Draft, b: Draft)
    requires Kept(normal, w) && Wired(w) && Idempotent(normal) && Arrives(w, id) && normal(a) != normal(b)
    requires j !in w.net && k !in w.net && j != k
    ensures !Overtakable(w) <==> forall ws, es :: Continues(ws, normal, es, w, id) ==> PublishesOk(ws, es)
  {
    hide Kept, Wired, Idempotent, Overtaken, PublishesOk, BadPublish, Arrives, Overtakable;
    if !Overtakable(w) {
      forall ws, es | Continues(ws, normal, es, w, id) ensures PublishesOk(ws, es) {
        QuietPublishes(ws, normal, es, w, id);
      }
    } else {
      var ws, es := BadRun(normal, w, id, j, k, a, b);
      assert Continues(ws, normal, es, w, id);
      BadPublishIs(ws, es);
    }
  }
}
