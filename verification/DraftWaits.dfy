/** What the wait of `publishDraft` for its saves achieves (design/assets/app.js): unless the session is lost while a check waits, a
    publication finds no write of an earlier edit under way. */
module DraftWaits {
  import opened Options
  import opened DraftPage
  import opened DraftProtocol
  import opened DraftSafety
  import opened DraftFlows
  import opened DraftKept

  predicate IsCheck(net: map<nat, Request>, id: nat) { id in net && !net[id].kind.Load? }

  /** No save is queued and no validation or publication is under way. */
  ghost predicate Idle(w: World) { w.page.queue == [] && forall id :: !IsCheck(w.net, id) }

  /** The checks under way are of this generation. */
  ghost predicate ChecksAt(net: map<nat, Request>, dirty: nat) { forall id :: IsCheck(net, id) ==> net[id].generation == dirty }

  ghost predicate SavesAt(queue: seq<Save>, dirty: nat) { forall i :: 0 <= i < |queue| ==> queue[i].generation == dirty }

  /** The page loses its session only while no check waits for its saves. */
  predicate KeepsSession(w: World, v: World) {
    w.page.auth.signedIn && !v.page.auth.signedIn ==> !Waiting(w.page.busy.validate) && !Waiting(w.page.busy.publish)
  }

  // ----- one flow and its page --------------------------------------------------------------------------------------------

  /** In the loop it waits for a save of its own generation; in the last wait nothing is queued behind without a newer edit, and what is
      before is of an older one. */
  ghost predicate WaitOk(p: Page, flow: Flow) {
    match flow
    case Saving(generation, ahead) =>
      && p.auth.signedIn && ahead <= |p.queue|
      && (if ahead > 0 then p.queue[ahead - 1].generation == generation else generation == p.edits.dirty ==> !p.edits.Gap())
    case Draining(ahead) =>
      && ahead <= |p.queue| && (p.auth.signedIn || p.queue == [])
      && (ahead < |p.queue| ==> p.edits.Gap())
      && (p.edits.Gap() ==> forall i :: 0 <= i < ahead ==> p.queue[i].generation < p.edits.dirty)
    case _ => true
  }

  /** A save behind the first n is of an older generation. */
  ghost predicate Older(p: Page, n: nat) { exists i :: n <= i < |p.queue| && p.queue[i].generation < p.edits.dirty }

  ghost predicate PageWaits(p: Page) {
    && WaitOk(p, p.busy.validate) && WaitOk(p, p.busy.publish)
    && (p.auth.signedIn || p.auth.overlay || p.queue == [])
    && (p.busy.validate.Draining? && p.busy.publish.Draining? ==> p.busy.publish.ahead <= p.busy.validate.ahead)
  }

  /** No check of the present generation is under way. */
  ghost predicate NoneNow(w: World) { forall id :: UnderWay(w, id) ==> w.net[id].generation != w.page.edits.dirty }

  ghost predicate Unstamped(w: World) {
    && (w.page.busy.validate.Draining? && w.page.busy.validate.ahead > 0 && w.page.edits.Gap() ==> !w.page.Current() && NoneNow(w))
    && (w.page.busy.publish.Draining? && Older(w.page, w.page.busy.publish.ahead) ==>
          !w.page.Current() && (w.page.busy.publish.ahead > 0 ==> NoneNow(w)))
  }

  /** While a validation of an older generation is under way there is no stamp, and no publication that could set one. */
  ghost predicate Outdated(w: World) {
    forall id :: UnderWay(w, id) && w.net[id].kind.Validate? && w.net[id].generation < w.page.edits.dirty ==>
      !w.page.Current() && forall k :: UnderWay(w, k) && w.net[k].kind.Publish? ==> w.net[k].generation != w.page.edits.dirty
  }

  ghost predicate Patient(w: World) { PageWaits(w.page) && Unstamped(w) && Outdated(w) }

  /** What is known of generations in guarded runs. */
  ghost predicate Bounded(w: World) {
    && (forall i :: 0 <= i < |w.page.queue| ==>
          w.page.queue[i].generation <= w.page.edits.dirty && w.page.queue[i].epoch == w.page.auth.epoch)
    && (forall id :: UnderWay(w, id) ==> w.net[id].generation <= w.page.edits.dirty)
    && w.page.edits.saved <= w.page.edits.dirty && (w.page.stamp.Some? ==> w.page.stamp.value <= w.page.edits.dirty)
  }

  lemma KeptBounded(normal: Draft -> Draft, w: World)
    requires Kept(normal, w) && w.page.edits.saved <= w.page.edits.dirty
    ensures Bounded(w)
  {
  }

  // ----- local steps -------------------------------------------------------------------------------------------------------

  lemma EditWaits(p: Page, edited: Draft, proceed: bool)
    requires PageWaits(p) && !p.busy.Due()
    requires forall i :: 0 <= i < |p.queue| ==> p.queue[i].generation <= p.edits.dirty
    requires p.edits.saved <= p.edits.dirty
    ensures PageWaits(Edit(p, edited, proceed))
  {
  }

  lemma EditPatient(w: World, edited: Draft, proceed: bool)
    requires Patient(w) && Bounded(w) && !w.page.busy.Due()
    ensures Patient(Local(w, Edit(w.page, edited, proceed)))
  {
    EditWaits(w.page, edited, proceed);
    hide PageWaits;
  }

  /** The queue grows at its end, if at all. */
  lemma GrowWaits(p: Page, q: Page, flow: Flow)
    requires WaitOk(p, flow) && Queues(p, q) && (q.queue != p.queue ==> p.auth.signedIn)
    ensures WaitOk(q, flow)
  {
  }

  lemma GrowOlder(p: Page, q: Page, n: nat)
    requires Queues(p, q)
    ensures Older(q, n) ==> Older(p, n)
  {
    if Older(q, n) {
      var i :| n <= i < |q.queue| && q.queue[i].generation < q.edits.dirty;
      assert i < |p.queue|;
    }
  }

  /** The queue grows and the flows stay. */
  lemma GrowPatient(w: World, q: Page)
    requires Patient(w) && Queues(w.page, q) && (q.queue != w.page.queue ==> w.page.auth.signedIn) && q.busy == w.page.busy
    ensures Patient(Local(w, q))
  {
    GrowWaits(w.page, q, w.page.busy.validate);
    GrowWaits(w.page, q, w.page.busy.publish);
    if w.page.busy.publish.Draining? { GrowOlder(w.page, q, w.page.busy.publish.ahead); }
    hide WaitOk, Older;
  }

  /** Where the page waits after a click or another turn of the loop. */
  lemma NewWait(p: Page)
    requires p.auth.signedIn || p.queue == []
    ensures WaitOk(Flush(p), FirstWait(p)) && Queues(p, Flush(p)) && Flush(p).busy == p.busy
    ensures Flush(p).queue != p.queue ==> p.auth.signedIn
    ensures FirstWait(p).Draining? ==> !p.edits.Gap() || p.queue == []
    ensures FirstWait(p).Draining? ==> Flush(p).queue == p.queue && FirstWait(p).ahead == |p.queue|
  {
  }

  lemma NextWait(p: Page, generation: nat)
    requires p.auth.signedIn && (generation == p.edits.dirty ==> !p.edits.Gap())
    ensures var (q, flow) := Again(p, generation);
      && WaitOk(q, flow) && Queues(p, q) && q.busy == p.busy
      && (flow.Draining? ==> !p.edits.Gap() && q.queue == p.queue && flow.ahead == |p.queue|)
  {
  }

  /** The validation takes a new wait over a page that has grown. */
  lemma ValidateWaits(w: World, q: Page, flow: Flow, v: World)
    requires Patient(w) && Queues(w.page, q) && (q.queue != w.page.queue ==> w.page.auth.signedIn) && q.busy == w.page.busy
    requires WaitOk(q, flow) && !flow.Sent? && (flow.Draining? ==> q.queue == w.page.queue && flow.ahead == |w.page.queue|)
    requires flow.Draining? ==> !w.page.edits.Gap() || w.page.queue == []
    requires v == Local(w, q.(busy := q.busy.(validate := flow)))
    ensures Patient(v)
  {
    GrowPatient(w, q);
    var u := Local(w, q);
    hide WaitOk, Older;
    SameWaits(q, v.page, flow);
    SameWaits(q, v.page, q.busy.publish);
    PublishFits(w.page);
    if q.busy.publish.Draining? { SameOlder(q, v.page, q.busy.publish.ahead); }
  }

  lemma PublishFits(p: Page)
    requires PageWaits(p)
    ensures p.busy.publish.Draining? ==> p.busy.publish.ahead <= |p.queue|
    ensures p.busy.validate.Draining? && !p.edits.Gap() ==> p.busy.validate.ahead == |p.queue|
    ensures p.busy.validate.Draining? && p.queue == [] ==> p.busy.validate.ahead == 0
  {
  }

  lemma SameWaits(p: Page, q: Page, flow: Flow)
    requires q.queue == p.queue && q.edits == p.edits && q.auth.signedIn == p.auth.signedIn
    ensures WaitOk(p, flow) ==> WaitOk(q, flow)
  {
  }

  lemma SameOlder(p: Page, q: Page, n: nat)
    requires q.queue == p.queue && q.edits.dirty == p.edits.dirty
    ensures Older(p, n) <==> Older(q, n)
  {
  }

  lemma PublishWaits(w: World, q: Page, flow: Flow, v: World)
    requires Patient(w) && Queues(w.page, q) && (q.queue != w.page.queue ==> w.page.auth.signedIn) && q.busy == w.page.busy
    requires WaitOk(q, flow) && !flow.Sent? && (flow.Draining? ==> q.queue == w.page.queue && flow.ahead == |w.page.queue|)
    requires flow.Draining? ==> !w.page.edits.Gap() || w.page.queue == []
    requires v == Local(w, q.(busy := q.busy.(publish := flow)))
    ensures Patient(v)
  {
    GrowPatient(w, q);
    var u := Local(w, q);
    PublishFits(w.page);
    NoneBehind(v.page);
    hide WaitOk, Older;
    SameWaits(q, v.page, flow);
    SameWaits(q, v.page, q.busy.validate);
  }

  lemma NoneBehind(p: Page)
    ensures !Older(p, |p.queue|)
  {
  }

  lemma SendPatient(w: World, id: nat, kind: Kind)
    requires Patient(w) && Bounded(w) && id !in w.net && !kind.Load?
    requires if kind.Validate? then w.page.busy.validate == Draining(0) else w.page.busy.publish == Draining(0) && w.page.Current()
    ensures Patient(SentCheck(w, id, kind))
  {
    var v := SentCheck(w, id, kind);
    SameWaits(w.page, v.page, v.page.busy.validate);
    SameWaits(w.page, v.page, v.page.busy.publish);
    if w.page.busy.publish.Draining? { SameOlder(w.page, v.page, w.page.busy.publish.ahead); }
    hide WaitOk, Older;
    forall i | UnderWay(v, i) ensures i == id || UnderWay(w, i) {}
  }

  lemma RefusePatient(w: World)
    requires Patient(w)
    ensures Patient(w.(page := w.page.(busy := w.page.busy.(publish := Off))))
  {
    var v := w.(page := w.page.(busy := w.page.busy.(publish := Off)));
    SameWaits(w.page, v.page, v.page.busy.validate);
    hide WaitOk, Older;
  }

  lemma ClickedAgain(w: World)
    requires PageWaits(w.page)
    ensures w.page.busy.validate.Saving? && w.page.busy.validate.Due() ==>
      w.page.auth.signedIn && (w.page.busy.validate.generation == w.page.edits.dirty ==> !w.page.edits.Gap())
    ensures w.page.busy.publish.Saving? && w.page.busy.publish.Due() ==>
      w.page.auth.signedIn && (w.page.busy.publish.generation == w.page.edits.dirty ==> !w.page.edits.Gap())
    ensures !w.page.auth.overlay ==> w.page.auth.signedIn || w.page.queue == []
  {
  }

  lemma PageStepPatient(w: World, e: Event, v: World)
    requires Patient(w) && Bounded(w) && PageStep(w, e, v) && (w.page.busy.Due() ==> Urgent(e))
    ensures Patient(v)
  {
    ClickedAgain(w);
    FlushGrows(w.page);
    hide Patient, Bounded, Flush, TimerFires, FirstWait, Again, Edit, Queue, WaitOk, SentCheck, Queues;
    match e
    case Change(edited, proceed) => EditPatient(w, edited, proceed);
    case Timer => GrowPatient(w, TimerFires(w.page));
    case SaveClick => GrowPatient(w, Flush(w.page));
    case FlushAgain => GrowPatient(w, Queue(w.page, w.page.edits.dirty));
    case ValidateClick => NewWait(w.page); ValidateWaits(w, Flush(w.page), FirstWait(w.page), v);
    case PublishClick => NewWait(w.page); PublishWaits(w, Flush(w.page), FirstWait(w.page), v);
    case GoOnValidate =>
      var (q, flow) := Again(w.page, w.page.busy.validate.generation);
      NextWait(w.page, w.page.busy.validate.generation);
      AgainFits(w.page, w.page.busy.validate.generation) by { WaitsFit(w.page); }
      ValidateWaits(w, q, flow, v);
    case GoOnPublish =>
      var (q, flow) := Again(w.page, w.page.busy.publish.generation);
      NextWait(w.page, w.page.busy.publish.generation);
      AgainFits(w.page, w.page.busy.publish.generation) by { WaitsFit(w.page); }
      PublishWaits(w, q, flow, v);
    case SendValidate(id) => SendPatient(w, id, Validate);
    case SendPublish(id) => SendPatient(w, id, Publish);
    case RefusePublish => RefusePatient(w);
    case _ =>
  }

  lemma WaitsFit(p: Page)
    requires PageWaits(p)
    ensures PageFits(p)
  {
  }

  lemma FlushGrows(p: Page)
    ensures Queues(p, Flush(p)) && Queues(p, TimerFires(p)) && (p.edits.Gap() ==> Queues(p, Queue(p, p.edits.dirty)))
    ensures Flush(p).busy == p.busy && TimerFires(p).busy == p.busy && Queue(p, p.edits.dirty).busy == p.busy
    ensures Flush(p).queue != p.queue || TimerFires(p).queue != p.queue || Queue(p, p.edits.dirty).queue != p.queue ==> p.auth.signedIn
  {
  }

  // ----- saves -------------------------------------------------------------------------------------------------------------

  /** The running save goes: answered for the present generation it closes the gap. */
  ghost predicate Settles(p: Page, q: Page) {
    && p.queue != [] && q.queue == p.queue[1..] && q.edits.dirty == p.edits.dirty && q.auth == p.auth && q.stamp == p.stamp
    && q.edits.saved == (if p.queue[0].generation == p.edits.dirty then p.edits.dirty else p.edits.saved)
  }

  lemma SettledWait(p: Page, q: Page, flow: Flow)
    requires WaitOk(p, flow) && !flow.Due() && Settles(p, q) && p.edits.saved <= p.edits.dirty
    ensures WaitOk(q, flow.Advanced())
  {
  }

  lemma FailedWait(p: Page, q: Page, flow: Flow)
    requires WaitOk(p, flow) && !flow.Due() && p.queue != [] && q.queue == p.queue[1..] && q.edits == p.edits && q.auth == p.auth
    ensures WaitOk(q, flow.Failing())
  {
  }

  lemma OlderTail(p: Page, q: Page, n: nat)
    requires p.queue != [] && q.queue == p.queue[1..] && q.edits.dirty == p.edits.dirty && n > 0
    ensures Older(q, n - 1) ==> Older(p, n)
  {
    if Older(q, n - 1) {
      var i :| n - 1 <= i < |q.queue| && q.queue[i].generation < q.edits.dirty;
      assert p.queue[i + 1] == q.queue[i];
    }
  }

  lemma AnsweredSettles(p: Page, config: Draft)
    requires p.queue != [] && p.queue[0].epoch == p.auth.epoch
    ensures var q := SaveAnswered(p, config);
      Settles(p, q) && q.busy.validate == p.busy.validate.Advanced() && q.busy.publish == p.busy.publish.Advanced()
  {
  }

  lemma AnswerPatient(w: World, config: Draft)
    requires Patient(w) && Bounded(w) && w.page.queue != [] && !w.page.busy.Due()
    ensures Patient(w.(page := SaveAnswered(w.page, config), served := None))
  {
    var p, v := w.page, w.(page := SaveAnswered(w.page, config), served := None);
    AnsweredSettles(p, config);
    SettledWait(p, v.page, p.busy.validate);
    SettledWait(p, v.page, p.busy.publish);
    if p.busy.publish.Draining? { OlderTail(p, v.page, p.busy.publish.ahead); }
    hide WaitOk, Older, SaveAnswered;
  }

  lemma FailPatient(w: World)
    requires Patient(w) && w.page.queue != [] && !w.page.busy.Due()
    ensures Patient(w.(page := SaveFailed(w.page), served := None))
  {
    var p, v := w.page, w.(page := SaveFailed(w.page), served := None);
    FailedWait(p, v.page, p.busy.validate);
    FailedWait(p, v.page, p.busy.publish);
    if p.busy.publish.Draining? { OlderTail(p, v.page, p.busy.publish.ahead); }
    FailedParts(p);
    hide WaitOk, Older, SaveFailed;
  }

  lemma FailedParts(p: Page)
    requires p.queue != []
    ensures var q := SaveFailed(p);
      && q.queue == p.queue[1..] && q.edits == p.edits && q.auth == p.auth && q.stamp == p.stamp
      && q.busy.validate == p.busy.validate.Failing() && q.busy.publish == p.busy.publish.Failing()
  {
  }

  /** Nothing that the waits see has changed. */
  lemma SamePatient(w: World, v: World)
    requires Patient(w) && v.page == w.page
    requires forall id :: UnderWay(v, id) ==> UnderWay(w, id) && v.net[id].kind == w.net[id].kind && v.net[id].generation == w.net[id].generation
    ensures Patient(v)
  {
    hide PageWaits, Older;
  }

  lemma SaveStepPatient(w: World, normal: Draft -> Draft, e: Event, v: World)
    requires Patient(w) && Bounded(w) && SaveStep(w, normal, e, v) && !w.page.busy.Due()
    ensures Patient(v)
  {
    hide Patient, Bounded, SaveAnswered, SaveFailed;
    match e
    case AnswerSave => AnswerPatient(w, w.served.value);
    case FailSave => FailPatient(w);
    case _ => SamePatient(w, v);
  }

  // ----- requests ----------------------------------------------------------------------------------------------------------

  /** An answered check: one flow is at rest, and the generation may be saved or stamped. */
  ghost predicate CheckDone(w: World, id: nat, v: World) {
    && UnderWay(w, id) && v.net == w.net - {id}
    && v.page.queue == w.page.queue && v.page.auth == w.page.auth && v.page.edits.dirty == w.page.edits.dirty
    && (w.net[id].kind.Validate? ==> v.page.busy == w.page.busy.(validate := Off) && v.page.edits.saved == w.page.edits.saved)
    && (w.net[id].kind.Publish? ==> v.page.busy == w.page.busy.(publish := Off))
    && (v.page.edits.Gap() ==> w.page.edits.Gap())
    && (w.net[id].generation != w.page.edits.dirty ==>
          v.page.edits.saved == w.page.edits.saved && (v.page.stamp == w.page.stamp || v.page.stamp == None))
  }

  lemma DeliveredDone(w: World, id: nat)
    requires UnderWay(w, id) && w.net[id].answer.Some?
    ensures CheckDone(w, id, Delivered(w, id))
  {
  }

  lemma ClosedWait(p: Page, q: Page, flow: Flow)
    requires WaitOk(p, flow) && q.queue == p.queue && q.auth == p.auth && q.edits.dirty == p.edits.dirty
    requires q.edits.Gap() ==> p.edits.Gap()
    requires p.edits.Gap() && !q.edits.Gap() ==> flow.Draining? ==> flow.ahead == |p.queue|
    ensures WaitOk(q, flow)
  {
  }

  /** A queued save behind a waiting validation is of an edit that it has not seen. */
  lemma ValidateOpen(w: World)
    requires Patient(w) && !w.page.busy.Due()
    ensures w.page.busy.validate.Draining? && w.page.edits.Gap() ==> NoneNow(w)
  {
    hide WaitOk;
  }

  lemma CheckPatient(w: World, id: nat, v: World)
    requires Patient(w) && Bounded(w) && Wired(w) && !w.page.busy.Due() && CheckDone(w, id, v)
    ensures Patient(v)
  {
    ValidateOpen(w);
    OneFlight(w, id);
    ClosedPage(w, id, v);
    hide WaitOk, PageWaits, Wired, Bounded;
    if v.page.busy.publish.Draining? { SameOlder(w.page, v.page, v.page.busy.publish.ahead); }
    hide Older;
    forall i | UnderWay(v, i) ensures UnderWay(w, i) && i != id {}
  }

  lemma OneFlight(w: World, id: nat)
    requires Wired(w) && UnderWay(w, id)
    ensures w.net[id].kind.Validate? ==> w.page.busy.validate.Sent? && forall i :: UnderWay(w, i) && w.net[i].kind.Validate? ==> i == id
    ensures w.net[id].kind.Publish? ==> w.page.busy.publish.Sent? && forall i :: UnderWay(w, i) && w.net[i].kind.Publish? ==> i == id
  {
    assert InFlight(w.net, w.page.auth.epoch, w.net[id].kind, id);
    forall i | UnderWay(w, i) && w.net[i].kind == w.net[id].kind ensures i == id {
      assert InFlight(w.net, w.page.auth.epoch, w.net[id].kind, i);
    }
  }

  lemma ClosedPage(w: World, id: nat, v: World)
    requires Patient(w) && Bounded(w) && Wired(w) && !w.page.busy.Due() && CheckDone(w, id, v)
    ensures PageWaits(v.page)
  {
    ValidateOpen(w);
    OneFlight(w, id);
    hide WaitOk, Wired, Older;
    ClosedWait(w.page, v.page, v.page.busy.validate);
    ClosedWait(w.page, v.page, v.page.busy.publish);
  }

  /** A request goes without an answer; a flow of its kind is at rest. */
  lemma GonePatient(w: World, id: nat, v: World)
    requires Patient(w) && id in w.net && v.net == w.net - {id}
    requires v.page.queue == w.page.queue && v.page.edits == w.page.edits && v.page.stamp == w.page.stamp && v.page.auth.epoch == w.page.auth.epoch
    requires v.page.auth.signedIn == w.page.auth.signedIn && (w.page.auth.overlay ==> v.page.auth.overlay)
    requires v.page.busy.validate == Off || v.page.busy.validate == w.page.busy.validate
    requires v.page.busy.publish == Off || v.page.busy.publish == w.page.busy.publish
    ensures Patient(v)
  {
    SameWaits(w.page, v.page, w.page.busy.validate);
    SameWaits(w.page, v.page, w.page.busy.publish);
    if v.page.busy.publish.Draining? { SameOlder(w.page, v.page, v.page.busy.publish.ahead); }
    hide WaitOk, Older;
    forall i | UnderWay(v, i) ensures UnderWay(w, i) {}
  }

  /** Neither flow waits. */
  lemma RestPatient(v: World)
    requires !Waiting(v.page.busy.validate) && !Waiting(v.page.busy.publish) && Outdated(v)
    requires v.page.auth.signedIn || v.page.auth.overlay || v.page.queue == []
    ensures Patient(v)
  {
  }

  lemma LandPatient(w: World, id: nat)
    requires Patient(w) && Wired(w) && !w.page.busy.Due() && Lands(w, Deliver(id)) && w.net[id].answer.Some? && Idle(w)
    ensures Patient(Delivered(w, id))
  {
    var v := Delivered(w, id);
    forall i ensures !UnderWay(v, i) { assert !IsCheck(w.net, i); }
    hide Flight;
    RestPatient(v);
  }

  /** The session ends while no flow waits. */
  lemma ExpirePatient(w: World, v: World)
    requires Patient(w) && KeepsSession(w, v) && !w.page.busy.Due() && v.page == Expire(w.page)
    requires forall i :: UnderWay(v, i) ==> UnderWay(w, i) && v.net[i] == w.net[i]
    ensures Patient(v)
  {
    if !w.page.auth.signedIn { UnsignedRests(w.page); }
    hide PageWaits;
    SameOutdated(w, v);
    RestPatient(v);
  }

  lemma UnsignedRests(p: Page)
    requires PageWaits(p) && !p.busy.Due() && !p.auth.signedIn
    ensures !Waiting(p.busy.validate) && !Waiting(p.busy.publish)
  {
  }

  lemma SameOutdated(w: World, v: World)
    requires Outdated(w) && v.page.edits.dirty == w.page.edits.dirty && v.page.stamp == w.page.stamp
    requires forall i :: UnderWay(v, i) ==> UnderWay(w, i) && v.net[i] == w.net[i]
    ensures Outdated(v)
  {
  }

  lemma NetStepPatient(w: World, normal: Draft -> Draft, e: Event, v: World)
    requires Patient(w) && Bounded(w) && Wired(w) && NetStep(w, normal, e, v) && !w.page.busy.Due()
    requires KeepsSession(w, v) && (Lands(w, e) ==> Idle(w))
    ensures Patient(v)
  {
    hide Patient, Bounded, Wired, Delivered, Failed, Idle;
    match e
    case Serve(id, answer) => SamePatient(w, v);
    case Deliver(id) =>
      if w.net[id].epoch != w.page.auth.epoch {
        StaleDelivery(w, id);
        GonePatient(w, id, v);
      } else if w.net[id].kind.Load? {
        LandPatient(w, id);
      } else {
        DeliveredDone(w, id);
        CheckPatient(w, id, v);
      }
    case Fail(id) => FailedGone(w, id); GonePatient(w, id, v);
    case FailUnsigned(id) =>
      if w.net[id].epoch == w.page.auth.epoch { ExpirePatient(w, v); } else { GonePatient(w, id, v); }
    case _ =>
  }

  lemma FailedGone(w: World, id: nat)
    requires id in w.net
    ensures var v := Failed(w, id);
      && v.net == w.net - {id} && v.page.queue == w.page.queue && v.page.edits == w.page.edits && v.page.stamp == w.page.stamp
      && v.page.auth == w.page.auth
      && (v.page.busy.validate == Off || v.page.busy.validate == w.page.busy.validate)
      && (v.page.busy.publish == Off || v.page.busy.publish == w.page.busy.publish)
  {
  }

  // ----- sessions ----------------------------------------------------------------------------------------------------------

  /** In a new epoch nothing waits and no check is under way. */
  lemma EpochPatient(w: World, v: World)
    requires Dated(w.net, w.page.auth.epoch) && v.page.auth.epoch > w.page.auth.epoch && v.page.busy == NOT_BUSY
    requires v.page.auth.signedIn || v.page.auth.overlay
    requires forall i :: i in v.net ==> v.net[i].kind.Load? || (i in w.net && v.net[i] == w.net[i])
    ensures Patient(v)
  {
    forall i ensures !UnderWay(v, i) {}
    RestPatient(v);
  }

  /** The session comes back. */
  lemma RenewPatient(w: World, v: World)
    requires Patient(w) && !w.page.busy.Due() && v.page == Renew(w.page)
    requires forall i :: UnderWay(v, i) ==> UnderWay(w, i) && v.net[i] == w.net[i]
    ensures Patient(v)
  {
    if w.page.auth.signedIn {
      assert v.page == w.page;
      SamePatient(w, v);
    } else {
      UnsignedRests(w.page);
      hide PageWaits;
      SameOutdated(w, v);
      RestPatient(v);
    }
  }

  lemma SessionStepPatient(w: World, e: Event, v: World)
    requires Patient(w) && Wired(w) && SessionStep(w, e, v) && !w.page.busy.Due() && KeepsSession(w, v)
    ensures Patient(v)
  {
    hide Patient, Authenticated, Flight;
    match e
    case Session(signed, id) => if signed { RenewPatient(w, v); } else { ExpirePatient(w, v); }
    case SessionLost(_) => ExpirePatient(w, v);
    case SessionBack(_) => RenewPatient(w, v);
    case OtherAccount(_, _, _) => EpochPatient(w, v);
    case Login(expired, sameUser, keep, _, _) =>
      AuthenticatedRest(w.page, expired, sameUser, keep);
      SignedInAfter(w.page, expired, sameUser, keep);
      EpochPatient(w, v);
    case Logout => EpochPatient(w, v);
    case _ =>
  }

  lemma StepPatient(w: World, normal: Draft -> Draft, e: Event, v: World)
    requires Patient(w) && Bounded(w) && Wired(w) && Step(w, normal, e, v)
    requires KeepsSession(w, v) && (Lands(w, e) ==> Idle(w))
    ensures Patient(v)
  {
    hide Patient, Bounded, Wired, PageStep, SaveStep, NetStep, SessionStep, KeepsSession, Lands, Idle;
    if PageStep(w, e, v) { PageStepPatient(w, e, v); }
    if SaveStep(w, normal, e, v) { NotUrgent(w, normal, e, v); SaveStepPatient(w, normal, e, v); }
    if NetStep(w, normal, e, v) { NotUrgent(w, normal, e, v); NetStepPatient(w, normal, e, v); }
    if SessionStep(w, e, v) { NotUrgent(w, normal, e, v); SessionStepPatient(w, e, v); }
  }

  lemma NotUrgent(w: World, normal: Draft -> Draft, e: Event, v: World)
    ensures SaveStep(w, normal, e, v) || NetStep(w, normal, e, v) || SessionStep(w, e, v) ==> !Urgent(e)
  {
  }

  /** A publication that goes out is of the same generation as every save that is queued and every check that is under way. */
  lemma PublishesLevel(w: World, id: nat, v: World)
    requires Patient(w) && Bounded(w) && Wired(w) && PageStep(w, SendPublish(id), v)
    ensures SavesAt(w.page.queue, w.page.edits.dirty)
    ensures forall i :: UnderWay(w, i) ==> w.net[i].generation == w.page.edits.dirty
  {
    hide WaitOk;
    forall i | 0 <= i < |w.page.queue| ensures w.page.queue[i].generation == w.page.edits.dirty {
      assert !Older(w.page, 0);
    }
    forall i | UnderWay(w, i) ensures w.net[i].generation == w.page.edits.dirty {
      OneFlight(w, i);
    }
  }

  /** A guarded run whose loads land only on a page at rest, and in which the session is not lost while a check waits. */
  ghost predicate WaitedRun(ws: seq<World>, normal: Draft -> Draft, es: seq<Event>) {
    GuardedRun(ws, normal, es) && forall i :: 0 <= i < |es| ==> KeepsSession(ws[i], ws[i + 1]) && (Lands(ws[i], es[i]) ==> Idle(ws[i]))
  }

  lemma RunBounded(ws: seq<World>, normal: Draft -> Draft, es: seq<Event>, n: nat)
    requires WaitedRun(ws, normal, es) && n < |ws|
    ensures Bounded(ws[n]) && Wired(ws[n])
  {
    hide Step, KeepsSession, Lands, Idle, Kept, Bounded, Wired, Guarded;
    RunKept(ws, normal, es, n);
    RunFine(ws, normal, es, n);
    RunWired(ws, normal, es, n);
    KeptBounded(normal, ws[n]);
  }

  lemma {:induction false} RunPatient(ws: seq<World>, normal: Draft -> Draft, es: seq<Event>, n: nat)
    requires WaitedRun(ws, normal, es) && n < |ws|
    ensures Patient(ws[n])
  {
    hide Step, KeepsSession, Lands, Idle, Bounded, Wired, Guarded, Idempotent;
    if n > 0 {
      hide Patient, Opened;
      RunPatient(ws, normal, es, n - 1);
      RunBounded(ws, normal, es, n - 1);
      assert Step(ws[n - 1], normal, es[n - 1], ws[n]) && KeepsSession(ws[n - 1], ws[n]);
      StepPatient(ws[n - 1], normal, es[n - 1], ws[n]);
    }
  }

  /** In every such run a publication goes out only when every queued save and every check under way is of its own generation. */
  lemma PublishesAlone(ws: seq<World>, normal: Draft -> Draft, es: seq<Event>, n: nat, id: nat)
    requires WaitedRun(ws, normal, es) && n < |es| && es[n] == SendPublish(id)
    ensures SavesAt(ws[n].page.queue, ws[n].page.edits.dirty)
    ensures forall i :: UnderWay(ws[n], i) ==> ws[n].net[i].generation == ws[n].page.edits.dirty
  {
    hide KeepsSession, Lands, Idle, Bounded, Wired, Patient, Guarded, Opened, Idempotent, SaveStep, NetStep, SessionStep;
    RunPatient(ws, normal, es, n);
    RunBounded(ws, normal, es, n);
    assert Step(ws[n], normal, es[n], ws[n + 1]);
    OnlyPage(ws[n], normal, id, ws[n + 1]);
    PublishesLevel(ws[n], id, ws[n + 1]);
  }

  lemma OnlyPage(w: World, normal: Draft -> Draft, id: nat, v: World)
    requires Step(w, normal, SendPublish(id), v)
    ensures PageStep(w, SendPublish(id), v)
  {
  }
}
