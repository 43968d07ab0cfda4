/** Field by field, which events of the page change it and to what (design/assets/app.js): the handlers of DraftPage, read the other
    way round. */
module DraftFields {
  import opened Options
  import opened DraftPage
  import opened DraftProtocol
  import opened DraftSafety

  // ----- when an event takes effect ------------------------------------------------------------------------------------------

  /** The edit counts: the draft is not corrupted, or the user has agreed to overwrite it. */
  predicate Counts(p: Page, proceed: bool) { p.health != Broken(false) || proceed }

  /** The running save carries the present generation and was issued in the present epoch. */
  predicate SaveLands(p: Page) { p.queue != [] && p.queue[0].epoch == p.auth.epoch && p.queue[0].generation == p.edits.dirty }

  /** An answered request of the present epoch. */
  predicate Comes(w: World, id: nat, kind: Kind) {
    id in w.net && w.net[id].answer.Some? && w.net[id].epoch == w.page.auth.epoch && w.net[id].kind == kind
  }

  /** ... that carries the present generation. */
  predicate Lands(w: World, id: nat, kind: Kind) { Comes(w, id, kind) && w.net[id].generation == w.page.edits.dirty }

  function ConfigOf(w: World, id: nat): Draft { if id in w.net && w.net[id].answer.Some? then w.net[id].answer.value.config else EMPTY }

  /** Everything of the old account goes: its draft, its generations, its stamp, its timer and its queue. */
  predicate Forgets(e: Event) { e.OtherAccount? || e.Logout? || (e.Login? && e.expired && !e.sameUser) }

  /** After an expired session the same user keeps edits that are not saved. */
  predicate Keeps(p: Page, e: Event) {
    e.Login? && e.expired && e.sameUser && e.keep && (p.timer || p.edits.dirty > p.edits.saved)
  }

  // ----- what becomes of each field --------------------------------------------------------------------------------------------

  /** The draft, the server's copy and the two generations. */
  function EditsAfter(w: World, e: Event): Edits {
    var edits := w.page.edits;
    match e
    case Change(edited, proceed) =>
      if Counts(w.page, proceed) then Edits(edited, edits.base, edits.dirty + 1, edits.saved) else edits.(content := edits.base)
    case AnswerSave =>
      if SaveLands(w.page) && w.served.Some? then Edits(w.served.value, w.served.value, edits.dirty, edits.dirty) else edits
    case Deliver(id) =>
      if Comes(w, id, Load) then Edits(ConfigOf(w, id), ConfigOf(w, id), 0, 0)
      else if Lands(w, id, Validate) then edits.(content := ConfigOf(w, id))
      else if Lands(w, id, Publish) then Edits(ConfigOf(w, id), ConfigOf(w, id), edits.dirty, edits.dirty)
      else edits
    case _ => if Forgets(e) then Edits("", "", 0, 0) else edits
  }

  /** The stamp is set by answers of the present generation and goes with the next edit, load, failed check or overtaken check. */
  function StampAfter(w: World, e: Event): Option<nat> {
    match e
    case Change(_, proceed) => if Counts(w.page, proceed) then None else w.page.stamp
    case Deliver(id) =>
      if Comes(w, id, Load) then None
      else if Lands(w, id, Validate) && w.net[id].answer.value.ok then Some(w.page.edits.dirty)
      else if Comes(w, id, Validate) then None
      else if Lands(w, id, Publish) then Some(w.page.edits.dirty)
      else w.page.stamp
    case _ => if Forgets(e) then None else w.page.stamp
  }

  /** A save that failed is shown only for the present generation, and until the next edit, answer or load. */
  predicate ErrorAfter(w: World, e: Event) {
    match e
    case FailSave => w.page.error || SaveLands(w.page)
    case Fail(id) => w.page.error || (id in w.net && w.net[id].kind.Load? && w.net[id].epoch == w.page.auth.epoch)
    case Change(_, proceed) => w.page.error && !Counts(w.page, proceed)
    case AnswerSave => w.page.error && !SaveLands(w.page)
    case Deliver(id) => w.page.error && !Comes(w, id, Load) && !Lands(w, id, Publish)
    case _ => w.page.error && !Forgets(e) && !Keeps(w.page, e)
  }

  /** A corrupted draft stays so until an answer lands; the user's agreement is remembered across loads. */
  function HealthAfter(w: World, e: Event): Health {
    match e
    case Change(_, proceed) => if proceed && w.page.health == Broken(false) then Broken(true) else w.page.health
    case AnswerSave => if SaveLands(w.page) then Intact else w.page.health
    case Deliver(id) =>
      if Lands(w, id, Validate) || Lands(w, id, Publish) then Intact
      else if Comes(w, id, Load) then
        if !w.net[id].answer.value.corrupted then Intact else if w.page.health.Intact? then Broken(false) else w.page.health
      else w.page.health
    case _ => if Forgets(e) then Intact else w.page.health
  }

  predicate TimerAfter(w: World, e: Event) {
    match e
    case Change(_, proceed) => w.page.timer || Counts(w.page, proceed)
    case Deliver(id) => w.page.timer || (Comes(w, id, Publish) && !Lands(w, id, Publish))
    case _ => w.page.timer && !e.Timer? && !e.SaveClick? && !e.ValidateClick? && !e.PublishClick? && !Forgets(e) && !Keeps(w.page, e)
  }

  /** A save of the present draft for the present generation, if there are edits of a signed-in user to save. */
  function Due(p: Page): seq<Save> {
    if p.auth.signedIn && p.edits.dirty > p.edits.saved then [Save(p.edits.dirty, p.edits.content, p.auth.epoch)] else []
  }

  /** A flow goes around again when the save it waited for is no longer the present one. */
  predicate GoesAround(p: Page, flow: Flow) { flow.Saving? && flow.generation != p.edits.dirty }

  /** Edits are queued when the timer fires or a click asks for it, again as long as they go on while a click waits, and after a login
      that keeps them; every answer or failure takes the running save off. */
  function QueueAfter(w: World, e: Event): seq<Save> {
    var p := w.page;
    match e
    case Timer => p.queue + Due(p)
    case SaveClick => p.queue + Due(p)
    case FlushAgain => p.queue + Due(p)
    case ValidateClick => p.queue + Due(p)
    case PublishClick => p.queue + Due(p)
    case GoOnValidate => if GoesAround(p, p.busy.validate) then p.queue + Due(p) else p.queue
    case GoOnPublish => if GoesAround(p, p.busy.publish) then p.queue + Due(p) else p.queue
    case AnswerSave => if p.queue != [] then p.queue[1..] else []
    case FailSave => if p.queue != [] then p.queue[1..] else []
    case OtherAccount(_, _, _) => []
    case Logout => []
    case Login(_, _, _, _, _) =>
      if Keeps(p, e) && p.edits.dirty > p.edits.saved then [Save(p.edits.dirty, p.edits.content, p.auth.epoch + 1)] else []
    case _ => p.queue
  }

  /** A login, a logout and another account's session open a new epoch. */
  function AuthAfter(w: World, e: Event): Auth {
    var a := w.page.auth;
    match e
    case Deliver(id) => if Comes(w, id, Load) then Auth(true, false, a.epoch) else a
    case FailUnsigned(id) => if id in w.net && w.net[id].epoch == a.epoch then Auth(false, true, a.epoch) else a
    case Session(signed, _) => if signed then a.(signedIn := true) else Auth(false, true, a.epoch)
    case SessionLost(_) => Auth(false, true, a.epoch)
    case SessionBack(_) => a.(signedIn := true)
    case OtherAccount(_, _, _) => Auth(true, a.overlay, a.epoch + 1)
    case Logout => Auth(false, true, a.epoch + 1)
    case Login(_, _, _, _, _) => Auth(true, false, a.epoch + if Forgets(e) then 2 else 1)
    case _ => a
  }

  /** Whether the last save of the page's own that was settled has failed. */
  predicate RejectedAfter(w: World, e: Event) {
    match e
    case FailSave => true
    case AnswerSave => false
    case _ => w.page.busy.rejected && !Forgets(e) && !e.Login?
  }

  ghost predicate Fields(w: World, e: Event, p: Page) {
    && p.edits == EditsAfter(w, e) && p.stamp == StampAfter(w, e) && p.error == ErrorAfter(w, e) && p.health == HealthAfter(w, e)
    && p.timer == TimerAfter(w, e) && p.queue == QueueAfter(w, e) && p.auth == AuthAfter(w, e)
    && p.busy.rejected == RejectedAfter(w, e)
  }

  // ----- event by event ----------------------------------------------------------------------------------------------------------

  lemma QueueIs(p: Page)
    requires p.edits.Gap()
    ensures Queue(p, p.edits.dirty) == p.(queue := p.queue + Due(p))
  {
  }

  /** What the timer and a flush leave. */
  lemma FlushIs(p: Page)
    ensures TimerFires(p) == p.(timer := false, queue := p.queue + Due(p))
    ensures Flush(p) == p.(timer := false, queue := p.queue + Due(p))
  {
    var q := p.(timer := false);
    if q.edits.Gap() { QueueIs(q); }
  }

  lemma ChangeFields(w: World, edited: Draft, proceed: bool)
    ensures Fields(w, Change(edited, proceed), Edit(w.page, edited, proceed))
  {
  }

  /** The timer and the clicks. */
  lemma ClickFields(w: World, e: Event, p: Page)
    requires e.Timer? || e.SaveClick? || e.ValidateClick? || e.PublishClick?
    requires p == w.page.(timer := false, queue := w.page.queue + Due(w.page), busy := p.busy) && p.busy.rejected == w.page.busy.rejected
    ensures Fields(w, e, p)
  {
    hide Due;
  }

  lemma AgainFields(w: World, e: Event, p: Page)
    requires match e
      case FlushAgain => true
      case GoOnValidate => GoesAround(w.page, w.page.busy.validate)
      case GoOnPublish => GoesAround(w.page, w.page.busy.publish)
      case _ => false
    requires p == w.page.(queue := w.page.queue + Due(w.page), busy := p.busy) && p.busy.rejected == w.page.busy.rejected
    ensures Fields(w, e, p)
  {
    hide Due;
  }

  /** Events that leave all but the two flows alone. */
  lemma StillFields(w: World, e: Event, p: Page)
    requires match e
      case GoOnValidate => !GoesAround(w.page, w.page.busy.validate)
      case GoOnPublish => !GoesAround(w.page, w.page.busy.publish)
      case SendValidate(_) => true
      case SendPublish(_) => true
      case RefusePublish => true
      case StoreSave => true
      case StoreStray(_) => true
      case EndStray(_) => true
      case Serve(_, _) => true
      case _ => false
    requires p == w.page.(busy := p.busy) && p.busy.rejected == w.page.busy.rejected
    ensures Fields(w, e, p)
  {
  }

  lemma AgainIs(p: Page, generation: nat)
    ensures Again(p, generation).0 == if generation != p.edits.dirty then p.(queue := p.queue + Due(p)) else p
  {
    if p.edits.Gap() { QueueIs(p); }
    assert p.queue + [] == p.queue;
  }

  lemma PageFields(w: World, e: Event, v: World)
    requires PageStep(w, e, v)
    ensures Fields(w, e, v.page)
  {
    hide Fields, Due, Edit, Flush, TimerFires, Queue, Again, FirstWait;
    match e
    case Change(edited, proceed) => ChangeFields(w, edited, proceed);
    case Timer => FlushIs(w.page); ClickFields(w, e, v.page);
    case SaveClick => FlushIs(w.page); ClickFields(w, e, v.page);
    case ValidateClick => FlushIs(w.page); ClickFields(w, e, v.page);
    case PublishClick => FlushIs(w.page); ClickFields(w, e, v.page);
    case FlushAgain => QueueIs(w.page); AgainFields(w, e, v.page);
    case GoOnValidate => GoOnFields(w, e, v, w.page.busy.validate);
    case GoOnPublish => GoOnFields(w, e, v, w.page.busy.publish);
    case _ => StillFields(w, e, v.page);
  }

  lemma GoOnFields(w: World, e: Event, v: World, flow: Flow)
    requires PageStep(w, e, v) && ((e.GoOnValidate? && flow == w.page.busy.validate) || (e.GoOnPublish? && flow == w.page.busy.publish))
    ensures Fields(w, e, v.page)
  {
    hide Fields, Due, Again;
    AgainIs(w.page, flow.generation);
    if flow.generation != w.page.edits.dirty { AgainFields(w, e, v.page); } else { StillFields(w, e, v.page); }
  }

  // ----- answers and failures ------------------------------------------------------------------------------------------------------

  lemma AnswerFields(w: World)
    requires w.page.queue != [] && w.served.Some?
    ensures Fields(w, AnswerSave, SaveAnswered(w.page, w.served.value))
  {
  }

  lemma FailSaveFields(w: World)
    requires w.page.queue != []
    ensures Fields(w, FailSave, SaveFailed(w.page))
  {
  }

  lemma SaveFields(w: World, normal: Draft -> Draft, e: Event, v: World)
    requires SaveStep(w, normal, e, v)
    ensures Fields(w, e, v.page)
  {
    hide Fields, SaveAnswered, SaveFailed;
    match e
    case AnswerSave => AnswerFields(w);
    case FailSave => FailSaveFields(w);
    case _ => StillFields(w, e, v.page);
  }

  lemma LoadFields(w: World, id: nat, a: Answer)
    requires Comes(w, id, Load) && w.net[id].answer.value == a
    ensures Fields(w, Deliver(id), SignIn(ApplyBootstrap(w.page, a.config, a.corrupted)))
  {
  }

  lemma ValidateFields(w: World, id: nat, a: Answer)
    requires Comes(w, id, Validate) && w.net[id].answer.value == a
    ensures Fields(w, Deliver(id), ValidateAnswered(w.page, a.config, a.ok, w.net[id].generation))
  {
  }

  lemma PublishFields(w: World, id: nat, a: Answer)
    requires Comes(w, id, Publish) && w.net[id].answer.value == a
    ensures Fields(w, Deliver(id), PublishAnswered(w.page, a.config, w.net[id].generation))
  {
  }

  lemma DeliverFields(w: World, id: nat)
    requires id in w.net && w.net[id].answer.Some?
    ensures Fields(w, Deliver(id), Delivered(w, id).page)
  {
    var a := w.net[id].answer.value;
    if w.net[id].epoch != w.page.auth.epoch {
      StrangeFields(w, id);
    } else {
      hide Fields, ApplyBootstrap, ValidateAnswered, PublishAnswered;
      match w.net[id].kind
      case Load => LoadFields(w, id, a);
      case Validate => ValidateFields(w, id, a);
      case Publish => PublishFields(w, id, a);
    }
  }

  /** An answer of another epoch changes nothing. */
  lemma StrangeFields(w: World, id: nat)
    requires id in w.net && w.net[id].epoch != w.page.auth.epoch
    ensures Fields(w, Deliver(id), w.page)
  {
  }

  lemma FailFields(w: World, id: nat)
    requires id in w.net
    ensures Fields(w, Fail(id), Failed(w, id).page)
  {
    if w.net[id].epoch == w.page.auth.epoch && w.net[id].kind.Load? { LoadFailFields(w, id); } else { QuietFailFields(w, id, Failed(w, id).page); }
  }

  lemma LoadFailFields(w: World, id: nat)
    requires id in w.net && w.net[id].epoch == w.page.auth.epoch && w.net[id].kind.Load?
    ensures Fields(w, Fail(id), w.page.(error := true))
  {
  }

  lemma QuietFailFields(w: World, id: nat, p: Page)
    requires id in w.net && !(w.net[id].epoch == w.page.auth.epoch && w.net[id].kind.Load?)
    requires p == w.page.(busy := p.busy) && p.busy.rejected == w.page.busy.rejected
    ensures Fields(w, Fail(id), p)
  {
  }

  lemma UnsignedFields(w: World, id: nat)
    requires id in w.net
    ensures Fields(w, FailUnsigned(id), if w.net[id].epoch == w.page.auth.epoch then Expire(w.page) else w.page)
  {
  }

  lemma NetFields(w: World, normal: Draft -> Draft, e: Event, v: World)
    requires NetStep(w, normal, e, v)
    ensures Fields(w, e, v.page)
  {
    hide Delivered, Failed, Fields, Expire;
    match e
    case Deliver(id) => DeliverFields(w, id);
    case Serve(id, answer) => StillFields(w, e, v.page);
    case Fail(id) => FailFields(w, id);
    case FailUnsigned(id) => UnsignedFields(w, id);
    case _ =>
  }

  // ----- the session -----------------------------------------------------------------------------------------------------------------

  lemma ResetIs(p: Page)
    ensures Reset(p) == Page(Edits("", "", 0, 0), false, false, [], p.auth.(epoch := p.auth.epoch + 1), NOT_BUSY, Intact, None)
  {
  }

  lemma AuthenticatedIs(p: Page, expired: bool, sameUser: bool, keep: bool)
    ensures var r := Authenticated(p, expired, sameUser, keep).0; var epoch := p.auth.epoch;
      if expired && !sameUser then r == Page(Edits("", "", 0, 0), false, false, [], Auth(true, false, epoch + 2), NOT_BUSY, Intact, None)
      else if expired && keep && (p.timer || p.edits.Gap()) then
        r == Page(p.edits, false, false, if p.edits.Gap() then [Save(p.edits.dirty, p.edits.content, epoch + 1)] else [],
                  Auth(true, false, epoch + 1), NOT_BUSY, p.health, p.stamp)
      else r == p.(queue := [], auth := Auth(true, false, epoch + 1), busy := NOT_BUSY)
  {
    var d := SignIn(if expired && !sameUser then Reset(Bump(p)) else Bump(p));
    ResetIs(Bump(p));
    FlushIs(d.(error := false));
    hide Flush, Reset;
  }

  lemma LoginFields(w: World, expired: bool, sameUser: bool, keep: bool, id: nat, theirs: Draft)
    ensures Fields(w, Login(expired, sameUser, keep, id, theirs), Authenticated(w.page, expired, sameUser, keep).0)
  {
    AuthenticatedIs(w.page, expired, sameUser, keep);
    hide Authenticated;
  }

  lemma EndFields(w: World, e: Event, p: Page)
    requires e.OtherAccount? || e.Logout?
    requires p == Page(Edits("", "", 0, 0), false, false, [], AuthAfter(w, e), NOT_BUSY, Intact, None)
    ensures Fields(w, e, p)
  {
  }

  /** A session answer changes the session alone. */
  lemma OnlyAuthFields(w: World, e: Event, p: Page)
    requires e.Session? || e.SessionLost? || e.SessionBack?
    requires p == w.page.(auth := AuthAfter(w, e))
    ensures Fields(w, e, p)
  {
  }

  lemma SessionFields(w: World, e: Event, v: World)
    requires SessionStep(w, e, v)
    ensures Fields(w, e, v.page)
  {
    hide Authenticated, Reset, Fields;
    ResetIs(w.page);
    match e
    case Login(expired, sameUser, keep, id, theirs) => LoginFields(w, expired, sameUser, keep, id, theirs);
    case OtherAccount(_, _, _) => EndFields(w, e, v.page);
    case Logout => EndFields(w, e, v.page);
    case _ => OnlyAuthFields(w, e, v.page);
  }

  /** Every event leaves each field of the page as the tables above say, whatever the handlers do in between. */
  lemma FieldsMove(w: World, normal: Draft -> Draft, e: Event, v: World)
    requires Does(w, normal, e, v)
    ensures v.page.edits == EditsAfter(w, e) && v.page.stamp == StampAfter(w, e) && v.page.error == ErrorAfter(w, e)
    ensures v.page.health == HealthAfter(w, e) && v.page.timer == TimerAfter(w, e)
    ensures v.page.queue == QueueAfter(w, e) && v.page.auth == AuthAfter(w, e) && v.page.busy.rejected == RejectedAfter(w, e)
  {
    assert Fields(w, e, v.page) by {
      hide Fields, PageStep, SaveStep, NetStep, SessionStep;
      if PageStep(w, e, v) { PageFields(w, e, v); }
      if SaveStep(w, normal, e, v) { SaveFields(w, normal, e, v); }
      if NetStep(w, normal, e, v) { NetFields(w, normal, e, v); }
      if SessionStep(w, e, v) { SessionFields(w, e, v); }
    }
    hide Does, EditsAfter, StampAfter, ErrorAfter, HealthAfter, TimerAfter, QueueAfter, AuthAfter, RejectedAfter;
  }

  lemma RunLength(ws: seq<World>, normal: Draft -> Draft, es: seq<Event>)
    requires Run(ws, normal, es)
    ensures |ws| == |es| + 1
  {
    hide Step;
  }

  lemma RunDoes(ws: seq<World>, normal: Draft -> Draft, es: seq<Event>, i: nat)
    requires Run(ws, normal, es) && i < |es|
    ensures i + 1 < |ws| && Does(ws[i], normal, es[i], ws[i + 1])
  {
    hide Does;
    assert Step(ws[i], normal, es[i], ws[i + 1]);
  }

  // ----- over whole runs -----------------------------------------------------------------------------------------------------------

  /** An event that may end the protection of a corrupted draft: the user agrees, an answer comes in, or the session changes hands. */
  predicate Releases(e: Event) { (e.Change? && e.proceed) || e.AnswerSave? || e.Deliver? || e.Login? || Forgets(e) }

  /** The draft is corrupted and the user has not agreed to overwrite it. */
  predicate Corrupted(p: Page) { p.health == Broken(false) }

  /** The corrupted draft is what it was, or the server's copy. */
  predicate Guarded(p: Page, q: Page) {
    && Corrupted(q) && q.edits.dirty == p.edits.dirty && q.edits.base == p.edits.base
    && (q.edits.content == p.edits.content || q.edits.content == p.edits.base)
  }

  lemma GuardedTwice(p: Page, q: Page, r: Page)
    ensures Guarded(p, q) ==> Corrupted(q)
    ensures Guarded(p, q) && Guarded(q, r) ==> Guarded(p, r)
    ensures Corrupted(p) ==> Guarded(p, p)
  {
  }

  lemma CorruptedStep(w: World, normal: Draft -> Draft, e: Event, v: World)
    requires Does(w, normal, e, v) && Corrupted(w.page) && !Releases(e)
    ensures Guarded(w.page, v.page)
  {
    hide Does, StampAfter, ErrorAfter, TimerAfter, QueueAfter, AuthAfter, RejectedAfter;
    FieldsMove(w, normal, e, v);
  }

  /** One more event. */
  lemma CorruptedOn(ws: seq<World>, normal: Draft -> Draft, es: seq<Event>, first: Page, j: nat)
    requires Run(ws, normal, es) && 0 < j < |ws| && j <= |es| && !Releases(es[j - 1]) && Guarded(first, ws[j - 1].page)
    ensures Guarded(first, ws[j].page)
  {
    hide *;
    RunLength(ws, normal, es);
    RunDoes(ws, normal, es, j - 1);
    var w, e, v := ws[j - 1], es[j - 1], ws[j];
    GuardedTwice(first, w.page, v.page);
    CorruptedStep(w, normal, e, v);
  }

  /** A corrupted draft that the user has not agreed to overwrite takes no edit and is neither checked nor saved anew, however many are
      tried. */
  lemma {:induction false} CorruptedStays(ws: seq<World>, normal: Draft -> Draft, es: seq<Event>, i: nat, j: nat)
    requires Run(ws, normal, es) && i <= j < |ws| && j <= |es| && Corrupted(ws[i].page)
    requires forall k :: i <= k < j ==> !Releases(es[k])
    ensures Guarded(ws[i].page, ws[j].page)
  {
    hide *;
    RunLength(ws, normal, es);
    if i == j {
      GuardedTwice(ws[i].page, ws[i].page, ws[i].page);
    } else {
      CorruptedStays(ws, normal, es, i, j - 1);
      CorruptedOn(ws, normal, es, ws[i].page, j);
    }
  }

  /** A flow of a signed-in user that waits for nothing more has not just seen its last save fail. */
  predicate Cleared(p: Page) { p.auth.signedIn && p.busy.rejected ==> p.busy.validate != Draining(0) && p.busy.publish != Draining(0) }

  lemma ClearedPage(w: World, e: Event, v: World)
    requires PageStep(w, e, v) && Cleared(w.page) && (w.page.busy.Due() ==> Urgent(e))
    ensures Cleared(v.page)
  {
    hide Edit, Flush, TimerFires, Queue;
    if e.Timer? || e.SaveClick? || e.ValidateClick? || e.PublishClick? { FlushIs(w.page); }
    if w.page.edits.Gap() { QueueIs(w.page); }
    assert e.Change? ==> v.page.busy == w.page.busy && v.page.auth == w.page.auth by {
      if e.Change? { ChangeAside(w.page, e.edited, e.proceed); }
    }
  }

  lemma ChangeAside(p: Page, edited: Draft, proceed: bool)
    ensures Edit(p, edited, proceed).busy == p.busy && Edit(p, edited, proceed).auth == p.auth
  {
  }

  lemma ClearedSave(w: World, normal: Draft -> Draft, e: Event, v: World)
    requires SaveStep(w, normal, e, v) && Cleared(w.page) && !w.page.busy.Due()
    ensures Cleared(v.page)
  {
  }

  lemma ClearedDelivery(w: World, id: nat)
    requires id in w.net && w.net[id].answer.Some? && !w.page.busy.Due()
    ensures Cleared(Delivered(w, id).page)
  {
    var a := w.net[id].answer.value;
    BusyAnswers(w.page, a, w.net[id].generation);
    hide ApplyBootstrap, ValidateAnswered, PublishAnswered;
  }

  /** An answer ends at most its own flow. */
  lemma BusyAnswers(p: Page, a: Answer, generation: nat)
    ensures ApplyBootstrap(p, a.config, a.corrupted).busy == p.busy
    ensures ValidateAnswered(p, a.config, a.ok, generation).busy == p.busy.(validate := Off)
    ensures PublishAnswered(p, a.config, generation).busy == p.busy.(publish := Off)
  {
  }

  lemma ClearedNet(w: World, normal: Draft -> Draft, e: Event, v: World)
    requires NetStep(w, normal, e, v) && Cleared(w.page) && !w.page.busy.Due()
    ensures Cleared(v.page)
  {
    hide Delivered;
    if e.Deliver? { ClearedDelivery(w, e.id); }
  }

  lemma ClearedSession(w: World, e: Event, v: World)
    requires SessionStep(w, e, v) && Cleared(w.page) && !w.page.busy.Due()
    ensures Cleared(v.page)
  {
    if e.Login? { AuthenticatedIs(w.page, e.expired, e.sameUser, e.keep); }
    hide Authenticated;
  }

  lemma {:induction false} RunCleared(ws: seq<World>, normal: Draft -> Draft, es: seq<Event>, n: nat)
    requires Run(ws, normal, es) && n < |ws|
    ensures Cleared(ws[n].page)
  {
    hide PageStep, SaveStep, NetStep, SessionStep, Cleared;
    if n == 0 {
      StartCleared(ws[0]);
    } else {
      RunCleared(ws, normal, es, n - 1);
      var w, e, v := ws[n - 1], es[n - 1], ws[n];
      assert Step(w, normal, e, v);
      hide Run;
      if PageStep(w, e, v) { ClearedPage(w, e, v); }
      if SaveStep(w, normal, e, v) { NotUrgent(w, normal, e, v); ClearedSave(w, normal, e, v); }
      if NetStep(w, normal, e, v) { NotUrgent(w, normal, e, v); ClearedNet(w, normal, e, v); }
      if SessionStep(w, e, v) { NotUrgent(w, normal, e, v); ClearedSession(w, e, v); }
    }
  }

  lemma NotUrgent(w: World, normal: Draft -> Draft, e: Event, v: World)
    requires SaveStep(w, normal, e, v) || NetStep(w, normal, e, v) || SessionStep(w, e, v)
    ensures !Urgent(e)
  {
  }

  lemma StartCleared(w: World)
    requires Opened(w)
    ensures Cleared(w.page)
  {
  }

  /** In every run a signed-in user's check or publication is sent only when the last save that was settled has been answered, not
      failed. */
  lemma SentAfterAnswer(ws: seq<World>, normal: Draft -> Draft, es: seq<Event>, n: nat, k: nat)
    requires Run(ws, normal, es) && k < n < |es| && (es[n].SendValidate? || es[n].SendPublish?) && ws[n].page.auth.signedIn
    requires Settles(es[k]) && forall i :: k < i < n ==> Unsettling(es[i])
    ensures es[k].AnswerSave?
  {
    RunCleared(ws, normal, es, n);
    assert ws[n].page.busy.validate == Draining(0) || ws[n].page.busy.publish == Draining(0) by {
      assert Step(ws[n], normal, es[n], ws[n + 1]);
      SendIs(ws[n], normal, es[n], ws[n + 1]);
    }
    hide Run;
    RejectedSince(ws, normal, es, k, n);
  }

  lemma SendIs(w: World, normal: Draft -> Draft, e: Event, v: World)
    requires Does(w, normal, e, v) && (e.SendValidate? || e.SendPublish?)
    ensures w.page.busy.validate == Draining(0) || w.page.busy.publish == Draining(0)
  {
  }

  /** A save of the page's own has been answered or has failed. */
  predicate Settles(e: Event) { e.FailSave? || e.AnswerSave? }

  predicate Fails(e: Event) { e.FailSave? }

  /** No save is settled by the event, and the page keeps its queue. */
  predicate Unsettling(e: Event) { !Settles(e) && !e.Login? && !Forgets(e) }

  lemma RejectedStep(w: World, normal: Draft -> Draft, e: Event, v: World)
    requires Does(w, normal, e, v)
    ensures Settles(e) ==> v.page.busy.rejected == Fails(e)
    ensures Unsettling(e) ==> v.page.busy.rejected == w.page.busy.rejected
  {
    hide Does, EditsAfter, StampAfter, ErrorAfter, HealthAfter, TimerAfter, QueueAfter, AuthAfter;
    FieldsMove(w, normal, e, v);
  }

  lemma RejectedOn(ws: seq<World>, normal: Draft -> Draft, es: seq<Event>, n: nat)
    requires Run(ws, normal, es) && 0 < n < |ws| && n <= |es|
    ensures Settles(es[n - 1]) ==> ws[n].page.busy.rejected == Fails(es[n - 1])
    ensures Unsettling(es[n - 1]) ==> ws[n].page.busy.rejected == ws[n - 1].page.busy.rejected
  {
    hide *;
    RunLength(ws, normal, es);
    RunDoes(ws, normal, es, n - 1);
    var w, e, v := ws[n - 1], es[n - 1], ws[n];
    RejectedStep(w, normal, e, v);
  }

  lemma {:induction false} RejectedSince(ws: seq<World>, normal: Draft -> Draft, es: seq<Event>, k: nat, n: nat)
    requires Run(ws, normal, es) && k < n < |ws| && n <= |es| && Settles(es[k])
    requires forall i :: k < i < n ==> Unsettling(es[i])
    ensures ws[n].page.busy.rejected == Fails(es[k])
  {
    hide *;
    RunLength(ws, normal, es);
    RejectedOn(ws, normal, es, n);
    if n > k + 1 { RejectedSince(ws, normal, es, k, n - 1); }
  }
}
