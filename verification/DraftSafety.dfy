/** What holds in every run of the page: the invariant, and what may change the draft. */
module DraftSafety {
  import opened Options
  import opened DraftPage
  import opened DraftProtocol

  // ----- every run: no edit is left alone ------------------------------------------------------------------------------

  predicate SaveWaits(queue: seq<Save>, dirty: nat) { exists i | 0 <= i < |queue| :: queue[i].generation == dirty }

  /** Queued saves belong to the present epoch and to an edit. */
  ghost predicate QueueFine(queue: seq<Save>, epoch: nat) {
    forall i :: 0 <= i < |queue| ==> queue[i].epoch == epoch && queue[i].generation > 0
  }

  /** An unsaved edit of a signed-in user is taken care of: the timer is armed, a save of it is queued, an error is shown or
      a reload is under way. */
  ghost predicate EditCared(p: Page, reload: bool) {
    p.auth.signedIn && !p.auth.overlay && p.edits.Gap() ==> p.timer || p.error || SaveWaits(p.queue, p.edits.dirty) || reload
  }

  ghost predicate PageFine(p: Page, reload: bool) {
    p.edits.saved <= p.edits.dirty && QueueFine(p.queue, p.auth.epoch) && EditCared(p, reload)
  }

  lemma EditFine(p: Page, edited: Draft, proceed: bool, reload: bool)
    requires PageFine(p, reload)
    ensures PageFine(Edit(p, edited, proceed), reload)
  {
  }

  lemma QueueKeeps(p: Page, reload: bool)
    requires p.edits.Gap() && QueueFine(p.queue, p.auth.epoch)
    ensures PageFine(Queue(p, p.edits.dirty), reload)
  {
    var q := Queue(p, p.edits.dirty);
    if p.auth.signedIn && p.edits.Gap() { assert q.queue[|q.queue| - 1].generation == q.edits.dirty; }
  }

  lemma TimerFine(p: Page, reload: bool)
    requires PageFine(p, reload)
    ensures PageFine(TimerFires(p), reload) && PageFine(Flush(p), reload)
  {
    hide SaveWaits, QueueFine;
    if p.edits.Gap() { QueueKeeps(p.(timer := false), reload); }
  }

  lemma TailFine(p: Page)
    requires p.queue != [] && QueueFine(p.queue, p.auth.epoch)
    ensures QueueFine(p.queue[1..], p.auth.epoch) && p.queue[0].epoch == p.auth.epoch
    ensures p.queue[0].generation != p.edits.dirty && SaveWaits(p.queue, p.edits.dirty) ==> SaveWaits(p.queue[1..], p.edits.dirty)
  {
    if p.queue[0].generation != p.edits.dirty && SaveWaits(p.queue, p.edits.dirty) {
      var i :| 0 <= i < |p.queue| && p.queue[i].generation == p.edits.dirty;
      assert p.queue[1..][i - 1].generation == p.edits.dirty;
    }
  }

  lemma AnsweredFine(p: Page, config: Draft, reload: bool)
    requires PageFine(p, reload) && p.queue != []
    ensures PageFine(SaveAnswered(p, config), reload)
  {
    hide SaveWaits, QueueFine;
    TailFine(p);
  }

  lemma SaveFailedFine(p: Page, reload: bool)
    requires PageFine(p, reload) && p.queue != []
    ensures PageFine(SaveFailed(p), reload)
  {
    hide SaveWaits, QueueFine;
    TailFine(p);
  }

  lemma LoadedFine(p: Page, config: Draft, corrupted: bool, reload: bool)
    requires PageFine(p, reload)
    ensures PageFine(SignIn(ApplyBootstrap(p, config, corrupted)), false)
  {
    hide SaveWaits;
  }

  lemma ValidatedFine(p: Page, config: Draft, passed: bool, generation: nat, reload: bool)
    requires PageFine(p, reload)
    ensures PageFine(ValidateAnswered(p, config, passed, generation), reload)
  {
    hide QueueFine, SaveWaits;
  }

  lemma PublishedFine(p: Page, config: Draft, generation: nat, reload: bool)
    requires PageFine(p, reload)
    ensures PageFine(PublishAnswered(p, config, generation), reload)
  {
    hide QueueFine, SaveWaits;
  }

  lemma ResetFine(p: Page)
    ensures PageFine(Reset(p), false) && PageFine(Renew(Reset(p)), false) && PageFine(SignOut(p), false)
  {
  }

  lemma AuthenticatedFine(p: Page, expired: bool, sameUser: bool, keep: bool, reload: bool)
    requires PageFine(p, reload)
    ensures var r := Authenticated(p, expired, sameUser, keep); PageFine(r.0, !r.1)
  {
    hide SaveWaits;
    var b := Bump(p);
    var c := if expired && !sameUser then Reset(b) else b;
    if c.edits.Gap() { QueueKeeps(SignIn(c).(error := false, timer := false), false); }
  }

  // ----- the same for the whole world ------------------------------------------------------------------------------------

  ghost predicate LoadRuns(w: World) {
    exists id :: id in w.net && w.net[id].kind.Load? && w.net[id].epoch == w.page.auth.epoch
  }

  ghost predicate Fine(w: World) {
    && PageFine(w.page, LoadRuns(w) || w.starting)
    && (w.served.Some? ==> w.page.queue != [])
    && (w.page.auth.signedIn || w.page.auth.overlay || w.starting)
  }

  /** Requests that only gain an answer or companions still count. */
  ghost predicate NetGrows(w: World, v: World) {
    && v.page.auth.epoch == w.page.auth.epoch && v.starting == w.starting
    && forall i :: i in w.net ==> i in v.net && v.net[i].kind == w.net[i].kind && v.net[i].epoch == w.net[i].epoch
  }

  lemma GrownFine(w: World, v: World)
    requires NetGrows(w, v) && PageFine(v.page, LoadRuns(w) || w.starting)
    requires v.served.Some? ==> v.page.queue != []
    requires v.page.auth.signedIn || v.page.auth.overlay || v.starting
    ensures Fine(v)
  {
    if LoadRuns(w) {
      var i :| i in w.net && w.net[i].kind.Load? && w.net[i].epoch == w.page.auth.epoch;
      assert i in v.net;
    }
  }

  lemma LocalFine(w: World, p: Page)
    requires Fine(w) && PageFine(p, LoadRuns(w) || w.starting)
    requires (w.page.queue != [] ==> p.queue != []) && p.auth == w.page.auth
    ensures Fine(Local(w, p))
  {
    hide PageFine, LoadRuns;
    GrownFine(w, Local(w, p));
  }

  lemma PageStepFine(w: World, e: Event, v: World)
    requires PageStep(w, e, v) && Fine(w)
    ensures Fine(v)
  {
    hide LoadRuns, SaveWaits, QueueFine, EditCared;
    var reload := LoadRuns(w) || w.starting;
    match e
    case Change(edited, proceed) => EditFine(w.page, edited, proceed, reload); LocalFine(w, Edit(w.page, edited, proceed));
    case Timer => TimerFine(w.page, reload); LocalFine(w, TimerFires(w.page));
    case SaveClick => TimerFine(w.page, reload); LocalFine(w, Flush(w.page));
    case FlushAgain => QueueKeeps(w.page, reload); LocalFine(w, Queue(w.page, w.page.edits.dirty));
    case ValidateClick =>
      TimerFine(w.page, reload);
      FlagsFine(Flush(w.page), ClickValidate(w.page).busy, reload);
      LocalFine(w, ClickValidate(w.page));
    case PublishClick =>
      TimerFine(w.page, reload);
      FlagsFine(Flush(w.page), ClickPublish(w.page).busy, reload);
      LocalFine(w, ClickPublish(w.page));
    case GoOnValidate =>
      AgainFine(w.page, w.page.busy.validate.generation, ResumeValidate(w.page).busy, reload);
      LocalFine(w, ResumeValidate(w.page));
    case GoOnPublish =>
      AgainFine(w.page, w.page.busy.publish.generation, ResumePublish(w.page).busy, reload);
      LocalFine(w, ResumePublish(w.page));
    case SendValidate(id) => FlagsFine(w.page, v.page.busy, reload); GrownFine(w, v);
    case SendPublish(id) => FlagsFine(w.page, v.page.busy, reload); GrownFine(w, v);
    case RefusePublish => FlagsFine(w.page, v.page.busy, reload); GrownFine(w, v);
    case _ =>
  }

  lemma FlagsFine(p: Page, busy: Busy, reload: bool)
    requires PageFine(p, reload)
    ensures PageFine(p.(busy := busy), reload)
  {
  }

  lemma AgainFine(p: Page, generation: nat, busy: Busy, reload: bool)
    requires PageFine(p, reload)
    ensures var q := Again(p, generation).0;
      PageFine(q.(busy := busy), reload) && (p.queue != [] ==> q.queue != []) && q.auth == p.auth
  {
    hide SaveWaits, QueueFine, EditCared;
    if p.edits.Gap() { QueueKeeps(p, reload) by { FineQueue(p, reload); } }
    hide PageFine;
    FlagsFine(p, busy, reload);
    if p.edits.Gap() { FlagsFine(Queue(p, p.edits.dirty), busy, reload); }
  }

  lemma FineQueue(p: Page, reload: bool)
    requires PageFine(p, reload)
    ensures QueueFine(p.queue, p.auth.epoch)
  {
  }

  lemma SaveStepFine(w: World, normal: Draft -> Draft, e: Event, v: World)
    requires SaveStep(w, normal, e, v) && Fine(w)
    ensures Fine(v)
  {
    hide LoadRuns, SaveWaits, QueueFine, EditCared;
    var reload := LoadRuns(w) || w.starting;
    match e
    case AnswerSave => AnsweredFine(w.page, w.served.value, reload); TailFine(w.page); GrownFine(w, v);
    case FailSave => SaveFailedFine(w.page, reload); GrownFine(w, v);
    case _ => GrownFine(w, v);
  }

  /** One request less. */
  lemma LessFine(w: World, v: World, id: nat)
    requires id in w.net && v.net == w.net - {id} && v.page.auth.epoch == w.page.auth.epoch && v.starting == w.starting
    requires PageFine(v.page, w.starting || (LoadRuns(w) && !(w.net[id].kind.Load? && w.net[id].epoch == w.page.auth.epoch)))
    requires v.served.Some? ==> v.page.queue != []
    requires v.page.auth.signedIn || v.page.auth.overlay || v.starting
    ensures Fine(v)
  {
    if LoadRuns(w) && !(w.net[id].kind.Load? && w.net[id].epoch == w.page.auth.epoch) {
      var i :| i in w.net && w.net[i].kind.Load? && w.net[i].epoch == w.page.auth.epoch;
      assert i in v.net;
    }
  }

  lemma DeliveredFine(w: World, id: nat)
    requires Fine(w) && id in w.net && w.net[id].answer.Some?
    ensures Fine(Delivered(w, id))
  {
    hide LoadRuns, PageFine;
    var r := w.net[id];
    var a := r.answer.value;
    var reload := LoadRuns(w) || w.starting;
    if r.epoch == w.page.auth.epoch {
      match r.kind
      case Load =>
        LoadedFine(w.page, a.config, a.corrupted, reload);
        LessReload(SignIn(ApplyBootstrap(w.page, a.config, a.corrupted)), w.starting);
      case Validate => ValidatedFine(w.page, a.config, a.ok, r.generation, reload);
      case Publish => PublishedFine(w.page, a.config, r.generation, reload);
    }
    SameSession(w.page, a.config, a.ok, a.corrupted, r.generation);
    hide ApplyBootstrap, ValidateAnswered, PublishAnswered;
    LessFine(w, Delivered(w, id), id);
  }

  lemma SameSession(p: Page, config: Draft, ok: bool, corrupted: bool, generation: nat)
    ensures ApplyBootstrap(p, config, corrupted).auth == p.auth && ApplyBootstrap(p, config, corrupted).queue == p.queue
    ensures ValidateAnswered(p, config, ok, generation).auth == p.auth && ValidateAnswered(p, config, ok, generation).queue == p.queue
    ensures PublishAnswered(p, config, generation).auth == p.auth && PublishAnswered(p, config, generation).queue == p.queue
  {
  }

  lemma LessReload(p: Page, reload: bool)
    ensures PageFine(p, false) ==> PageFine(p, reload)
  {
  }

  lemma FailedFine(w: World, id: nat)
    requires Fine(w) && id in w.net
    ensures Fine(Failed(w, id))
    ensures Fine(w.(net := w.net - {id}, page := Expire(w.page)))
    ensures w.net[id].epoch != w.page.auth.epoch ==> Fine(w.(net := w.net - {id}))
  {
    hide LoadRuns, SaveWaits, QueueFine;
    LessFine(w, Failed(w, id), id);
    LessFine(w, w.(net := w.net - {id}, page := Expire(w.page)), id);
    if w.net[id].epoch != w.page.auth.epoch { LessFine(w, w.(net := w.net - {id}), id); }
  }

  lemma NetStepFine(w: World, normal: Draft -> Draft, e: Event, v: World)
    requires NetStep(w, normal, e, v) && Fine(w)
    ensures Fine(v)
  {
    hide PageFine, LoadRuns, Delivered, Failed;
    match e
    case Serve(id, answer) => FineParts(w); GrownFine(w, v);
    case Deliver(id) => DeliveredFine(w, id);
    case Fail(id) => FailedFine(w, id);
    case FailUnsigned(id) => FailedFine(w, id);
    case _ =>
  }

  lemma FineParts(w: World)
    requires Fine(w)
    ensures PageFine(w.page, LoadRuns(w) || w.starting)
  {
  }

  /** A load has just been sent. */
  lemma SentFine(v: World, id: nat)
    requires id in v.net && v.net[id].kind.Load? && v.net[id].epoch == v.page.auth.epoch
    requires PageFine(v.page, true) && (v.served.Some? ==> v.page.queue != [])
    requires v.page.auth.signedIn || v.page.auth.overlay || v.starting
    ensures Fine(v)
  {
    assert LoadRuns(v);
  }

  lemma RenewFine(p: Page, reload: bool)
    requires PageFine(p, reload) && (p.auth.signedIn || p.auth.overlay)
    ensures PageFine(Renew(p), reload)
  {
  }

  lemma ExpireFine(p: Page, reload: bool)
    requires PageFine(p, reload)
    ensures PageFine(Expire(p), false) && PageFine(Renew(p), true)
  {
  }

  lemma LoginFine(w: World, e: Event, v: World)
    requires SessionStep(w, e, v) && Fine(w) && e.Login?
    ensures Fine(v)
  {
    hide PageFine, LoadRuns, Authenticated;
    var reload := LoadRuns(w) || w.starting;
    var r := Authenticated(w.page, e.expired, e.sameUser, e.keep);
    AuthenticatedFine(w.page, e.expired, e.sameUser, e.keep, reload);
    SignedInAfter(w.page, e.expired, e.sameUser, e.keep);
    LessReload(v.page, LoadRuns(v));
    if !r.1 { SentFine(v, e.id); }
  }

  lemma SignedInAfter(p: Page, expired: bool, sameUser: bool, keep: bool)
    ensures Authenticated(p, expired, sameUser, keep).0.auth.signedIn
  {
  }

  lemma SessionStepFine(w: World, e: Event, v: World)
    requires SessionStep(w, e, v) && Fine(w)
    ensures Fine(v)
  {
    hide PageFine, LoadRuns;
    var reload := LoadRuns(w) || w.starting;
    ExpireFine(w.page, reload);
    ResetFine(w.page);
    match e
    case Session(signed, id) =>
      if signed { SentFine(v, id); } else { LessReload(v.page, LoadRuns(v)); }
    case SessionLost(_) => LessReload(v.page, LoadRuns(v));
    case SessionBack(_) =>
      if !w.starting { RenewFine(w.page, reload); }
      GrownFine(w, v);
    case OtherAccount(_, id, theirs) => LessReload(v.page, true); SentFine(v, id);
    case Login(_, _, _, _, _) => LoginFine(w, e, v);
    case Logout => LessReload(v.page, LoadRuns(v) || v.starting);
    case _ =>
  }

  lemma StepFine(w: World, normal: Draft -> Draft, e: Event, v: World)
    requires Step(w, normal, e, v) && Fine(w)
    ensures Fine(v)
  {
    hide PageStep, SaveStep, NetStep, SessionStep, Fine;
    if PageStep(w, e, v) { PageStepFine(w, e, v); }
    if SaveStep(w, normal, e, v) { SaveStepFine(w, normal, e, v); }
    if NetStep(w, normal, e, v) { NetStepFine(w, normal, e, v); }
    if SessionStep(w, e, v) { SessionStepFine(w, e, v); }
  }

  /** The page as it is opened; the server may hold any draft. */
  ghost predicate Opened(w: World) {
    && w.page == Page(Edits(EMPTY, EMPTY, 0, 0), false, false, [], Auth(false, false, 0), NOT_BUSY, Intact, None)
    && w.starting && w.served.None? && w.strays == [] && w.net == map[] && !w.loaded && w.issued == 0 && w.last == 0
  }

  ghost predicate Run(ws: seq<World>, normal: Draft -> Draft, es: seq<Event>) {
    && |ws| == |es| + 1 && Opened(ws[0])
    && forall i :: 0 <= i < |es| ==> Step(ws[i], normal, es[i], ws[i + 1])
  }

  lemma {:induction false} RunFine(ws: seq<World>, normal: Draft -> Draft, es: seq<Event>, n: nat)
    requires Run(ws, normal, es) && n < |ws|
    ensures Fine(ws[n])
  {
    hide Step;
    if n > 0 {
      hide Fine;
      RunFine(ws, normal, es, n - 1);
      StepFine(ws[n - 1], normal, es[n - 1], ws[n]);
    }
  }

  /** In every state of every run the saved generation is at most the dirty one, and a signed-in user's unsaved edit has an
      armed timer, a queued save, a shown error or a reload under way. */
  lemma NoEditForgotten(ws: seq<World>, normal: Draft -> Draft, es: seq<Event>, n: nat)
    requires Run(ws, normal, es) && n < |ws|
    ensures var p := ws[n].page;
      && p.edits.saved <= p.edits.dirty
      && (p.auth.signedIn && !p.auth.overlay && p.edits.dirty > p.edits.saved ==>
            p.timer || p.error || SaveWaits(p.queue, p.edits.dirty) || LoadRuns(ws[n]) || ws[n].starting)
  {
    RunFine(ws, normal, es, n);
  }

  // ----- what may change the draft --------------------------------------------------------------------------------------

  /** Edits, answers of the present epoch, and the resets: another account's session, its login, logout. */
  predicate Touches(w: World, e: Event) {
    match e
    case Change(_, _) => true
    case AnswerSave => w.page.queue != [] && w.page.queue[0].epoch == w.page.auth.epoch
    case Deliver(id) => id in w.net && w.net[id].epoch == w.page.auth.epoch
    case OtherAccount(_, _, _) => true
    case Login(expired, sameUser, _, _, _) => expired && !sameUser
    case Logout => true
    case _ => false
  }

  lemma PageTouches(w: World, e: Event, v: World)
    requires PageStep(w, e, v) && !Touches(w, e)
    ensures v.page.edits == w.page.edits && v.page.stamp == w.page.stamp
  {
    FlushTouches(w.page);
    hide Flush, TimerFires, Queue, ClickValidate, ClickPublish, ResumeValidate, ResumePublish;
  }

  lemma FlushTouches(p: Page)
    ensures Flush(p).edits == p.edits && TimerFires(p).edits == p.edits && Queue(p, p.edits.dirty).edits == p.edits
    ensures Flush(p).stamp == p.stamp && TimerFires(p).stamp == p.stamp && Queue(p, p.edits.dirty).stamp == p.stamp
    ensures ClickValidate(p).edits == p.edits && ClickPublish(p).edits == p.edits
    ensures ClickValidate(p).stamp == p.stamp && ClickPublish(p).stamp == p.stamp
    ensures p.busy.validate.Saving? ==> ResumeValidate(p).edits == p.edits && ResumeValidate(p).stamp == p.stamp
    ensures p.busy.publish.Saving? ==> ResumePublish(p).edits == p.edits && ResumePublish(p).stamp == p.stamp
  {
  }

  lemma SaveTouches(w: World, normal: Draft -> Draft, e: Event, v: World)
    requires SaveStep(w, normal, e, v) && !Touches(w, e)
    ensures v.page.edits == w.page.edits && v.page.stamp == w.page.stamp
  {
  }

  lemma NetTouches(w: World, normal: Draft -> Draft, e: Event, v: World)
    requires NetStep(w, normal, e, v) && !Touches(w, e)
    ensures v.page.edits == w.page.edits && v.page.stamp == w.page.stamp
  {
  }

  lemma SessionTouches(w: World, e: Event, v: World)
    requires SessionStep(w, e, v) && !Touches(w, e)
    ensures v.page.edits == w.page.edits && v.page.stamp == w.page.stamp
  {
  }

  /** Over whole runs the draft, its generations and the validation stamp change only through edits, answers of the present login
      epoch and the resets. In particular no answer, failure or refusal of a request of an older epoch changes them, but for the
      reset when it turns out that the session is another account's. */
  lemma {:induction false} DraftUntouched(ws: seq<World>, normal: Draft -> Draft, es: seq<Event>, i: nat, j: nat)
    requires Run(ws, normal, es) && i <= j < |ws|
    requires forall k :: i <= k < j ==> !Touches(ws[k], es[k])
    ensures ws[j].page.edits == ws[i].page.edits && ws[j].page.stamp == ws[i].page.stamp
  {
    hide Touches, PageStep, SaveStep, NetStep, SessionStep, Opened;
    if i < j {
      DraftUntouched(ws, normal, es, i, j - 1);
      assert Step(ws[j - 1], normal, es[j - 1], ws[j]);
      if PageStep(ws[j - 1], es[j - 1], ws[j]) { PageTouches(ws[j - 1], es[j - 1], ws[j]); }
      if SaveStep(ws[j - 1], normal, es[j - 1], ws[j]) { SaveTouches(ws[j - 1], normal, es[j - 1], ws[j]); }
      if NetStep(ws[j - 1], normal, es[j - 1], ws[j]) { NetTouches(ws[j - 1], normal, es[j - 1], ws[j]); }
      if SessionStep(ws[j - 1], es[j - 1], ws[j]) { SessionTouches(ws[j - 1], es[j - 1], ws[j]); }
    }
  }

  /** What an unauthorised answer changes, whatever the epoch of its request: a lost session closes the page under the login layer
      and keeps the draft; a session of the same account only counts as signed in again; a session of another account empties the
      page, opens a new epoch, abandons the queued saves and loads that account's draft. */
  lemma UnauthorisedChanges(w: World, e: Event, v: World)
    requires SessionStep(w, e, v) && Fine(w)
    ensures e.SessionLost? ==> v == w.(page := w.page.(auth := Auth(false, true, w.page.auth.epoch)))
    ensures e.SessionBack? ==> v == w.(page := w.page.(auth := w.page.auth.(signedIn := true)))
    ensures e.OtherAccount? ==>
      && v.page.edits == Edits(EMPTY, EMPTY, 0, 0) && v.page.stamp == None && v.page.queue == [] && !v.page.timer && !v.page.error
      && v.page.auth == Auth(true, w.page.auth.overlay, w.page.auth.epoch + 1)
      && v.strays == (if w.page.queue == [] then w.strays else w.strays + [Chain(w.page.queue, w.served)])
      && v.net.Keys == w.net.Keys + {e.id} && v.net[e.id].kind.Load? && v.net[e.id].epoch == v.page.auth.epoch
      && forall id :: id in w.net ==> v.net[id] == w.net[id] && (w.net[id].epoch <= w.page.auth.epoch ==> v.net[id].epoch != v.page.auth.epoch)
  {
    hide Fine;
  }

  /** Saves answered to the page were issued in its present epoch. */
  lemma AnsweredInEpoch(ws: seq<World>, normal: Draft -> Draft, es: seq<Event>, n: nat, i: nat)
    requires Run(ws, normal, es) && n < |ws| && i < |ws[n].page.queue|
    ensures ws[n].page.queue[i].epoch == ws[n].page.auth.epoch
  {
    RunFine(ws, normal, es, n);
  }
}
