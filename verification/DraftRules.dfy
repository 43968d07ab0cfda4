/** No rule of `DraftStored` can be left out: for each one there is a run that obeys all the others and ends with a draft that the page
    shows as saved and the server does not hold. */
module DraftRules {
  import opened Options
  import opened DraftPage
  import opened DraftProtocol
  import opened DraftSafety
  import opened DraftFlows
  import opened DraftKept
  import opened DraftWaits
  import opened DraftStored

  ghost predicate ObeysBut(rule: Rule, w: World, e: Event, v: World) { forall r :: r != rule ==> Obeys(r, w, e, v) }

  /** A run that obeys every rule but this one. */
  ghost predicate RunBut(rule: Rule, ws: seq<World>, normal: Draft -> Draft, es: seq<Event>) {
    Run(ws, normal, es) && Idempotent(normal) && forall i :: 0 <= i < |es| ==> ObeysBut(rule, ws[i], es[i], ws[i + 1])
  }

  lemma Then(rule: Rule, ws: seq<World>, normal: Draft -> Draft, es: seq<Event>, e: Event, v: World)
    requires RunBut(rule, ws, normal, es) && Step(ws[|ws| - 1], normal, e, v) && ObeysBut(rule, ws[|ws| - 1], e, v)
    ensures RunBut(rule, ws + [v], normal, es + [e])
  {
    hide Step, ObeysBut, Idempotent, Opened;
    forall i | 0 <= i < |es + [e]| ensures Step((ws + [v])[i], normal, (es + [e])[i], (ws + [v])[i + 1]) {
      if i < |es| { assert Step(ws[i], normal, es[i], ws[i + 1]); }
    }
    forall i | 0 <= i < |es + [e]| ensures ObeysBut(rule, (ws + [v])[i], (es + [e])[i], (ws + [v])[i + 1]) {
      if i < |es| { assert ObeysBut(rule, ws[i], es[i], ws[i + 1]); }
    }
  }

  lemma Start(rule: Rule, w: World, normal: Draft -> Draft)
    requires Opened(w) && Idempotent(normal)
    ensures RunBut(rule, [w], normal, [])
  {
  }

  // ----- events that no rule is about ------------------------------------------------------------------------------------

  /** The event queues no save, lands no load and touches no session. */
  predicate Plain(w: World, e: Event, v: World) {
    && !Lands(w, e) && !e.Session? && !e.OtherAccount? && !e.Login? && !e.Logout? && |v.page.queue| <= |w.page.queue|
    && v.page.auth == w.page.auth
  }

  lemma PlainObeys(rule: Rule, w: World, e: Event, v: World)
    requires Plain(w, e, v)
    ensures ObeysBut(rule, w, e, v)
  {
  }

  /** The page signed in and at rest in its first epoch. */
  function Rest(edits: Edits, busy: Busy, stamp: Option<nat>): Page {
    Page(edits, false, false, [], Auth(true, false, 0), busy, Intact, stamp)
  }

  // ----- the first steps -------------------------------------------------------------------------------------------------

  function Asked(w: World): World {
    w.(page := Renew(w.page), starting := false, net := map[0 := Request(Load, EMPTY, w.issued, 0, None)])
  }

  function Loading(w: World, normal: Draft -> Draft): World {
    w.(page := Renew(w.page), starting := false,
       net := map[0 := Request(Load, EMPTY, w.issued, 0, Some(Answer(normal(w.stored), true, false)))])
  }

  /** The draft is loaded and nothing is under way. */
  function Ready(w: World, normal: Draft -> Draft): World {
    var n := normal(w.stored);
    w.(page := Rest(Edits(n, n, 0, 0), NOT_BUSY, None), starting := false, net := map[], loaded := true, last := 0)
  }

  lemma AskStep(rule: Rule, w: World, normal: Draft -> Draft)
    requires Opened(w)
    ensures Step(w, normal, Session(true, 0), Asked(w)) && ObeysBut(rule, w, Session(true, 0), Asked(w))
    ensures var e := Serve(0, Answer(normal(w.stored), true, false));
      Step(Asked(w), normal, e, Loading(w, normal)) && ObeysBut(rule, Asked(w), e, Loading(w, normal))
  {
    assert SessionStep(w, Session(true, 0), Asked(w));
    assert NetStep(Asked(w), normal, Serve(0, Answer(normal(w.stored), true, false)), Loading(w, normal));
    PlainObeys(rule, Asked(w), Serve(0, Answer(normal(w.stored), true, false)), Loading(w, normal));
  }

  lemma LandStep(rule: Rule, w: World, normal: Draft -> Draft)
    requires Opened(w)
    ensures Step(Loading(w, normal), normal, Deliver(0), Ready(w, normal))
    ensures ObeysBut(rule, Loading(w, normal), Deliver(0), Ready(w, normal))
  {
    var u := Loading(w, normal);
    assert u.net - {0} == map[];
    assert NetStep(u, normal, Deliver(0), Ready(w, normal));
  }

  lemma ReadyRun(rule: Rule, w: World, normal: Draft -> Draft) returns (ws: seq<World>, es: seq<Event>)
    requires Opened(w) && Idempotent(normal)
    ensures RunBut(rule, ws, normal, es) && ws[0] == w && ws[|ws| - 1] == Ready(w, normal)
  {
    hide RunBut, Step, ObeysBut, Opened, Asked, Loading, Ready, Idempotent;
    Start(rule, w, normal);
    AskStep(rule, w, normal);
    LandStep(rule, w, normal);
    var e := Serve(0, Answer(normal(w.stored), true, false));
    ws, es := [w] + [Asked(w)], [] + [Session(true, 0)];
    Then(rule, [w], normal, [], Session(true, 0), Asked(w));
    Then(rule, ws, normal, es, e, Loading(w, normal));
    ws, es := ws + [Loading(w, normal)], es + [e];
    Then(rule, ws, normal, es, Deliver(0), Ready(w, normal));
    ws, es := ws + [Ready(w, normal)], es + [Deliver(0)];
  }

  /** One event more that no rule is about. */
  lemma Next(rule: Rule, ws: seq<World>, normal: Draft -> Draft, es: seq<Event>, e: Event, v: World)
    requires RunBut(rule, ws, normal, es) && Step(ws[|ws| - 1], normal, e, v) && Plain(ws[|ws| - 1], e, v)
    ensures RunBut(rule, ws + [v], normal, es + [e])
  {
    Size(rule, ws, normal, es);
    hide RunBut, Step, ObeysBut, Plain;
    PlainObeys(rule, ws[|ws| - 1], e, v);
    Then(rule, ws, normal, es, e, v);
  }

  lemma Size(rule: Rule, ws: seq<World>, normal: Draft -> Draft, es: seq<Event>)
    requires RunBut(rule, ws, normal, es)
    ensures |ws| == |es| + 1
  {
  }

  /** The event leads from a stage to the next, and obeys. */
  ghost predicate Leads(rule: Rule, normal: Draft -> Draft, stage: nat -> World, event: nat -> Event, n: nat) {
    Step(stage(n), normal, event(n), stage(n + 1)) && ObeysBut(rule, stage(n), event(n), stage(n + 1))
  }

  /** m events more, through the given stages. */
  lemma {:induction false} Along(rule: Rule, ws: seq<World>, normal: Draft -> Draft, es: seq<Event>,
                                 stage: nat -> World, event: nat -> Event, m: nat)
    returns (us: seq<World>, fs: seq<Event>)
    requires RunBut(rule, ws, normal, es) && ws[|ws| - 1] == stage(0)
    requires forall n: nat :: n < m ==> Leads(rule, normal, stage, event, n)
    ensures RunBut(rule, us, normal, fs) && us[0] == ws[0] && us[|us| - 1] == stage(m) && |us| == |fs| + 1
  {
    Size(rule, ws, normal, es);
    hide RunBut, Step, ObeysBut, Leads;
    if m == 0 {
      us, fs := ws, es;
    } else {
      us, fs := Along(rule, ws, normal, es, stage, event, m - 1);
      us, fs := OneMore(rule, us, normal, fs, stage, event, m - 1);
    }
  }

  lemma OneMore(rule: Rule, ws: seq<World>, normal: Draft -> Draft, es: seq<Event>, stage: nat -> World, event: nat -> Event, n: nat)
    returns (us: seq<World>, fs: seq<Event>)
    requires RunBut(rule, ws, normal, es) && |ws| == |es| + 1 && ws[|ws| - 1] == stage(n) && Leads(rule, normal, stage, event, n)
    ensures RunBut(rule, us, normal, fs) && us[0] == ws[0] && us[|us| - 1] == stage(n + 1) && |us| == |fs| + 1
  {
    hide RunBut, Step, ObeysBut;
    Then(rule, ws, normal, es, event(n), stage(n + 1));
    us, fs := ws + [stage(n + 1)], es + [event(n)];
  }

  /** The page signed in, in its first epoch. */
  function Shown(edits: Edits, timer: bool, queue: seq<Save>, busy: Busy, stamp: Option<nat>): Page {
    Page(edits, timer, false, queue, Auth(true, false, 0), busy, Intact, stamp)
  }

  // ----- an edit and a save ------------------------------------------------------------------------------------------------

  /** The loaded draft has been edited. */
  function Edited(w: World, normal: Draft -> Draft, a: Draft): World {
    Ready(w, normal).(page := Shown(Edits(a, normal(w.stored), 1, 0), true, [], NOT_BUSY, None))
  }

  /** Its save is queued k times. */
  function SaveQueued(w: World, normal: Draft -> Draft, a: Draft, k: nat): World {
    Ready(w, normal).(page := Shown(Edits(a, normal(w.stored), 1, 0), false, seq(k, i => Save(1, a, 0)), NOT_BUSY, None),
                      issued := w.issued + k)
  }

  lemma EditedStep(w: World, normal: Draft -> Draft, a: Draft)
    ensures var u, v := Ready(w, normal), Edited(w, normal, a);
      Step(u, normal, Change(a, true), v) && Plain(u, Change(a, true), v)
  {
    assert PageStep(Ready(w, normal), Change(a, true), Edited(w, normal, a));
  }

  lemma SavingStep(rule: Rule, w: World, normal: Draft -> Draft, a: Draft, k: nat)
    ensures var u := if k == 0 then Edited(w, normal, a) else SaveQueued(w, normal, a, k);
      Step(u, normal, SaveClick, SaveQueued(w, normal, a, k + 1)) && ObeysBut(rule, u, SaveClick, SaveQueued(w, normal, a, k + 1))
  {
    var u := if k == 0 then Edited(w, normal, a) else SaveQueued(w, normal, a, k);
    assert seq(k + 1, i => Save(1, a, 0)) == seq(k, i => Save(1, a, 0)) + [Save(1, a, 0)];
    assert PageStep(u, SaveClick, SaveQueued(w, normal, a, k + 1));
  }

  lemma {:induction false} SavingRun(rule: Rule, w: World, normal: Draft -> Draft, a: Draft, k: nat)
    returns (ws: seq<World>, es: seq<Event>)
    requires Opened(w) && Idempotent(normal)
    ensures RunBut(rule, ws, normal, es) && ws[0] == w && |ws| == |es| + 1
    ensures ws[|ws| - 1] == if k == 0 then Edited(w, normal, a) else SaveQueued(w, normal, a, k)
  {
    hide RunBut, Step, ObeysBut, Plain, Opened, Ready, Edited, SaveQueued, Idempotent;
    if k == 0 {
      ws, es := ReadyRun(rule, w, normal);
      Size(rule, ws, normal, es);
      EditedStep(w, normal, a);
      Next(rule, ws, normal, es, Change(a, true), Edited(w, normal, a));
      ws, es := ws + [Edited(w, normal, a)], es + [Change(a, true)];
    } else {
      ws, es := SavingRun(rule, w, normal, a, k - 1);
      SavingStep(rule, w, normal, a, k - 1);
      Then(rule, ws, normal, es, SaveClick, SaveQueued(w, normal, a, k));
      ws, es := ws + [SaveQueued(w, normal, a, k)], es + [SaveClick];
    }
  }

  // ----- a new login while a save is under way -------------------------------------------------------------------------------

  /** A world whose page waits for the load 1, with the abandoned sequence of k saves. */
  predicate Reloading(w: World, normal: Draft -> Draft, a: Draft, k: nat, u: World) {
    && u.page.queue == [] && u.page.busy == NOT_BUSY && u.strays == [Chain(seq(k, i => Save(1, a, 0)), None)] && u.stored == w.stored
    && 1 in u.net && u.net[1] == Request(Load, EMPTY, u.issued, u.page.auth.epoch, None)
  }

  function Answered(u: World, normal: Draft -> Draft): World
    requires 1 in u.net
  {
    Send(u, 1, u.net[1].(answer := Some(Answer(normal(u.stored), true, false))))
  }

  lemma ReloadSteps(rule: Rule, w: World, normal: Draft -> Draft, a: Draft, k: nat, u: World)
    requires Reloading(w, normal, a, k, u)
    ensures var e := Serve(1, Answer(normal(u.stored), true, false)); var v := Answered(u, normal);
      && Step(u, normal, e, v) && Plain(u, e, v) && 1 in v.net && v.net[1].answer.Some?
      && Step(v, normal, Deliver(1), Delivered(v, 1)) && ObeysBut(rule, v, Deliver(1), Delivered(v, 1))
    ensures var d := Delivered(Answered(u, normal), 1); var n := normal(w.stored);
      d.loaded && d.page.edits == Edits(n, n, 0, 0) && d.strays == u.strays && d.page.queue == [] && d.page.busy == NOT_BUSY
  {
    var v := Answered(u, normal);
    assert NetStep(u, normal, Serve(1, Answer(normal(u.stored), true, false)), v);
    assert NetStep(v, normal, Deliver(1), Delivered(v, 1));
  }

  /** The world after its only abandoned sequence has lost its first save, or stored it. */
  function Ended(d: World): World
    requires |d.strays| == 1 && d.strays[0].saves != []
  {
    d.(strays := d.strays[0 := Chain(d.strays[0].saves[1..], None)])
  }

  function Overwritten(d: World, form: Draft): World
    requires |d.strays| == 1
  {
    d.(stored := form, strays := d.strays[0 := d.strays[0].(served := Some(form))])
  }

  lemma StraySteps(d: World, normal: Draft -> Draft)
    requires |d.strays| == 1 && d.strays[0].saves != [] && d.strays[0].served.None? && !d.page.busy.Due()
    ensures Step(d, normal, EndStray(0), Ended(d)) && Plain(d, EndStray(0), Ended(d))
    ensures var v := Overwritten(d, normal(d.strays[0].saves[0].snapshot));
      Step(d, normal, StoreStray(0), v) && Plain(d, StoreStray(0), v)
  {
    assert SaveStep(d, normal, EndStray(0), Ended(d));
    assert SaveStep(d, normal, StoreStray(0), Overwritten(d, normal(d.strays[0].saves[0].snapshot)));
  }

  /** The load lands, the first k - 1 abandoned saves fail and the last one is stored over the loaded draft. */
  lemma StrayRun(rule: Rule, ws: seq<World>, normal: Draft -> Draft, es: seq<Event>, w: World, a: Draft, k: nat)
    returns (us: seq<World>, fs: seq<Event>)
    requires RunBut(rule, ws, normal, es) && Reloading(w, normal, a, k, ws[|ws| - 1]) && 1 <= k <= 2 && normal(a) != normal(w.stored)
    ensures RunBut(rule, us, normal, fs) && us[0] == ws[0] && Unstored(normal, us[|us| - 1])
  {
    hide RunBut, Step, ObeysBut, Plain, Delivered, Answered;
    Size(rule, ws, normal, es);
    var u := ws[|ws| - 1];
    ReloadSteps(rule, w, normal, a, k, u);
    var v := Answered(u, normal);
    var e := Serve(1, Answer(normal(u.stored), true, false));
    Next(rule, ws, normal, es, e, v);
    us, fs := ws + [v], es + [e];
    var d := Delivered(v, 1);
    Then(rule, us, normal, fs, Deliver(1), d);
    us, fs := us + [d], fs + [Deliver(1)];
    if k == 2 {
      StraySteps(d, normal);
      Next(rule, us, normal, fs, EndStray(0), Ended(d));
      us, fs := us + [Ended(d)], fs + [EndStray(0)];
      d := Ended(d);
    }
    StraySteps(d, normal);
    Next(rule, us, normal, fs, StoreStray(0), Overwritten(d, normal(a)));
    us, fs := us + [Overwritten(d, normal(a))], fs + [StoreStray(0)];
    FormIs(rule, us, normal, fs, a);
  }

  lemma FormIs(rule: Rule, ws: seq<World>, normal: Draft -> Draft, es: seq<Event>, a: Draft)
    requires RunBut(rule, ws, normal, es)
    ensures normal(normal(a)) == normal(a)
  {
  }

  /** The session is lost; the login layer opens. */
  function Lost(u: World): World { u.(page := Expire(u.page)) }

  lemma LostStep(rule: Rule, w: World, normal: Draft -> Draft, a: Draft)
    ensures var u := SaveQueued(w, normal, a, 1); var v := Lost(u);
      Step(u, normal, SessionLost(ByOther), v) && ObeysBut(rule, u, SessionLost(ByOther), v)
  {
    assert SessionStep(SaveQueued(w, normal, a, 1), SessionLost(ByOther), Lost(SaveQueued(w, normal, a, 1)));
  }

  /** The login layer is closed again for the same user, who gives up the local edits. */
  function Rejoined(u: World): World {
    Send(Abandon(u).(page := SignIn(Bump(u.page))), 1, LoadRequest(u, u.page.auth.epoch + 1))
  }

  lemma LoginStep(w: World, normal: Draft -> Draft, a: Draft)
    requires Opened(w)
    ensures var u := Lost(SaveQueued(w, normal, a, 1)); var e := Login(true, true, false, 1, w.stored); var v := Rejoined(u);
      Step(u, normal, e, v) && ObeysBut(IdleLogin, u, e, v) && Reloading(w, normal, a, 1, v)
  {
    var u := Lost(SaveQueued(w, normal, a, 1));
    assert Authenticated(u.page, true, true, false) == (SignIn(Bump(u.page)), false);
    assert SessionStep(u, Login(true, true, false, 1, w.stored), Rejoined(u));
  }

  lemma LoginBreaks(w: World, normal: Draft -> Draft, a: Draft) returns (ws: seq<World>, es: seq<Event>)
    requires Opened(w) && Idempotent(normal) && normal(a) != normal(w.stored)
    ensures RunBut(IdleLogin, ws, normal, es) && ws[0] == w && Unstored(normal, ws[|ws| - 1])
  {
    ws, es := SavingRun(IdleLogin, w, normal, a, 1);
    LostStep(IdleLogin, w, normal, a);
    LoginStep(w, normal, a);
    hide *;
    var u := Lost(SaveQueued(w, normal, a, 1));
    var e := Login(true, true, false, 1, w.stored);
    Then(IdleLogin, ws, normal, es, SessionLost(ByOther), u);
    Then(IdleLogin, ws + [u], normal, es + [SessionLost(ByOther)], e, Rejoined(u));
    ws, es := StrayRun(IdleLogin, ws + [u] + [Rejoined(u)], normal, es + [SessionLost(ByOther)] + [e], w, a, 1);
  }

  function Left(u: World): World { Abandon(u).(page := SignOut(u.page), loaded := false, last := 0) }

  function Entered(u: World, theirs: Draft): World {
    Send(Abandon(u).(page := SignIn(Bump(u.page)), stored := theirs), 1, LoadRequest(u, u.page.auth.epoch + 1))
  }

  lemma LogoutStep(w: World, normal: Draft -> Draft, a: Draft)
    requires Opened(w)
    ensures var u := SaveQueued(w, normal, a, 2); var v := Left(u);
      Step(u, normal, Logout, v) && ObeysBut(IdleLogout, u, Logout, v)
    ensures var v := Left(SaveQueued(w, normal, a, 2));
      && v.page.auth.overlay && v.page.queue == [] && v.page.busy == NOT_BUSY && v.net == map[] && !v.starting && !v.loaded
      && v.strays == [Chain(seq(2, i => Save(1, a, 0)), None)]
  {
    var u := SaveQueued(w, normal, a, 2);
    assert SessionStep(u, Logout, Left(u));
  }

  lemma EnterStep(rule: Rule, w: World, normal: Draft -> Draft, a: Draft, v: World)
    requires v.page.auth.overlay && v.page.queue == [] && v.page.busy == NOT_BUSY && v.net == map[] && !v.starting && !v.loaded
    requires v.strays == [Chain(seq(2, i => Save(1, a, 0)), None)]
    ensures var e := Login(false, false, false, 1, w.stored); var x := Entered(v, w.stored);
      Step(v, normal, e, x) && ObeysBut(rule, v, e, x) && Reloading(w, normal, a, 2, x)
  {
    assert Authenticated(v.page, false, false, false) == (SignIn(Bump(v.page)), false);
    assert SessionStep(v, Login(false, false, false, 1, w.stored), Entered(v, w.stored));
  }

  lemma LogoutBreaks(w: World, normal: Draft -> Draft, a: Draft) returns (ws: seq<World>, es: seq<Event>)
    requires Opened(w) && Idempotent(normal) && normal(a) != normal(w.stored)
    ensures RunBut(IdleLogout, ws, normal, es) && ws[0] == w && Unstored(normal, ws[|ws| - 1])
  {
    ws, es := SavingRun(IdleLogout, w, normal, a, 2);
    LogoutStep(w, normal, a);
    var v := Left(SaveQueued(w, normal, a, 2));
    hide *;
    EnterStep(IdleLogout, w, normal, a, v);
    Then(IdleLogout, ws, normal, es, Logout, v);
    var e := Login(false, false, false, 1, w.stored);
    Then(IdleLogout, ws + [v], normal, es + [Logout], e, Entered(v, w.stored));
    ws, es := StrayRun(IdleLogout, ws + [v] + [Entered(v, w.stored)], normal, es + [Logout] + [e], w, a, 2);
  }

  /** Another request is refused, and the session turns out to be another account's. */
  function Switched(u: World, theirs: Draft): World {
    Send(Abandon(u), 1, LoadRequest(u, u.page.auth.epoch + 1)).(page := Renew(Reset(u.page)), stored := theirs, loaded := false, last := 0)
  }

  lemma SwitchStep(w: World, normal: Draft -> Draft, a: Draft)
    requires Opened(w)
    ensures var u := SaveQueued(w, normal, a, 2); var e := OtherAccount(ByOther, 1, w.stored); var v := Switched(u, w.stored);
      Step(u, normal, e, v) && ObeysBut(IdleOtherAccount, u, e, v) && Reloading(w, normal, a, 2, v)
  {
    var u := SaveQueued(w, normal, a, 2);
    assert SessionStep(u, OtherAccount(ByOther, 1, w.stored), Switched(u, w.stored));
  }

  lemma SwitchBreaks(w: World, normal: Draft -> Draft, a: Draft) returns (ws: seq<World>, es: seq<Event>)
    requires Opened(w) && Idempotent(normal) && normal(a) != normal(w.stored)
    ensures RunBut(IdleOtherAccount, ws, normal, es) && ws[0] == w && Unstored(normal, ws[|ws| - 1])
  {
    ws, es := SavingRun(IdleOtherAccount, w, normal, a, 2);
    SwitchStep(w, normal, a);
    hide *;
    var v := Switched(SaveQueued(w, normal, a, 2), w.stored);
    var e := OtherAccount(ByOther, 1, w.stored);
    Then(IdleOtherAccount, ws, normal, es, e, v);
    ws, es := StrayRun(IdleOtherAccount, ws + [v], normal, es + [e], w, a, 2);
  }

  // ----- a load that was sent before a save --------------------------------------------------------------------------------

  /** The load 0 has been answered; then an edit is made (1), its save queued (2), stored (3) and answered (4). */
  function Waiting(w: World, normal: Draft -> Draft, a: Draft, n: nat): World {
    var u := Loading(w, normal);
    if n == 0 then u
    else if n == 1 then u.(page := Shown(Edits(a, EMPTY, 1, 0), true, [], NOT_BUSY, None))
    else if n == 2 then u.(page := Shown(Edits(a, EMPTY, 1, 0), false, [Save(1, a, 0)], NOT_BUSY, None), issued := 1)
    else if n == 3 then u.(page := Shown(Edits(a, EMPTY, 1, 0), false, [Save(1, a, 0)], NOT_BUSY, None), issued := 1,
                           stored := normal(a), last := 1, served := Some(normal(a)))
    else u.(page := Shown(Edits(normal(a), normal(a), 1, 1), false, [], NOT_BUSY, None), issued := 1, stored := normal(a), last := 1)
  }

  function WaitingEvent(a: Draft, n: nat): Event {
    if n == 0 then Change(a, true) else if n == 1 then SaveClick else if n == 2 then StoreSave else AnswerSave
  }

  lemma WaitingStep(w: World, normal: Draft -> Draft, a: Draft, n: nat)
    requires Opened(w) && n < 4
    ensures var u, e, v := Waiting(w, normal, a, n), WaitingEvent(a, n), Waiting(w, normal, a, n + 1);
      Step(u, normal, e, v) && ObeysBut(FreshLoad, u, e, v)
  {
    var u, e, v := Waiting(w, normal, a, n), WaitingEvent(a, n), Waiting(w, normal, a, n + 1);
    assert n < 2 ==> PageStep(u, e, v);
    assert n >= 2 ==> SaveStep(u, normal, e, v);
  }

  lemma OutdatedLoadStep(w: World, normal: Draft -> Draft, a: Draft)
    requires Opened(w)
    ensures var u := Waiting(w, normal, a, 4); var v := Delivered(u, 0); var n := normal(w.stored);
      && Step(u, normal, Deliver(0), v) && ObeysBut(FreshLoad, u, Deliver(0), v)
      && v.loaded && v.page.edits == Edits(n, n, 0, 0) && v.stored == normal(a)
  {
    var u := Waiting(w, normal, a, 4);
    assert NetStep(u, normal, Deliver(0), Delivered(u, 0));
  }

  lemma LoadBreaks(w: World, normal: Draft -> Draft, a: Draft) returns (ws: seq<World>, es: seq<Event>)
    requires Opened(w) && Idempotent(normal) && normal(a) != normal(w.stored)
    ensures RunBut(FreshLoad, ws, normal, es) && ws[0] == w && Unstored(normal, ws[|ws| - 1])
  {
    AskStep(FreshLoad, w, normal);
    OutdatedLoadStep(w, normal, a);
    Start(FreshLoad, w, normal);
    var ask := Session(true, 0);
    var e := Serve(0, Answer(normal(w.stored), true, false));
    assert Waiting(w, normal, a, 0) == Loading(w, normal);
    hide RunBut, Step, ObeysBut, Opened, Asked, Loading, Waiting, WaitingEvent, Delivered;
    Then(FreshLoad, [w], normal, [], ask, Asked(w));
    Then(FreshLoad, [w] + [Asked(w)], normal, [] + [ask], e, Loading(w, normal));
    var stage := (n: nat) => Waiting(w, normal, a, n);
    var event := (n: nat) => WaitingEvent(a, n);
    forall n: nat | n < 4 ensures Leads(FreshLoad, normal, stage, event, n) { WaitingStep(w, normal, a, n); }
    ws, es := Along(FreshLoad, [w] + [Asked(w)] + [Loading(w, normal)], normal, [] + [ask] + [e], stage, event, 4);
    var v := Delivered(Waiting(w, normal, a, 4), 0);
    Then(FreshLoad, ws, normal, es, Deliver(0), v);
    ws, es := ws + [v], es + [Deliver(0)];
    FormIs(FreshLoad, ws, normal, es, a);
  }

  // ----- a session request while a check is under way ---------------------------------------------------------------------

  /** Before the session is known an edit is made (1), a validation is asked for (2) and sent (3); then the session request is answered
      (4) and so is its load (5). */
  function Early(w: World, normal: Draft -> Draft, a: Draft, n: nat): World {
    var flow := if n < 2 then Off else if n == 2 then Draining(0) else Sent;
    var page := Page(Edits(a, EMPTY, 1, 0), n == 1, false, [], Auth(n >= 4, false, 0), Busy(flow, Off, false), Intact, None);
    var check := Request(Validate, a, 1, 0, None);
    if n == 0 then w
    else if n <= 2 then w.(page := page)
    else if n == 3 then w.(page := page, net := map[1 := check], issued := 1)
    else w.(page := page, starting := false, issued := 1,
            net := map[1 := check, 0 := Request(Load, EMPTY, 1, 0, if n == 4 then None else Some(Answer(normal(w.stored), true, false)))])
  }

  function EarlyEvent(w: World, normal: Draft -> Draft, a: Draft, n: nat): Event {
    if n == 0 then Change(a, true) else if n == 1 then ValidateClick else if n == 2 then SendValidate(1)
    else if n == 3 then Session(true, 0) else Serve(0, Answer(normal(w.stored), true, false))
  }

  lemma EarlyPageStep(w: World, normal: Draft -> Draft, a: Draft, n: nat)
    requires Opened(w) && n < 3
    ensures var u, e, v := Early(w, normal, a, n), EarlyEvent(w, normal, a, n), Early(w, normal, a, n + 1);
      Step(u, normal, e, v) && ObeysBut(IdleSession, u, e, v)
  {
    assert PageStep(Early(w, normal, a, n), EarlyEvent(w, normal, a, n), Early(w, normal, a, n + 1));
  }

  lemma EarlyRestStep(w: World, normal: Draft -> Draft, a: Draft, n: nat)
    requires Opened(w) && n in {3, 4}
    ensures var u, e, v := Early(w, normal, a, n), EarlyEvent(w, normal, a, n), Early(w, normal, a, n + 1);
      Step(u, normal, e, v) && ObeysBut(IdleSession, u, e, v)
  {
    var u, e, v := Early(w, normal, a, n), EarlyEvent(w, normal, a, n), Early(w, normal, a, n + 1);
    if n == 3 { assert SessionStep(u, e, v); } else { assert NetStep(u, normal, e, v); }
  }

  lemma EarlyStep(w: World, normal: Draft -> Draft, a: Draft, n: nat)
    requires Opened(w) && n < 5
    ensures var u, e, v := Early(w, normal, a, n), EarlyEvent(w, normal, a, n), Early(w, normal, a, n + 1);
      Step(u, normal, e, v) && ObeysBut(IdleSession, u, e, v)
  {
    hide Opened, Early, EarlyEvent, Step, ObeysBut;
    if n < 3 { EarlyPageStep(w, normal, a, n); } else { EarlyRestStep(w, normal, a, n); }
  }

  /** The validation 1 is stored. */
  function Checked(u: World, normal: Draft -> Draft): World
    requires 1 in u.net
  {
    var r := u.net[1];
    Send(Store(u, normal, r.body, r.generation), 1, r.(answer := Some(Answer(normal(r.body), true, false))))
  }

  lemma CheckedStep(rule: Rule, u: World, normal: Draft -> Draft)
    requires 1 in u.net && !u.net[1].kind.Load? && u.net[1].answer.None? && !u.page.busy.Due()
    ensures var e := Serve(1, Answer(normal(u.net[1].body), true, false));
      Step(u, normal, e, Checked(u, normal)) && Plain(u, e, Checked(u, normal))
  {
    assert NetStep(u, normal, Serve(1, Answer(normal(u.net[1].body), true, false)), Checked(u, normal));
  }

  lemma EarlyLandStep(w: World, normal: Draft -> Draft, a: Draft)
    requires Opened(w)
    ensures var u := Early(w, normal, a, 5); var v := Delivered(u, 0); var n := normal(w.stored);
      && Step(u, normal, Deliver(0), v) && ObeysBut(IdleSession, u, Deliver(0), v)
      && v.loaded && v.page.edits == Edits(n, n, 0, 0) && 1 in v.net && v.net[1] == Request(Validate, a, 1, 0, None) && !v.page.busy.Due()
  {
    var u := Early(w, normal, a, 5);
    assert NetStep(u, normal, Deliver(0), Delivered(u, 0));
  }

  lemma SessionBreaks(w: World, normal: Draft -> Draft, a: Draft) returns (ws: seq<World>, es: seq<Event>)
    requires Opened(w) && Idempotent(normal) && normal(a) != normal(w.stored)
    ensures RunBut(IdleSession, ws, normal, es) && ws[0] == w && Unstored(normal, ws[|ws| - 1])
  {
    Start(IdleSession, w, normal);
    EarlyLandStep(w, normal, a);
    assert Early(w, normal, a, 0) == w;
    hide RunBut, Step, ObeysBut, Opened, Plain, Early, EarlyEvent, Delivered;
    var stage := (n: nat) => Early(w, normal, a, n);
    var event := (n: nat) => EarlyEvent(w, normal, a, n);
    forall n: nat | n < 5 ensures Leads(IdleSession, normal, stage, event, n) { EarlyStep(w, normal, a, n); }
    ws, es := Along(IdleSession, [w], normal, [], stage, event, 5);
    var v := Delivered(Early(w, normal, a, 5), 0);
    Then(IdleSession, ws, normal, es, Deliver(0), v);
    CheckedStep(IdleSession, v, normal);
    var e := Serve(1, Answer(normal(a), true, false));
    Next(IdleSession, ws + [v], normal, es + [Deliver(0)], e, Checked(v, normal));
    ws, es := ws + [v] + [Checked(v, normal)], es + [Deliver(0)] + [e];
    FormIs(IdleSession, ws, normal, es, a);
  }

  // ----- a save that is queued behind a check ---------------------------------------------------------------------------------

  /** A validation of the loaded draft is asked for (1) and sent (2); then an edit is made (3), its save queued (4), stored (5) and
      answered (6). */
  function Behind(w: World, normal: Draft -> Draft, a: Draft, n: nat): World {
    var d := normal(w.stored);
    var edits := if n < 3 then Edits(d, d, 0, 0) else if n < 6 then Edits(a, d, 1, 0) else Edits(normal(a), normal(a), 1, 1);
    var flow := if n == 0 then Off else if n == 1 then Draining(0) else Sent;
    var page := Shown(edits, n == 3, if n == 4 || n == 5 then [Save(1, a, 0)] else [], Busy(flow, Off, false), None);
    var u := Ready(w, normal).(page := page);
    if n < 2 then u
    else
      var v := u.(net := map[1 := Request(Validate, d, 0, 0, None)], issued := if n < 4 then 1 else 2);
      if n < 5 then v else v.(stored := normal(a), last := 1, served := if n == 5 then Some(normal(a)) else None)
  }

  function BehindEvent(a: Draft, n: nat): Event {
    if n == 0 then ValidateClick else if n == 1 then SendValidate(1) else if n == 2 then Change(a, true)
    else if n == 3 then Timer else if n == 4 then StoreSave else AnswerSave
  }

  lemma BehindPageStep(w: World, normal: Draft -> Draft, a: Draft, n: nat)
    requires Opened(w) && n < 4
    ensures var u, e, v := Behind(w, normal, a, n), BehindEvent(a, n), Behind(w, normal, a, n + 1);
      PageStep(u, e, v) && ObeysBut(SaveAfterChecks, u, e, v) && (u.page.busy.Due() ==> Urgent(e))
  {
  }

  lemma BehindSaveStep(w: World, normal: Draft -> Draft, a: Draft, n: nat)
    requires Opened(w) && n in {4, 5}
    ensures var u, e, v := Behind(w, normal, a, n), BehindEvent(a, n), Behind(w, normal, a, n + 1);
      SaveStep(u, normal, e, v) && ObeysBut(SaveAfterChecks, u, e, v) && !u.page.busy.Due()
  {
  }

  lemma BehindStep(w: World, normal: Draft -> Draft, a: Draft, n: nat)
    requires Opened(w) && n < 6
    ensures var u, e, v := Behind(w, normal, a, n), BehindEvent(a, n), Behind(w, normal, a, n + 1);
      Step(u, normal, e, v) && ObeysBut(SaveAfterChecks, u, e, v)
  {
    hide Opened, Behind, BehindEvent, PageStep, SaveStep, ObeysBut;
    if n < 4 { BehindPageStep(w, normal, a, n); } else { BehindSaveStep(w, normal, a, n); }
  }

  lemma SaveBreaks(w: World, normal: Draft -> Draft, a: Draft) returns (ws: seq<World>, es: seq<Event>)
    requires Opened(w) && Idempotent(normal) && normal(a) != normal(w.stored)
    ensures RunBut(SaveAfterChecks, ws, normal, es) && ws[0] == w && Unstored(normal, ws[|ws| - 1])
  {
    var d := normal(w.stored);
    ws, es := ReadyRun(SaveAfterChecks, w, normal);
    assert Behind(w, normal, a, 0) == Ready(w, normal);
    var v := Behind(w, normal, a, 6);
    assert v.loaded && v.page.edits == Edits(normal(a), normal(a), 1, 1) && !v.page.busy.Due() && v.net == map[1 := Request(Validate, d, 0, 0, None)];
    hide RunBut, Step, ObeysBut, Opened, Plain, Behind, BehindEvent, Ready;
    var stage := (n: nat) => Behind(w, normal, a, n);
    var event := (n: nat) => BehindEvent(a, n);
    forall n: nat | n < 6 ensures Leads(SaveAfterChecks, normal, stage, event, n) { BehindStep(w, normal, a, n); }
    ws, es := Along(SaveAfterChecks, ws, normal, es, stage, event, 6);
    CheckedStep(SaveAfterChecks, v, normal);
    var e := Serve(1, Answer(normal(d), true, false));
    Next(SaveAfterChecks, ws, normal, es, e, Checked(v, normal));
    ws, es := ws + [Checked(v, normal)], es + [e];
    FormIs(SaveAfterChecks, ws, normal, es, w.stored);
  }

  // ----- a session that is lost and comes back while checks wait -------------------------------------------------------------

  /** The page loaded, at rest but for the saves that are queued. */
  predicate Quiet(w: World) { w.loaded && !w.starting && w.served.None? && w.net == map[] }

  /** What an event of the page's own, or a session that is lost or comes back, makes of the page. */
  function Moved(p: Page, e: Event): Page {
    match e
    case Change(edited, proceed) => Edit(p, edited, proceed)
    case Timer => TimerFires(p)
    case SaveClick => Flush(p)
    case FlushAgain => Queue(p, p.edits.dirty)
    case ValidateClick => ClickValidate(p)
    case PublishClick => ClickPublish(p)
    case GoOnValidate => if p.busy.validate.Saving? then ResumeValidate(p) else p
    case GoOnPublish => if p.busy.publish.Saving? then ResumePublish(p) else p
    case SessionLost(_) => Expire(p)
    case SessionBack(_) => Renew(p)
    case _ => p
  }

  predicate CanMove(p: Page, e: Event) {
    && (p.busy.Due() ==> Urgent(e))
    && match e
       case Change(_, _) => true
       case Timer => p.timer
       case SaveClick => true
       case FlushAgain => p.auth.signedIn && p.edits.Gap()
       case ValidateClick => p.busy.validate.Off? && !p.auth.overlay
       case PublishClick => p.busy.publish.Off? && !p.auth.overlay && p.Current()
       case GoOnValidate => p.busy.validate.Saving? && p.busy.validate.Due()
       case GoOnPublish => p.busy.publish.Saving? && p.busy.publish.Due()
       case SessionLost(cause) => cause == ByOther
       case SessionBack(cause) => cause == ByOther
       case _ => false
  }

  function After(w: World, e: Event): World {
    if e.SessionLost? || e.SessionBack? then w.(page := Moved(w.page, e)) else Local(w, Moved(w.page, e))
  }

  lemma MoveStep(w: World, normal: Draft -> Draft, e: Event)
    requires Quiet(w) && CanMove(w.page, e)
    ensures Step(w, normal, e, After(w, e)) && ObeysBut(SessionKept, w, e, After(w, e)) && Quiet(After(w, e))
    ensures After(w, e).page == Moved(w.page, e)
  {
    hide Edit, TimerFires, Flush, Queue, ClickValidate, ClickPublish, ResumeValidate, ResumePublish;
    if e.SessionLost? || e.SessionBack? {
      assert SessionStep(w, e, After(w, e));
    } else {
      assert PageStep(w, e, After(w, e));
    }
  }

  ghost predicate Reached(ws: seq<World>, normal: Draft -> Draft, es: seq<Event>, w: World, p: Page) {
    RunBut(SessionKept, ws, normal, es) && ws[0] == w && Quiet(ws[|ws| - 1]) && ws[|ws| - 1].page == p
  }

  lemma Move(ws: seq<World>, normal: Draft -> Draft, es: seq<Event>, w: World, p: Page, e: Event)
    returns (us: seq<World>, fs: seq<Event>)
    requires Reached(ws, normal, es, w, p) && CanMove(p, e)
    ensures Reached(us, normal, fs, w, Moved(p, e))
  {
    Size(SessionKept, ws, normal, es);
    var u := ws[|ws| - 1];
    MoveStep(u, normal, e);
    hide RunBut, Step, ObeysBut, Quiet, Moved, After;
    Then(SessionKept, ws, normal, es, e, After(u, e));
    us, fs := ws + [After(u, e)], es + [e];
  }

  /** The running save is stored and answered. */
  lemma Settle(ws: seq<World>, normal: Draft -> Draft, es: seq<Event>, w: World, p: Page)
    returns (us: seq<World>, fs: seq<Event>)
    requires Reached(ws, normal, es, w, p) && p.queue != [] && !p.busy.Due()
    ensures Reached(us, normal, fs, w, SaveAnswered(p, normal(p.queue[0].snapshot)))
  {
    Size(SessionKept, ws, normal, es);
    var u := ws[|ws| - 1];
    SettleSteps(u, normal);
    hide RunBut, Step, ObeysBut, Plain, SaveAnswered;
    var v := Store(u, normal, p.queue[0].snapshot, p.queue[0].generation).(served := Some(normal(p.queue[0].snapshot)));
    var x := v.(page := SaveAnswered(p, normal(p.queue[0].snapshot)), served := None);
    Next(SessionKept, ws, normal, es, StoreSave, v);
    Next(SessionKept, ws + [v], normal, es + [StoreSave], AnswerSave, x);
    us, fs := ws + [v] + [x], es + [StoreSave] + [AnswerSave];
  }

  lemma SettleSteps(u: World, normal: Draft -> Draft)
    requires Quiet(u) && u.page.queue != [] && !u.page.busy.Due()
    ensures var s := u.page.queue[0]; var v := Store(u, normal, s.snapshot, s.generation).(served := Some(normal(s.snapshot)));
      var x := v.(page := SaveAnswered(u.page, normal(s.snapshot)), served := None);
      && Step(u, normal, StoreSave, v) && Plain(u, StoreSave, v) && Step(v, normal, AnswerSave, x) && Plain(v, AnswerSave, x) && Quiet(x)
  {
    var s := u.page.queue[0];
    var v := Store(u, normal, s.snapshot, s.generation).(served := Some(normal(s.snapshot)));
    assert SaveStep(u, normal, StoreSave, v);
    assert SaveStep(v, normal, AnswerSave, v.(page := SaveAnswered(u.page, normal(s.snapshot)), served := None));
  }

  /** A check goes out, is answered ok and shown. */
  lemma Checks(ws: seq<World>, normal: Draft -> Draft, es: seq<Event>, w: World, p: Page, kind: Kind)
    returns (us: seq<World>, fs: seq<Event>)
    requires Reached(ws, normal, es, w, p) && !kind.Load?
    requires if kind.Validate? then p.busy.validate == Draining(0) && !p.busy.publish.Due()
             else p.busy.publish == Draining(0) && p.Current() && !p.busy.validate.Due()
    ensures Reached(us, normal, fs, w, Shows(p, normal, kind))
  {
    Size(SessionKept, ws, normal, es);
    var u := ws[|ws| - 1];
    SendCheckStep(u, normal, kind);
    var v := SentCheck(u, 1, kind);
    CheckedStep(SessionKept, v, normal);
    var x := Checked(v, normal);
    ShowStep(x, normal, kind, p);
    hide RunBut, Step, ObeysBut, Plain, SentCheck, Checked, Delivered, Shows;
    var send := if kind.Validate? then SendValidate(1) else SendPublish(1);
    var serve := Serve(1, Answer(normal(p.edits.content), true, false));
    Next(SessionKept, ws, normal, es, send, v);
    Next(SessionKept, ws + [v], normal, es + [send], serve, x);
    Next(SessionKept, ws + [v] + [x], normal, es + [send] + [serve], Deliver(1), Delivered(x, 1));
    us, fs := ws + [v] + [x] + [Delivered(x, 1)], es + [send] + [serve] + [Deliver(1)];
  }

  function Shows(p: Page, normal: Draft -> Draft, kind: Kind): Page {
    if kind.Validate? then ValidateAnswered(p, normal(p.edits.content), true, p.edits.dirty)
    else PublishAnswered(p, normal(p.edits.content), p.edits.dirty)
  }

  lemma SendCheckStep(u: World, normal: Draft -> Draft, kind: Kind)
    requires Quiet(u) && !kind.Load?
    requires if kind.Validate? then u.page.busy.validate == Draining(0) else u.page.busy.publish == Draining(0) && u.page.Current()
    ensures var v := SentCheck(u, 1, kind); var e := if kind.Validate? then SendValidate(1) else SendPublish(1);
      && Step(u, normal, e, v) && Plain(u, e, v) && v.loaded && !v.starting && v.served.None?
      && v.net == map[1 := Request(kind, u.page.edits.content, u.page.edits.dirty, u.page.auth.epoch, None)]
      && v.page == u.page.(busy := if kind.Validate? then u.page.busy.(validate := Sent) else u.page.busy.(publish := Sent))
  {
    assert PageStep(u, if kind.Validate? then SendValidate(1) else SendPublish(1), SentCheck(u, 1, kind));
  }

  lemma ShowStep(x: World, normal: Draft -> Draft, kind: Kind, p: Page)
    requires x.loaded && !x.starting && x.served.None? && !kind.Load? && !x.page.busy.Due()
    requires x.page == p.(busy := if kind.Validate? then p.busy.(validate := Sent) else p.busy.(publish := Sent))
    requires x.net == map[1 := Request(kind, p.edits.content, p.edits.dirty, p.auth.epoch, Some(Answer(normal(p.edits.content), true, false)))]
    ensures var v := Delivered(x, 1);
      Step(x, normal, Deliver(1), v) && Plain(x, Deliver(1), v) && Quiet(v) && v.page == Shows(p, normal, kind)
  {
    assert x.net - {1} == map[];
    assert NetStep(x, normal, Deliver(1), Delivered(x, 1));
  }

  /** The page at the turns of the run. Every `FlushAgain` in it is the flush of a save button that goes on after its own save, an edit
      made behind the login layer comes from an import that is answered and flushed. */
  function Turn(normal: Draft -> Draft, d: Draft, a: Draft, b: Draft, k: nat): Page {
    var f, g := normal(a), normal(b);
    var n, r := Save(2, f, 0), Save(3, a, 0);
    if k == 0 then Rest(Edits(d, d, 0, 0), NOT_BUSY, None)
    else if k == 1 then Page(Edits(f, f, 2, 1), true, false, [Save(2, a, 0)], Auth(true, false, 0), NOT_BUSY, Intact, Some(2))
    else if k == 2 then
      Page(Edits(a, f, 3, 2), true, false, [n, n, n, n], Auth(true, false, 0), Busy(Saving(2, 1), Saving(2, 3), false), Intact, None)
    else if k == 3 then
      Page(Edits(a, f, 3, 2), true, false, [n, r], Auth(true, true, 0), Busy(Saving(3, 1), Saving(3, 2), false), Intact, None)
    else if k == 4 then
      Page(Edits(b, f, 5, 3), false, false, [r, r, Save(4, a, 0), Save(5, b, 0)], Auth(true, true, 0),
           Busy(Draining(1), Draining(2), false), Intact, None)
    else
      Page(Edits(normal(g), normal(g), 5, 5), false, false, [Save(4, a, 0), Save(5, b, 0), Save(5, b, 0)],
           Auth(true, true, 0), NOT_BUSY, Intact, Some(5))
  }

  /** An edit is saved twice; a validation waits for the second save while a new edit is made, and stamps that edit before
      it is saved. */
  lemma Part1(ws: seq<World>, normal: Draft -> Draft, es: seq<Event>, w: World, d: Draft, a: Draft, b: Draft)
    returns (us: seq<World>, fs: seq<Event>)
    requires Reached(ws, normal, es, w, Turn(normal, d, a, b, 0))
    ensures Reached(us, normal, fs, w, Turn(normal, d, a, b, 1))
  {
    hide Reached;
    us, fs := ws, es;
    var p := Turn(normal, d, a, b, 0);
    us, fs := Move(us, normal, fs, w, p, Change(a, true));
    p := Moved(p, Change(a, true));
    us, fs := Move(us, normal, fs, w, p, SaveClick);
    p := Moved(p, SaveClick);
    us, fs := Move(us, normal, fs, w, p, SaveClick);
    p := Moved(p, SaveClick);
    us, fs := Settle(us, normal, fs, w, p);
    p := SaveAnswered(p, normal(p.queue[0].snapshot));
    us, fs := Move(us, normal, fs, w, p, ValidateClick);
    p := Moved(p, ValidateClick);
    us, fs := Move(us, normal, fs, w, p, Change(a, true));
    p := Moved(p, Change(a, true));
    us, fs := Settle(us, normal, fs, w, p);
    p := SaveAnswered(p, normal(p.queue[0].snapshot));
    us, fs := Move(us, normal, fs, w, p, FlushAgain);
    p := Moved(p, FlushAgain);
    us, fs := Checks(us, normal, fs, w, p, Validate);
    p := Shows(p, normal, Validate);
    assert p.queue == Turn(normal, d, a, b, 1).queue;
    assert p == Turn(normal, d, a, b, 1);
  }

  /** A validation, a save, a publication and another save are asked for, in this order; the first save queued is answered,
      and an edit is made. */
  lemma Part2(ws: seq<World>, normal: Draft -> Draft, es: seq<Event>, w: World, d: Draft, a: Draft, b: Draft)
    returns (us: seq<World>, fs: seq<Event>)
    requires Reached(ws, normal, es, w, Turn(normal, d, a, b, 1))
    ensures Reached(us, normal, fs, w, Turn(normal, d, a, b, 2))
  {
    hide Reached;
    us, fs := ws, es;
    var p := Turn(normal, d, a, b, 1);
    us, fs := Move(us, normal, fs, w, p, ValidateClick);
    p := Moved(p, ValidateClick);
    us, fs := Move(us, normal, fs, w, p, SaveClick);
    p := Moved(p, SaveClick);
    us, fs := Move(us, normal, fs, w, p, PublishClick);
    p := Moved(p, PublishClick);
    us, fs := Move(us, normal, fs, w, p, SaveClick);
    p := Moved(p, SaveClick);
    us, fs := Settle(us, normal, fs, w, p);
    p := SaveAnswered(p, normal(p.queue[0].snapshot));
    us, fs := Move(us, normal, fs, w, p, Change(a, true));
    p := Moved(p, Change(a, true));
    assert p.queue == Turn(normal, d, a, b, 2).queue;
    assert p == Turn(normal, d, a, b, 2);
  }

  /** The session is lost while the validation goes on, so it waits for what is queued at this moment; the session comes
      back, and the first save's flush queues the edit; the session is lost again while the publication goes on, and comes
      back. */
  lemma Part3(ws: seq<World>, normal: Draft -> Draft, es: seq<Event>, w: World, d: Draft, a: Draft, b: Draft)
    returns (us: seq<World>, fs: seq<Event>)
    requires Reached(ws, normal, es, w, Turn(normal, d, a, b, 2))
    ensures Reached(us, normal, fs, w, Turn(normal, d, a, b, 3))
  {
    hide Reached;
    us, fs := ws, es;
    var p := Turn(normal, d, a, b, 2);
    us, fs := Move(us, normal, fs, w, p, SessionLost(ByOther));
    p := Moved(p, SessionLost(ByOther));
    us, fs := Settle(us, normal, fs, w, p);
    p := SaveAnswered(p, normal(p.queue[0].snapshot));
    us, fs := Move(us, normal, fs, w, p, GoOnValidate);
    p := Moved(p, GoOnValidate);
    us, fs := Move(us, normal, fs, w, p, SessionBack(ByOther));
    p := Moved(p, SessionBack(ByOther));
    us, fs := Settle(us, normal, fs, w, p);
    p := SaveAnswered(p, normal(p.queue[0].snapshot));
    us, fs := Move(us, normal, fs, w, p, FlushAgain);
    p := Moved(p, FlushAgain);
    us, fs := Move(us, normal, fs, w, p, SessionLost(ByOther));
    p := Moved(p, SessionLost(ByOther));
    us, fs := Settle(us, normal, fs, w, p);
    p := SaveAnswered(p, normal(p.queue[0].snapshot));
    us, fs := Move(us, normal, fs, w, p, GoOnPublish);
    p := Moved(p, GoOnPublish);
    us, fs := Move(us, normal, fs, w, p, SessionBack(ByOther));
    p := Moved(p, SessionBack(ByOther));
    assert p.queue == Turn(normal, d, a, b, 3).queue;
    assert p == Turn(normal, d, a, b, 3);
  }

  /** The validation is at its last wait before the edit is saved, the publication after; then two more edits are made and
      queued. */
  lemma Part4(ws: seq<World>, normal: Draft -> Draft, es: seq<Event>, w: World, d: Draft, a: Draft, b: Draft)
    returns (us: seq<World>, fs: seq<Event>)
    requires Reached(ws, normal, es, w, Turn(normal, d, a, b, 3))
    ensures Reached(us, normal, fs, w, Turn(normal, d, a, b, 4))
  {
    hide Reached;
    us, fs := ws, es;
    var p := Turn(normal, d, a, b, 3);
    us, fs := Settle(us, normal, fs, w, p);
    p := SaveAnswered(p, normal(p.queue[0].snapshot));
    us, fs := Move(us, normal, fs, w, p, FlushAgain);
    p := Moved(p, FlushAgain);
    us, fs := Move(us, normal, fs, w, p, GoOnValidate);
    p := Moved(p, GoOnValidate);
    us, fs := Move(us, normal, fs, w, p, Timer);
    p := Moved(p, Timer);
    us, fs := Settle(us, normal, fs, w, p);
    p := SaveAnswered(p, normal(p.queue[0].snapshot));
    us, fs := Move(us, normal, fs, w, p, GoOnPublish);
    p := Moved(p, GoOnPublish);
    us, fs := Move(us, normal, fs, w, p, Change(a, true));
    p := Moved(p, Change(a, true));
    us, fs := Move(us, normal, fs, w, p, SaveClick);
    p := Moved(p, SaveClick);
    us, fs := Move(us, normal, fs, w, p, Change(b, true));
    p := Moved(p, Change(b, true));
    us, fs := Move(us, normal, fs, w, p, SaveClick);
    p := Moved(p, SaveClick);
    assert p.queue == Turn(normal, d, a, b, 4).queue;
    assert p == Turn(normal, d, a, b, 4);
  }

  /** The validation stamps the last edit, and the publication follows over the save of the edit before it. */
  lemma Part5(ws: seq<World>, normal: Draft -> Draft, es: seq<Event>, w: World, d: Draft, a: Draft, b: Draft)
    returns (us: seq<World>, fs: seq<Event>)
    requires Reached(ws, normal, es, w, Turn(normal, d, a, b, 4))
    ensures Reached(us, normal, fs, w, Turn(normal, d, a, b, 5))
  {
    hide Reached;
    us, fs := ws, es;
    var p := Turn(normal, d, a, b, 4);
    us, fs := Settle(us, normal, fs, w, p);
    p := SaveAnswered(p, normal(p.queue[0].snapshot));
    us, fs := Move(us, normal, fs, w, p, FlushAgain);
    p := Moved(p, FlushAgain);
    us, fs := Checks(us, normal, fs, w, p, Validate);
    p := Shows(p, normal, Validate);
    us, fs := Settle(us, normal, fs, w, p);
    p := SaveAnswered(p, normal(p.queue[0].snapshot));
    us, fs := Checks(us, normal, fs, w, p, Publish);
    p := Shows(p, normal, Publish);
    assert p.queue == Turn(normal, d, a, b, 5).queue;
    assert p == Turn(normal, d, a, b, 5);
  }

  lemma SessionLossBreaks(w: World, normal: Draft -> Draft, a: Draft, b: Draft) returns (ws: seq<World>, es: seq<Event>)
    requires Opened(w) && Idempotent(normal) && normal(a) != normal(b)
    ensures RunBut(SessionKept, ws, normal, es) && ws[0] == w && Unstored(normal, ws[|ws| - 1])
  {
    var d := normal(w.stored);
    ws, es := ReadyRun(SessionKept, w, normal);
    assert Reached(ws, normal, es, w, Turn(normal, d, a, b, 0));
    hide Reached, Turn, RunBut, Opened, Idempotent;
    ws, es := Part1(ws, normal, es, w, d, a, b);
    ws, es := Part2(ws, normal, es, w, d, a, b);
    ws, es := Part3(ws, normal, es, w, d, a, b);
    ws, es := Part4(ws, normal, es, w, d, a, b);
    ws, es := Part5(ws, normal, es, w, d, a, b);
    ws, es := LastStore(ws, normal, es, w, d, a, b);
  }

  /** The older save is stored over what has been published. */
  lemma LastStore(ws: seq<World>, normal: Draft -> Draft, es: seq<Event>, w: World, d: Draft, a: Draft, b: Draft)
    returns (us: seq<World>, fs: seq<Event>)
    requires Reached(ws, normal, es, w, Turn(normal, d, a, b, 5)) && normal(a) != normal(b)
    ensures RunBut(SessionKept, us, normal, fs) && us[0] == w && Unstored(normal, us[|us| - 1])
  {
    Size(SessionKept, ws, normal, es);
    var u := ws[|ws| - 1];
    SettleSteps(u, normal);
    FormIs(SessionKept, ws, normal, es, a);
    FormIs(SessionKept, ws, normal, es, b);
    hide RunBut, Step, Plain;
    var v := Store(u, normal, a, 4).(served := Some(normal(a)));
    Next(SessionKept, ws, normal, es, StoreSave, v);
    us, fs := ws + [v], es + [StoreSave];
  }

  // ----- every rule -----------------------------------------------------------------------------------------------------------------

  /** Whatever the server holds when the page is opened: without one of the rules, a run that obeys the others shows a draft as saved
      that the server does not hold. */
  lemma RuleNeeded(rule: Rule, w: World, normal: Draft -> Draft, a: Draft, b: Draft)
    returns (ws: seq<World>, es: seq<Event>)
    requires Opened(w) && Idempotent(normal) && normal(a) != normal(b)
    ensures RunBut(rule, ws, normal, es) && ws[0] == w && Unstored(normal, ws[|ws| - 1])
  {
    hide RunBut, Opened, Idempotent, Unstored;
    var x := if normal(a) != normal(w.stored) then a else b;
    match rule
    case FreshLoad => ws, es := LoadBreaks(w, normal, x);
    case IdleSession => ws, es := SessionBreaks(w, normal, x);
    case IdleOtherAccount => ws, es := SwitchBreaks(w, normal, x);
    case IdleLogin => ws, es := LoginBreaks(w, normal, x);
    case IdleLogout => ws, es := LogoutBreaks(w, normal, x);
    case SaveAfterChecks => ws, es := SaveBreaks(w, normal, x);
    case SessionKept => ws, es := SessionLossBreaks(w, normal, a, b);
  }
}
