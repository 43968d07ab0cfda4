/** Runs in which a draft is published that was never validated: a load lands while a check that can still set the stamp is under
    way, or while saves are queued that a later validation can be overtaken behind (design/assets/app.js). */
module DraftUnvalidated {
  import opened Options
  import opened DraftPage
  import opened DraftProtocol
  import opened DraftSafety
  import opened DraftFlows
  import opened DraftKept
  import opened DraftOvertaken

  /** The run ends with a publication of another draft than the one last answered ok. */
  ghost predicate BadPublish(ws: seq<World>, es: seq<Event>)
    requires |ws| == |es| + 1 && es != []
  {
    var e, w, v := es[|es| - 1], ws[|es| - 1], ws[|es|];
    e.SendPublish? && e.id in v.net && v.net[e.id].kind.Publish? && v.net[e.id].body != w.lastOk
  }

  lemma {:induction false} PathWired(ws: seq<World>, normal: Draft -> Draft, es: seq<Event>, n: nat)
    requires Overtaken(ws, normal, es) && Wired(ws[0]) && n < |ws|
    ensures Wired(ws[n])
  {
    hide Step, Wired, Lands;
    if n > 0 {
      PathWired(ws, normal, es, n - 1);
      StepWired(ws[n - 1], normal, es[n - 1], ws[n]);
    }
  }

  /** The page is open and signed in. */
  predicate Open(p: Page) { p.auth.signedIn && !p.auth.overlay }

  // ----- single steps ------------------------------------------------------------------------------------------------------

  lemma TimerStep(w: World, normal: Draft -> Draft)
    requires w.page.timer && w.page.edits.Gap() && w.page.auth.signedIn && !w.page.busy.Due()
    ensures var v := Local(w, TimerFires(w.page));
      && Step(w, normal, Timer, v) && !Lands(w, Timer)
      && v.page.edits == w.page.edits && v.page.stamp == w.page.stamp && v.page.auth == w.page.auth && v.page.busy == w.page.busy
      && v.page.queue == w.page.queue + [Save(w.page.edits.dirty, w.page.edits.content, w.page.auth.epoch)]
      && v.net == w.net && v.lastOk == w.lastOk && v.served == w.served
  {
    assert PageStep(w, Timer, Local(w, TimerFires(w.page)));
  }

  /** A check fails. */
  lemma FailCheckStep(w: World, normal: Draft -> Draft, c: nat)
    requires UnderWay(w, c) && !w.page.busy.Due()
    ensures var v := Failed(w, c);
      && Step(w, normal, Fail(c), v) && !Lands(w, Fail(c)) && v.net == w.net - {c} && v.served == w.served && v.lastOk == w.lastOk
      && v.page == w.page.(busy := if w.net[c].kind.Validate? then w.page.busy.(validate := Off) else w.page.busy.(publish := Off))
  {
    assert NetStep(w, normal, Fail(c), Failed(w, c));
  }

  /** How a flow stands when the next n saves have failed. */
  function Left(flow: Flow, n: nat): Flow {
    match flow
    case Saving(generation, ahead) => if ahead <= n then Off else Saving(generation, ahead - n)
    case Draining(ahead) => if ahead <= n then Off else Draining(ahead - n)
    case _ => flow
  }

  /** The next n saves have failed. */
  ghost predicate Dropped(w: World, v: World, n: nat) {
    && n <= |w.page.queue| && v.page.queue == w.page.queue[n..] && v.page.edits == w.page.edits && v.page.auth == w.page.auth
    && v.page.stamp == w.page.stamp && v.page.health == w.page.health
    && v.page.busy.validate == Left(w.page.busy.validate, n) && v.page.busy.publish == Left(w.page.busy.publish, n)
    && v.net == w.net && v.lastOk == w.lastOk && (if n == 0 then v == w else v.served.None?)
  }

  lemma DropStep(w: World, normal: Draft -> Draft, u: World, n: nat)
    requires Dropped(w, u, n) && n < |w.page.queue| && !w.page.busy.Due()
    ensures var v := u.(page := SaveFailed(u.page), served := None);
      Step(u, normal, FailSave, v) && !Lands(u, FailSave) && Dropped(w, v, n + 1) && !u.page.busy.Due()
  {
    assert u.page.queue[1..] == w.page.queue[n + 1..];
    assert SaveStep(u, normal, FailSave, u.(page := SaveFailed(u.page), served := None));
  }

  lemma {:induction false} FailMore(ws: seq<World>, normal: Draft -> Draft, es: seq<Event>, n: nat)
    returns (us: seq<World>, fs: seq<Event>)
    requires Overtaken(ws, normal, es) && n <= |ws[|ws| - 1].page.queue| && !ws[|ws| - 1].page.busy.Due()
    ensures Overtaken(us, normal, fs) && us[0] == ws[0] && fs[0] == es[0]
    ensures Dropped(ws[|ws| - 1], us[|us| - 1], n) && !us[|us| - 1].page.busy.Due()
  {
    Sizes(ws, normal, es);
    hide Step, Overtaken, Lands, SaveFailed;
    if n == 0 {
      us, fs := ws, es;
    } else {
      us, fs := FailMore(ws, normal, es, n - 1);
      Sizes(us, normal, fs);
      var u := us[|us| - 1];
      DropStep(ws[|ws| - 1], normal, u, n - 1);
      var v := u.(page := SaveFailed(u.page), served := None);
      More(us, normal, fs, FailSave, v);
      us, fs := us + [v], fs + [FailSave];
      DroppedRests(ws[|ws| - 1], v, n);
    }
  }

  lemma DroppedRests(w: World, v: World, n: nat)
    requires Dropped(w, v, n) && !w.page.busy.Due()
    ensures !v.page.busy.Due()
  {
  }

  // ----- the end of a bad run ------------------------------------------------------------------------------------------------

  lemma PublishStep(w: World, normal: Draft -> Draft, k: nat)
    requires w.page.busy.publish == Draining(0) && w.page.Current() && k !in w.net
    ensures Step(w, normal, SendPublish(k), SentCheck(w, k, Publish)) && !Lands(w, SendPublish(k))
    ensures var v := SentCheck(w, k, Publish); k in v.net && v.net[k].kind.Publish? && v.net[k].body == w.page.edits.content
  {
    assert PageStep(w, SendPublish(k), SentCheck(w, k, Publish));
  }

  /** The publication has nothing to wait for. */
  lemma ReadyStep(w: World, normal: Draft -> Draft)
    requires Open(w.page) && !w.page.edits.Gap() && w.page.queue == [] && !w.page.busy.rejected && w.page.Current()
    requires !w.page.busy.validate.Due()
    ensures w.page.busy.publish.Off? ==>
      var v := Local(w, ClickPublish(w.page)); Step(w, normal, PublishClick, v) && v.page.busy.publish == Draining(0)
    ensures w.page.busy.publish.Saving? && w.page.busy.publish.Due() ==>
      var v := Local(w, ResumePublish(w.page)); Step(w, normal, GoOnPublish, v) && v.page.busy.publish == Draining(0)
    ensures ReadyPages(w)
  {
    if w.page.busy.publish.Off? { assert PageStep(w, PublishClick, Local(w, ClickPublish(w.page))); }
    if w.page.busy.publish.Saving? && w.page.busy.publish.Due() { assert PageStep(w, GoOnPublish, Local(w, ResumePublish(w.page))); }
  }

  ghost predicate ReadyPages(w: World) {
    SameDraft(w, Local(w, ClickPublish(w.page)))
    && (w.page.busy.publish.Saving? ==> SameDraft(w, Local(w, ResumePublish(w.page))))
  }

  predicate SameDraft(w: World, v: World) {
    v.page.edits == w.page.edits && v.page.stamp == w.page.stamp && v.net == w.net && v.lastOk == w.lastOk
  }

  /** A stamped draft that is not the validated one gets published: the publication under way fails and another is asked for, or the
      waiting one goes on. */
  lemma Finish(ws: seq<World>, normal: Draft -> Draft, es: seq<Event>, k: nat)
    returns (us: seq<World>, fs: seq<Event>)
    requires Overtaken(ws, normal, es) && Wired(ws[0])
    requires var w := ws[|ws| - 1];
      && Open(w.page) && w.page.Current() && !w.page.edits.Gap() && w.page.queue == [] && !w.page.busy.rejected
      && !w.page.busy.validate.Due() && k !in w.net && w.page.edits.content != w.lastOk
    ensures Overtaken(us, normal, fs) && us[0] == ws[0] && fs[0] == es[0]
    ensures |us| == |fs| + 1 && fs != [] && BadPublish(us, fs)
  {
    Sizes(ws, normal, es);
    PathWired(ws, normal, es, |ws| - 1);
    us, fs := ws, es;
    var u := ws[|ws| - 1];
    assert PageFits(u.page);
    if u.page.busy.publish.Sent? {
      var c :| InFlight(u.net, u.page.auth.epoch, Publish, c);
      FailCheckStep(u, normal, c);
      hide Step, Overtaken, Lands, Failed;
      More(us, normal, fs, Fail(c), Failed(u, c));
      us, fs, u := us + [Failed(u, c)], fs + [Fail(c)], Failed(u, c);
    }
    us, fs := FinishReady(us, normal, fs, k);
  }

  lemma FinishReady(ws: seq<World>, normal: Draft -> Draft, es: seq<Event>, k: nat)
    returns (us: seq<World>, fs: seq<Event>)
    requires Overtaken(ws, normal, es)
    requires var w := ws[|ws| - 1];
      && Open(w.page) && w.page.Current() && !w.page.edits.Gap() && w.page.queue == [] && !w.page.busy.rejected
      && !w.page.busy.validate.Due() && k !in w.net && w.page.edits.content != w.lastOk
      && !w.page.busy.publish.Sent? && PageFits(w.page)
    ensures Overtaken(us, normal, fs) && us[0] == ws[0] && fs[0] == es[0]
    ensures |us| == |fs| + 1 && fs != [] && BadPublish(us, fs)
  {
    hide Step, Overtaken, Lands, ClickPublish, ResumePublish, Local;
    Sizes(ws, normal, es);
    us, fs := ws, es;
    var u := ws[|ws| - 1];
    ReadyStep(u, normal);
    if u.page.busy.publish.Off? {
      var v := Local(u, ClickPublish(u.page));
      NoLanding(u, PublishClick);
      More(us, normal, fs, PublishClick, v);
      us, fs, u := us + [v], fs + [PublishClick], v;
    } else if u.page.busy.publish.Saving? {
      var v := Local(u, ResumePublish(u.page));
      NoLanding(u, GoOnPublish);
      More(us, normal, fs, GoOnPublish, v);
      us, fs, u := us + [v], fs + [GoOnPublish], v;
    }
    PublishStep(u, normal, k);
    hide SentCheck;
    More(us, normal, fs, SendPublish(k), SentCheck(u, k, Publish));
    us, fs := us + [SentCheck(u, k, Publish)], fs + [SendPublish(k)];
    Sizes(us, normal, fs);
  }

  lemma NoLanding(w: World, e: Event)
    requires !e.Deliver?
    ensures !Lands(w, e)
  {
  }

  // ----- a check that can still set the stamp ---------------------------------------------------------------------------------

  predicate Stamps(w: World, c: nat) {
    UnderWay(w, c) && w.net[c].generation > 0 && (w.net[c].kind.Publish? || w.net[c].answer.None? || w.net[c].answer.value.ok)
  }

  /** With nothing queued: edits that reach the generation of the check are queued for saving and stamped by its answer, and
      their save then puts them back over the draft that was checked. */
  lemma OverCheck(ws: seq<World>, normal: Draft -> Draft, es: seq<Event>, c: nat, k: nat, a: Draft, b: Draft)
    returns (us: seq<World>, fs: seq<Event>)
    requires Overtaken(ws, normal, es) && Wired(ws[0]) && Idempotent(normal) && normal(a) != normal(b)
    requires var w := ws[|ws| - 1];
      && Open(w.page) && w.page.queue == [] && w.page.edits.dirty == 0 && w.page.edits.saved == 0 && w.served.None? && !w.page.busy.Due()
      && !Waiting(w.page.busy.validate) && Stamps(w, c) && k !in w.net
      && (w.net[c].answer.Some? ==> w.net[c].answer.value.config == normal(w.net[c].body))
    ensures Overtaken(us, normal, fs) && us[0] == ws[0] && fs[0] == es[0]
    ensures |us| == |fs| + 1 && fs != [] && BadPublish(us, fs)
  {
    Sizes(ws, normal, es);
    var r := ws[|ws| - 1].net[c];
    assert normal(normal(r.body)) == normal(r.body);
    hide Step, Overtaken, Delivered, TimerFires, SaveAnswered, BadPublish, Wired, Idempotent;
    var x := OtherForm(normal, a, b, r.body);
    us, fs := EditMore(ws, normal, es, x, r.generation);
    Sizes(us, normal, fs);
    var u := us[|us| - 1];
    TimerStep(u, normal);
    hide Lands;
    var s := Save(r.generation, x, u.page.auth.epoch);
    var v := Local(u, TimerFires(u.page));
    hide Local;
    More(us, normal, fs, Timer, v);
    us, fs := ServeCheck(us + [v], normal, fs + [Timer], c);
    Sizes(us, normal, fs);
    u := us[|us| - 1];
    CheckStep(u, normal, c);
    More(us, normal, fs, Deliver(c), Delivered(u, c));
    us, fs := SaveBack(us + [Delivered(u, c)], normal, fs + [Deliver(c)], s, k);
  }

  /** The only save queued is answered under a stamp for another draft. */
  lemma SaveBack(ws: seq<World>, normal: Draft -> Draft, es: seq<Event>, s: Save, k: nat)
    returns (us: seq<World>, fs: seq<Event>)
    requires Overtaken(ws, normal, es) && Wired(ws[0])
    requires var w := ws[|ws| - 1];
      && Open(w.page) && w.page.queue == [s] && s.epoch == w.page.auth.epoch && s.generation == w.page.edits.dirty
      && w.page.stamp == Some(s.generation) && (w.served.Some? ==> w.served.value == normal(s.snapshot)) && !w.page.busy.Due()
      && !Waiting(w.page.busy.validate) && k !in w.net && normal(s.snapshot) != w.lastOk
    ensures Overtaken(us, normal, fs) && us[0] == ws[0] && fs[0] == es[0]
    ensures |us| == |fs| + 1 && fs != [] && BadPublish(us, fs)
  {
    hide Step, Overtaken, Lands, SaveAnswered, BadPublish, Wired;
    us, fs := ServeHead(ws, normal, es, s);
    Sizes(us, normal, fs);
    var u := us[|us| - 1];
    AnswerStep(u, normal, s);
    var v := u.(page := SaveAnswered(u.page, normal(s.snapshot)), served := None);
    More(us, normal, fs, AnswerSave, v);
    us, fs := Finish(us + [v], normal, fs + [AnswerSave], k);
  }

  /** The load lands, and every queued save fails. */
  lemma PublishedOverCheck(normal: Draft -> Draft, w: World, id: nat, c: nat, k: nat, a: Draft, b: Draft)
    returns (ws: seq<World>, es: seq<Event>)
    requires Kept(normal, w) && Wired(w) && Idempotent(normal) && Arrives(w, id) && normal(a) != normal(b)
    requires Stamps(w, c) && k !in w.net
    ensures Overtaken(ws, normal, es) && ws[0] == w && es[0] == Deliver(id) && |ws| == |es| + 1 && es != [] && BadPublish(ws, es)
  {
    AnsweredForm(normal, w, c);
    ServedHead(normal, w);
    LandStep(w, normal, id);
    assert PageFits(w.page);
    hide Step, Overtaken, Delivered, BadPublish, Wired, Idempotent, Kept, Lands;
    ws, es := FailMore([w, Delivered(w, id)], normal, [Deliver(id)], |w.page.queue|);
    Sizes(ws, normal, es);
    ws, es := OverCheck(ws, normal, es, c, k, a, b);
  }

  // ----- a validation that waits only for saves from before the load -----------------------------------------------------------

  lemma ClickValidateStep(w: World, normal: Draft -> Draft)
    requires Open(w.page) && !w.page.edits.Gap() && w.page.queue != [] && w.page.busy.validate.Off? && !w.page.busy.Due()
    ensures var v := Local(w, ClickValidate(w.page));
      && Step(w, normal, ValidateClick, v) && !Lands(w, ValidateClick)
      && v == w.(page := w.page.(timer := false, busy := w.page.busy.(validate := Draining(|w.page.queue|))))
  {
    assert PageStep(w, ValidateClick, Local(w, ClickValidate(w.page)));
  }

  /** The publication cannot go out without a stamp: it gives up or waits for what is queued. */
  lemma YieldStep(w: World, normal: Draft -> Draft)
    requires !w.page.edits.Gap() && w.page.queue != [] && !w.page.Current() && w.page.busy.publish.Due()
    ensures w.page.busy.publish.Draining? ==>
      var v := w.(page := w.page.(busy := w.page.busy.(publish := Off))); Step(w, normal, RefusePublish, v)
    ensures w.page.busy.publish.Saving? ==>
      var v := w.(page := w.page.(busy := w.page.busy.(publish := Draining(|w.page.queue|)))); Step(w, normal, GoOnPublish, v)
  {
    if w.page.busy.publish.Draining? {
      assert PageStep(w, RefusePublish, w.(page := w.page.(busy := w.page.busy.(publish := Off))));
    } else {
      assert PageStep(w, GoOnPublish, w.(page := w.page.(busy := w.page.busy.(publish := Draining(|w.page.queue|)))));
    }
  }

  lemma Yields(ws: seq<World>, normal: Draft -> Draft, es: seq<Event>)
    returns (us: seq<World>, fs: seq<Event>)
    requires Overtaken(ws, normal, es)
    requires var w := ws[|ws| - 1]; !w.page.edits.Gap() && w.page.queue != [] && !w.page.Current()
    ensures Overtaken(us, normal, fs) && us[0] == ws[0] && fs[0] == es[0]
    ensures var w, v := ws[|ws| - 1], us[|us| - 1];
      v == w.(page := w.page.(busy := w.page.busy.(publish := v.page.busy.publish))) && !v.page.busy.publish.Due()
  {
    hide Step, Overtaken, Lands;
    Sizes(ws, normal, es);
    us, fs := ws, es;
    var u := ws[|ws| - 1];
    if u.page.busy.publish.Due() {
      YieldStep(u, normal);
      NoLanding(u, RefusePublish);
      NoLanding(u, GoOnPublish);
      var flow := if u.page.busy.publish.Draining? then Off else Draining(|u.page.queue|);
      var v := u.(page := u.page.(busy := u.page.busy.(publish := flow)));
      var e := if u.page.busy.publish.Draining? then RefusePublish else GoOnPublish;
      More(us, normal, fs, e, v);
      us, fs := us + [v], fs + [e];
    }
  }

  lemma SendStep(w: World, normal: Draft -> Draft, j: nat)
    requires w.page.busy.validate == Draining(0) && j !in w.net
    ensures var v := SentCheck(w, j, Validate);
      && Step(w, normal, SendValidate(j), v) && !Lands(w, SendValidate(j)) && UnderWay(v, j)
      && v.page == w.page.(busy := w.page.busy.(validate := Sent)) && v.net.Keys == w.net.Keys + {j} && v.served == w.served
      && v.net[j] == Request(Validate, w.page.edits.content, w.page.edits.dirty, w.page.auth.epoch, None)
  {
    assert PageStep(w, SendValidate(j), SentCheck(w, j, Validate));
  }

  /** The validation goes out, is answered ok and stamps the page. */
  lemma ValidatedNow(ws: seq<World>, normal: Draft -> Draft, es: seq<Event>, j: nat)
    returns (us: seq<World>, fs: seq<Event>)
    requires Overtaken(ws, normal, es)
    requires var w := ws[|ws| - 1]; w.page.busy.validate == Draining(0) && !w.page.busy.publish.Due() && j !in w.net
    ensures Overtaken(us, normal, fs) && us[0] == ws[0] && fs[0] == es[0]
    ensures var w, v := ws[|ws| - 1], us[|us| - 1];
      && v.page.queue == w.page.queue && v.page.auth == w.page.auth && v.served == w.served && v.page.edits.dirty == w.page.edits.dirty
      && v.page.stamp == Some(w.page.edits.dirty) && v.page.busy == w.page.busy.(validate := Off)
      && v.lastOk == normal(w.page.edits.content) && v.net.Keys == w.net.Keys
  {
    hide Step, Overtaken, Delivered, Lands;
    Sizes(ws, normal, es);
    var u := ws[|ws| - 1];
    SendStep(u, normal, j);
    var v := SentCheck(u, j, Validate);
    hide SentCheck;
    More(ws, normal, es, SendValidate(j), v);
    us, fs := ServeCheck(ws + [v], normal, es + [SendValidate(j)], j);
    Sizes(us, normal, fs);
    u := us[|us| - 1];
    CheckStep(u, normal, j);
    More(us, normal, fs, Deliver(j), Delivered(u, j));
    us, fs := us + [Delivered(u, j)], fs + [Deliver(j)];
  }

  /** New edits reach the generation of the save that the validation waits for and are queued behind it; the save is answered and puts
      its own draft back, which is validated; then the edits' save puts them back, and they are published. */
  lemma OverSave(ws: seq<World>, normal: Draft -> Draft, es: seq<Event>, j: nat, k: nat, a: Draft, b: Draft)
    returns (us: seq<World>, fs: seq<Event>)
    requires Overtaken(ws, normal, es) && Wired(ws[0]) && Idempotent(normal) && normal(a) != normal(b)
    requires Landed(ws[|ws| - 1], normal) && ws[|ws| - 1].page.busy.validate == Draining(1)
    requires j !in ws[|ws| - 1].net && k !in ws[|ws| - 1].net && j != k
    ensures Overtaken(us, normal, fs) && us[0] == ws[0] && fs[0] == es[0]
    ensures |us| == |fs| + 1 && fs != [] && BadPublish(us, fs)
  {
    Sizes(ws, normal, es);
    var s := ws[|ws| - 1].page.queue[0];
    assert normal(normal(s.snapshot)) == normal(s.snapshot);
    LandedHead(ws[|ws| - 1], normal);
    hide Step, Overtaken, Delivered, TimerFires, SaveAnswered, BadPublish, Wired, Idempotent, Landed;
    var x := OtherForm(normal, a, b, s.snapshot);
    us, fs := EditMore(ws, normal, es, x, s.generation);
    Sizes(us, normal, fs);
    var u := us[|us| - 1];
    TimerStep(u, normal);
    hide Lands;
    var t := Save(s.generation, x, u.page.auth.epoch);
    var v := Local(u, TimerFires(u.page));
    hide Local;
    More(us, normal, fs, Timer, v);
    us, fs := ServeHead(us + [v], normal, fs + [Timer], s);
    Sizes(us, normal, fs);
    u := us[|us| - 1];
    AnswerStep(u, normal, s);
    v := u.(page := SaveAnswered(u.page, normal(s.snapshot)), served := None);
    More(us, normal, fs, AnswerSave, v);
    us, fs := OverStamp(us + [v], normal, fs + [AnswerSave], t, j, k);
  }

  /** The validation goes on over a later save of the same generation. */
  lemma OverStamp(ws: seq<World>, normal: Draft -> Draft, es: seq<Event>, t: Save, j: nat, k: nat)
    returns (us: seq<World>, fs: seq<Event>)
    requires Overtaken(ws, normal, es) && Wired(ws[0])
    requires var w := ws[|ws| - 1];
      && Open(w.page) && !w.page.edits.Gap() && w.page.queue != [] && w.page.queue[|w.page.queue| - 1] == t && w.served.None?
      && t.generation == w.page.edits.dirty && t.epoch == w.page.auth.epoch && w.page.stamp == None
      && w.page.busy.validate == Draining(0) && normal(t.snapshot) != normal(w.page.edits.content)
      && j !in w.net && k !in w.net && j != k
    ensures Overtaken(us, normal, fs) && us[0] == ws[0] && fs[0] == es[0]
    ensures |us| == |fs| + 1 && fs != [] && BadPublish(us, fs)
  {
    Sizes(ws, normal, es);
    hide Step, Overtaken, Lands, BadPublish, Wired;
    us, fs := Yields(ws, normal, es);
    us, fs := ValidatedNow(us, normal, fs, j);
    us, fs := FailMore(us, normal, fs, |ws[|ws| - 1].page.queue| - 1);
    us, fs := SaveBack(us, normal, fs, t, k);
  }

  /** A page on which a load has just landed, with saves queued from before. */
  ghost predicate Landed(w: World, normal: Draft -> Draft) {
    && Open(w.page) && w.page.edits.dirty == 0 && w.page.edits.saved == 0 && w.page.stamp == None && w.page.queue != []
    && QueueFine(w.page.queue, w.page.auth.epoch) && !w.page.busy.Due()
    && (w.served.Some? ==> w.served.value == normal(w.page.queue[0].snapshot))
  }

  lemma LandedHead(w: World, normal: Draft -> Draft)
    requires Landed(w, normal)
    ensures w.page.queue[0].generation > 0 && w.page.queue[0].epoch == w.page.auth.epoch
  {
  }

  lemma LandedLess(w: World, v: World, normal: Draft -> Draft, n: nat)
    requires Landed(w, normal) && Dropped(w, v, n) && n < |w.page.queue|
    ensures Landed(v, normal)
  {
  }

  /** The validation comes to wait for a queued save at its last wait. */
  lemma Behind(ws: seq<World>, normal: Draft -> Draft, es: seq<Event>)
    returns (us: seq<World>, fs: seq<Event>)
    requires Overtaken(ws, normal, es) && Wired(ws[0]) && Landed(ws[|ws| - 1], normal)
    requires var w := ws[|ws| - 1]; !(w.page.busy.validate.Saving? && w.page.busy.validate.ahead == |w.page.queue|)
    ensures Overtaken(us, normal, fs) && us[0] == ws[0] && fs[0] == es[0]
    ensures Landed(us[|us| - 1], normal) && us[|us| - 1].page.busy.validate == Draining(1)
    ensures us[|us| - 1].net.Keys <= ws[|ws| - 1].net.Keys
  {
    Sizes(ws, normal, es);
    us, fs := Free(ws, normal, es);
    hide Step, Overtaken, Lands, Wired, Landed;
    Sizes(us, normal, fs);
    var u := us[|us| - 1];
    if u.page.busy.validate.Off? {
      LandedParts(u, normal);
      ClickValidateStep(u, normal);
      var v := Local(u, ClickValidate(u.page));
      LandedClick(u, normal, v);
      hide Local, ClickValidate;
      More(us, normal, fs, ValidateClick, v);
      us, fs, u := us + [v], fs + [ValidateClick], v;
    }
    var n := u.page.busy.validate.ahead - 1;
    LandedParts(u, normal);
    us, fs := FailMore(us, normal, fs, n);
    LandedLess(u, us[|us| - 1], normal, n);
  }

  lemma LandedParts(w: World, normal: Draft -> Draft)
    requires Landed(w, normal)
    ensures Open(w.page) && !w.page.edits.Gap() && w.page.queue != [] && !w.page.busy.Due()
  {
  }

  lemma LandedClick(w: World, normal: Draft -> Draft, v: World)
    requires Landed(w, normal)
    requires v == w.(page := w.page.(timer := false, busy := w.page.busy.(validate := Draining(|w.page.queue|))))
    ensures Landed(v, normal)
  {
  }

  /** A validation under way fails; so does the save that one in its loop waits for, which is not the last one queued. */
  lemma Free(ws: seq<World>, normal: Draft -> Draft, es: seq<Event>)
    returns (us: seq<World>, fs: seq<Event>)
    requires Overtaken(ws, normal, es) && Wired(ws[0]) && Landed(ws[|ws| - 1], normal)
    requires var w := ws[|ws| - 1]; !(w.page.busy.validate.Saving? && w.page.busy.validate.ahead == |w.page.queue|)
    ensures Overtaken(us, normal, fs) && us[0] == ws[0] && fs[0] == es[0]
    ensures Landed(us[|us| - 1], normal) && us[|us| - 1].net.Keys <= ws[|ws| - 1].net.Keys
    ensures var p := us[|us| - 1].page; p.busy.validate.Off? || (p.busy.validate.Draining? && 0 < p.busy.validate.ahead <= |p.queue|)
  {
    Sizes(ws, normal, es);
    PathWired(ws, normal, es, |ws| - 1);
    us, fs := ws, es;
    var u := ws[|ws| - 1];
    assert PageFits(u.page);
    if u.page.busy.validate.Sent? {
      var c :| InFlight(u.net, u.page.auth.epoch, Validate, c);
      FailCheckStep(u, normal, c);
      hide Step, Overtaken, Lands, Failed;
      More(us, normal, fs, Fail(c), Failed(u, c));
      us, fs := us + [Failed(u, c)], fs + [Fail(c)];
    } else if u.page.busy.validate.Saving? {
      hide Step, Overtaken, Lands;
      us, fs := FailMore(us, normal, fs, u.page.busy.validate.ahead);
      LandedLess(u, us[|us| - 1], normal, u.page.busy.validate.ahead);
    }
  }

  lemma LandingIs(normal: Draft -> Draft, w: World, id: nat)
    requires Kept(normal, w) && Arrives(w, id) && w.page.queue != []
    ensures Landed(Delivered(w, id), normal)
  {
  }

  lemma PublishedOverSave(normal: Draft -> Draft, w: World, id: nat, j: nat, k: nat, a: Draft, b: Draft)
    returns (ws: seq<World>, es: seq<Event>)
    requires Kept(normal, w) && Wired(w) && Idempotent(normal) && Arrives(w, id) && normal(a) != normal(b)
    requires w.page.queue != [] && !(w.page.busy.validate.Saving? && w.page.busy.validate.ahead == |w.page.queue|)
    requires j !in w.net && k !in w.net && j != k
    ensures Overtaken(ws, normal, es) && ws[0] == w && es[0] == Deliver(id) && |ws| == |es| + 1 && es != [] && BadPublish(ws, es)
  {
    LandStep(w, normal, id);
    LandingIs(normal, w, id);
    hide Step, Overtaken, Delivered, BadPublish, Wired, Idempotent, Kept, Lands, Landed;
    ws, es := Behind([w, Delivered(w, id)], normal, [Deliver(id)]);
    Sizes(ws, normal, es);
    ws, es := OverSave(ws, normal, es, j, k, a, b);
  }

  // ----- from the opened page ------------------------------------------------------------------------------------------------

  /** The session request is answered (1) and its load (2); an edit is made (3) and its validation asked for (4), which waits for the
      save; the save is stored (5) and answered (6); the validation goes on (7) and is sent (8). */
  function Late(w: World, normal: Draft -> Draft, a: Draft, n: nat): World {
    var edits := if n < 3 then w.page.edits else if n < 6 then Edits(a, EMPTY, 1, 0) else Edits(normal(a), normal(a), 1, 1);
    var flow := if n < 4 then Off else if n < 6 then Saving(1, 1) else if n == 6 then Saving(1, 0) else if n == 7 then Draining(0) else Sent;
    var u := w.(page := First(edits, n == 3, if n == 4 || n == 5 then [Save(1, a, 0)] else [], n > 0, flow), starting := n == 0,
                net := if n == 0 then map[] else map[0 := Bootstrap(w, normal, n >= 2)]);
    if n < 4 then u
    else if n == 4 then u.(issued := 1)
    else if n < 8 then u.(issued := 1, stored := normal(a), last := 1, served := if n == 5 then Some(normal(a)) else None)
    else u.(issued := 2, stored := normal(a), last := 1, net := u.net[1 := Request(Validate, normal(a), 1, 0, None)])
  }

  function LateEvent(w: World, normal: Draft -> Draft, a: Draft, n: nat): Event {
    if n == 0 then Session(true, 0) else if n == 1 then Serve(0, Answer(normal(w.stored), true, false))
    else if n == 2 then Change(a, true) else if n == 3 then ValidateClick else if n == 4 then StoreSave
    else if n == 5 then AnswerSave else if n == 6 then GoOnValidate else SendValidate(1)
  }

  lemma LatePageStep(w: World, normal: Draft -> Draft, a: Draft, n: nat)
    requires Opened(w) && n in {2, 3, 6, 7}
    ensures Step(Late(w, normal, a, n), normal, LateEvent(w, normal, a, n), Late(w, normal, a, n + 1))
  {
    assert PageStep(Late(w, normal, a, n), LateEvent(w, normal, a, n), Late(w, normal, a, n + 1));
  }

  lemma LateRestStep(w: World, normal: Draft -> Draft, a: Draft, n: nat)
    requires Opened(w) && n in {0, 1, 4, 5}
    ensures Step(Late(w, normal, a, n), normal, LateEvent(w, normal, a, n), Late(w, normal, a, n + 1))
  {
    var u, e, v := Late(w, normal, a, n), LateEvent(w, normal, a, n), Late(w, normal, a, n + 1);
    if n == 0 { assert SessionStep(u, e, v); }
    if n == 1 { assert NetStep(u, normal, e, v); }
    if n >= 4 { assert SaveStep(u, normal, e, v); }
  }

  lemma LateRun(w: World, normal: Draft -> Draft, a: Draft) returns (ws: seq<World>, es: seq<Event>)
    requires Opened(w) && Idempotent(normal)
    ensures GuardedRun(ws, normal, es) && |ws| == 9 && ws[0] == w && ws[8] == Late(w, normal, a, 8)
  {
    assert Late(w, normal, a, 0) == w;
    forall n: nat | n < 8
      ensures Step(Late(w, normal, a, n), normal, LateEvent(w, normal, a, n), Late(w, normal, a, n + 1))
      ensures Guarded(Late(w, normal, a, n), LateEvent(w, normal, a, n))
    {
      hide Opened, Late, Step, Clear;
      if n in {2, 3, 6, 7} { LatePageStep(w, normal, a, n); } else { LateRestStep(w, normal, a, n); }
    }
    hide Step, Opened, Guarded, GuardedRun, Idempotent, Late;
    ws, es := Staged(normal, (n: nat) => Late(w, normal, a, n), (n: nat) => LateEvent(w, normal, a, n), 8);
  }

  lemma JoinRuns(ws: seq<World>, normal: Draft -> Draft, es: seq<Event>, us: seq<World>, fs: seq<Event>)
    requires Run(ws, normal, es) && Overtaken(us, normal, fs) && us[0] == ws[|ws| - 1]
    ensures Run(ws + us[1..], normal, es + fs)
  {
    hide Step, Lands, Opened;
    var vs := ws + us[1..];
    forall i | 0 <= i < |es + fs| ensures Step(vs[i], normal, (es + fs)[i], vs[i + 1]) {
      if i < |es| {
        assert Step(ws[i], normal, es[i], ws[i + 1]);
      } else {
        assert Step(us[i - |es|], normal, fs[i - |es|], us[i - |es| + 1]);
      }
    }
  }

  /** From every opened page: the first load lands while a validation is under way, new edits reach its generation, its answer stamps
      them, and what is published is not the draft that was last answered ok. */
  lemma StaleStampPublished(w: World, normal: Draft -> Draft, a: Draft, b: Draft) returns (ws: seq<World>, es: seq<Event>)
    requires Opened(w) && Idempotent(normal) && normal(a) != normal(b)
    ensures Run(ws, normal, es) && ws[0] == w && |es| > 8 && es[8] == Deliver(0) && BadPublish(ws, es)
  {
    var us, fs := LateRun(w, normal, a);
    RunKept(us, normal, fs, 8);
    RunWired(us, normal, fs, 8);
    var u := us[8];
    assert Arrives(u, 0) && Stamps(u, 1) && 2 !in u.net;
    hide Kept, Wired, Step, Opened, Overtaken, Lands, Stamps, Idempotent, Late, BadPublish, Guarded, Arrives;
    var vs, gs := PublishedOverCheck(normal, u, 0, 1, 2, a, b);
    JoinRuns(us, normal, fs, vs, gs);
    ws, es := us + vs[1..], fs + gs;
    LastBad(us, fs, vs, gs);
  }

  lemma LastBad(us: seq<World>, fs: seq<Event>, vs: seq<World>, gs: seq<Event>)
    requires |us| == |fs| + 1 && |vs| == |gs| + 1 && gs != [] && vs[0] == us[|us| - 1] && BadPublish(vs, gs)
    ensures BadPublish(us + vs[1..], fs + gs)
  {
    var ws, es := us + vs[1..], fs + gs;
    assert ws[|es|] == vs[|gs|] && ws[|es| - 1] == vs[|gs| - 1] && es[|es| - 1] == gs[|gs| - 1];
  }
}
