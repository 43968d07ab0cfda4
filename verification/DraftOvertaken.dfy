/** What a load breaks when it lands in spite of the guard of `DraftKept`: from every such world there are runs that lose an edit, so the
    guard is exact. */
module DraftOvertaken {
  import opened Options
  import opened DraftPage
  import opened DraftProtocol
  import opened DraftSafety
  import opened DraftKept

  ghost predicate Path(ws: seq<World>, normal: Draft -> Draft, es: seq<Event>) {
    |ws| == |es| + 1 && forall i :: 0 <= i < |es| ==> Step(ws[i], normal, es[i], ws[i + 1])
  }

  /** A load lands, and no other after it. */
  ghost predicate Overtaken(ws: seq<World>, normal: Draft -> Draft, es: seq<Event>) {
    && Path(ws, normal, es) && es != [] && Lands(ws[0], es[0])
    && forall i :: 0 < i < |es| ==> !Lands(ws[i], es[i])
  }

  lemma More(ws: seq<World>, normal: Draft -> Draft, es: seq<Event>, e: Event, v: World)
    requires Overtaken(ws, normal, es) && Step(ws[|ws| - 1], normal, e, v) && !Lands(ws[|ws| - 1], e)
    ensures Overtaken(ws + [v], normal, es + [e]) && (ws + [v])[0] == ws[0] && (es + [e])[0] == es[0]
  {
    hide Step, Lands;
    forall i | 0 <= i < |es + [e]| ensures Step((ws + [v])[i], normal, (es + [e])[i], (ws + [v])[i + 1]) {
      if i < |es| { assert Step(ws[i], normal, es[i], ws[i + 1]); }
    }
    forall i | 0 < i < |es + [e]| ensures !Lands((ws + [v])[i], (es + [e])[i]) {
      if i < |es| { assert !Lands(ws[i], es[i]); }
    }
  }

  /** The load can be delivered, and the page will apply it. */
  predicate Arrives(w: World, id: nat) { Lands(w, Deliver(id)) && w.net[id].answer.Some? && !w.page.busy.Due() }

  // ----- the steps of such runs -----

  lemma LandStep(w: World, normal: Draft -> Draft, id: nat)
    requires Arrives(w, id)
    ensures Overtaken([w, Delivered(w, id)], normal, [Deliver(id)])
    ensures var v := Delivered(w, id); var c := w.net[id].answer.value.config;
      && v.page.edits == Edits(c, c, 0, 0) && v.page.stamp == None && v.page.queue == w.page.queue && v.page.busy == w.page.busy
      && v.page.auth == Auth(true, false, w.page.auth.epoch) && v.served == w.served && v.net == w.net - {id}
  {
    assert NetStep(w, normal, Deliver(id), Delivered(w, id));
  }

  /** The page after n edits. */
  ghost predicate Typed(w: World, v: World, edited: Draft, n: nat) {
    && v.page.queue == w.page.queue && v.page.auth == w.page.auth && v.page.busy == w.page.busy
    && v.served == w.served && v.net == w.net
    && v.page.edits.dirty == w.page.edits.dirty + n && v.page.edits.saved == w.page.edits.saved
    && (n > 0 ==> v.page.edits.content == edited && v.page.timer && v.page.stamp == None)
    && (n == 0 ==> v == w)
  }

  lemma EditStep(w: World, normal: Draft -> Draft, edited: Draft, n: nat, u: World)
    requires Typed(w, u, edited, n) && !w.page.busy.Due()
    ensures var v := Local(u, Edit(u.page, edited, true));
      Step(u, normal, Change(edited, true), v) && !Lands(u, Change(edited, true)) && Typed(w, v, edited, n + 1)
  {
    assert PageStep(u, Change(edited, true), Local(u, Edit(u.page, edited, true)));
  }

  lemma {:induction false} EditMore(ws: seq<World>, normal: Draft -> Draft, es: seq<Event>, edited: Draft, n: nat)
    returns (us: seq<World>, fs: seq<Event>)
    requires Overtaken(ws, normal, es) && !ws[|ws| - 1].page.busy.Due()
    ensures Overtaken(us, normal, fs) && us[0] == ws[0] && fs[0] == es[0]
    ensures Typed(ws[|ws| - 1], us[|us| - 1], edited, n)
  {
    hide Step, Overtaken, Typed, Edit, Local;
    Sizes(ws, normal, es);
    if n == 0 {
      us, fs := ws, es;
      TypedNone(ws[|ws| - 1], edited);
    } else {
      us, fs := EditMore(ws, normal, es, edited, n - 1);
      Sizes(us, normal, fs);
      var u := us[|us| - 1];
      EditStep(ws[|ws| - 1], normal, edited, n - 1, u);
      More(us, normal, fs, Change(edited, true), Local(u, Edit(u.page, edited, true)));
      us, fs := us + [Local(u, Edit(u.page, edited, true))], fs + [Change(edited, true)];
    }
  }

  lemma TypedNone(w: World, edited: Draft)
    ensures Typed(w, w, edited, 0)
  {
  }

  lemma Sizes(ws: seq<World>, normal: Draft -> Draft, es: seq<Event>)
    requires Overtaken(ws, normal, es)
    ensures |ws| == |es| + 1 && es != []
  {
  }

  /** The running save is answered for the present generation. */
  lemma AnswerStep(w: World, normal: Draft -> Draft, s: Save)
    requires w.page.queue != [] && w.page.queue[0] == s && s.epoch == w.page.auth.epoch && s.generation == w.page.edits.dirty
    requires w.served == Some(normal(s.snapshot)) && !w.page.busy.Due()
    ensures var v := w.(page := SaveAnswered(w.page, normal(s.snapshot)), served := None);
      && Step(w, normal, AnswerSave, v) && !Lands(w, AnswerSave) && !Replaces(w, AnswerSave)
      && v.page.edits == Edits(normal(s.snapshot), normal(s.snapshot), s.generation, s.generation)
      && v.page.stamp == w.page.stamp && v.lastOk == w.lastOk && v.net == w.net && v.page.auth == w.page.auth
      && v.page.queue == w.page.queue[1..]
      && v.page.busy == Busy(w.page.busy.validate.Advanced(), w.page.busy.publish.Advanced(), false)
  {
    assert SaveStep(w, normal, AnswerSave, w.(page := SaveAnswered(w.page, normal(s.snapshot)), served := None));
  }

  lemma StoreStep(w: World, normal: Draft -> Draft, s: Save)
    requires w.page.queue != [] && w.page.queue[0] == s && w.served.None? && !w.page.busy.Due()
    ensures var v := Store(w, normal, s.snapshot, s.generation).(served := Some(normal(s.snapshot)));
      && Step(w, normal, StoreSave, v) && !Lands(w, StoreSave) && v.page == w.page && v.net == w.net && v.lastOk == w.lastOk
      && v.served == Some(normal(s.snapshot))
  {
    assert SaveStep(w, normal, StoreSave, Store(w, normal, s.snapshot, s.generation).(served := Some(normal(s.snapshot))));
  }

  /** The head of the queue gets its answer from the server. */
  lemma ServeHead(ws: seq<World>, normal: Draft -> Draft, es: seq<Event>, s: Save)
    returns (us: seq<World>, fs: seq<Event>)
    requires Overtaken(ws, normal, es)
    requires var w := ws[|ws| - 1];
      && w.page.queue != [] && w.page.queue[0] == s && (w.served.Some? ==> w.served.value == normal(s.snapshot))
      && !w.page.busy.Due()
    ensures Overtaken(us, normal, fs) && us[0] == ws[0] && fs[0] == es[0]
    ensures var w, v := ws[|ws| - 1], us[|us| - 1];
      v.page == w.page && v.net == w.net && v.lastOk == w.lastOk && v.served == Some(normal(s.snapshot))
  {
    hide Step, Overtaken, Lands, Store;
    Sizes(ws, normal, es);
    var w := ws[|ws| - 1];
    if w.served.Some? {
      us, fs := ws, es;
    } else {
      StoreStep(w, normal, s);
      var v := Store(w, normal, s.snapshot, s.generation).(served := Some(normal(s.snapshot)));
      More(ws, normal, es, StoreSave, v);
      us, fs := ws + [v], es + [StoreSave];
    }
  }

  /** The check is answered, if it is not yet. */
  lemma ServeCheck(ws: seq<World>, normal: Draft -> Draft, es: seq<Event>, c: nat)
    returns (us: seq<World>, fs: seq<Event>)
    requires Overtaken(ws, normal, es)
    requires var w := ws[|ws| - 1];
      UnderWay(w, c) && (w.net[c].answer.Some? ==> w.net[c].answer.value.config == normal(w.net[c].body)) && !w.page.busy.Due()
    ensures Overtaken(us, normal, fs) && us[0] == ws[0] && fs[0] == es[0]
    ensures var w, v := ws[|ws| - 1], us[|us| - 1];
      && v.page == w.page && v.lastOk == w.lastOk && v.served == w.served && v.net.Keys == w.net.Keys
      && c in v.net && v.net[c].answer.Some? && v.net[c].answer.value.config == normal(w.net[c].body)
      && v.net[c] == w.net[c].(answer := v.net[c].answer)
      && (w.net[c].answer.None? ==> v.net[c].answer.value.ok) && (w.net[c].answer.Some? ==> v.net[c].answer == w.net[c].answer)
  {
    hide Step, Overtaken;
    Sizes(ws, normal, es);
    var w := ws[|ws| - 1];
    if w.net[c].answer.Some? {
      us, fs := ws, es;
    } else {
      var answer := Answer(normal(w.net[c].body), true, false);
      var v := Served(w, normal, c);
      ServeStep(w, normal, c);
      More(ws, normal, es, Serve(c, answer), v);
      us, fs := ws + [v], es + [Serve(c, answer)];
    }
  }

  function Served(w: World, normal: Draft -> Draft, c: nat): World
    requires c in w.net
  {
    Send(Store(w, normal, w.net[c].body, w.net[c].generation), c, w.net[c].(answer := Some(Answer(normal(w.net[c].body), true, false))))
  }

  lemma ServeStep(w: World, normal: Draft -> Draft, c: nat)
    requires UnderWay(w, c) && w.net[c].answer.None? && !w.page.busy.Due()
    ensures var e := Serve(c, Answer(normal(w.net[c].body), true, false));
      Step(w, normal, e, Served(w, normal, c)) && !Lands(w, e)
  {
    assert NetStep(w, normal, Serve(c, Answer(normal(w.net[c].body), true, false)), Served(w, normal, c));
  }

  /** An answered check of the present generation arrives. */
  lemma CheckStep(w: World, normal: Draft -> Draft, c: nat)
    requires UnderWay(w, c) && w.net[c].answer.Some? && w.net[c].generation == w.page.edits.dirty && !w.page.busy.Due()
    ensures var v := Delivered(w, c); var r := w.net[c];
      && Step(w, normal, Deliver(c), v) && !Lands(w, Deliver(c)) && !Replaces(w, Deliver(c))
      && v.page.edits.content == r.answer.value.config && v.page.edits.dirty == r.generation
      && v.page.queue == w.page.queue && v.page.auth == w.page.auth && v.served == w.served && v.net == w.net - {c}
      && v.page.busy == (if r.kind.Validate? then w.page.busy.(validate := Off) else w.page.busy.(publish := Off))
      && (r.kind.Publish? || r.answer.value.ok ==> v.page.stamp == Some(r.generation) && v.lastOk == r.answer.value.config)
  {
    assert NetStep(w, normal, Deliver(c), Delivered(w, c));
  }

  // ----- an edit is lost -----

  /** The last event is no edit, load or change of account, and it changes an edited draft. */
  ghost predicate LosesEdit(ws: seq<World>, normal: Draft -> Draft, es: seq<Event>)
    requires |ws| == |es| + 1 && es != []
  {
    var w, v := ws[|es| - 1], ws[|es|];
    !Replaces(w, es[|es| - 1]) && w.page.edits.dirty > 0 && normal(v.page.edits.content) != normal(w.page.edits.content)
  }

  /** One of two drafts of different normal forms differs from a third. */
  function OtherForm(normal: Draft -> Draft, a: Draft, b: Draft, d: Draft): (x: Draft)
    requires normal(a) != normal(b)
    ensures normal(x) != normal(d)
  {
    if normal(a) != normal(d) then a else b
  }

  lemma LostToSave(normal: Draft -> Draft, w: World, id: nat, a: Draft, b: Draft)
    returns (ws: seq<World>, es: seq<Event>)
    requires Kept(normal, w) && Idempotent(normal) && Arrives(w, id) && normal(a) != normal(b)
    requires w.page.queue != []
    ensures Overtaken(ws, normal, es) && ws[0] == w && es[0] == Deliver(id) && |ws| == |es| + 1 && LosesEdit(ws, normal, es)
  {
    hide Step, Overtaken, Delivered, SaveAnswered, Store;
    var s := w.page.queue[0];
    HeadMatches(normal, w);
    ServedHead(normal, w);
    assert normal(normal(s.snapshot)) == normal(s.snapshot);
    hide Kept, Idempotent;
    var x := OtherForm(normal, a, b, s.snapshot);
    LandStep(w, normal, id);
    hide Lands, Arrives;
    var us, fs := EditMore([w, Delivered(w, id)], normal, [Deliver(id)], x, s.generation);
    Sizes(us, normal, fs);
    us, fs := ServeHead(us, normal, fs, s);
    Sizes(us, normal, fs);
    var u := us[|us| - 1];
    AnswerStep(u, normal, s);
    var v := u.(page := SaveAnswered(u.page, normal(s.snapshot)), served := None);
    More(us, normal, fs, AnswerSave, v);
    ws, es := us + [v], fs + [AnswerSave];
  }

  lemma ServedHead(normal: Draft -> Draft, w: World)
    requires Kept(normal, w)
    ensures w.served.Some? ==> w.page.queue != [] && w.served.value == normal(w.page.queue[0].snapshot)
  {
  }

  lemma LostToCheck(normal: Draft -> Draft, w: World, id: nat, c: nat, a: Draft, b: Draft)
    returns (ws: seq<World>, es: seq<Event>)
    requires Kept(normal, w) && Idempotent(normal) && Arrives(w, id) && normal(a) != normal(b)
    requires UnderWay(w, c) && w.net[c].generation > 0
    ensures Overtaken(ws, normal, es) && ws[0] == w && es[0] == Deliver(id) && |ws| == |es| + 1 && LosesEdit(ws, normal, es)
  {
    hide Step, Overtaken, Delivered;
    var r := w.net[c];
    AnsweredForm(normal, w, c);
    assert normal(normal(r.body)) == normal(r.body);
    hide Kept, Idempotent;
    var x := OtherForm(normal, a, b, r.body);
    LandStep(w, normal, id);
    var us, fs := EditMore([w, Delivered(w, id)], normal, [Deliver(id)], x, r.generation);
    Sizes(us, normal, fs);
    us, fs := ServeCheck(us, normal, fs, c);
    Sizes(us, normal, fs);
    var u := us[|us| - 1];
    CheckStep(u, normal, c);
    hide Lands;
    More(us, normal, fs, Deliver(c), Delivered(u, c));
    ws, es := us + [Delivered(u, c)], fs + [Deliver(c)];
  }

  lemma AnsweredForm(normal: Draft -> Draft, w: World, c: nat)
    requires Kept(normal, w) && UnderWay(w, c)
    ensures w.net[c].answer.Some? ==> w.net[c].answer.value.config == normal(w.net[c].body)
  {
  }

  /** Every step keeps an edited draft, but for edits, loads and changes of account. */
  ghost predicate KeepsEdits(ws: seq<World>, normal: Draft -> Draft, es: seq<Event>)
    requires |ws| == |es| + 1
  {
    forall n :: 0 <= n < |es| && !Replaces(ws[n], es[n]) && ws[n].page.edits.dirty > 0 ==>
      normal(ws[n + 1].page.edits.content) == normal(ws[n].page.edits.content)
  }

  lemma {:induction false} PathKept(ws: seq<World>, normal: Draft -> Draft, es: seq<Event>, n: nat)
    requires Overtaken(ws, normal, es) && Clear(ws[0]) && Kept(normal, ws[0]) && Idempotent(normal) && n < |ws|
    ensures Kept(normal, ws[n])
  {
    hide Step, Kept, Clear, Idempotent, Lands;
    if n > 0 {
      PathKept(ws, normal, es, n - 1);
      StepKept(normal, ws[n - 1], es[n - 1], ws[n]);
    }
  }

  lemma ClearKeeps(ws: seq<World>, normal: Draft -> Draft, es: seq<Event>)
    requires Overtaken(ws, normal, es) && Clear(ws[0]) && Kept(normal, ws[0]) && Idempotent(normal)
    ensures |ws| == |es| + 1 && KeepsEdits(ws, normal, es)
  {
    hide Step, Kept, Clear, Idempotent, Lands, Replaces;
    forall n | 0 <= n < |es| && !Replaces(ws[n], es[n]) && ws[n].page.edits.dirty > 0
      ensures normal(ws[n + 1].page.edits.content) == normal(ws[n].page.edits.content)
    {
      PathKept(ws, normal, es, n);
      StepKept(normal, ws[n], es[n], ws[n + 1]);
    }
  }

  /** A run from w that begins with the arrival of the load. */
  ghost predicate Continues(ws: seq<World>, normal: Draft -> Draft, es: seq<Event>, w: World, id: nat) {
    |ws| == |es| + 1 && es != [] && ws[0] == w && es[0] == Deliver(id) && Overtaken(ws, normal, es)
  }

  /** The guard is exact: when a load lands, every continuation without another load keeps its edits if and only if nothing was
      under way that the load could overtake. */
  lemma GuardExact(normal: Draft -> Draft, w: World, id: nat, a: Draft, b: Draft)
    requires Kept(normal, w) && Idempotent(normal) && Arrives(w, id) && normal(a) != normal(b)
    ensures Clear(w) <==> forall ws, es :: Continues(ws, normal, es, w, id) ==> KeepsEdits(ws, normal, es)
  {
    hide Kept, Idempotent, Overtaken, KeepsEdits, LosesEdit, Lands;
    if Clear(w) {
      forall ws, es | Continues(ws, normal, es, w, id) ensures KeepsEdits(ws, normal, es) {
        ClearKeeps(ws, normal, es);
      }
    } else {
      var ws, es := Loss(normal, w, id, a, b);
      assert Continues(ws, normal, es, w, id);
      LossIs(ws, normal, es);
    }
  }

  lemma Loss(normal: Draft -> Draft, w: World, id: nat, a: Draft, b: Draft)
    returns (ws: seq<World>, es: seq<Event>)
    requires Kept(normal, w) && Idempotent(normal) && Arrives(w, id) && normal(a) != normal(b)
    requires !Clear(w)
    ensures Overtaken(ws, normal, es) && ws[0] == w && es[0] == Deliver(id) && |ws| == |es| + 1 && es != [] && LosesEdit(ws, normal, es)
  {
    hide Kept, Idempotent, Overtaken, LosesEdit, Lands;
    if w.page.queue != [] {
      ws, es := LostToSave(normal, w, id, a, b);
    } else {
      var c :| UnderWay(w, c) && w.net[c].generation != 0;
      ws, es := LostToCheck(normal, w, id, c, a, b);
    }
    Sizes(ws, normal, es);
  }

  lemma LossIs(ws: seq<World>, normal: Draft -> Draft, es: seq<Event>)
    requires |ws| == |es| + 1 && es != [] && LosesEdit(ws, normal, es)
    ensures !KeepsEdits(ws, normal, es)
  {
  }

  // ----- from the opened page ---------------------------------------------------------------------------------------

  /** m events through the given stages, none of which lands a load over a write. */
  lemma {:induction false} Staged(normal: Draft -> Draft, stage: nat -> World, event: nat -> Event, m: nat)
    returns (ws: seq<World>, es: seq<Event>)
    requires Opened(stage(0)) && Idempotent(normal)
    requires forall n: nat :: n < m ==> Step(stage(n), normal, event(n), stage(n + 1)) && Guarded(stage(n), event(n))
    ensures GuardedRun(ws, normal, es) && |es| == m && |ws| == m + 1
    ensures (forall n :: 0 <= n <= m ==> ws[n] == stage(n)) && forall n :: 0 <= n < m ==> es[n] == event(n)
  {
    hide Opened, Step, Guarded, Idempotent;
    if m == 0 {
      ws, es := [stage(0)], [];
    } else {
      var us, fs := Staged(normal, stage, event, m - 1);
      assert Step(stage(m - 1), normal, event(m - 1), stage(m));
      ws, es := us + [stage(m)], fs + [event(m - 1)];
      forall n | 0 <= n < |es| ensures Step(ws[n], normal, es[n], ws[n + 1]) && Guarded(ws[n], es[n]) {
        if n < m - 1 { assert Step(us[n], normal, fs[n], us[n + 1]) && Guarded(us[n], fs[n]); }
      }
    }
  }

  /** The page in its first epoch, signed in or not. */
  function First(edits: Edits, timer: bool, queue: seq<Save>, signedIn: bool, validate: Flow): Page {
    Page(edits, timer, false, queue, Auth(signedIn, false, 0), Busy(validate, Off, false), Intact, None)
  }

  function Bootstrap(w: World, normal: Draft -> Draft, answered: bool): Request {
    Request(Load, EMPTY, 0, 0, if answered then Some(Answer(normal(w.stored), true, false)) else None)
  }

  /** The session request is answered (1), an edit is made (2), the load is answered (3) and lands (4). */
  function Hasty(w: World, normal: Draft -> Draft, a: Draft, n: nat): World {
    var d := normal(w.stored);
    if n == 0 then w
    else if n < 4 then
      w.(page := First(if n == 1 then w.page.edits else Edits(a, EMPTY, 1, 0), n > 1, [], true, Off),
         starting := false, net := map[0 := Bootstrap(w, normal, n == 3)])
    else w.(page := First(Edits(d, d, 0, 0), true, [], true, Off), starting := false, net := map[], loaded := true)
  }

  function HastyEvent(w: World, normal: Draft -> Draft, a: Draft, n: nat): Event {
    if n == 0 then Session(true, 0) else if n == 1 then Change(a, true)
    else if n == 2 then Serve(0, Answer(normal(w.stored), true, false)) else Deliver(0)
  }

  lemma HastyStep(w: World, normal: Draft -> Draft, a: Draft, n: nat)
    requires Opened(w) && n < 4
    ensures var u, e, v := Hasty(w, normal, a, n), HastyEvent(w, normal, a, n), Hasty(w, normal, a, n + 1);
      Step(u, normal, e, v) && Guarded(u, e)
  {
    var u, e, v := Hasty(w, normal, a, n), HastyEvent(w, normal, a, n), Hasty(w, normal, a, n + 1);
    if n == 0 { assert SessionStep(u, e, v); }
    if n == 1 { assert PageStep(u, e, v); }
    if n == 3 { assert u.net - {0} == map[]; }
    if n >= 2 { assert NetStep(u, normal, e, v); }
  }

  /** An edit made while the first load is under way is discarded by it, although the guard is kept: the page shows the stored draft
      as saved and nothing is queued. */
  lemma LoadLosesEdit(w: World, normal: Draft -> Draft, a: Draft) returns (ws: seq<World>, es: seq<Event>)
    requires Opened(w) && Idempotent(normal)
    ensures GuardedRun(ws, normal, es) && |ws| == 5 && ws[0] == w
    ensures es == [Session(true, 0), Change(a, true), Serve(0, Answer(normal(w.stored), true, false)), Deliver(0)]
    ensures ws[3].page.edits.content == a && 0 in ws[3].net && ws[3].net[0].answer.Some? && Discards(ws[3], 0, ws[4])
    ensures ws[4].page.edits == Edits(normal(w.stored), normal(w.stored), 0, 0) && ws[4].page.queue == []
  {
    forall n: nat | n < 4
      ensures Step(Hasty(w, normal, a, n), normal, HastyEvent(w, normal, a, n), Hasty(w, normal, a, n + 1))
      ensures Guarded(Hasty(w, normal, a, n), HastyEvent(w, normal, a, n))
    {
      HastyStep(w, normal, a, n);
    }
    hide Step, Opened, Guarded, GuardedRun, Idempotent;
    ws, es := Staged(normal, (n: nat) => Hasty(w, normal, a, n), (n: nat) => HastyEvent(w, normal, a, n), 4);
  }
}
