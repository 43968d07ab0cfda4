/** In every run: a validation or publication waits for saves that are queued, and has at most one request under way
    (`validateDraft`, `publishDraft`, `flushDraftSave`, design/assets/app.js). */
module DraftFlows {
  import opened Options
  import opened DraftPage
  import opened DraftProtocol
  import opened DraftSafety

  predicate Waiting(flow: Flow) { flow.Saving? || flow.Draining? }

  predicate Fits(flow: Flow, n: nat) { Waiting(flow) ==> flow.ahead <= n }

  predicate PageFits(p: Page) { Fits(p.busy.validate, |p.queue|) && Fits(p.busy.publish, |p.queue|) }

  /** A request of this kind in the present epoch. */
  predicate InFlight(net: map<nat, Request>, epoch: nat, kind: Kind, id: nat) {
    id in net && net[id].kind == kind && net[id].epoch == epoch
  }

  /** The flow's request is under way exactly when it says so, and there is only one. */
  ghost predicate Flight(net: map<nat, Request>, epoch: nat, kind: Kind, flow: Flow) {
    && (flow.Sent? <==> exists id :: InFlight(net, epoch, kind, id))
    && forall i, j :: InFlight(net, epoch, kind, i) && InFlight(net, epoch, kind, j) ==> i == j
  }

  ghost predicate Dated(net: map<nat, Request>, epoch: nat) { forall id :: id in net ==> net[id].epoch <= epoch }

  ghost predicate Wired(w: World) {
    && PageFits(w.page) && Dated(w.net, w.page.auth.epoch)
    && Flight(w.net, w.page.auth.epoch, Validate, w.page.busy.validate)
    && Flight(w.net, w.page.auth.epoch, Publish, w.page.busy.publish)
  }

  /** Only the page changes, in what the requests do not see. */
  lemma SameFlights(w: World, v: World)
    requires Wired(w) && v.net == w.net && v.page.auth.epoch == w.page.auth.epoch && PageFits(v.page)
    requires v.page.busy.validate.Sent? == w.page.busy.validate.Sent? && v.page.busy.publish.Sent? == w.page.busy.publish.Sent?
    ensures Wired(v)
  {
  }

  lemma ClickFits(p: Page)
    requires PageFits(p)
    ensures PageFits(Flush(p)) && PageFits(TimerFires(p)) && PageFits(Queue(p, p.edits.dirty))
    ensures PageFits(ClickValidate(p)) && PageFits(ClickPublish(p))
    ensures !FirstWait(p).Sent?
    ensures Flush(p).auth == p.auth && TimerFires(p).auth == p.auth && Queue(p, p.edits.dirty).auth == p.auth
    ensures Flush(p).busy == p.busy && TimerFires(p).busy == p.busy && Queue(p, p.edits.dirty).busy == p.busy
  {
  }

  lemma AgainFits(p: Page, generation: nat)
    requires PageFits(p)
    ensures var (q, flow) := Again(p, generation);
      && PageFits(q) && Fits(flow, |q.queue|) && !flow.Sent? && q.busy == p.busy && q.auth == p.auth
  {
  }

  /** A request is sent whose kind had none under way. */
  lemma FlightSent(net: map<nat, Request>, epoch: nat, kind: Kind, id: nat, r: Request, flow: Flow)
    requires id !in net && r.epoch == epoch
    ensures r.kind != kind && Flight(net, epoch, kind, flow) ==> Flight(net[id := r], epoch, kind, flow)
    ensures r.kind == kind && Flight(net, epoch, kind, flow) && !flow.Sent? ==> Flight(net[id := r], epoch, kind, Sent)
  {
    var more := net[id := r];
    if r.kind == kind && Flight(net, epoch, kind, flow) && !flow.Sent? {
      forall i ensures InFlight(more, epoch, kind, i) <==> i == id {
        assert !InFlight(net, epoch, kind, i);
      }
      assert InFlight(more, epoch, kind, id);
    }
    if r.kind != kind && Flight(net, epoch, kind, flow) {
      forall i ensures InFlight(more, epoch, kind, i) <==> InFlight(net, epoch, kind, i) {}
      if flow.Sent? {
        var i :| InFlight(net, epoch, kind, i);
        assert InFlight(more, epoch, kind, i);
      }
    }
  }

  lemma SentWired(w: World, id: nat, kind: Kind)
    requires Wired(w) && id !in w.net && !kind.Load?
    requires !(if kind.Validate? then w.page.busy.validate.Sent? else w.page.busy.publish.Sent?)
    ensures Wired(SentCheck(w, id, kind))
  {
    hide Flight;
    var r := Request(kind, w.page.edits.content, w.page.edits.dirty, w.page.auth.epoch, None);
    FlightSent(w.net, w.page.auth.epoch, Validate, id, r, w.page.busy.validate);
    FlightSent(w.net, w.page.auth.epoch, Publish, id, r, w.page.busy.publish);
  }

  lemma PageStepWired(w: World, e: Event, v: World)
    requires Wired(w) && PageStep(w, e, v)
    ensures Wired(v)
  {
    hide Wired, SentCheck, Queue, Flush, TimerFires, FirstWait, Again;
    WiredFits(w);
    ClickFits(w.page);
    match e
    case GoOnValidate => AgainFits(w.page, w.page.busy.validate.generation); SameFlights(w, v);
    case GoOnPublish => AgainFits(w.page, w.page.busy.publish.generation); SameFlights(w, v);
    case SendValidate(id) => SentWired(w, id, Validate);
    case SendPublish(id) => SentWired(w, id, Publish);
    case _ => SameFlights(w, v);
  }

  lemma WiredFits(w: World)
    requires Wired(w)
    ensures PageFits(w.page)
  {
  }

  lemma FlowFits(flow: Flow, n: nat)
    requires Fits(flow, n) && n > 0
    ensures Fits(flow.Advanced(), n - 1) && flow.Advanced().Sent? == flow.Sent?
    ensures Fits(flow.Failing(), n - 1) && flow.Failing().Sent? == flow.Sent?
  {
  }

  /** With the running save answered every wait is one shorter, and no request is sent or dropped. */
  lemma AnswerFits(p: Page, config: Draft)
    requires PageFits(p) && p.queue != []
    ensures var q := SaveAnswered(p, config);
      PageFits(q) && q.auth == p.auth && q.busy.validate.Sent? == p.busy.validate.Sent? && q.busy.publish.Sent? == p.busy.publish.Sent?
  {
    hide Fits, Flow.Advanced;
    FlowFits(p.busy.validate, |p.queue|);
    FlowFits(p.busy.publish, |p.queue|);
  }

  lemma FailureFits(p: Page)
    requires PageFits(p) && p.queue != []
    ensures var q := SaveFailed(p);
      PageFits(q) && q.auth == p.auth && q.busy.validate.Sent? == p.busy.validate.Sent? && q.busy.publish.Sent? == p.busy.publish.Sent?
  {
    hide Fits, Flow.Failing;
    FlowFits(p.busy.validate, |p.queue|);
    FlowFits(p.busy.publish, |p.queue|);
  }

  lemma SaveStepWired(w: World, normal: Draft -> Draft, e: Event, v: World)
    requires Wired(w) && SaveStep(w, normal, e, v)
    ensures Wired(v)
  {
    hide Wired, SaveAnswered, SaveFailed;
    WiredFits(w);
    if e.AnswerSave? { AnswerFits(w.page, w.served.value); }
    if e.FailSave? { FailureFits(w.page); }
    SameFlights(w, v);
  }

  /** One request less, with the flow of its kind at rest. */
  lemma FlightLess(net: map<nat, Request>, epoch: nat, kind: Kind, flow: Flow, id: nat)
    requires id in net && Flight(net, epoch, kind, flow)
    ensures Flight(net - {id}, epoch, kind, if InFlight(net, epoch, kind, id) then Off else flow)
  {
    var less := net - {id};
    if InFlight(net, epoch, kind, id) {
      forall i ensures !InFlight(less, epoch, kind, i) { assert InFlight(net, epoch, kind, i) ==> i == id; }
    } else {
      forall i ensures InFlight(less, epoch, kind, i) <==> InFlight(net, epoch, kind, i) {}
      if flow.Sent? {
        var i :| InFlight(net, epoch, kind, i);
        assert InFlight(less, epoch, kind, i);
      }
    }
  }

  /** A request that goes puts the flow of its kind to rest, if it is of the present epoch. */
  ghost predicate Rested(w: World, id: nat, v: World) {
    && v.net == w.net - {id} && v.page.auth.epoch == w.page.auth.epoch && v.page.queue == w.page.queue
    && v.page.busy.validate == (if InFlight(w.net, w.page.auth.epoch, Validate, id) then Off else w.page.busy.validate)
    && v.page.busy.publish == (if InFlight(w.net, w.page.auth.epoch, Publish, id) then Off else w.page.busy.publish)
  }

  lemma LessWired(w: World, id: nat, v: World)
    requires Wired(w) && id in w.net && Rested(w, id, v)
    ensures Wired(v)
  {
    hide Flight;
    FlightLess(w.net, w.page.auth.epoch, Validate, w.page.busy.validate, id);
    FlightLess(w.net, w.page.auth.epoch, Publish, w.page.busy.publish, id);
  }

  lemma FlightAnswered(net: map<nat, Request>, epoch: nat, kind: Kind, flow: Flow, id: nat, a: Answer)
    requires id in net && Flight(net, epoch, kind, flow)
    ensures Flight(net[id := net[id].(answer := Some(a))], epoch, kind, flow)
  {
    var more := net[id := net[id].(answer := Some(a))];
    forall i ensures InFlight(more, epoch, kind, i) <==> InFlight(net, epoch, kind, i) {}
  }

  lemma DeliveredFlows(w: World, id: nat)
    requires id in w.net && w.net[id].answer.Some?
    ensures Rested(w, id, Delivered(w, id))
  {
    AnswerFlows(w.page, w.net[id].answer.value, w.net[id].generation);
    hide ApplyBootstrap, ValidateAnswered, PublishAnswered;
  }

  lemma AnswerFlows(p: Page, a: Answer, generation: nat)
    ensures var q := ApplyBootstrap(p, a.config, a.corrupted); q.auth == p.auth && q.queue == p.queue && q.busy == p.busy
    ensures var q := ValidateAnswered(p, a.config, a.ok, generation);
      q.auth == p.auth && q.queue == p.queue && q.busy == p.busy.(validate := Off)
    ensures var q := PublishAnswered(p, a.config, generation);
      q.auth == p.auth && q.queue == p.queue && q.busy == p.busy.(publish := Off)
  {
  }

  lemma FailedFlows(w: World, id: nat)
    requires id in w.net
    ensures Rested(w, id, Failed(w, id))
  {
  }

  lemma NetStepWired(w: World, normal: Draft -> Draft, e: Event, v: World)
    requires Wired(w) && NetStep(w, normal, e, v)
    ensures Wired(v)
  {
    hide Flight, Delivered, Failed;
    match e
    case Serve(id, answer) =>
      FlightAnswered(w.net, w.page.auth.epoch, Validate, w.page.busy.validate, id, answer);
      FlightAnswered(w.net, w.page.auth.epoch, Publish, w.page.busy.publish, id, answer);
    case Deliver(id) => DeliveredFlows(w, id); LessWired(w, id, v);
    case Fail(id) => FailedFlows(w, id); LessWired(w, id, v);
    case FailUnsigned(id) => LessWired(w, id, v);
    case _ =>
  }

  /** In a new epoch nothing is under way but a load. */
  lemma NewEpochWired(w: World, v: World, id: nat)
    requires Dated(w.net, w.page.auth.epoch) && v.page.auth.epoch > w.page.auth.epoch && PageFits(v.page)
    requires !v.page.busy.validate.Sent? && !v.page.busy.publish.Sent?
    requires v.net == w.net || (exists r: Request :: r.kind.Load? && r.epoch == v.page.auth.epoch && v.net == w.net[id := r])
    ensures Wired(v)
  {
    forall i ensures !InFlight(v.net, v.page.auth.epoch, Validate, i) && !InFlight(v.net, v.page.auth.epoch, Publish, i) {}
  }

  lemma SessionStepWired(w: World, e: Event, v: World)
    requires Wired(w) && SessionStep(w, e, v)
    ensures Wired(v)
  {
    hide Flight;
    match e
    case Session(signed, id) =>
      if signed {
        FlightSent(w.net, w.page.auth.epoch, Validate, id, v.net[id], w.page.busy.validate);
        FlightSent(w.net, w.page.auth.epoch, Publish, id, v.net[id], w.page.busy.publish);
      }
    case OtherAccount(_, id, _) =>
      assert v.net == w.net[id := v.net[id]];
      NewEpochWired(w, v, id);
    case Login(_, _, _, id, _) => LoginWired(w, e, v);
    case Logout => NewEpochWired(w, v, 0);
    case _ =>
  }

  lemma LoginWired(w: World, e: Event, v: World)
    requires Wired(w) && SessionStep(w, e, v) && e.Login?
    ensures Wired(v)
  {
    hide Authenticated;
    AuthenticatedRest(w.page, e.expired, e.sameUser, e.keep);
    if v.net != w.net { assert v.net == w.net[e.id := v.net[e.id]]; }
    NewEpochWired(w, v, e.id);
  }

  lemma AuthenticatedRest(p: Page, expired: bool, sameUser: bool, keep: bool)
    ensures var q := Authenticated(p, expired, sameUser, keep).0; q.busy == NOT_BUSY && q.auth.epoch > p.auth.epoch
  {
  }

  lemma StepWired(w: World, normal: Draft -> Draft, e: Event, v: World)
    requires Wired(w) && Step(w, normal, e, v)
    ensures Wired(v)
  {
    hide Wired, PageStep, SaveStep, NetStep, SessionStep;
    if PageStep(w, e, v) { PageStepWired(w, e, v); }
    if SaveStep(w, normal, e, v) { SaveStepWired(w, normal, e, v); }
    if NetStep(w, normal, e, v) { NetStepWired(w, normal, e, v); }
    if SessionStep(w, e, v) { SessionStepWired(w, e, v); }
  }

  lemma {:induction false} RunWired(ws: seq<World>, normal: Draft -> Draft, es: seq<Event>, n: nat)
    requires Run(ws, normal, es) && n < |ws|
    ensures Wired(ws[n])
  {
    hide Step;
    if n > 0 {
      hide Wired;
      RunWired(ws, normal, es, n - 1);
      StepWired(ws[n - 1], normal, es[n - 1], ws[n]);
    }
  }
}
