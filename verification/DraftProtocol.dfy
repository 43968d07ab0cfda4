/** The page, the requests on their way and the server, as interleaved events (design/assets/app.js). */
module DraftProtocol {
  import opened Options
  import opened DraftPage

  datatype Kind = Validate | Publish | Load

  /** The server's answer: the draft in its normal form. */
  datatype Answer = Answer(config: Draft, ok: bool, corrupted: bool)

  /** A request other than a save. For a load, `generation` is the number of writes issued before it. */
  datatype Request = Request(kind: Kind, body: Draft, generation: nat, epoch: nat, answer: Option<Answer>)

  /** A save sequence nobody waits for any more; it still runs to its end. */
  datatype Chain = Chain(saves: seq<Save>, served: Option<Draft>)

  datatype World = World(
    page: Page,
    starting: bool,           // the first session request is under way
    served: Option<Draft>,    // the server has stored the running save and answers with this draft
    strays: seq<Chain>,       // sequences abandoned by a change of epoch
    net: map<nat, Request>,
    stored: Draft,            // the server's draft of the signed-in account
    loaded: bool,             // the page has loaded that draft
    issued: nat,              // saves queued and checks sent
    last: nat,                // the generation of the last write stored since the last load
    lastOk: Draft)            // the draft of the last answer that set the stamp

  /** Whose unauthorised answer made the page ask for its session: a request, the running save, an abandoned save, or a request that
      carries no draft. */
  datatype Cause = ByRequest(id: nat) | BySave | ByStray(i: nat) | ByOther

  datatype Event =
    | Change(edited: Draft, proceed: bool)
    | Timer
    | SaveClick
    | FlushAgain
    | ValidateClick
    | PublishClick
    | GoOnValidate
    | GoOnPublish
    | SendValidate(id: nat)
    | SendPublish(id: nat)
    | RefusePublish
    | StoreSave
    | AnswerSave
    | FailSave
    | StoreStray(i: nat)
    | EndStray(i: nat)
    | Serve(id: nat, answer: Answer)
    | Deliver(id: nat)
    | Fail(id: nat)
    | FailUnsigned(id: nat)
    | Session(signed: bool, id: nat)
    | SessionLost(cause: Cause)
    | SessionBack(cause: Cause)
    | OtherAccount(cause: Cause, id: nat, theirs: Draft)
    | Login(expired: bool, sameUser: bool, keep: bool, id: nat, theirs: Draft)
    | Logout

  // ----- steps ------------------------------------------------------------------------------------------------------

  /** The page takes a local step; newly queued saves count as issued. */
  function Local(w: World, p: Page): World {
    w.(page := p, issued := w.issued + (if |p.queue| > |w.page.queue| then 1 else 0))
  }

  /** The page changes its epoch: the running sequence is abandoned. */
  function Abandon(w: World): World {
    w.(strays := if w.page.queue == [] then w.strays else w.strays + [Chain(w.page.queue, w.served)], served := None)
  }

  function Send(w: World, id: nat, r: Request): World { w.(net := w.net[id := r]) }

  function LoadRequest(w: World, epoch: nat): Request { Request(Load, EMPTY, w.issued, epoch, None) }

  /** The server stores a write of the given epoch. */
  function Store(w: World, normal: Draft -> Draft, body: Draft, generation: nat): World {
    w.(stored := normal(body), last := generation)
  }

  /** A check of the present draft is sent. */
  function SentCheck(w: World, id: nat, kind: Kind): World {
    var flows := if kind.Validate? then w.page.busy.(validate := Sent) else w.page.busy.(publish := Sent);
    Send(w, id, Request(kind, w.page.edits.content, w.page.edits.dirty, w.page.auth.epoch, None))
      .(page := w.page.(busy := flows), issued := w.issued + 1)
  }

  predicate PageStep(w: World, e: Event, v: World) {
    match e
    case Change(edited, proceed) => v == Local(w, Edit(w.page, edited, proceed))
    case Timer => w.page.timer && v == Local(w, TimerFires(w.page))
    case SaveClick => v == Local(w, Flush(w.page))
    case FlushAgain => w.page.auth.signedIn && w.page.edits.Gap() && v == Local(w, Queue(w.page, w.page.edits.dirty))
    case ValidateClick => w.page.busy.validate.Off? && !w.page.auth.overlay && v == Local(w, ClickValidate(w.page))
    case PublishClick =>
      w.page.busy.publish.Off? && !w.page.auth.overlay && w.page.Current() && v == Local(w, ClickPublish(w.page))
    case GoOnValidate => w.page.busy.validate.Saving? && w.page.busy.validate.Due() && v == Local(w, ResumeValidate(w.page))
    case GoOnPublish => w.page.busy.publish.Saving? && w.page.busy.publish.Due() && v == Local(w, ResumePublish(w.page))
    case SendValidate(id) => w.page.busy.validate == Draining(0) && id !in w.net && v == SentCheck(w, id, Validate)
    case SendPublish(id) => w.page.busy.publish == Draining(0) && w.page.Current() && id !in w.net && v == SentCheck(w, id, Publish)
    case RefusePublish =>
      w.page.busy.publish == Draining(0) && !w.page.Current() && v == w.(page := w.page.(busy := w.page.busy.(publish := Off)))
    case _ => false
  }

  predicate SaveStep(w: World, normal: Draft -> Draft, e: Event, v: World) {
    match e
    case StoreSave =>
      && w.page.queue != [] && w.served.None?
      && v == Store(w, normal, w.page.queue[0].snapshot, w.page.queue[0].generation)
              .(served := Some(normal(w.page.queue[0].snapshot)))
    case AnswerSave =>
      w.page.queue != [] && w.served.Some? && v == w.(page := SaveAnswered(w.page, w.served.value), served := None)
    case FailSave => w.page.queue != [] && v == w.(page := SaveFailed(w.page), served := None)
    case StoreStray(i) =>
      && i < |w.strays| && w.strays[i].saves != [] && w.strays[i].served.None?
      && var save := w.strays[i].saves[0];
         v == w.(stored := normal(save.snapshot),
                 strays := w.strays[i := w.strays[i].(served := Some(normal(save.snapshot)))])
    case EndStray(i) =>
      && i < |w.strays| && w.strays[i].saves != []
      && v == w.(strays := w.strays[i := Chain(w.strays[i].saves[1..], None)])
    case _ => false
  }

  predicate NetStep(w: World, normal: Draft -> Draft, e: Event, v: World) {
    match e
    case Serve(id, answer) =>
      && id in w.net && w.net[id].answer.None?
      && var r := w.net[id];
         if r.kind.Load? then
           answer.config == normal(w.stored) && v == Send(w, id, r.(answer := Some(answer)))
         else
           && answer.config == normal(r.body) && !answer.corrupted && (r.kind.Publish? ==> answer.ok)
           && v == Send(Store(w, normal, r.body, r.generation), id, r.(answer := Some(answer)))
    case Deliver(id) => id in w.net && w.net[id].answer.Some? && v == Delivered(w, id)
    case Fail(id) => id in w.net && v == Failed(w, id)
    case FailUnsigned(id) =>
      && id in w.net && w.net[id].kind.Load?
      && v == w.(net := w.net - {id}, page := if w.net[id].epoch == w.page.auth.epoch then Expire(w.page) else w.page)
    case _ => false
  }

  function Delivered(w: World, id: nat): World
    requires id in w.net && w.net[id].answer.Some?
  {
    var r := w.net[id];
    var a := r.answer.value;
    var rest := w.(net := w.net - {id});
    if r.epoch != w.page.auth.epoch then rest
    else
      match r.kind
      case Load =>
        rest.(page := SignIn(ApplyBootstrap(w.page, a.config, a.corrupted)), loaded := true, last := 0)
      case Validate =>
        rest.(page := ValidateAnswered(w.page, a.config, a.ok, r.generation),
              lastOk := if r.generation == w.page.edits.dirty && a.ok then a.config else w.lastOk)
      case Publish =>
        rest.(page := PublishAnswered(w.page, a.config, r.generation),
              lastOk := if r.generation == w.page.edits.dirty then a.config else w.lastOk)
  }

  function Failed(w: World, id: nat): World
    requires id in w.net
  {
    var r := w.net[id];
    var rest := w.(net := w.net - {id});
    if r.epoch != w.page.auth.epoch then rest
    else
      match r.kind
      case Load => rest.(page := w.page.(error := true))
      case Validate => rest.(page := w.page.(busy := w.page.busy.(validate := Off)))
      case Publish => rest.(page := w.page.(busy := w.page.busy.(publish := Off)))
  }

  /** The request is under way and the server has not acted on it. Its login epoch plays no part. */
  predicate Unauthorised(w: World, cause: Cause) {
    match cause
    case ByRequest(id) => id in w.net && w.net[id].answer.None?
    case BySave => w.page.queue != [] && w.served.None?
    case ByStray(i) => i < |w.strays| && w.strays[i].saves != [] && w.strays[i].served.None?
    case ByOther => true
  }

  /** Session, login and logout. After an unauthorised answer the page asks for its session before it looks at the epoch of the
      request: the session is gone, or back and the request is sent again, or another account's. `theirs` is the draft of the account
      that is signed in afterwards, if it is another one. */
  predicate SessionStep(w: World, e: Event, v: World) {
    match e
    case Session(signed, id) =>
      && w.starting && id !in w.net
      && v == (if signed then Send(w, id, LoadRequest(w, w.page.auth.epoch)).(page := Renew(w.page), starting := false)
               else w.(page := Expire(w.page), starting := false))
    case SessionLost(cause) => !w.starting && Unauthorised(w, cause) && v == w.(page := Expire(w.page))
    case SessionBack(cause) => Unauthorised(w, cause) && v == w.(page := Renew(w.page))
    case OtherAccount(cause, id, theirs) =>
      && Unauthorised(w, cause) && id !in w.net
      && var p := Renew(Reset(w.page));
         v == Send(Abandon(w), id, LoadRequest(w, p.auth.epoch)).(page := p, stored := theirs, loaded := false, last := 0)
    case Login(expired, sameUser, keep, id, theirs) =>
      && !w.starting && w.page.auth.overlay && id !in w.net
      && var r := Authenticated(w.page, expired, sameUser, keep);
         var same := expired && sameUser;
         var a := Abandon(w).(page := r.0, issued := w.issued + |r.0.queue|,
                              stored := if same then w.stored else theirs, loaded := same && w.loaded,
                              last := if expired && !sameUser then 0 else w.last);
         v == (if r.1 then a else Send(a, id, LoadRequest(w, r.0.auth.epoch)))
    case Logout => v == Abandon(w).(page := SignOut(w.page), loaded := false, last := 0)
    case _ => false
  }

  /** A flow that has what it waits for goes on before anything else happens; so does any other flush. */
  predicate Urgent(e: Event) { e.GoOnValidate? || e.GoOnPublish? || e.SendValidate? || e.SendPublish? || e.RefusePublish? || e.FlushAgain? }

  predicate Step(w: World, normal: Draft -> Draft, e: Event, v: World) {
    (w.page.busy.Due() ==> Urgent(e)) && Does(w, normal, e, v)
  }

  predicate Does(w: World, normal: Draft -> Draft, e: Event, v: World) {
    PageStep(w, e, v) || SaveStep(w, normal, e, v) || NetStep(w, normal, e, v) || SessionStep(w, e, v)
  }
}
