/** The draft state of the page and the handlers that change it (design/assets/app.js). */
module DraftPage {
  import opened Options

  /** A draft, by its content. */
  type Draft = string

  const EMPTY: Draft := ""

  /** A queued or running PUT: the snapshot it carries, the generation it belongs to and the login epoch it was issued in. */
  datatype Save = Save(generation: nat, snapshot: Draft, epoch: nat)

  /** state.config, state.serverConfig, state.dirtyGeneration, state.savedGeneration */
  datatype Edits = Edits(content: Draft, base: Draft, dirty: nat, saved: nat) {
    predicate Gap() { dirty > saved }
  }

  /** state.authenticated, whether the login layer is open, state.authEpoch */
  datatype Auth = Auth(signedIn: bool, overlay: bool, epoch: nat)

  /** How far `validateDraft` or `publishDraft` has come: no click is being handled; the loop of `flushDraftSave` waits for the save
      of a generation, the last of the next `ahead` ones; its last wait, for the next `ahead` saves; the request is under way. */
  datatype Flow = Off | Saving(generation: nat, ahead: nat) | Draining(ahead: nat) | Sent {
    /** What it waits for has happened, and it goes on at once. */
    predicate Due() { (Saving? || Draining?) && ahead == 0 }

    /** The running save has been answered. */
    function Advanced(): Flow {
      match this
      case Saving(generation, ahead) => Saving(generation, if ahead > 0 then ahead - 1 else 0)
      case Draining(ahead) => Draining(if ahead > 0 then ahead - 1 else 0)
      case _ => this
    }

    /** The running save has failed: a flow that waits for this one gives up. */
    function Failing(): Flow {
      if (Saving? || Draining?) && ahead == 1 then Off else Advanced()
    }
  }

  /** The two flows, and whether state.saveSequence, once nothing is queued, is rejected: its last save failed. */
  datatype Busy = Busy(validate: Flow, publish: Flow, rejected: bool) {
    predicate Due() { validate.Due() || publish.Due() }
  }

  const NOT_BUSY := Busy(Off, Off, false)

  /** state.draftCorrupted with state.draftCorruptionAcknowledged */
  datatype Health = Intact | Broken(acknowledged: bool)

  datatype Page = Page(
    edits: Edits,
    timer: bool,              // state.saveTimer is armed
    error: bool,              // state.saveError is shown
    queue: seq<Save>,         // state.saveSequence: saves not yet settled, the first one running
    auth: Auth,
    busy: Busy,
    health: Health,
    stamp: Option<nat>)       // state.validatedGeneration, while state.validation.ok and the signature stand
  {
    /** `currentValidation` */
    predicate Current() { stamp == Some(edits.dirty) }

    /** `hasUnsavedChanges` */
    predicate Unsaved() { timer || queue != [] || edits.Gap() }
  }

  // ----- the handlers as functions -----------------------------------------------------------------------------------

  /** The edit counts, the stamp is void and a save is due. */
  function Recorded(p: Page, edited: Draft): Page {
    p.(edits := p.edits.(content := edited, dirty := p.edits.dirty + 1), error := false, timer := true, stamp := None)
  }

  /** `markDirty` after the caller has changed the draft to `edited`; `proceed` answers the prompt for a corrupted draft. */
  function Edit(p: Page, edited: Draft, proceed: bool): Page {
    if p.health == Broken(false) then
      if proceed then Recorded(p, edited).(health := Broken(true))
      else p.(edits := p.edits.(content := p.edits.base))
    else Recorded(p, edited)
  }

  /** `queueDraftSave` */
  function Queue(p: Page, generation: nat): Page {
    if p.auth.signedIn && generation == p.edits.dirty then
      p.(queue := p.queue + [Save(generation, p.edits.content, p.auth.epoch)])
    else if p.auth.signedIn && p.edits.Gap() then p.(timer := true)
    else p
  }

  /** The timer's callback. */
  function TimerFires(p: Page): Page {
    var q := p.(timer := false);
    if q.edits.Gap() then Queue(q, q.edits.dirty) else q
  }

  /** The first part of `flushDraftSave`, up to its first wait. */
  function Flush(p: Page): Page {
    var q := p.(timer := false);
    if q.auth.signedIn && q.edits.Gap() then Queue(q, q.edits.dirty) else q
  }

  /** The last wait of `flushDraftSave`. */
  function Drain(p: Page): Flow {
    if p.queue != [] then Draining(|p.queue|) else if p.busy.rejected then Off else Draining(0)
  }

  /** Where `flushDraftSave` first waits. */
  function FirstWait(p: Page): Flow {
    if !p.auth.signedIn then Draining(0) else if p.edits.Gap() then Saving(p.edits.dirty, |p.queue| + 1) else Drain(p)
  }

  /** The loop of `flushDraftSave` comes around, with the save of `generation` settled: the page, and where it waits next. */
  function Again(p: Page, generation: nat): (Page, Flow) {
    if generation == p.edits.dirty || !p.edits.Gap() then (p, Drain(p))
    else
      var q := Queue(p, p.edits.dirty);
      (q, if q.queue == [] && q.busy.rejected then Off else Saving(q.edits.dirty, |q.queue|))
  }

  function ClickValidate(p: Page): Page { var q := Flush(p); q.(busy := q.busy.(validate := FirstWait(p))) }

  function ClickPublish(p: Page): Page { var q := Flush(p); q.(busy := q.busy.(publish := FirstWait(p))) }

  function ResumeValidate(p: Page): Page
    requires p.busy.validate.Saving?
  {
    var (q, flow) := Again(p, p.busy.validate.generation);
    q.(busy := q.busy.(validate := flow))
  }

  function ResumePublish(p: Page): Page
    requires p.busy.publish.Saving?
  {
    var (q, flow) := Again(p, p.busy.publish.generation);
    q.(busy := q.busy.(publish := flow))
  }

  /** `applyServerResponse`; an answer also resets the corruption flags. */
  function ApplyServerResponse(p: Page, config: Draft, generation: nat): Page {
    if generation != p.edits.dirty then p
    else p.(edits := Edits(config, config, p.edits.dirty, generation), error := false, health := Intact)
  }

  /** The running save is answered. */
  function SaveAnswered(p: Page, config: Draft): Page
    requires p.queue != []
  {
    var q := p.(queue := p.queue[1..], busy := Busy(p.busy.validate.Advanced(), p.busy.publish.Advanced(), false));
    if p.queue[0].epoch != p.auth.epoch then q else ApplyServerResponse(q, config, p.queue[0].generation)
  }

  function SaveFailed(p: Page): Page
    requires p.queue != []
  {
    var q := p.(queue := p.queue[1..], busy := Busy(p.busy.validate.Failing(), p.busy.publish.Failing(), true));
    if p.queue[0].epoch == p.auth.epoch && p.queue[0].generation == p.edits.dirty then q.(error := true) else q
  }

  /** `applyBootstrap` with a reset of the generations. */
  function ApplyBootstrap(p: Page, config: Draft, corrupted: bool): Page {
    p.(edits := Edits(config, config, 0, 0), error := false, stamp := None,
       health := if !corrupted then Intact else if p.health.Broken? then p.health else Broken(false))
  }

  /** `bumpAuthEpoch`: what is running goes on, but nobody waits for it. */
  function Bump(p: Page): Page {
    p.(auth := p.auth.(epoch := p.auth.epoch + 1), queue := [], busy := NOT_BUSY)
  }

  /** `resetUserState` */
  function Reset(p: Page): Page {
    Bump(p.(timer := false, edits := Edits(EMPTY, EMPTY, 0, 0), error := false, stamp := None, health := Intact))
  }

  /** `validateDraft`: an answer of the present epoch. */
  function ValidateAnswered(p: Page, config: Draft, ok: bool, generation: nat): Page {
    var q := p.(busy := p.busy.(validate := Off));
    if generation != q.edits.dirty then q.(stamp := None)
    else q.(edits := q.edits.(content := config), health := Intact, stamp := if ok then Some(generation) else None)
  }

  /** `publishDraft`: an answer of the present epoch. */
  function PublishAnswered(p: Page, config: Draft, generation: nat): Page {
    var q := p.(busy := p.busy.(publish := Off));
    if generation != q.edits.dirty then q.(timer := true)
    else ApplyServerResponse(q.(stamp := Some(generation)), config, generation)
  }

  /** The session is gone: the login layer opens over the page, which keeps its edits. */
  function Expire(p: Page): Page { p.(auth := p.auth.(signedIn := false, overlay := true)) }

  /** `logout` */
  function SignOut(p: Page): Page { Expire(Reset(p)) }

  /** A session request finds the user signed in. */
  function Renew(p: Page): Page { p.(auth := p.auth.(signedIn := true)) }

  function SignIn(p: Page): Page { p.(auth := p.auth.(signedIn := true, overlay := false)) }

  /** `completeAuthentication`: returns whether the unsaved edits are kept; otherwise the draft is loaded again. */
  function Authenticated(p: Page, expired: bool, sameUser: bool, keep: bool): (r: (Page, bool)) {
    var d := SignIn(if expired && !sameUser then Reset(Bump(p)) else Bump(p));
    if expired && sameUser && d.Unsaved() && keep then (Flush(d.(error := false)), true) else (d, false)
  }

  // ----- the handlers as the page runs them ---------------------------------------------------------------------------

  /** The closure of app.js around its one `state` record. */
  class Client {
    var state: Page

    method ScheduleDraftSave()
      modifies this
      ensures state == old(state).(timer := true)
    {
      state := state.(timer := true);
    }

    /** The caller has put `edited` into the draft. */
    method MarkDirty(edited: Draft, proceed: bool) returns (recorded: bool)
      modifies this
      ensures state == Edit(old(state), edited, proceed)
      ensures recorded <==> state.edits.dirty == old(state.edits.dirty) + 1
    {
      state := state.(edits := state.edits.(content := edited));
      if state.health == Broken(false) {
        if !proceed {
          state := state.(edits := state.edits.(content := state.edits.base));
          return false;
        }
        state := state.(health := Broken(true));
      }
      state := state.(edits := state.edits.(dirty := state.edits.dirty + 1), stamp := None, error := false);
      ScheduleDraftSave();
      recorded := true;
    }

    method QueueDraftSave(generation: nat)
      modifies this
      ensures state == Queue(old(state), generation)
    {
      if !state.auth.signedIn || generation != state.edits.dirty {
        if state.auth.signedIn && state.edits.dirty > state.edits.saved { ScheduleDraftSave(); }
        return;
      }
      var snapshot := state.edits.content;
      state := state.(queue := state.queue + [Save(generation, snapshot, state.auth.epoch)]);
    }

    method OnTimer()
      modifies this
      ensures state == TimerFires(old(state))
    {
      state := state.(timer := false);
      if state.edits.dirty > state.edits.saved { QueueDraftSave(state.edits.dirty); }
    }

    method StartFlush()
      modifies this
      ensures state == Flush(old(state))
    {
      if state.timer { state := state.(timer := false); }
      if !state.auth.signedIn { return; }
      if state.edits.dirty > state.edits.saved { QueueDraftSave(state.edits.dirty); }
    }

    /** The awaited save of `generation` has been answered. */
    method GoOn(generation: nat) returns (wait: Flow)
      modifies this
      ensures (state, wait) == Again(old(state), generation)
    {
      if generation != state.edits.dirty && state.edits.dirty > state.edits.saved {
        QueueDraftSave(state.edits.dirty);
        if state.queue == [] && state.busy.rejected { return Off; }
        return Saving(state.edits.dirty, |state.queue|);
      }
      wait := Drain(state);
    }

    /** `validateDraft` up to its first wait; `publishDraft` begins in the same way. */
    method StartValidation()
      modifies this
      ensures state == ClickValidate(old(state))
    {
      var wait := FirstWait(state);
      StartFlush();
      state := state.(busy := state.busy.(validate := wait));
    }

    method ApplyResponse(config: Draft, generation: nat) returns (applied: bool)
      modifies this
      ensures state == ApplyServerResponse(old(state), config, generation)
      ensures applied <==> generation == old(state.edits.dirty)
    {
      if generation != state.edits.dirty { return false; }
      state := state.(edits := state.edits.(base := config));
      state := state.(edits := state.edits.(content := config), health := Intact);
      state := state.(edits := state.edits.(saved := generation), error := false);
      applied := true;
    }

    method OnSaveAnswered(config: Draft)
      requires state.queue != []
      modifies this
      ensures state == SaveAnswered(old(state), config)
    {
      var save := state.queue[0];
      state := state.(queue := state.queue[1..], busy := Busy(state.busy.validate.Advanced(), state.busy.publish.Advanced(), false));
      if save.epoch == state.auth.epoch && save.generation == state.edits.dirty {
        var _ := ApplyResponse(config, save.generation);
      }
    }

    method OnSaveFailed()
      requires state.queue != []
      modifies this
      ensures state == SaveFailed(old(state))
    {
      var save := state.queue[0];
      state := state.(queue := state.queue[1..], busy := Busy(state.busy.validate.Failing(), state.busy.publish.Failing(), true));
      if save.epoch == state.auth.epoch && save.generation == state.edits.dirty { state := state.(error := true); }
    }

    method Bootstrap(config: Draft, corrupted: bool)
      modifies this
      ensures state == ApplyBootstrap(old(state), config, corrupted)
    {
      state := state.(edits := state.edits.(content := config, base := config));
      if !corrupted {
        state := state.(health := Intact);
      } else if state.health.Intact? {
        state := state.(health := Broken(false));
      }
      state := state.(error := false);
      state := state.(edits := state.edits.(dirty := 0, saved := 0), stamp := None);
    }

    method BumpAuthEpoch()
      modifies this
      ensures state == Bump(old(state))
    {
      state := state.(auth := state.auth.(epoch := state.auth.epoch + 1));
      state := state.(queue := []);
      state := state.(busy := NOT_BUSY);
    }

    method ResetUserState()
      modifies this
      ensures state == Reset(old(state))
    {
      if state.timer { state := state.(timer := false); }
      state := state.(edits := Edits(EMPTY, EMPTY, 0, 0));
      state := state.(error := false, stamp := None, health := Intact);
      BumpAuthEpoch();
    }

    method OnValidated(config: Draft, passed: bool, generation: nat)
      modifies this
      ensures state == ValidateAnswered(old(state), config, passed, generation)
    {
      state := state.(busy := state.busy.(validate := Off));
      if generation != state.edits.dirty {
        state := state.(stamp := None);
        return;
      }
      state := state.(stamp := if passed then Some(generation) else None);
      state := state.(edits := state.edits.(content := config), health := Intact);
    }

    method OnPublished(config: Draft, generation: nat)
      modifies this
      ensures state == PublishAnswered(old(state), config, generation)
    {
      state := state.(busy := state.busy.(publish := Off));
      if generation != state.edits.dirty {
        ScheduleDraftSave();
        return;
      }
      state := state.(stamp := Some(generation));
      var _ := ApplyResponse(config, generation);
    }

    method CompleteAuthentication(expired: bool, sameUser: bool, keep: bool) returns (kept: bool)
      modifies this
      ensures (state, kept) == Authenticated(old(state), expired, sameUser, keep)
    {
      BumpAuthEpoch();
      if expired && !sameUser { ResetUserState(); }
      state := state.(auth := state.auth.(signedIn := true, overlay := false));
      if expired && sameUser && (state.timer || state.queue != [] || state.edits.dirty > state.edits.saved) && keep {
        state := state.(error := false);
        StartFlush();
        return true;
      }
      kept := false;
    }
  }
}
