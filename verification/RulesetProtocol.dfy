/** The ruleset lifecycle as steps between durable writes. Every request holds its user's lock from its first read to
    its last write; a crash may end it between any two steps; steps of different users interleave freely. */
module RulesetProtocol {
  import opened Options
  import opened RulesetState

  type Nonce = nat

  /** What follows a cleanup or a release of markers. */
  datatype Next = ToEnd | ToCleanup | ToWrite(name: FileName, content: Content)

  /** Where the holder of the user's lock stands, with what it has read so far. */
  datatype Job =
    | Promoting(draft: set<FileName>, next: Next)
    | Scanning(refs: set<FileName>, next: Next)
    | Cleaning(refs: set<FileName>, keep: set<FileName>, next: Next)
    | Writing(name: FileName, content: Content)
    | Filling(temp: FileName, name: FileName, content: Content)
    | Reserving(name: FileName)
    | Detaching(orphan: bool)
    | Unreserving(after: Option<Nonce>)
    | Burning(nonce: Nonce)

  /** One user: row, directory, reservations, tombstones, and the holder of the lock. */
  datatype Local = Local(account: Option<Account>, space: Option<Space>, markers: map<FileName, Marker>,
                         trash: map<Nonce, Space>, job: Option<Job>)

  datatype Action =
    | Register(admin: bool, newToken: int)
    | Unregister
    | Toggle
    | ResetToken(newToken: int)
    | DropFile(name: FileName)
    | SaveDraft(draft: set<FileName>)
    | Publish(draft: set<FileName>, published: Published)
    | BeginUpload(name: FileName, content: Content)
    | ReleaseMarker(name: FileName)
    | EndPromotion
    | Scan
    | RemoveFile(name: FileName)
    | EndCleanup
    | MakeDirectory
    | FindExisting
    | OpenTemporary(temp: FileName)
    | Fill(size: nat)
    | DropTemporary
    | Replace
    | Reserve(expires: int)
    | DeleteRow
    | Detach(nonce: Nonce)
    | DropReservation(name: FileName)
    | EndReservations
    | Burn(name: FileName)
    | EndBurning
    | BurnTombstone(nonce: Nonce)
    | RestoreTombstone(nonce: Nonce)
    | DetachOrphan
    | DropOrphanReservations
    | Crash

  /** Names in a saved draft or published YAML are version names; other paths are not the user's private files. */
  predicate AllVersions(names: set<FileName>) { forall f | f in names :: f.Version? }

  predicate PublishedVersions(p: Published) { p.Lists? ==> AllVersions(p.names) }

  predicate Signed(a: Local) { a.account.Some? && a.account.value.enabled }

  // ----- what each action does -----------------------------------------------------------------------------------

  /** Changes of the row alone. `Register` and `Unregister` (a failed registration) hold no lock. */
  predicate RowStep(a: Local, act: Action, b: Local) {
    match act
    case Register(admin, newToken) =>
      a.account.None? && b == a.(account := Some(Account(true, admin, {}, Blank, newToken)))
    case Unregister =>
      a.account.Some? && !a.account.value.admin && b == a.(account := None)
    case Toggle =>
      a.job.None? && a.account.Some? && !a.account.value.admin
      && b == a.(account := Some(a.account.value.(enabled := !a.account.value.enabled)))
    case ResetToken(newToken) =>
      a.job.None? && Signed(a) && b == a.(account := Some(a.account.value.(token := newToken)))
    case SaveDraft(draft) =>
      a.job.None? && Signed(a) && AllVersions(draft)
      && b == a.(account := Some(a.account.value.(draft := draft)), job := Some(Promoting(draft, ToEnd)))
    case Publish(draft, published) =>
      a.job.None? && Signed(a) && AllVersions(draft) && PublishedVersions(published)
      && b == a.(account := Some(a.account.value.(draft := draft, published := published)), job := Some(Promoting(draft, ToCleanup)))
    case DeleteRow =>
      a.job.None? && a.account.Some? && !a.account.value.admin && b == a.(account := None, job := Some(Detaching(false)))
    case _ => false
  }

  /** A reservation that counts: for a version file, not expired. */
  predicate Holds(f: FileName, m: Marker, now: int) { f.Version? && Active(m, now) }

  /** A marker goes when it is void, its file is missing or its file is referenced. */
  predicate Releasable(now: int, job: Job, space: Option<Space>, f: FileName, m: Marker) {
    match job
    case Promoting(draft, _) => !Holds(f, m, now) || f !in Files(space) || f in draft
    case Cleaning(refs, keep, _) => f !in keep || f in refs
    case _ => false
  }

  /** `_promote_referenced_pending_rulesets` and `_cleanup_unreferenced_user_rulesets` */
  predicate CleanupStep(now: int, a: Local, act: Action, b: Local) {
    match act
    case ReleaseMarker(name) =>
      && a.job.Some? && name in a.markers && b == a.(markers := a.markers - {name})
      && Releasable(now, a.job.value, a.space, name, a.markers[name])
    case EndPromotion =>
      && a.job.Some? && a.job.value.Promoting?
      && b == a.(job := if a.job.value.next.ToCleanup? && a.account.Some?
                        then Some(Scanning(KeepSet(a.account.value, a.space), ToEnd)) else None)
    case Scan =>
      && a.job.Some? && a.job.value.Scanning?
      && var refs := a.job.value.refs;
         var reserved := set f | f in a.markers && Holds(f, a.markers[f], now) && f in Files(a.space);
         b == a.(job := Some(Cleaning(refs, refs + reserved, a.job.value.next)))
    case RemoveFile(name) =>
      && a.job.Some? && a.job.value.Cleaning? && name in Files(a.space) && name !in a.job.value.keep
      && b == a.(space := Some(Files(a.space) - {name}))
    case EndCleanup =>
      && a.job.Some? && a.job.value.Cleaning?
      && b == a.(job := if a.job.value.next.ToWrite? then Some(Writing(a.job.value.next.name, a.job.value.next.content)) else None)
    case _ => false
  }

  /** Upload: cleanup, `_write_user_ruleset_atomic`, `_reserve_pending_ruleset`; and the owner's deletion of a file. */
  ghost predicate UploadStep(a: Local, act: Action, b: Local) {
    match act
    case BeginUpload(name, content) =>
      && a.job.None? && Signed(a) && name.Version?
      && b == a.(job := Some(Scanning(KeepSet(a.account.value, a.space), ToWrite(name, content))))
    case MakeDirectory =>
      && a.job.Some? && a.job.value.Writing? && a.space.None? && b == a.(space := Some(map[]))
    case FindExisting =>
      && a.job.Some? && a.job.value.Writing? && a.job.value.name in Files(a.space)
      && b == a.(job := if Files(a.space)[a.job.value.name] == a.job.value.content then Some(Reserving(a.job.value.name)) else None)
    case OpenTemporary(temp) =>
      && a.job.Some? && a.job.value.Writing? && a.space.Some? && a.job.value.name !in a.space.value
      && temp.Other? && temp !in a.space.value
      && Bytes(a.space.value) + |a.job.value.content| <= MAX_USER_BYTES && |a.space.value| + 1 <= MAX_USER_FILES
      && b == a.(space := Some(a.space.value[temp := []]), job := Some(Filling(temp, a.job.value.name, a.job.value.content)))
    case Fill(size) =>
      && a.job.Some? && a.job.value.Filling? && a.space.Some? && a.job.value.temp in a.space.value && size <= |a.job.value.content|
      && b == a.(space := Some(a.space.value[a.job.value.temp := a.job.value.content[..size]]))
    case DropTemporary =>
      && a.job.Some? && a.job.value.Filling? && a.space.Some?
      && b == a.(space := Some(a.space.value - {a.job.value.temp}), job := None)
    case Replace =>
      && a.job.Some? && a.job.value.Filling? && a.space.Some? && a.job.value.temp in a.space.value
      && a.space.value[a.job.value.temp] == a.job.value.content
      && b == a.(space := Some((a.space.value - {a.job.value.temp})[a.job.value.name := a.job.value.content]),
                 job := Some(Reserving(a.job.value.name)))
    case Reserve(expires) =>
      && a.job.Some? && a.job.value.Reserving?
      && b == a.(markers := a.markers[a.job.value.name := Until(expires)], job := None)
    case DropFile(name) =>
      && a.job.None? && Signed(a) && name.Version? && name in Files(a.space) && name !in KeepSet(a.account.value, a.space)
      && b == a.(space := Some(Files(a.space) - {name}))
    case _ => false
  }

  /** The file side of account deletion, and the recovery pass. */
  predicate RemovalStep(a: Local, act: Action, b: Local) {
    match act
    case Detach(nonce) =>
      && a.job.Some? && a.job.value.Detaching? && nonce !in a.trash
      && b == (if a.space.None? then a.(job := if a.job.value.orphan then None else Some(Unreserving(None)))
               else a.(space := None, trash := a.trash[nonce := a.space.value],
                       job := Some(if a.job.value.orphan then Burning(nonce) else Unreserving(Some(nonce)))))
    case DropReservation(name) =>
      a.job.Some? && a.job.value.Unreserving? && b == a.(markers := a.markers - {name})
    case EndReservations =>
      && a.job.Some? && a.job.value.Unreserving? && a.markers == map[]
      && b == a.(job := if a.job.value.after.Some? then Some(Burning(a.job.value.after.value)) else None)
    case Burn(name) =>
      && a.job.Some? && a.job.value.Burning? && a.job.value.nonce in a.trash
      && b == a.(trash := a.trash[a.job.value.nonce := a.trash[a.job.value.nonce] - {name}])
    case EndBurning =>
      && a.job.Some? && a.job.value.Burning? && a.job.value.nonce in a.trash && a.trash[a.job.value.nonce] == map[]
      && b == a.(trash := a.trash - {a.job.value.nonce}, job := None)
    case BurnTombstone(nonce) =>
      a.job.None? && a.account.None? && nonce in a.trash && b == a.(job := Some(Burning(nonce)))
    case RestoreTombstone(nonce) =>
      && a.job.None? && a.account.Some? && a.space.None? && nonce in a.trash
      && b == a.(space := Some(a.trash[nonce]), trash := a.trash - {nonce})
    case DetachOrphan =>
      a.job.None? && a.account.None? && a.space.Some? && b == a.(job := Some(Detaching(true)))
    case DropOrphanReservations =>
      a.job.None? && a.account.None? && b == a.(job := Some(Unreserving(None)))
    case Crash =>
      a.job.Some? && b == a.(job := None)
    case _ => false
  }

  ghost predicate Does(now: int, a: Local, act: Action, b: Local) {
    RowStep(a, act, b) || CleanupStep(now, a, act, b) || UploadStep(a, act, b) || RemovalStep(a, act, b)
  }

  // ----- the invariant ---------------------------------------------------------------------------------------------

  /** The lock holder's snapshot still covers everything the current row refers to. */
  ghost predicate JobInv(a: Local) {
    a.job.Some? ==>
      match a.job.value
      case Promoting(draft, next) => !next.ToWrite?
      case Scanning(refs, next) => (a.account.Some? ==> KeepSet(a.account.value, a.space) <= refs) && NextInv(next)
      case Cleaning(refs, keep, next) => (a.account.Some? ==> KeepSet(a.account.value, a.space) <= keep) && refs <= keep && NextInv(next)
      case Writing(name, content) => name.Version?
      case Filling(temp, name, content) =>
        && name.Version? && temp.Other? && a.space.Some? && temp in a.space.value && name !in a.space.value
        && a.space.value[temp] <= content
        && Bytes(a.space.value) - |a.space.value[temp]| + |content| <= MAX_USER_BYTES
      case Reserving(name) => name.Version? && name in Files(a.space)
      case Detaching(_) => a.account.Some? ==> KeepSet(a.account.value, a.space) == {}
      case Unreserving(_) => true
      case Burning(_) => true
  }

  predicate NextInv(next: Next) { next.ToWrite? ==> next.name.Version? }

  ghost predicate RowInv(a: Local) {
    a.account.Some? ==> AllVersions(a.account.value.draft) && PublishedVersions(a.account.value.published)
  }

  ghost predicate QuotaInv(a: Local) {
    (a.space.Some? ==> WithinQuota(a.space.value)) && forall n :: n in a.trash ==> WithinQuota(a.trash[n])
  }

  ghost predicate Inv(a: Local) { JobInv(a) && RowInv(a) && QuotaInv(a) }

  lemma RowKeepsInv(a: Local, act: Action, b: Local)
    requires RowStep(a, act, b) && Inv(a)
    ensures Inv(b)
  {
  }

  lemma CleanupKeepsInv(now: int, a: Local, act: Action, b: Local)
    requires CleanupStep(now, a, act, b) && Inv(a)
    ensures Inv(b)
  {
    if act.RemoveFile? { BytesLess(a.space.value, act.name); }
  }

  lemma OpenKeepsInv(a: Local, act: Action, b: Local)
    requires act.OpenTemporary? && UploadStep(a, act, b) && Inv(a)
    ensures Inv(b)
  {
    hide Bytes;
    BytesWith(a.space.value, act.temp, []);
  }

  lemma FillKeepsInv(a: Local, act: Action, b: Local)
    requires act.Fill? && UploadStep(a, act, b) && Inv(a)
    ensures Inv(b)
  {
    hide Bytes;
    BytesReplaced(a.space.value, a.job.value.temp, a.job.value.content[..act.size]);
  }

  lemma ReplaceKeepsInv(a: Local, act: Action, b: Local)
    requires act.Replace? && UploadStep(a, act, b) && Inv(a)
    ensures Inv(b)
  {
    hide Bytes;
    RenameSizes(a.space.value, a.job.value.temp, a.job.value.name, a.job.value.content);
  }

  lemma DropKeepsInv(a: Local, act: Action, b: Local)
    requires act.DropFile? && UploadStep(a, act, b) && Inv(a)
    ensures Inv(b)
  {
    hide Bytes;
    BytesLess(a.space.value, act.name);
  }

  lemma TemporaryKeepsInv(a: Local, act: Action, b: Local)
    requires act.DropTemporary? && UploadStep(a, act, b) && Inv(a)
    ensures Inv(b)
  {
    hide Bytes;
    BytesLess(a.space.value, a.job.value.temp);
  }

  lemma PlainKeepsInv(a: Local, act: Action, b: Local)
    requires UploadStep(a, act, b) && Inv(a)
    requires !act.OpenTemporary? && !act.Fill? && !act.Replace? && !act.DropFile? && !act.DropTemporary?
    ensures Inv(b)
  {
    hide Bytes;
    NoBytes();
  }

  lemma UploadKeepsInv(a: Local, act: Action, b: Local)
    requires UploadStep(a, act, b) && Inv(a)
    ensures Inv(b)
  {
    hide Bytes, Inv, UploadStep;
    if act.OpenTemporary? {
      OpenKeepsInv(a, act, b);
    } else if act.Fill? {
      FillKeepsInv(a, act, b);
    } else if act.Replace? {
      ReplaceKeepsInv(a, act, b);
    } else if act.DropFile? {
      DropKeepsInv(a, act, b);
    } else if act.DropTemporary? {
      TemporaryKeepsInv(a, act, b);
    } else {
      PlainKeepsInv(a, act, b);
    }
  }

  lemma NoBytes()
    ensures Bytes(map[]) == 0
  {
  }

  lemma RenameSizes(space: Space, temp: FileName, name: FileName, content: Content)
    requires temp in space && name !in space && space[temp] == content
    ensures Bytes((space - {temp})[name := content]) == Bytes(space)
    ensures |(space - {temp})[name := content]| == |space|
  {
    hide Bytes;
    BytesWithout(space, temp);
    SizeWithout(space, temp);
    BytesWith(space - {temp}, name, content);
  }

  lemma RemovalKeepsInv(a: Local, act: Action, b: Local)
    requires RemovalStep(a, act, b) && Inv(a)
    ensures Inv(b)
  {
    if act.Burn? { BytesLess(a.trash[a.job.value.nonce], act.name); }
  }

  lemma StepKeepsInv(now: int, a: Local, act: Action, b: Local)
    requires Does(now, a, act, b) && Inv(a)
    ensures Inv(b)
  {
    hide RowStep, CleanupStep, UploadStep, RemovalStep, Inv;
    if RowStep(a, act, b) {
      RowKeepsInv(a, act, b);
    } else if CleanupStep(now, a, act, b) {
      CleanupKeepsInv(now, a, act, b);
    } else if UploadStep(a, act, b) {
      UploadKeepsInv(a, act, b);
    } else {
      RemovalKeepsInv(a, act, b);
    }
  }

  // ----- what a step keeps ---------------------------------------------------------------------------------------------

  /** A version file the saved draft or the published YAML refers to. */
  predicate Protected(a: Local, f: FileName) {
    a.account.Some? && f.Version? && f in Files(a.space) && f in KeepSet(a.account.value, a.space)
  }

  lemma RowKeepsFiles(a: Local, act: Action, b: Local)
    requires RowStep(a, act, b)
    ensures b.space == a.space && b.trash == a.trash && b.markers == a.markers
  {
  }

  lemma {:induction false} ProtectedKept(now: int, a: Local, act: Action, b: Local, f: FileName)
    requires Does(now, a, act, b) && Inv(a) && Protected(a, f) && b.account.Some?
    ensures f in Files(b.space) && Files(b.space)[f] == Files(a.space)[f]
  {
    if RowStep(a, act, b) {
      RowKeepsFiles(a, act, b);
    } else {
      ProtectedCleanup(now, a, act, b, f);
      ProtectedRest(now, a, act, b, f);
    }
  }

  lemma ProtectedCleanup(now: int, a: Local, act: Action, b: Local, f: FileName)
    requires Inv(a) && Protected(a, f) && b.account.Some?
    ensures CleanupStep(now, a, act, b) ==> f in Files(b.space) && Files(b.space)[f] == Files(a.space)[f]
  {
    hide Bytes;
  }

  lemma ProtectedRest(now: int, a: Local, act: Action, b: Local, f: FileName)
    requires Inv(a) && Protected(a, f) && b.account.Some?
    ensures UploadStep(a, act, b) || RemovalStep(a, act, b) ==> f in Files(b.space) && Files(b.space)[f] == Files(a.space)[f]
  {
    hide Bytes, UploadStep, RemovalStep;
    ProtectedUpload(a, act, b, f);
    ProtectedRemoval(a, act, b, f);
  }

  lemma ProtectedUpload(a: Local, act: Action, b: Local, f: FileName)
    requires Inv(a) && Protected(a, f)
    ensures UploadStep(a, act, b) ==> f in Files(b.space) && Files(b.space)[f] == Files(a.space)[f]
  {
    hide Bytes;
  }

  lemma ProtectedRemoval(a: Local, act: Action, b: Local, f: FileName)
    requires Inv(a) && Protected(a, f) && b.account.Some?
    ensures RemovalStep(a, act, b) ==> f in Files(b.space) && Files(b.space)[f] == Files(a.space)[f]
  {
    hide Bytes;
  }

  /** Version files are immutable: no step changes the content of one that stays. */
  lemma VersionUnchanged(now: int, a: Local, act: Action, b: Local, f: FileName)
    requires Does(now, a, act, b) && Inv(a) && f.Version? && f in Files(a.space) && f in Files(b.space)
    ensures Files(b.space)[f] == Files(a.space)[f]
  {
    hide Bytes;
    if RowStep(a, act, b) {
      RowKeepsFiles(a, act, b);
    } else if CleanupStep(now, a, act, b) {
      assert act.RemoveFile? || b.space == a.space;
    } else if UploadStep(a, act, b) {
    } else {
      assert b.space == a.space || b.space.None? || a.space.None?;
    }
  }

  /** An uploaded file whose reservation runs, with no job under way that has overlooked it. */
  ghost predicate Reserved(now: int, a: Local, f: FileName) {
    && a.account.Some? && f in Files(a.space)
    && f in a.markers && Active(a.markers[f], now)
    && !Overlooked(a, f)
  }

  predicate Overlooked(a: Local, f: FileName) {
    a.job.Some? &&
      match a.job.value
      case Promoting(draft, _) => f in draft
      case Scanning(refs, _) => f in refs
      case Cleaning(refs, keep, _) => f !in keep || f in refs
      case Detaching(_) => true
      case Unreserving(_) => true
      case _ => false
  }

  /** A commit refers to the file, or a cleanup starts that takes it for referenced: it is, or the published YAML cannot be read. */
  predicate Overlooks(a: Local, act: Action, f: FileName)
    requires a.account.Some?
  {
    match act
    case SaveDraft(draft) => f in draft
    case Publish(draft, _) => f in draft
    case BeginUpload(_, _) => f in Named(a.account.value) || a.account.value.published.Unreadable?
    case EndPromotion =>
      a.job.Some? && a.job.value.Promoting? && a.job.value.next.ToCleanup?
      && (f in Named(a.account.value) || a.account.value.published.Unreadable?)
    case _ => false
  }

  /** While the account exists, the marker runs and the owner does not delete the file, a reserved file stays reserved exactly
      when no commit refers to it and no cleanup starts that takes it for referenced. */
  lemma ReservedKept(now: int, a: Local, act: Action, b: Local, f: FileName)
    requires Does(now, a, act, b) && Inv(a) && Reserved(now, a, f) && f.Version?
    requires b.account.Some? && act != DropFile(f)
    requires f in b.markers ==> Active(b.markers[f], now)
    ensures Reserved(now, b, f) <==> !Overlooks(a, act, f)
  {
    if RowStep(a, act, b) {
      ReservedRow(now, a, act, b, f);
    } else {
      ReservedCleanup(now, a, act, b, f);
      ReservedUpload(now, a, act, b, f);
      ReservedRemoval(now, a, act, b, f);
    }
  }

  lemma ReservedRow(now: int, a: Local, act: Action, b: Local, f: FileName)
    requires Inv(a) && Reserved(now, a, f) && b.account.Some?
    ensures RowStep(a, act, b) ==> (Reserved(now, b, f) <==> !Overlooks(a, act, f))
  {
    hide Bytes;
  }

  lemma ReservedCleanup(now: int, a: Local, act: Action, b: Local, f: FileName)
    requires Inv(a) && Reserved(now, a, f) && b.account.Some? && f.Version?
    ensures CleanupStep(now, a, act, b) ==> (Reserved(now, b, f) <==> !Overlooks(a, act, f))
  {
    hide Bytes;
  }

  lemma ReservedUpload(now: int, a: Local, act: Action, b: Local, f: FileName)
    requires Inv(a) && Reserved(now, a, f) && f.Version? && act != DropFile(f)
    ensures UploadStep(a, act, b) && (f in b.markers ==> Active(b.markers[f], now)) ==> (Reserved(now, b, f) <==> !Overlooks(a, act, f))
  {
    hide Bytes;
  }

  lemma ReservedRemoval(now: int, a: Local, act: Action, b: Local, f: FileName)
    requires Inv(a) && Reserved(now, a, f) && b.account.Some?
    ensures RemovalStep(a, act, b) ==> Reserved(now, b, f) && !Overlooks(a, act, f)
  {
    hide Bytes;
  }

  /** The last step of an upload starts the reservation. */
  lemma ReservationStarts(now: int, a: Local, expires: int, b: Local)
    requires UploadStep(a, Reserve(expires), b) && Inv(a) && a.account.Some? && expires > now
    ensures Reserved(now, b, a.job.value.name)
  {
    hide Bytes;
  }

  // ----- all users together ---------------------------------------------------------------------------------------------

  type UserId = nat

  datatype World = World(clock: int, locals: UserId -> Local)

  datatype Event = Tick(clock: int) | Act(user: UserId, action: Action)

  ghost predicate WorldStep(w: World, e: Event, v: World) {
    match e
    case Tick(clock) => clock >= w.clock && v.clock == clock && forall u :: v.locals(u) == w.locals(u)
    case Act(user, action) =>
      && v.clock == w.clock && Does(w.clock, w.locals(user), action, v.locals(user))
      && forall u :: u != user ==> v.locals(u) == w.locals(u)
  }

  ghost predicate WorldInv(w: World) { forall u :: Inv(w.locals(u)) }

  /** A run from any tree within its quotas with no request under way. */
  ghost predicate Run(ws: seq<World>, es: seq<Event>) {
    && |ws| == |es| + 1
    && (forall u :: ws[0].locals(u).job.None? && RowInv(ws[0].locals(u)) && QuotaInv(ws[0].locals(u)))
    && forall i :: 0 <= i < |es| ==> WorldStep(ws[i], es[i], ws[i + 1])
  }

  lemma WorldStepKeepsInv(w: World, e: Event, v: World)
    requires WorldStep(w, e, v) && WorldInv(w)
    ensures WorldInv(v)
  {
    hide Inv, Does;
    if e.Act? { StepKeepsInv(w.clock, w.locals(e.user), e.action, v.locals(e.user)); }
  }

  lemma {:induction false} RunInv(ws: seq<World>, es: seq<Event>, n: nat)
    requires Run(ws, es) && n < |ws|
    ensures WorldInv(ws[n])
  {
    hide RowInv, QuotaInv, WorldStep;
    if n > 0 {
      RunInv(ws, es, n - 1);
      WorldStepKeepsInv(ws[n - 1], es[n - 1], ws[n]);
    }
  }

  /** Quotas: in every state of every run, crashes in the middle of a write included, each user's files stay in bounds. */
  lemma QuotaAlways(ws: seq<World>, es: seq<Event>, n: nat, u: UserId)
    requires Run(ws, es) && n < |ws| && ws[n].locals(u).space.Some?
    ensures Bytes(ws[n].locals(u).space.value) <= 32 * 1024 * 1024
    ensures |ws[n].locals(u).space.value| <= 100
  {
    RunInv(ws, es, n);
    assert Inv(ws[n].locals(u));
  }

  /** The draft or the readable published YAML refers to the file, or the YAML cannot be read. */
  predicate Refers(account: Account, f: FileName) { f in Named(account) || account.published.Unreadable? }

  lemma RefersProtects(a: Local, f: FileName)
    requires a.account.Some? && f.Version? && f in Files(a.space) && Refers(a.account.value, f)
    ensures Protected(a, f)
  {
  }

  /** A referenced file outlives everything: as long as the account exists and refers to it, or its YAML cannot be read, it is
      there, unchanged. */
  lemma {:induction false} ReferencedSurvives(ws: seq<World>, es: seq<Event>, i: nat, j: nat, u: UserId, f: FileName)
    requires Run(ws, es) && i <= j < |ws| && f.Version? && f in Files(ws[i].locals(u).space)
    requires forall k :: i <= k <= j ==> ws[k].locals(u).account.Some? && Refers(ws[k].locals(u).account.value, f)
    ensures f in Files(ws[j].locals(u).space) && Files(ws[j].locals(u).space)[f] == Files(ws[i].locals(u).space)[f]
  {
    hide Does, Inv, KeepSet, Files, Protected, Refers;
    if i < j {
      ReferencedSurvives(ws, es, i, j - 1, u, f);
      RunInv(ws, es, j - 1);
      RefersProtects(ws[j - 1].locals(u), f);
      if es[j - 1].Act? && es[j - 1].user == u {
        ProtectedKept(ws[j - 1].clock, ws[j - 1].locals(u), es[j - 1].action, ws[j].locals(u), f);
      }
    }
  }

  /** Nothing between two states ends the reservation of f: no deletion by the owner, no deletion of the account, no expiry, no
      commit that refers to f and no start of a cleanup that takes f for referenced. */
  ghost predicate Undisturbed(w: World, e: Event, v: World, u: UserId, f: FileName) {
    && e != Act(u, DropFile(f))
    && w.locals(u).account.Some? && v.locals(u).account.Some?
    && (f in v.locals(u).markers ==> Active(v.locals(u).markers[f], v.clock))
    && (e.Act? && e.user == u ==> !Overlooks(w.locals(u), e.action, f))
  }

  /** A fresh upload outlives everything else until its reservation expires, its owner deletes it, a commit refers to it, the
      account goes, or a cleanup starts while the published YAML cannot be read. */
  lemma {:induction false} ReservedSurvives(ws: seq<World>, es: seq<Event>, i: nat, j: nat, u: UserId, f: FileName)
    requires Run(ws, es) && i <= j < |ws| && f.Version?
    requires Reserved(ws[i].clock, ws[i].locals(u), f)
    requires forall k :: i < k <= j ==> Undisturbed(ws[k - 1], es[k - 1], ws[k], u, f)
    ensures Reserved(ws[j].clock, ws[j].locals(u), f)
    ensures Files(ws[j].locals(u).space)[f] == Files(ws[i].locals(u).space)[f]
  {
    hide Does, Inv, KeepSet, Files, Overlooked, Overlooks;
    if i < j {
      ReservedSurvives(ws, es, i, j - 1, u, f);
      RunInv(ws, es, j - 1);
      assert Undisturbed(ws[j - 1], es[j - 1], ws[j], u, f);
      if es[j - 1].Act? && es[j - 1].user == u {
        ReservedKept(ws[j - 1].clock, ws[j - 1].locals(u), es[j - 1].action, ws[j].locals(u), f);
        VersionUnchanged(ws[j - 1].clock, ws[j - 1].locals(u), es[j - 1].action, ws[j].locals(u), f);
      }
    }
  }
}
