/** The routines of src/ruleset_store.py and the locked bodies of src/api.py for one user. Every durable write is recorded
    as a step of the protocol. */
module RulesetStore {
  import opened Options
  import opened RulesetState
  import opened RulesetProtocol

  ghost predicate Linked(now: int, a: Local, b: Local) { exists act :: Does(now, a, act, b) }

  /** q continues p by protocol steps. */
  ghost predicate Continues(now: int, p: seq<Local>, q: seq<Local>) {
    && 0 < |p| <= |q| && q[..|p|] == p
    && forall k :: |p| <= k < |q| ==> Linked(now, q[k - 1], q[k])
  }

  lemma ContinuesTrans(now: int, p: seq<Local>, q: seq<Local>, r: seq<Local>)
    requires Continues(now, p, q) && Continues(now, q, r)
    ensures Continues(now, p, r)
  {
    hide Linked;
    assert r[..|p|] == q[..|p|];
    forall k | |p| <= k < |r| ensures Linked(now, r[k - 1], r[k]) {
      if k < |q| { assert r[k - 1] == q[k - 1] && r[k] == q[k]; }
    }
  }

  lemma SomeTrace(now: int, p: seq<Local>, q: seq<Local>)
    requires Continues(now, p, q)
    ensures q != []
  {
    hide Linked;
  }

  lemma ContinuesStep(now: int, p: seq<Local>, q: seq<Local>, act: Action, b: Local)
    requires Continues(now, p, q) && Does(now, q[|q| - 1], act, b)
    ensures Continues(now, p, q + [b])
  {
    hide Does;
    assert Linked(now, q[|q| - 1], b);
    hide Linked;
    assert (q + [b])[..|p|] == p;
  }

  /** The markers that survive a look at the directory. */
  function Live(markers: map<FileName, Marker>, now: int): map<FileName, Marker> {
    map f | f in markers && Holds(f, markers[f], now) :: markers[f]
  }

  class UserStore {
    var account: Option<Account>
    var space: Option<Space>
    var markers: map<FileName, Marker>
    var trash: map<Nonce, Space>
    ghost var job: Option<Job>
    ghost var trace: seq<Local>

    ghost function View(): Local
      reads this
    {
      Local(account, space, markers, trash, job)
    }

    ghost predicate Valid()
      reads this
    {
      trace != [] && trace[|trace| - 1] == View() && Inv(View())
    }

    /** The trace gets the state just written. */
    ghost method Record(now: int, act: Action, start: seq<Local>)
      requires Continues(now, start, trace) && Inv(trace[|trace| - 1]) && Does(now, trace[|trace| - 1], act, View())
      modifies this`trace
      ensures Valid() && Continues(now, start, trace)
    {
      hide Continues, Does, Inv;
      SomeTrace(now, start, trace);
      StepKeepsInv(now, trace[|trace| - 1], act, View());
      ContinuesStep(now, start, trace, act, View());
      trace := trace + [View()];
    }

    /** `_pending_ruleset_filenames`: drops void markers, returns the others. */
    method PendingFilenames(now: int, ghost start: seq<Local>) returns (active: set<FileName>)
      requires Valid() && Continues(now, start, trace) && job.Some?
      requires forall f :: f in markers && !Holds(f, markers[f], now) ==> Releasable(now, job.value, space, f, markers[f])
      modifies this`markers, this`trace
      ensures Valid() && Continues(now, start, trace)
      ensures markers == Live(old(markers), now) && active == markers.Keys
      ensures forall f :: f in active <==> f in old(markers) && f.Version? && old(markers)[f].Until? && now < old(markers)[f].expires
    {
      hide Continues, Does, Inv, Releasable, Holds;
      active := {};
      var listing := markers.Keys;
      while listing != {}
        invariant Valid() && Continues(now, start, trace)
        invariant listing <= markers.Keys && active == markers.Keys - listing
        invariant forall f :: f in markers ==> f in old(markers) && markers[f] == old(markers)[f]
        invariant forall f :: f in old(markers) && f !in markers ==> !Holds(f, old(markers)[f], now)
        invariant forall f :: f in active ==> Holds(f, markers[f], now)
        decreases |listing|
      {
        var f :| f in listing;
        if Holds(f, markers[f], now) {
          active := active + {f};
        } else {
          ReleaseOne(now, f, start);
        }
        listing := listing - {f};
      }
      HoldsMeans(old(markers), now);
    }

    /** One marker goes. */
    method ReleaseOne(now: int, f: FileName, ghost start: seq<Local>)
      requires Valid() && Continues(now, start, trace)
      requires job.Some? && f in markers && Releasable(now, job.value, space, f, markers[f])
      modifies this`markers, this`trace
      ensures Valid() && Continues(now, start, trace)
      ensures markers == old(markers) - {f}
    {
      hide Continues, Does, Inv, Releasable;
      ghost var before := View();
      markers := markers - {f};
      ReleaseIsStep(now, before, f);
      Record(now, ReleaseMarker(f), start);
    }

    /** `_promote_referenced_pending_rulesets`: releases the reservations the saved draft now refers to. */
    method Promote(now: int, draft: set<FileName>, ghost start: seq<Local>)
      requires Valid() && Continues(now, start, trace) && job.Some? && job.value.Promoting? && job.value.draft == draft
      modifies this`markers, this`trace
      ensures Valid() && Continues(now, start, trace)
      ensures markers == map f | f in old(markers) && Holds(f, old(markers)[f], now) && f in Files(space) && f !in draft :: old(markers)[f]
    {
      hide Continues, Does, Inv, Holds, Files;
      var listing := PendingFilenames(now, start);
      ghost var live := markers;
      while listing != {}
        invariant Valid() && Continues(now, start, trace)
        invariant listing <= markers.Keys
        invariant forall f :: f in markers ==> f in live && markers[f] == live[f]
        invariant forall f :: f in live && f !in markers ==> f !in Files(space) || f in draft
        invariant forall f :: f in markers && f !in listing ==> f in Files(space) && f !in draft
        decreases |listing|
      {
        var f :| f in listing;
        if f !in Files(space) || f in draft {
          ReleaseOne(now, f, start);
        }
        listing := listing - {f};
      }
    }

    /** `_cleanup_unreferenced_user_rulesets`: keeps what the given row refers to and what is reserved, removes the rest;
        `stuck` are the files that cannot be unlinked. */
    method Cleanup(now: int, refs: set<FileName>, stuck: set<FileName>, ghost start: seq<Local>) returns (removed: set<FileName>)
      requires Valid() && Continues(now, start, trace)
      requires job.Some? && job.value.Scanning? && job.value.refs == refs
      modifies this`space, this`markers, this`trace, this`job
      ensures Valid() && Continues(now, start, trace)
      ensures old(job.value).Scanning? && job == AfterCleanup(old(job.value).next)
      ensures markers == Kept(old(markers), Files(old(space)), refs, now)
      ensures removed == Files(old(space)).Keys - refs - markers.Keys - stuck
      ensures space == (if old(space).None? then None else Some(old(space).value - removed))
      ensures forall f :: f in removed <==> f in Files(old(space)) && f !in refs && f !in stuck && !StillReserved(old(markers), now, f)
      ensures forall f :: f in Files(old(space)) && f !in refs && !StillReserved(old(markers), now, f) ==> f !in markers
    {
      KeptReserved(markers, Files(space), refs, now);
      hide Continues, Does, Inv, Releasable;
      ghost var next := job.value.next;
      ghost var keep := refs + set f | f in markers && Holds(f, markers[f], now) && f in Files(space);
      ghost var before := View();
      job := Some(Cleaning(refs, keep, next));
      ScanIsStep(now, before, refs, next);
      Record(now, Scan, start);
      forall f | f in markers && !Holds(f, markers[f], now) ensures Releasable(now, job.value, space, f, markers[f]) {
        CleaningReleases(now, refs, keep, next, space, f, markers[f]);
      }
      KeepReferenced(now, refs, keep, next, start);
      removed := RemoveOthers(now, refs + markers.Keys, stuck, keep, start);
      before := View();
      job := AfterCleanup(next);
      EndIsStep(now, before, job);
      Record(now, EndCleanup, start);
    }

    /** The loop of a cleanup over the reservations. */
    method KeepReferenced(now: int, refs: set<FileName>, ghost keep: set<FileName>, ghost next: Next, ghost start: seq<Local>)
      requires Valid() && Continues(now, start, trace) && job == Some(Cleaning(refs, keep, next))
      requires forall f :: f in markers && (!Holds(f, markers[f], now) || f !in Files(space)) ==> f !in keep || f in refs
      modifies this`markers, this`trace
      ensures Valid() && Continues(now, start, trace)
      ensures markers == Kept(old(markers), Files(space), refs, now)
    {
      hide Continues, Does, Inv, Holds, Files;
      var listing := PendingFilenames(now, start);
      ghost var live := markers;
      while listing != {}
        invariant Valid() && Continues(now, start, trace)
        invariant listing <= markers.Keys
        invariant forall f :: f in markers ==> f in live && markers[f] == live[f]
        invariant forall f :: f in live && f !in markers ==> f !in Files(space) || f in refs
        invariant forall f :: f in markers && f !in listing ==> f in Files(space) && f !in refs
        decreases |listing|
      {
        var f :| f in listing;
        if f !in Files(space) || f in refs {
          ReleaseOne(now, f, start);
        }
        listing := listing - {f};
      }
    }

    /** One file goes. */
    method RemoveOne(now: int, f: FileName, ghost kept: set<FileName>, ghost start: seq<Local>)
      requires Valid() && Continues(now, start, trace)
      requires job.Some? && job.value.Cleaning? && job.value.keep == kept && f !in kept && space.Some? && f in space.value
      modifies this`space, this`trace
      ensures Valid() && Continues(now, start, trace)
      ensures space == Some(old(space).value - {f})
    {
      hide Continues, Does, Inv, Files;
      ghost var before := View();
      space := Some(space.value - {f});
      FilesOf(before.space);
      RemoveIsStep(now, before, f);
      Record(now, RemoveFile(f), start);
    }

    /** The loop of a cleanup over the files. */
    method RemoveOthers(now: int, keep: set<FileName>, stuck: set<FileName>, ghost kept: set<FileName>, ghost start: seq<Local>) returns (removed: set<FileName>)
      requires Valid() && Continues(now, start, trace)
      requires job.Some? && job.value.Cleaning? && job.value.keep == kept && kept * Files(space).Keys <= keep
      modifies this`space, this`trace
      ensures Valid() && Continues(now, start, trace)
      ensures removed == Files(old(space)).Keys - keep - stuck
      ensures space == (if old(space).None? then None else Some(old(space).value - removed))
    {
      hide Continues, Does, Inv, Files;
      removed := {};
      FilesOf(space);
      if space.None? { return; }
      assert space.value - {} == space.value;
      var listing := space.value.Keys;
      while listing != {}
        invariant Valid() && Continues(now, start, trace)
        invariant listing <= old(space).value.Keys
        invariant removed == old(space).value.Keys - keep - stuck - listing
        invariant space.Some? && space.value == old(space).value - removed
        decreases |listing|
      {
        var f :| f in listing;
        Swept(old(space).value.Keys, keep, stuck, listing, removed, f);
        if f !in keep && f !in stuck {
          RemoveMore(old(space).value, removed, f);
          RemoveOne(now, f, kept, start);
          removed := removed + {f};
        }
        listing := listing - {f};
      }
    }

    /** `_write_user_ruleset_atomic`: quota check, temporary file, rename. */
    method Write(now: int, name: FileName, content: Content, temp: FileName, ghost start: seq<Local>) returns (r: Outcome)
      requires Valid() && Continues(now, start, trace) && job == Some(Writing(name, content))
      requires temp.Other? && temp !in Files(space)
      modifies this`space, this`job, this`trace
      ensures Valid() && Continues(now, start, trace)
      ensures r == WriteOutcome(Files(old(space)), name, content)
      ensures var files := Files(old(space));
        r == Done <==> if name in files then files[name] == content else Bytes(files) + |content| <= 32 * 1024 * 1024 && |files| < 100
      ensures r == Done ==> space == Some(Files(old(space))[name := content]) && job == Some(Reserving(name))
      ensures r != Done ==> Files(space) == Files(old(space)) && job == None
    {
      hide Continues, Does, Inv, Bytes;
      if space.None? {
        ghost var before := View();
        space := Some(map[]);
        MakeIsStep(now, before);
        Record(now, MakeDirectory, start);
      }
      if name in space.value {
        ghost var before := View();
        r := if space.value[name] == content then Done else Conflict;
        job := if r == Done then Some(Reserving(name)) else None;
        FindIsStep(now, before, name, content);
        Record(now, FindExisting, start);
        if r == Done { assert space.value == space.value[name := content]; }
        return;
      }
      var total, count := Usage(space.value);
      if total + |content| > MAX_USER_BYTES || count + 1 > MAX_USER_FILES {
        r := if total + |content| > MAX_USER_BYTES then TooManyBytes else TooManyFiles;
        ghost var before := View();
        job := None;
        CrashIsStep(now, before);
        Record(now, Crash, start);
        return;
      }
      WriteNew(now, name, content, temp, start);
      r := Done;
    }

    method WriteNew(now: int, name: FileName, content: Content, temp: FileName, ghost start: seq<Local>)
      requires Valid() && Continues(now, start, trace) && job == Some(Writing(name, content))
      requires space.Some? && name !in space.value && temp.Other? && temp !in space.value
      requires Bytes(space.value) + |content| <= MAX_USER_BYTES && |space.value| + 1 <= MAX_USER_FILES
      modifies this`space, this`job, this`trace
      ensures Valid() && Continues(now, start, trace)
      ensures space == Some(old(space).value[name := content]) && job == Some(Reserving(name))
    {
      hide Continues, Does, Inv, Bytes;
      ghost var before := View();
      VersionName(View());
      Renamed(space.value, temp, name, content);
      space := Some(space.value[temp := []]);
      job := Some(Filling(temp, name, content));
      OpenIsStep(now, before, temp);
      Record(now, OpenTemporary(temp), start);
      before := View();
      space := Some(space.value[temp := content]);
      FillIsStep(now, before);
      Record(now, Fill(|content|), start);
      before := View();
      space := Some((space.value - {temp})[name := content]);
      job := Some(Reserving(name));
      ReplaceIsStep(now, before);
      Record(now, Replace, start);
    }

    /** `_reserve_pending_ruleset` */
    method ReserveUpload(now: int, name: FileName, ttl: nat, ghost start: seq<Local>)
      requires Valid() && Continues(now, start, trace) && job == Some(Reserving(name))
      modifies this`markers, this`job, this`trace
      ensures Valid() && Continues(now, start, trace)
      ensures markers == old(markers)[name := Until(now + ttl)] && job == None
    {
      hide Continues, Does, Inv;
      ghost var before := View();
      markers := markers[name := Until(now + ttl)];
      job := None;
      ReserveIsStep(now, before, name, now + ttl);
      Record(now, Reserve(now + ttl), start);
    }

    // ----- requests -------------------------------------------------------------------------------------------------

    /** The file, and its reservation when it is there. */
    method WriteReserved(now: int, name: FileName, content: Content, temp: FileName, ttl: nat, ghost start: seq<Local>) returns (r: Outcome)
      requires Valid() && Continues(now, start, trace) && job == Some(Writing(name, content))
      requires temp.Other? && temp !in Files(space)
      modifies this`space, this`markers, this`job, this`trace
      ensures Valid() && Continues(now, start, trace) && job == None
      ensures var left := Files(old(space));
        && r == WriteOutcome(left, name, content)
        && (r == Done <==> if name in left then left[name] == content else Bytes(left) + |content| <= 32 * 1024 * 1024 && |left| < 100)
        && Files(space) == (if r == Done then left[name := content] else left)
      ensures markers == if r == Done then old(markers)[name := Until(now + ttl)] else old(markers)
    {
      hide Continues, Does, Inv, WriteOutcome, Bytes;
      DoneWhen(Files(space), name, content);
      r := Write(now, name, content, temp, start);
      if r == Done { ReserveUpload(now, name, ttl, start); }
    }

    /** The locked body of an upload. */
    method Upload(now: int, name: FileName, content: Content, temp: FileName, ttl: nat, stuck: set<FileName>) returns (r: Outcome)
      requires Valid() && job.None? && name.Version? && temp.Other? && temp !in Files(space)
      modifies this`space, this`markers, this`job, this`trace
      ensures Valid() && job.None? && Continues(now, old(trace), trace)
      ensures account.None? ==> r == NotFound && View() == old(View())
      ensures account.Some? && !account.value.enabled ==> r == Disabled && View() == old(View())
      ensures Signed(View()) ==>
        var left := LeftByCleanup(old(View()), now, stuck);
        && r == WriteOutcome(left, name, content)
        && (r == Done <==> if name in left then left[name] == content else Bytes(left) + |content| <= 32 * 1024 * 1024 && |left| < 100)
        && Files(space) == (if r == Done then left[name := content] else left)
        && markers == (if r == Done then MarkersLeft(old(View()), now)[name := Until(now + ttl)] else MarkersLeft(old(View()), now))
    {
      hide Continues, Does, Inv, Kept, WriteOutcome, Bytes, LeftByCleanup, MarkersLeft, StillReserved, KeepSet, Files, Holds;
      ghost var start := trace;
      ContinuesStart(now, start);
      if account.None? { return NotFound; }
      if !account.value.enabled { return Disabled; }
      var saved := account.value;
      ghost var before := View();
      var refs := KeepSet(saved, space);
      job := Some(Scanning(refs, ToWrite(name, content)));
      BeginIsStep(now, before, name, content);
      Record(now, BeginUpload(name, content), start);
      var removed := Cleanup(now, refs, stuck, start);
      CleanedFiles(before, now, stuck, refs, markers, removed, space);
      r := WriteReserved(now, name, content, temp, ttl, start);
    }

    /** The locked body of a draft save; validation saves the draft in the same way. */
    method SaveUserDraft(now: int, draft: set<FileName>) returns (r: Outcome)
      requires Valid() && job.None? && AllVersions(draft)
      modifies this`account, this`markers, this`job, this`trace
      ensures Valid() && job.None? && Continues(now, old(trace), trace)
      ensures !Signed(old(View())) ==> r != Done && View() == old(View())
      ensures Signed(old(View())) ==>
        && r == Done && account == Some(old(account).value.(draft := draft))
        && markers == Kept(old(markers), Files(space), draft, now)
    {
      hide Continues, Does, Inv;
      ghost var start := trace;
      ContinuesStart(now, start);
      if account.None? { return NotFound; }
      if !account.value.enabled { return Disabled; }
      ghost var before := View();
      account := Some(account.value.(draft := draft));
      job := Some(Promoting(draft, ToEnd));
      SaveIsStep(now, before, draft);
      Record(now, SaveDraft(draft), start);
      Promote(now, draft, start);
      before := View();
      job := None;
      EndPromotionIsStep(now, before);
      Record(now, EndPromotion, start);
      r := Done;
    }

    /** The locked body of a publication; `built` is what the validated YAML refers to, None when validation fails. */
    method PublishDraft(now: int, draft: set<FileName>, built: Option<Published>, stuck: set<FileName>) returns (r: Outcome)
      requires Valid() && job.None? && AllVersions(draft) && (built.Some? ==> PublishedVersions(built.value))
      modifies this`account, this`space, this`markers, this`job, this`trace
      ensures Valid() && job.None? && Continues(now, old(trace), trace)
      ensures !Signed(old(View())) || built.None? ==> r != Done && View() == old(View())
      ensures Signed(old(View())) && built.Some? ==>
        && r == Done && account == Some(old(account).value.(draft := draft, published := built.value))
        && var refs := KeepSet(account.value, old(space));
           markers == Kept(Kept(old(markers), Files(old(space)), draft, now), Files(old(space)), refs, now)
           && Files(space) == Files(old(space)) - (Files(old(space)).Keys - refs - markers.Keys - stuck)
    {
      hide Continues, Does, Inv, Kept;
      ghost var start := trace;
      ContinuesStart(now, start);
      if account.None? { return NotFound; }
      if !account.value.enabled { return Disabled; }
      if built.None? { return Invalid; }
      ghost var before := View();
      account := Some(account.value.(draft := draft, published := built.value));
      job := Some(Promoting(draft, ToCleanup));
      PublishIsStep(now, before, draft, built.value);
      Record(now, Publish(draft, built.value), start);
      Promote(now, draft, start);
      KeptIs(old(markers), Files(space), draft, now);
      before := View();
      var refs := KeepSet(account.value, space);
      job := Some(Scanning(refs, ToEnd));
      EndPromotionIsStep(now, before);
      Record(now, EndPromotion, start);
      var removed := Cleanup(now, refs, stuck, start);
      r := Done;
    }

    /** The locked body of the owner's deletion of one file. */
    method DropUserFile(now: int, name: FileName) returns (r: Outcome)
      requires Valid() && job.None? && name.Version?
      modifies this`space, this`trace
      ensures Valid() && Continues(now, old(trace), trace)
      ensures Signed(View()) && name in KeepSet(account.value, old(space)) ==> r == Referenced && space == old(space)
      ensures Signed(View()) && name !in KeepSet(account.value, old(space)) ==>
        r == Done && Files(space) == Files(old(space)) - {name}
      ensures !Signed(View()) ==> r != Done && space == old(space)
    {
      hide Continues, Does, Inv;
      ghost var start := trace;
      ContinuesStart(now, start);
      if account.None? { return NotFound; }
      if !account.value.enabled { return Disabled; }
      if name in KeepSet(account.value, space) { return Referenced; }
      if name in Files(space) {
        ghost var before := View();
        space := Some(space.value - {name});
        DropIsStep(now, before, name);
        Record(now, DropFile(name), start);
      } else {
        assert Files(space) - {name} == Files(space);
      }
      r := Done;
    }
  }

  datatype Outcome = Done | NotFound | Disabled | Forbidden | Invalid | Referenced | Conflict | TooManyBytes | TooManyFiles

  ghost function WriteOutcome(files: Space, name: FileName, content: Content): Outcome {
    if name in files then (if files[name] == content then Done else Conflict)
    else if Bytes(files) + |content| > MAX_USER_BYTES then TooManyBytes
    else if |files| + 1 > MAX_USER_FILES then TooManyFiles
    else Done
  }

  lemma DoneWhen(files: Space, name: FileName, content: Content)
    ensures WriteOutcome(files, name, content) == Done
       <==> if name in files then files[name] == content else Bytes(files) + |content| <= 32 * 1024 * 1024 && |files| < 100
  {
  }

  /** A version file with a reservation that has not expired. */
  ghost predicate StillReserved(markers: map<FileName, Marker>, now: int, f: FileName) {
    f.Version? && f in markers && markers[f].Until? && now < markers[f].expires
  }

  /** What an upload's cleanup leaves of the files: those that cannot be unlinked, are referred to, or are still reserved. */
  ghost function LeftByCleanup(a: Local, now: int, stuck: set<FileName>): Space
    requires a.account.Some?
  {
    map f | f in Files(a.space) && (f in stuck || f in KeepSet(a.account.value, a.space) || StillReserved(a.markers, now, f)) :: Files(a.space)[f]
  }

  /** Of the reservations it leaves those that still run, for files that are there and not referred to. */
  ghost function MarkersLeft(a: Local, now: int): map<FileName, Marker>
    requires a.account.Some?
  {
    map f | f in a.markers && StillReserved(a.markers, now, f) && f in Files(a.space) && f !in KeepSet(a.account.value, a.space) :: a.markers[f]
  }

  lemma HoldsMeans(markers: map<FileName, Marker>, now: int)
    ensures forall f :: f in markers ==> (Holds(f, markers[f], now) <==> f.Version? && markers[f].Until? && now < markers[f].expires)
  {
  }

  lemma KeptReserved(markers: map<FileName, Marker>, files: Space, refs: set<FileName>, now: int)
    ensures forall f :: f in markers ==> (Holds(f, markers[f], now) <==> StillReserved(markers, now, f))
    ensures Kept(markers, files, refs, now) == map f | f in markers && StillReserved(markers, now, f) && f in files && f !in refs :: markers[f]
  {
  }

  /** `_ruleset_user_usage` */
  method Usage(space: Space) returns (total: nat, count: nat)
    ensures total == Bytes(space) && count == |space|
  {
    hide Bytes;
    total, count := 0, 0;
    var listing := space;
    NoBytes();
    while listing != map[]
      invariant total + Bytes(listing) == Bytes(space)
      invariant count + |listing| == |space|
      decreases |listing|
    {
      var f :| f in listing;
      BytesWithout(listing, f);
      SizeWithout(listing, f);
      total := total + |listing[f]|;
      count := count + 1;
      listing := listing - {f};
    }
  }

  lemma ContinuesStart(now: int, p: seq<Local>)
    requires p != []
    ensures Continues(now, p, p)
  {
  }

  lemma CleanedFiles(a: Local, now: int, stuck: set<FileName>, refs: set<FileName>, markers: map<FileName, Marker>,
                     removed: set<FileName>, space: Option<Space>)
    requires a.account.Some? && refs == KeepSet(a.account.value, a.space)
    requires markers == Kept(a.markers, Files(a.space), refs, now)
    requires removed == Files(a.space).Keys - refs - markers.Keys - stuck
    requires space == (if a.space.None? then None else Some(a.space.value - removed))
    ensures Files(space) == LeftByCleanup(a, now, stuck) && markers == MarkersLeft(a, now)
    ensures Files(space).Keys <= Files(a.space).Keys
  {
    hide KeepSet;
    KeptReserved(a.markers, Files(a.space), refs, now);
    hide Kept;
    var left := LeftByCleanup(a, now, stuck);
    assert forall f :: f in left <==> f in Files(a.space) && f !in removed;
    assert Files(space) == left;
  }

  lemma KeptIs(markers: map<FileName, Marker>, files: Space, refs: set<FileName>, now: int)
    ensures Kept(markers, files, refs, now)
         == map f | f in markers && Holds(f, markers[f], now) && f in files && f !in refs :: markers[f]
  {
  }

  /** The reservations a cleanup leaves: not expired, file present, not referenced. */
  function Kept(markers: map<FileName, Marker>, files: Space, refs: set<FileName>, now: int): map<FileName, Marker> {
    map f | f in markers && Holds(f, markers[f], now) && f in files && f !in refs :: markers[f]
  }

  function AfterCleanup(next: Next): Option<Job> {
    if next.ToWrite? then Some(Writing(next.name, next.content)) else None
  }

  lemma ScanIsStep(now: int, a: Local, refs: set<FileName>, next: Next)
    requires a.job == Some(Scanning(refs, next))
    ensures var keep := refs + set f | f in a.markers && Holds(f, a.markers[f], now) && f in Files(a.space);
      Does(now, a, Scan, a.(job := Some(Cleaning(refs, keep, next))))
  {
  }

  lemma CleaningReleases(now: int, refs: set<FileName>, keep: set<FileName>, next: Next, space: Option<Space>, f: FileName, m: Marker)
    requires f in refs || f !in keep
    ensures Releasable(now, Cleaning(refs, keep, next), space, f, m)
  {
  }

  lemma EndIsStep(now: int, a: Local, job: Option<Job>)
    requires a.job.Some? && a.job.value.Cleaning? && job == AfterCleanup(a.job.value.next)
    ensures Does(now, a, EndCleanup, a.(job := job))
  {
  }

  lemma FilesOf(space: Option<Space>)
    ensures Files(space) == if space.Some? then space.value else map[]
  {
  }

  /** A sweep over `all` that has `listing` left, one file further. */
  lemma Swept(all: set<FileName>, keep: set<FileName>, stuck: set<FileName>, listing: set<FileName>, removed: set<FileName>, f: FileName)
    requires listing <= all && removed == all - keep - stuck - listing && f in listing
    ensures f in all && f !in removed
    ensures all - keep - stuck - (listing - {f}) == if f in keep || f in stuck then removed else removed + {f}
  {
  }

  lemma RemoveMore(files: Space, removed: set<FileName>, f: FileName)
    ensures files - removed - {f} == files - (removed + {f})
  {
  }

  lemma RemoveIsStep(now: int, a: Local, f: FileName)
    requires a.job.Some? && a.job.value.Cleaning? && f in Files(a.space) && f !in a.job.value.keep
    ensures Does(now, a, RemoveFile(f), a.(space := Some(Files(a.space) - {f})))
  {
  }

  lemma ReleaseIsStep(now: int, a: Local, f: FileName)
    requires a.job.Some? && f in a.markers && Releasable(now, a.job.value, a.space, f, a.markers[f])
    ensures Does(now, a, ReleaseMarker(f), a.(markers := a.markers - {f}))
  {
  }

  // ----- the writes as steps ------------------------------------------------------------------------------------------

  lemma VersionName(a: Local)
    requires Inv(a) && a.job.Some? && a.job.value.Writing?
    ensures a.job.value.name.Version?
  {
  }

  lemma Renamed(files: Space, temp: FileName, name: FileName, content: Content)
    requires temp !in files && name !in files && temp != name
    ensures (files[temp := []][temp := content] - {temp})[name := content] == files[name := content]
  {
  }

  lemma MakeIsStep(now: int, a: Local)
    requires a.job.Some? && a.job.value.Writing? && a.space.None?
    ensures Does(now, a, MakeDirectory, a.(space := Some(map[])))
  {
  }

  lemma FindIsStep(now: int, a: Local, name: FileName, content: Content)
    requires a.job == Some(Writing(name, content)) && name in Files(a.space)
    ensures Does(now, a, FindExisting, a.(job := if Files(a.space)[name] == content then Some(Reserving(name)) else None))
  {
  }

  lemma CrashIsStep(now: int, a: Local)
    requires a.job.Some?
    ensures Does(now, a, Crash, a.(job := None))
  {
  }

  lemma OpenIsStep(now: int, a: Local, temp: FileName)
    requires a.job.Some? && a.job.value.Writing? && a.space.Some? && a.job.value.name !in a.space.value
    requires temp.Other? && temp !in a.space.value
    requires Bytes(a.space.value) + |a.job.value.content| <= MAX_USER_BYTES && |a.space.value| + 1 <= MAX_USER_FILES
    ensures Does(now, a, OpenTemporary(temp),
      a.(space := Some(a.space.value[temp := []]), job := Some(Filling(temp, a.job.value.name, a.job.value.content))))
  {
  }

  lemma FillIsStep(now: int, a: Local)
    requires a.job.Some? && a.job.value.Filling? && a.space.Some? && a.job.value.temp in a.space.value
    ensures Does(now, a, Fill(|a.job.value.content|), a.(space := Some(a.space.value[a.job.value.temp := a.job.value.content])))
  {
    assert a.job.value.content[..|a.job.value.content|] == a.job.value.content;
  }

  lemma ReplaceIsStep(now: int, a: Local)
    requires a.job.Some? && a.job.value.Filling? && a.space.Some? && a.job.value.temp in a.space.value
    requires a.space.value[a.job.value.temp] == a.job.value.content
    ensures Does(now, a, Replace, a.(space := Some((a.space.value - {a.job.value.temp})[a.job.value.name := a.job.value.content]),
                                     job := Some(Reserving(a.job.value.name))))
  {
  }

  lemma ReserveIsStep(now: int, a: Local, name: FileName, expires: int)
    requires a.job == Some(Reserving(name))
    ensures Does(now, a, Reserve(expires), a.(markers := a.markers[name := Until(expires)], job := None))
  {
  }

  lemma BeginIsStep(now: int, a: Local, name: FileName, content: Content)
    requires a.job.None? && Signed(a) && name.Version?
    ensures Does(now, a, BeginUpload(name, content),
      a.(job := Some(Scanning(KeepSet(a.account.value, a.space), ToWrite(name, content)))))
  {
  }

  lemma SaveIsStep(now: int, a: Local, draft: set<FileName>)
    requires a.job.None? && Signed(a) && AllVersions(draft)
    ensures Does(now, a, SaveDraft(draft),
      a.(account := Some(a.account.value.(draft := draft)), job := Some(Promoting(draft, ToEnd))))
  {
  }

  lemma PublishIsStep(now: int, a: Local, draft: set<FileName>, published: Published)
    requires a.job.None? && Signed(a) && AllVersions(draft) && PublishedVersions(published)
    ensures Does(now, a, Publish(draft, published),
      a.(account := Some(a.account.value.(draft := draft, published := published)), job := Some(Promoting(draft, ToCleanup))))
  {
  }

  lemma EndPromotionIsStep(now: int, a: Local)
    requires a.job.Some? && a.job.value.Promoting?
    ensures Does(now, a, EndPromotion,
      a.(job := if a.job.value.next.ToCleanup? && a.account.Some?
                then Some(Scanning(KeepSet(a.account.value, a.space), ToEnd)) else None))
  {
  }

  lemma DropIsStep(now: int, a: Local, name: FileName)
    requires a.job.None? && Signed(a) && name.Version? && name in Files(a.space) && name !in KeepSet(a.account.value, a.space)
    ensures Does(now, a, DropFile(name), a.(space := Some(Files(a.space) - {name})))
  {
  }
}
