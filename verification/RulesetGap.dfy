/** Where a running reservation does not help: a cleanup that cannot read the published YAML takes every file for referenced and
    releases every reservation, so that the next readable publication removes the upload
    (`_cleanup_unreferenced_user_rulesets`, `_referenced_user_rulesets_from_yaml`, src/ruleset_store.py). */
module RulesetGap {
  import opened Options
  import opened RulesetState
  import opened RulesetProtocol
  import opened RulesetStore

  /** A cleanup releases a running reservation exactly when the draft or the readable YAML names the file, or the YAML cannot be
      read. */
  lemma CleanupReleases(account: Account, space: Option<Space>, markers: map<FileName, Marker>, now: int, f: FileName)
    requires f in markers && Holds(f, markers[f], now) && f in Files(space)
    ensures f !in Kept(markers, Files(space), KeepSet(account, space), now)
       <==> f in Named(account) || account.published.Unreadable?
  {
    KeptIs(markers, Files(space), KeepSet(account, space), now);
  }

  /** An upload is refused for the number of files only when 100 files cannot be unlinked, are referred to or have a reservation that
      still runs: abandoned uploads do not hold the quota. */
  lemma QuotaHolders(a: Local, now: int, stuck: set<FileName>, name: FileName, content: Content)
    requires a.account.Some? && WriteOutcome(LeftByCleanup(a, now, stuck), name, content) == TooManyFiles
    ensures |set f | f in Files(a.space)
                && (f in stuck || f in KeepSet(a.account.value, a.space)
                    || (f.Version? && f in a.markers && a.markers[f].Until? && now < a.markers[f].expires))| >= 100
  {
    hide KeepSet, Bytes;
    var left := LeftByCleanup(a, now, stuck);
    var holders := set f | f in Files(a.space)
      && (f in stuck || f in KeepSet(a.account.value, a.space)
          || (f.Version? && f in a.markers && a.markers[f].Until? && now < a.markers[f].expires));
    assert left.Keys == holders;
    assert |left| == |left.Keys|;
  }

  /** States joined by the given actions. */
  ghost predicate Chain(now: int, ls: seq<Local>, acts: seq<Action>) {
    |ls| == |acts| + 1 && forall i :: 0 <= i < |acts| ==> Does(now, ls[i], acts[i], ls[i + 1])
  }

  lemma Next(now: int, ls: seq<Local>, acts: seq<Action>, act: Action, b: Local)
    requires Chain(now, ls, acts) && Does(now, ls[|ls| - 1], act, b)
    ensures Chain(now, ls + [b], acts + [act])
  {
    hide Does;
  }

  lemma Join(now: int, ls: seq<Local>, acts: seq<Action>, ms: seq<Local>, more: seq<Action>)
    requires Chain(now, ls, acts) && Chain(now, ms, more) && ls[|ls| - 1] == ms[0]
    ensures Chain(now, ls + ms[1..], acts + more)
  {
    hide Does;
    var all, both := ls + ms[1..], acts + more;
    forall i | 0 <= i < |both| ensures Does(now, all[i], both[i], all[i + 1]) {
      if i >= |acts| {
        assert all[i] == ms[i - |acts|] && all[i + 1] == ms[i + 1 - |acts|];
      }
    }
  }

  /** A signed-in user whose published YAML cannot be read, with an upload that its reservation should keep. */
  ghost predicate Exposed(now: int, a: Local, f: FileName) {
    && a.job.None? && Signed(a) && a.account.value.published.Unreadable? && f !in a.account.value.draft
    && f.Version? && Reserved(now, a, f)
  }

  /** Another upload that fits. */
  ghost predicate Room(a: Local, g: FileName, content: Content, temp: FileName) {
    && a.space.Some? && g.Version? && g !in a.space.value && temp.Other? && temp !in a.space.value
    && Bytes(a.space.value) + |content| <= MAX_USER_BYTES && |a.space.value| + 1 <= MAX_USER_FILES
  }

  /** The second upload: its cleanup releases the marker of f. */
  lemma SecondUpload(now: int, a: Local, f: FileName, g: FileName, content: Content, temp: FileName, expires: int)
    returns (ls: seq<Local>, acts: seq<Action>)
    requires Exposed(now, a, f) && Room(a, g, content, temp)
    ensures Chain(now, ls, acts) && ls[0] == a
    ensures acts == [BeginUpload(g, content), Scan, ReleaseMarker(f), EndCleanup, OpenTemporary(temp), Fill(|content|), Replace,
                     Reserve(expires)]
    ensures ls[|ls| - 1] == a.(space := Some(a.space.value[g := content]), markers := (a.markers - {f})[g := Until(expires)])
  {
    hide Does, Reserved, Bytes;
    var refs := KeepSet(a.account.value, a.space);
    var next := ToWrite(g, content);
    ExposedFacts(now, a, f);
    hide KeepSet;
    var b := a.(job := Some(Scanning(refs, next)));
    BeginIsStep(now, a, g, content);
    var keep := refs + set h | h in b.markers && Holds(h, b.markers[h], now) && h in Files(b.space);
    var c := b.(job := Some(Cleaning(refs, keep, next)));
    ScanIsStep(now, b, refs, next);
    var d := c.(markers := a.markers - {f});
    CleaningReleases(now, refs, keep, next, c.space, f, c.markers[f]);
    ReleaseIsStep(now, c, f);
    var e := d.(job := Some(Writing(g, content)));
    EndIsStep(now, d, Some(Writing(g, content)));
    var space := a.space.value;
    var o := e.(space := Some(space[temp := []]), job := Some(Filling(temp, g, content)));
    OpenIsStep(now, e, temp);
    var p := o.(space := Some(space[temp := content]));
    assert space[temp := []][temp := content] == space[temp := content];
    FillIsStep(now, o);
    var q := p.(space := Some(space[g := content]), job := Some(Reserving(g)));
    assert (space[temp := content] - {temp})[g := content] == space[g := content];
    ReplaceIsStep(now, p);
    var r := q.(markers := d.markers[g := Until(expires)], job := None);
    ReserveIsStep(now, q, g, expires);
    ls, acts := [a, b, c, d, e, o, p, q, r], [BeginUpload(g, content), Scan, ReleaseMarker(f), EndCleanup, OpenTemporary(temp),
                                              Fill(|content|), Replace, Reserve(expires)];
    EightSteps(now, ls, acts);
  }

  lemma ExposedFacts(now: int, a: Local, f: FileName)
    requires Exposed(now, a, f)
    ensures f in a.markers && f in Files(a.space) && f in KeepSet(a.account.value, a.space)
  {
  }

  lemma EightSteps(now: int, ls: seq<Local>, acts: seq<Action>)
    requires |ls| == 9 && |acts| == 8
    requires Does(now, ls[0], acts[0], ls[1]) && Does(now, ls[1], acts[1], ls[2]) && Does(now, ls[2], acts[2], ls[3])
    requires Does(now, ls[3], acts[3], ls[4]) && Does(now, ls[4], acts[4], ls[5]) && Does(now, ls[5], acts[5], ls[6])
    requires Does(now, ls[6], acts[6], ls[7]) && Does(now, ls[7], acts[7], ls[8])
    ensures Chain(now, ls, acts)
  {
    hide Does;
  }

  /** A publication whose YAML can be read and names nothing: its cleanup removes a file without reference and reservation. */
  lemma ReadablePublication(now: int, a: Local, f: FileName)
    returns (ls: seq<Local>, acts: seq<Action>)
    requires a.job.None? && Signed(a) && f in Files(a.space) && f !in a.markers
    ensures Chain(now, ls, acts) && ls[0] == a
    ensures acts == [Publish({}, Lists({})), EndPromotion, Scan, RemoveFile(f), EndCleanup]
    ensures ls[|ls| - 1] == a.(account := Some(a.account.value.(draft := {}, published := Lists({}))),
                               space := Some(Files(a.space) - {f}))
  {
    hide Does;
    var account := a.account.value.(draft := {}, published := Lists({}));
    var b := a.(account := Some(account), job := Some(Promoting({}, ToCleanup)));
    PublishIsStep(now, a, {}, Lists({}));
    assert KeepSet(account, a.space) == {};
    hide KeepSet;
    var c := b.(job := Some(Scanning({}, ToEnd)));
    EndPromotionIsStep(now, b);
    var keep := {} + set h | h in c.markers && Holds(h, c.markers[h], now) && h in Files(c.space);
    var d := c.(job := Some(Cleaning({}, keep, ToEnd)));
    ScanIsStep(now, c, {}, ToEnd);
    var e := d.(space := Some(Files(a.space) - {f}));
    RemoveIsStep(now, d, f);
    var r := e.(job := None);
    EndIsStep(now, e, None);
    ls, acts := [a, b, c, d, e, r], [Publish({}, Lists({})), EndPromotion, Scan, RemoveFile(f), EndCleanup];
  }

  /** While the published YAML cannot be read, a second upload and a publication that can be read lose the first upload: nobody
      deleted it, no commit referred to it, the account is there, and its reservation still ran. */
  lemma UnreadableLosesUpload(now: int, a: Local, f: FileName, g: FileName, content: Content, temp: FileName, expires: int)
    returns (ls: seq<Local>, acts: seq<Action>)
    requires Exposed(now, a, f) && Room(a, g, content, temp)
    ensures Chain(now, ls, acts) && ls[0] == a
    ensures acts == [BeginUpload(g, content), Scan, ReleaseMarker(f), EndCleanup, OpenTemporary(temp), Fill(|content|), Replace,
                     Reserve(expires)] + [Publish({}, Lists({})), EndPromotion, Scan, RemoveFile(f), EndCleanup]
    ensures ls[|ls| - 1].account.Some? && f !in Files(ls[|ls| - 1].space)
  {
    hide Does, Reserved, Bytes, Chain;
    ExposedFacts(now, a, f);
    hide KeepSet;
    var ms, more;
    ls, acts := SecondUpload(now, a, f, g, content, temp, expires);
    LengthIs(now, ls, acts);
    var b := ls[|ls| - 1];
    DifferentFiles(a, f, g, content, temp);
    ms, more := ReadablePublication(now, b, f);
    LastIs(now, ms, more);
    Join(now, ls, acts, ms, more);
    ls, acts := ls + ms[1..], acts + more;
  }

  lemma DifferentFiles(a: Local, f: FileName, g: FileName, content: Content, temp: FileName)
    requires Room(a, g, content, temp) && f in Files(a.space)
    ensures f != g && f in a.space.value[g := content]
  {
  }

  lemma LengthIs(now: int, ls: seq<Local>, acts: seq<Action>)
    requires Chain(now, ls, acts)
    ensures |ls| == |acts| + 1
  {
  }

  lemma LastIs(now: int, ms: seq<Local>, more: seq<Action>)
    requires Chain(now, ms, more)
    ensures |ms| == |more| + 1 && (more != [] ==> ms[1..] != [] && ms[1..][|ms| - 2] == ms[|ms| - 1])
  {
  }
}
