/** The failed-login limit (`_try_login`, src/auth_service.py; `record_auth_audit_event` and `recent_login_failure_counts`,
    src/storage.py): concurrent attempts over one audit log, one lock stripe per attempt.

    Time runs in microseconds, the log keeps whole seconds. Every database call and every clock read is a step of its own, so
    attempts under different stripes and other audit events interleave with an attempt anywhere. */
module LoginLimiter {

  const MICROS: int := 1_000_000
  const RETENTION: int := 90 * 86_400

  function Second(t: int): int { t / MICROS }

  /** A `login` row of the audit log. */
  datatype Row = Row(column: string, success: bool, second: int)

  /** A password check that failed. */
  datatype Check = Check(name: string, at: int)

  datatype Phase =
    | Began
    | Looked(since: int)
    | Counted(failures: nat)
    | Checked(ok: bool)
    | Stamped(ok: bool, second: int)

  datatype Attempt = Attempt(name: string, start: int, phase: Phase)

  /** What happened so far: the failed checks and the successes recorded. */
  datatype Past = Past(checks: seq<Check>, wins: seq<Row>)

  datatype World = World(clock: int, rows: seq<Row>, running: map<nat, Attempt>, past: Past)

  /** The settings; `stripe` is the lock a normalised name hashes to. */
  datatype Config = Config(limit: nat, configured: nat, stripe: string -> nat)

  function Window(c: Config): int { if c.configured > 60 then c.configured else 60 }

  function Column(name: string): string { if |name| > 64 then name[..64] else name }

  /** The second from which failures count: the start of the window, or the last success in it. */
  function Since(rows: seq<Row>, column: string, floor: int): (s: int)
    ensures s >= floor
  {
    if rows == [] then floor
    else
      var before := Since(rows[..|rows| - 1], column, floor);
      var row := rows[|rows| - 1];
      if row.success && row.column == column && row.second >= before then row.second else before
  }

  function Failures(rows: seq<Row>, column: string, since: int): nat {
    if rows == [] then 0
    else
      var row := rows[|rows| - 1];
      Failures(rows[..|rows| - 1], column, since)
      + if !row.success && row.column == column && row.second >= since then 1 else 0
  }

  /** The rows left by the retention delete. */
  function Kept(rows: seq<Row>, boundary: int): seq<Row> {
    if rows == [] then []
    else Kept(rows[..|rows| - 1], boundary) + if rows[|rows| - 1].second < boundary then [] else [rows[|rows| - 1]]
  }

  datatype Event =
    | Tick(to: int)
    | Begin(name: string)
    | Look(name: string)
    | Count(name: string)
    | Refuse(name: string)
    | Verify(name: string, ok: bool)
    | Stamp(name: string)
    | Record(name: string)
    | Audit(stamp: int)

  /** The attempt on this name that holds the name's stripe. */
  predicate Running(c: Config, w: World, name: string) {
    c.stripe(name) in w.running && w.running[c.stripe(name)].name == name
  }

  function PhaseOf(c: Config, w: World, name: string): Phase
    requires Running(c, w, name)
  {
    w.running[c.stripe(name)].phase
  }

  /** A check may be refused for the address at any count; it may go ahead only below the account limit. */
  predicate Enabled(c: Config, w: World, e: Event) {
    match e
    case Tick(to) => to >= w.clock
    case Begin(name) => c.stripe(name) !in w.running
    case Look(name) => Running(c, w, name) && PhaseOf(c, w, name).Began?
    case Count(name) => Running(c, w, name) && PhaseOf(c, w, name).Looked?
    case Refuse(name) => Running(c, w, name) && PhaseOf(c, w, name).Counted?
    case Verify(name, ok) =>
      Running(c, w, name) && PhaseOf(c, w, name).Counted? && PhaseOf(c, w, name).failures < c.limit
    case Stamp(name) => Running(c, w, name) && PhaseOf(c, w, name).Checked?
    case Record(name) => Running(c, w, name) && PhaseOf(c, w, name).Stamped?
    case Audit(stamp) => stamp <= w.clock
  }

  function To(c: Config, w: World, name: string, phase: Phase): World
    requires Running(c, w, name)
  {
    w.(running := w.running[c.stripe(name) := w.running[c.stripe(name)].(phase := phase)])
  }

  function Release(c: Config, w: World, name: string): World { w.(running := w.running - {c.stripe(name)}) }

  function Recorded(c: Config, w: World, name: string, row: Row): World {
    Release(c, w, name).(rows := Kept(w.rows, row.second - RETENTION) + [row],
                         past := if row.success then w.past.(wins := w.past.wins + [row]) else w.past)
  }

  function Apply(c: Config, w: World, e: Event): World {
    if !Enabled(c, w, e) then w
    else
      match e
      case Tick(to) => w.(clock := to)
      case Begin(name) => w.(running := w.running[c.stripe(name) := Attempt(name, w.clock, Began)])
      case Look(name) =>
        To(c, w, name, Looked(Since(w.rows, Column(name), Second(w.running[c.stripe(name)].start) - Window(c))))
      case Count(name) => To(c, w, name, Counted(Failures(w.rows, Column(name), PhaseOf(c, w, name).since)))
      case Refuse(name) => Release(c, w, name)
      case Verify(name, ok) =>
        To(c, w, name, Checked(ok)).(past :=
          if ok then w.past else w.past.(checks := w.past.checks + [Check(name, w.clock)]))
      case Stamp(name) => To(c, w, name, Stamped(PhaseOf(c, w, name).ok, Second(w.clock)))
      case Record(name) =>
        Recorded(c, w, name, Row(Column(name), PhaseOf(c, w, name).ok, PhaseOf(c, w, name).second))
      case Audit(stamp) => w.(rows := Kept(w.rows, Second(stamp) - RETENTION))
  }

  function Run(c: Config, w: World, events: seq<Event>): World
    decreases |events|
  {
    if events == [] then w else Run(c, Apply(c, w, events[0]), events[1..])
  }

  function Start(): World { World(0, [], map[], Past([], [])) }

  // ----- counting -----

  /** Failed checks of a name from a second on. */
  function ChecksFrom(checks: seq<Check>, name: string, since: int): nat {
    if checks == [] then 0
    else
      var last := checks[|checks| - 1];
      ChecksFrom(checks[..|checks| - 1], name, since) + if last.name == name && Second(last.at) >= since then 1 else 0
  }

  /** Failed checks of a name at a time in [from, to). */
  function ChecksIn(checks: seq<Check>, name: string, from: int, to: int): nat {
    if checks == [] then 0
    else
      var last := checks[|checks| - 1];
      ChecksIn(checks[..|checks| - 1], name, from, to) + if last.name == name && from <= last.at < to then 1 else 0
  }

  lemma {:induction false} InFrom(checks: seq<Check>, name: string, from: int, to: int)
    ensures ChecksIn(checks, name, from, to) <= ChecksFrom(checks, name, Second(from))
  {
    if checks != [] { InFrom(checks[..|checks| - 1], name, from, to); }
  }

  lemma {:induction false} FailuresFall(rows: seq<Row>, column: string, since: int, later: int)
    requires since <= later
    ensures Failures(rows, column, later) <= Failures(rows, column, since)
  {
    if rows != [] { FailuresFall(rows[..|rows| - 1], column, since, later); }
  }

  lemma {:induction false} KeptFailures(rows: seq<Row>, boundary: int, column: string, since: int)
    requires boundary <= since
    ensures Failures(Kept(rows, boundary), column, since) == Failures(rows, column, since)
  {
    if rows != [] {
      var front, row := rows[..|rows| - 1], rows[|rows| - 1];
      KeptFailures(front, boundary, column, since);
      var kept := Kept(front, boundary);
      if row.second < boundary { assert kept + [] == kept; } else { assert (kept + [row])[..|kept|] == kept; }
    }
  }

  lemma {:induction false} KeptRows(rows: seq<Row>, boundary: int)
    ensures forall r :: r in Kept(rows, boundary) ==> r in rows
  {
    if rows != [] { KeptRows(rows[..|rows| - 1], boundary); }
  }

  lemma {:induction false} NoChecksYet(checks: seq<Check>, name: string, since: int)
    requires forall i :: 0 <= i < |checks| ==> Second(checks[i].at) < since
    ensures ChecksFrom(checks, name, since) == 0
  {
    if checks != [] { NoChecksYet(checks[..|checks| - 1], name, since); }
  }

  // ----- what every run keeps -----

  /** No success recorded for the column after the given second, up to another. */
  ghost predicate NoWin(wins: seq<Row>, column: string, after: int, to: int) {
    forall i :: 0 <= i < |wins| && wins[i].column == column ==> !(after < wins[i].second <= to)
  }

  /** A second that an attempt at this point of the clock still looks back to. */
  ghost predicate Reached(c: Config, w: World, name: string, s: int) {
    s >= Second(w.clock) - Window(c) && NoWin(w.past.wins, Column(name), s, Second(w.clock))
  }

  ghost predicate AttemptFits(c: Config, w: World, a: Attempt) {
    && a.start <= w.clock
    && match a.phase
       case Began => true
       case Looked(since) => forall s :: Reached(c, w, a.name, s) ==> since <= s
       case Counted(n) => n < c.limit ==> forall s :: Reached(c, w, a.name, s) ==> ChecksFrom(w.past.checks, a.name, s) < c.limit
       case Checked(ok) => true
       case Stamped(ok, second) => second <= Second(w.clock)
  }

  ghost predicate Attempts(c: Config, w: World) {
    forall k :: k in w.running ==> c.stripe(w.running[k].name) == k && AttemptFits(c, w, w.running[k])
  }

  ghost predicate PastFits(w: World) {
    && (forall i :: 0 <= i < |w.past.checks| ==> w.past.checks[i].at <= w.clock)
    && (forall i :: 0 <= i < |w.past.wins| ==> w.past.wins[i].success && w.past.wins[i].second <= Second(w.clock))
    && (forall r :: r in w.rows && r.success ==> r in w.past.wins)
  }

  /** A failed check that its attempt has yet to record. */
  ghost function Pending(c: Config, w: World, name: string, s: int): nat {
    if !Running(c, w, name) then 0
    else
      match PhaseOf(c, w, name)
      case Checked(ok) => if ok then 0 else 1
      case Stamped(ok, second) => if !ok && second >= s then 1 else 0
      case _ => 0
  }

  ghost predicate NameLogged(c: Config, w: World, name: string, s: int) {
    ChecksFrom(w.past.checks, name, s) <= Failures(w.rows, Column(name), s) + Pending(c, w, name, s)
  }

  /** Inside the retention period every failed check is in the log or about to be. */
  ghost predicate Logged(c: Config, w: World) {
    forall name, s :: s >= Second(w.clock) - RETENTION ==> NameLogged(c, w, name, s)
  }

  /** Any window with no success after its first second holds at most `limit` failed checks of a name. */
  ghost predicate Bounded(c: Config, past: Past) {
    forall name, from :: NoWin(past.wins, Column(name), Second(from), Second(from + Window(c) * MICROS))
      ==> ChecksIn(past.checks, name, from, from + Window(c) * MICROS) <= c.limit
  }

  ghost predicate Inv(c: Config, w: World) { Attempts(c, w) && PastFits(w) && Logged(c, w) && Bounded(c, w.past) }

  lemma StartInv(c: Config)
    ensures Inv(c, Start())
  {
  }

  lemma {:induction false} SinceFits(rows: seq<Row>, column: string, floor: int, s: int)
    requires floor <= s && forall r :: r in rows && r.success && r.column == column ==> r.second <= s
    ensures Since(rows, column, floor) <= s
  {
    if rows != [] { SinceFits(rows[..|rows| - 1], column, floor, s); }
  }

  lemma SecondGrows(t: int, u: int)
    requires t <= u
    ensures Second(t) <= Second(u)
  {
  }

  lemma SecondShift(t: int, seconds: int)
    ensures Second(t + seconds * MICROS) == Second(t) + seconds
  {
  }

  /** Moving the clock on or recording a success narrows what an attempt looks back to. */
  lemma ReachedLess(c: Config, w: World, v: World, name: string, s: int)
    requires PastFits(w) && w.clock <= v.clock && Reached(c, v, name, s)
    requires forall i :: 0 <= i < |w.past.wins| ==> i < |v.past.wins| && v.past.wins[i] == w.past.wins[i]
    ensures Reached(c, w, name, s)
  {
    SecondGrows(w.clock, v.clock);
  }

  /** A step that only adds to the past: perhaps one failed check of `who`, perhaps one success. */
  ghost predicate Adds(w: World, v: World, who: string) {
    && w.clock <= v.clock
    && (v.past.checks == w.past.checks || v.past.checks == w.past.checks + [Check(who, w.clock)])
    && (v.past.wins == w.past.wins || (v.past.wins != [] && v.past.wins[..|v.past.wins| - 1] == w.past.wins))
  }

  lemma ChecksOfOthers(w: World, v: World, who: string, name: string, s: int)
    requires Adds(w, v, who) && (name != who || v.past.checks == w.past.checks)
    ensures ChecksFrom(v.past.checks, name, s) == ChecksFrom(w.past.checks, name, s)
  {
    assert (w.past.checks + [Check(who, w.clock)])[..|w.past.checks|] == w.past.checks;
  }

  lemma AttemptKept(c: Config, w: World, v: World, who: string, a: Attempt)
    requires PastFits(w) && AttemptFits(c, w, a)
    requires Adds(w, v, who) && (a.name != who || v.past.checks == w.past.checks)
    ensures AttemptFits(c, v, a)
  {
    hide ChecksFrom, Reached;
    SecondGrows(w.clock, v.clock);
    forall s | Reached(c, v, a.name, s)
      ensures Reached(c, w, a.name, s) && ChecksFrom(v.past.checks, a.name, s) == ChecksFrom(w.past.checks, a.name, s)
    {
      ReachedLess(c, w, v, a.name, s);
      ChecksOfOthers(w, v, who, a.name, s);
    }
  }

  /** The attempts after a step that moves only the attempt on `who`. */
  lemma AttemptsKept(c: Config, w: World, v: World, who: string)
    requires Attempts(c, w) && PastFits(w) && Adds(w, v, who)
    requires forall k :: k in v.running && k != c.stripe(who) ==> k in w.running && v.running[k] == w.running[k]
    requires c.stripe(who) in v.running ==> v.running[c.stripe(who)].name == who && AttemptFits(c, v, v.running[c.stripe(who)])
    ensures Attempts(c, v)
  {
    hide PastFits, AttemptFits, Adds;
    forall k | k in v.running ensures c.stripe(v.running[k].name) == k && AttemptFits(c, v, v.running[k]) {
      if k != c.stripe(who) { AttemptKept(c, w, v, who, v.running[k]); }
    }
  }

  lemma KeepTick(c: Config, w: World, to: int)
    requires Inv(c, w) && to >= w.clock
    ensures Inv(c, w.(clock := to))
  {
    hide Bounded, ChecksFrom, Failures, AttemptFits, NameLogged;
    var v := w.(clock := to);
    SecondGrows(w.clock, to);
    forall k | k in v.running ensures AttemptFits(c, v, v.running[k]) {
      AttemptKept(c, w, v, "", v.running[k]);
    }
    forall name, s | s >= Second(v.clock) - RETENTION ensures NameLogged(c, v, name, s) {
      assert NameLogged(c, w, name, s);
      SameName(c, w, v, name, s);
    }
  }

  lemma SameName(c: Config, w: World, v: World, name: string, s: int)
    requires v.rows == w.rows && v.running == w.running && v.past == w.past
    ensures NameLogged(c, v, name, s) == NameLogged(c, w, name, s)
  {
  }

  /** Only the attempt on `who` moves between two worlds. */
  ghost predicate Moves(c: Config, w: World, v: World, who: string) {
    && (forall k :: k != c.stripe(who) ==> (k in v.running <==> k in w.running))
    && (forall k :: k in v.running && k != c.stripe(who) ==> v.running[k] == w.running[k])
    && (c.stripe(who) in w.running ==> w.running[c.stripe(who)].name == who)
    && (c.stripe(who) in v.running ==> v.running[c.stripe(who)].name == who)
  }

  lemma PendingOfOthers(c: Config, w: World, v: World, who: string, name: string, s: int)
    requires Moves(c, w, v, who) && name != who
    ensures Pending(c, v, name, s) == Pending(c, w, name, s)
  {
  }

  ghost predicate Quiet(c: Config, w: World, name: string) {
    Running(c, w, name) ==> PhaseOf(c, w, name).Began? || PhaseOf(c, w, name).Looked? || PhaseOf(c, w, name).Counted?
  }

  /** A step with nothing to record before or after it keeps the log's promise. */
  lemma LoggedQuiet(c: Config, w: World, v: World, who: string)
    requires Logged(c, w) && Moves(c, w, v, who) && Quiet(c, w, who) && Quiet(c, v, who)
    requires v.rows == w.rows && v.past == w.past && v.clock == w.clock
    ensures Logged(c, v)
  {
    hide ChecksFrom, Failures, Moves, Second;
    forall name, s | s >= Second(v.clock) - RETENTION ensures NameLogged(c, v, name, s) {
      assert NameLogged(c, w, name, s);
      if name != who { PendingOfOthers(c, w, v, who, name, s); }
    }
  }

  /** Begin, Look, Count and Refuse leave the rows and the past alone. */
  lemma KeepQuiet(c: Config, w: World, v: World, who: string)
    requires Inv(c, w) && Moves(c, w, v, who) && Quiet(c, w, who) && Quiet(c, v, who)
    requires v.rows == w.rows && v.past == w.past && v.clock == w.clock
    requires c.stripe(who) in v.running ==> AttemptFits(c, v, v.running[c.stripe(who)])
    ensures Inv(c, v)
  {
    hide Bounded, Quiet, Logged, AttemptFits;
    AttemptsKept(c, w, v, who);
    LoggedQuiet(c, w, v, who);
  }

  lemma LookFits(c: Config, w: World, a: Attempt)
    requires PastFits(w) && a.start <= w.clock
    ensures var since := Since(w.rows, Column(a.name), Second(a.start) - Window(c));
      AttemptFits(c, w, a.(phase := Looked(since)))
  {
    hide Since;
    var floor := Second(a.start) - Window(c);
    SecondGrows(a.start, w.clock);
    forall s | Reached(c, w, a.name, s) ensures Since(w.rows, Column(a.name), floor) <= s {
      SinceFits(w.rows, Column(a.name), floor, s);
    }
  }

  lemma CountFits(c: Config, w: World, name: string)
    requires Attempts(c, w) && Logged(c, w) && Running(c, w, name) && PhaseOf(c, w, name).Looked? && Window(c) <= RETENTION
    ensures var n := Failures(w.rows, Column(name), PhaseOf(c, w, name).since);
      AttemptFits(c, w, w.running[c.stripe(name)].(phase := Counted(n)))
  {
    hide Failures, ChecksFrom, Second, Window;
    var since := PhaseOf(c, w, name).since;
    assert AttemptFits(c, w, w.running[c.stripe(name)]);
    forall s | Reached(c, w, name, s) ensures ChecksFrom(w.past.checks, name, s) <= Failures(w.rows, Column(name), since) {
      assert NameLogged(c, w, name, s);
      FailuresFall(w.rows, Column(name), since, s);
    }
  }

  lemma KeepVerify(c: Config, w: World, name: string, ok: bool)
    requires Inv(c, w) && Enabled(c, w, Verify(name, ok))
    ensures Inv(c, Apply(c, w, Verify(name, ok)))
  {
    hide Bounded, Logged, AttemptFits, ChecksFrom, ChecksIn;
    var v := Apply(c, w, Verify(name, ok));
    AttemptsKept(c, w, v, name) by {
      assert AttemptFits(c, w, w.running[c.stripe(name)]);
      CheckedFits(c, w, v, w.running[c.stripe(name)], ok);
    }
    VerifyLogged(c, w, name, ok);
    if !ok { VerifyBounded(c, w, name); }
  }

  lemma CheckedFits(c: Config, w: World, v: World, a: Attempt, ok: bool)
    requires AttemptFits(c, w, a) && v.clock == w.clock
    ensures AttemptFits(c, v, a.(phase := Checked(ok)))
  {
  }

  lemma OneMoreCheck(checks: seq<Check>, more: Check, name: string, s: int)
    ensures ChecksFrom(checks + [more], name, s)
         == ChecksFrom(checks, name, s) + if more.name == name && Second(more.at) >= s then 1 else 0
  {
    assert (checks + [more])[..|checks|] == checks;
  }

  lemma VerifyLogged(c: Config, w: World, who: string, ok: bool)
    requires Attempts(c, w) && Logged(c, w) && Enabled(c, w, Verify(who, ok))
    ensures Logged(c, Apply(c, w, Verify(who, ok)))
  {
    hide ChecksFrom, Failures, Second, AttemptFits;
    var v := Apply(c, w, Verify(who, ok));
    forall name, s | s >= Second(v.clock) - RETENTION ensures NameLogged(c, v, name, s) {
      assert NameLogged(c, w, name, s);
      OneMoreCheck(w.past.checks, Check(who, w.clock), name, s);
      if name != who { PendingOfOthers(c, w, v, who, name, s); }
    }
  }

  /** A failed check goes ahead only with fewer than `limit` failures in the window that ends with it. */
  lemma VerifyBounded(c: Config, w: World, who: string)
    requires Attempts(c, w) && PastFits(w) && Bounded(c, w.past) && Enabled(c, w, Verify(who, false))
    ensures Bounded(c, w.past.(checks := w.past.checks + [Check(who, w.clock)]))
  {
    hide ChecksIn, Second, ChecksFrom;
    var more := w.past.checks + [Check(who, w.clock)];
    forall name, from | NoWin(w.past.wins, Column(name), Second(from), Second(from + Window(c) * MICROS))
      ensures ChecksIn(more, name, from, from + Window(c) * MICROS) <= c.limit
    {
      OneMoreIn(w.past.checks, Check(who, w.clock), name, from, from + Window(c) * MICROS);
      if name == who && from <= w.clock < from + Window(c) * MICROS {
        FewBefore(c, w, who, from);
      }
    }
  }

  lemma OneMoreIn(checks: seq<Check>, more: Check, name: string, from: int, to: int)
    ensures ChecksIn(checks + [more], name, from, to)
         == ChecksIn(checks, name, from, to) + if more.name == name && from <= more.at < to then 1 else 0
  {
    assert (checks + [more])[..|checks|] == checks;
  }

  lemma FewBefore(c: Config, w: World, who: string, from: int)
    requires Attempts(c, w) && Enabled(c, w, Verify(who, false))
    requires from <= w.clock < from + Window(c) * MICROS
    requires NoWin(w.past.wins, Column(who), Second(from), Second(from + Window(c) * MICROS))
    ensures ChecksIn(w.past.checks, who, from, from + Window(c) * MICROS) < c.limit
  {
    hide ChecksIn, Second, ChecksFrom, Window;
    assert AttemptFits(c, w, w.running[c.stripe(who)]);
    SecondGrows(w.clock, from + Window(c) * MICROS);
    SecondShift(from, Window(c));
    assert Reached(c, w, who, Second(from));
    InFrom(w.past.checks, who, from, from + Window(c) * MICROS);
  }

  lemma KeepStamp(c: Config, w: World, who: string)
    requires Inv(c, w) && Enabled(c, w, Stamp(who))
    ensures Inv(c, Apply(c, w, Stamp(who)))
  {
    hide Bounded, Logged, AttemptFits, ChecksFrom, ChecksIn;
    var v := Apply(c, w, Stamp(who));
    AttemptsKept(c, w, v, who) by {
      assert AttemptFits(c, w, w.running[c.stripe(who)]);
      StampedFits(c, w, v, w.running[c.stripe(who)]);
    }
    StampLogged(c, w, who);
  }

  lemma StampedFits(c: Config, w: World, v: World, a: Attempt)
    requires AttemptFits(c, w, a) && v.clock == w.clock && a.phase.Checked?
    ensures AttemptFits(c, v, a.(phase := Stamped(a.phase.ok, Second(w.clock))))
  {
  }

  lemma StampLogged(c: Config, w: World, who: string)
    requires Attempts(c, w) && PastFits(w) && Logged(c, w) && Enabled(c, w, Stamp(who))
    ensures Logged(c, Apply(c, w, Stamp(who)))
  {
    hide ChecksFrom, Failures, Second, AttemptFits;
    var v := Apply(c, w, Stamp(who));
    forall name, s | s >= Second(v.clock) - RETENTION ensures NameLogged(c, v, name, s) {
      assert NameLogged(c, w, name, s);
      if name != who {
        PendingOfOthers(c, w, v, who, name, s);
      } else if Second(w.clock) < s {
        NoneLater(w, who, s);
      }
    }
  }

  lemma NoneLater(w: World, name: string, s: int)
    requires PastFits(w) && Second(w.clock) < s
    ensures ChecksFrom(w.past.checks, name, s) == 0
  {
    hide ChecksFrom;
    NoChecksYet(w.past.checks, name, s);
  }

  lemma OneMoreRow(rows: seq<Row>, row: Row, column: string, s: int)
    ensures Failures(rows + [row], column, s)
         == Failures(rows, column, s) + if !row.success && row.column == column && row.second >= s then 1 else 0
  {
    assert (rows + [row])[..|rows|] == rows;
  }

  lemma KeepRecord(c: Config, w: World, who: string)
    requires Inv(c, w) && Enabled(c, w, Record(who))
    ensures Inv(c, Apply(c, w, Record(who)))
  {
    hide Bounded, Logged, AttemptFits, ChecksFrom, ChecksIn, Failures, Kept;
    var v := Apply(c, w, Record(who));
    var phase := PhaseOf(c, w, who);
    var row := Row(Column(who), phase.ok, phase.second);
    assert phase.second <= Second(w.clock) by { StampPast(c, w, w.running[c.stripe(who)]); }
    KeptRows(w.rows, row.second - RETENTION);
    AttemptsKept(c, w, v, who);
    RecordLogged(c, w, who);
    if row.success { BoundedMoreWins(c, w.past, row); }
  }

  lemma StampPast(c: Config, w: World, a: Attempt)
    requires AttemptFits(c, w, a) && a.phase.Stamped?
    ensures a.phase.second <= Second(w.clock)
  {
  }

  lemma RecordLogged(c: Config, w: World, who: string)
    requires Attempts(c, w) && Logged(c, w) && Enabled(c, w, Record(who)) && PhaseOf(c, w, who).second <= Second(w.clock)
    ensures Logged(c, Apply(c, w, Record(who)))
  {
    hide ChecksFrom, Failures, Second, AttemptFits, Kept, Column;
    var v := Apply(c, w, Record(who));
    var phase := PhaseOf(c, w, who);
    var row := Row(Column(who), phase.ok, phase.second);
    var kept := Kept(w.rows, row.second - RETENTION);
    forall name, s | s >= Second(v.clock) - RETENTION ensures NameLogged(c, v, name, s) {
      assert NameLogged(c, w, name, s);
      KeptFailures(w.rows, row.second - RETENTION, Column(name), s);
      OneMoreRow(kept, row, Column(name), s);
      if name != who { PendingOfOthers(c, w, v, who, name, s); }
    }
  }

  lemma BoundedMoreWins(c: Config, past: Past, row: Row)
    requires Bounded(c, past)
    ensures Bounded(c, past.(wins := past.wins + [row]))
  {
    hide ChecksIn, Second, Window;
    forall name, from | NoWin(past.wins + [row], Column(name), Second(from), Second(from + Window(c) * MICROS))
      ensures NoWin(past.wins, Column(name), Second(from), Second(from + Window(c) * MICROS))
    {
      FewerWins(past.wins, row, Column(name), Second(from), Second(from + Window(c) * MICROS));
    }
  }

  lemma FewerWins(wins: seq<Row>, row: Row, column: string, after: int, to: int)
    requires NoWin(wins + [row], column, after, to)
    ensures NoWin(wins, column, after, to)
  {
    forall i | 0 <= i < |wins| && wins[i].column == column ensures !(after < wins[i].second <= to) {
      assert (wins + [row])[i] == wins[i];
    }
  }

  lemma KeepAudit(c: Config, w: World, stamp: int)
    requires Inv(c, w) && stamp <= w.clock
    ensures Inv(c, Apply(c, w, Audit(stamp)))
  {
    hide Bounded, AttemptFits, ChecksFrom, ChecksIn, Failures, Kept, Second;
    var v := Apply(c, w, Audit(stamp));
    SecondGrows(stamp, w.clock);
    KeptRows(w.rows, Second(stamp) - RETENTION);
    forall k | k in v.running ensures AttemptFits(c, v, v.running[k]) { AttemptKept(c, w, v, "", v.running[k]); }
    forall name, s | s >= Second(v.clock) - RETENTION ensures NameLogged(c, v, name, s) {
      assert NameLogged(c, w, name, s);
      KeptFailures(w.rows, Second(stamp) - RETENTION, Column(name), s);
    }
  }

  lemma Keep(c: Config, w: World, e: Event)
    requires Inv(c, w) && Window(c) <= RETENTION
    ensures Inv(c, Apply(c, w, e))
  {
    hide AttemptFits, Logged, Bounded, Window, Failures, Since, NoWin;
    if Enabled(c, w, e) {
      match e
      case Tick(to) => KeepTick(c, w, to);
      case Begin(name) =>
        var v := Apply(c, w, e);
        BeganFits(c, v, v.running[c.stripe(name)]);
        KeepQuiet(c, w, v, name);
      case Look(name) =>
        var a := w.running[c.stripe(name)];
        assert a.start <= w.clock by { StartPast(c, w, a); }
        LookFits(c, w, a);
        KeepQuiet(c, w, Apply(c, w, e), name) by { FitsElsewhere(c, w, Apply(c, w, e), Apply(c, w, e).running[c.stripe(name)]); }
      case Count(name) =>
        CountFits(c, w, name);
        KeepQuiet(c, w, Apply(c, w, e), name) by { FitsElsewhere(c, w, Apply(c, w, e), Apply(c, w, e).running[c.stripe(name)]); }
      case Refuse(name) => KeepQuiet(c, w, Apply(c, w, e), name);
      case Verify(name, ok) => KeepVerify(c, w, name, ok);
      case Stamp(name) => KeepStamp(c, w, name);
      case Record(name) => KeepRecord(c, w, name);
      case Audit(stamp) => KeepAudit(c, w, stamp);
    }
  }

  lemma StartPast(c: Config, w: World, a: Attempt)
    requires AttemptFits(c, w, a)
    ensures a.start <= w.clock
  {
  }

  lemma BeganFits(c: Config, v: World, a: Attempt)
    requires a.phase.Began? && a.start == v.clock
    ensures AttemptFits(c, v, a)
  {
  }

  lemma FitsElsewhere(c: Config, w: World, v: World, a: Attempt)
    requires AttemptFits(c, w, a) && v.clock == w.clock && v.past == w.past
    ensures AttemptFits(c, v, a)
  {
    hide ChecksFrom, NoWin, Window;
    forall s | Reached(c, v, a.name, s) ensures Reached(c, w, a.name, s) {}
  }

  lemma {:induction false} KeepRun(c: Config, w: World, events: seq<Event>)
    requires Inv(c, w) && Window(c) <= RETENTION
    ensures Inv(c, Run(c, w, events))
    decreases |events|
  {
    hide Inv, Apply;
    if events != [] {
      Keep(c, w, events[0]);
      KeepRun(c, Apply(c, w, events[0]), events[1..]);
    }
  }

  // ----- when the limit holds -----

  /** In every run, every window without a success holds at most `limit` failed checks of a name. */
  ghost predicate LimitHolds(c: Config) { forall events :: Bounded(c, Run(c, Start(), events).past) }

  /** The limit is exact just when the log is kept at least as long as the window. */
  lemma LimitHoldsExactly(c: Config)
    requires c.limit > 0
    ensures LimitHolds(c) <==> c.configured <= 90 * 24 * 60 * 60
  {
    assert c.configured <= 90 * 24 * 60 * 60 <==> Window(c) <= RETENTION;
    hide Bounded, Run, Attempts, Logged, PastFits, Window;
    if Window(c) <= RETENTION {
      forall events ensures Bounded(c, Run(c, Start(), events).past) {
        StartInv(c);
        KeepRun(c, Start(), events);
      }
    } else {
      ForgottenRun(c);
    }
  }

  /** One failed attempt from start to end. */
  function FailedAttempt(name: string): seq<Event> {
    [Begin(name), Look(name), Count(name), Verify(name, false), Stamp(name), Record(name)]
  }

  function Repeat(n: nat, name: string): seq<Event> { if n == 0 then [] else Repeat(n - 1, name) + FailedAttempt(name) }

  /** As many failures as allowed at the end of the first second, their rows deleted one second after the retention period, and
      one more failure. */
  function Forgotten(limit: nat): seq<Event> {
    [Tick(MICROS - 1)] + Repeat(limit, "u") + [Tick((RETENTION + 1) * MICROS), Audit((RETENTION + 1) * MICROS)]
    + FailedAttempt("u")
  }

  lemma {:induction false} RunConcat(c: Config, w: World, a: seq<Event>, b: seq<Event>)
    ensures Run(c, w, a + b) == Run(c, Run(c, w, a), b)
    decreases |a|
  {
    hide Apply;
    if a == [] {
      assert a + b == b;
    } else {
      assert (a + b)[0] == a[0] && (a + b)[1..] == a[1..] + b;
      RunConcat(c, Apply(c, w, a[0]), a[1..], b);
    }
  }

  /** A failed attempt with nothing else running and room below the limit. */
  lemma FailedRun(c: Config, w: World, name: string)
    requires w.running == map[] && |w.rows| < c.limit
    ensures Run(c, w, FailedAttempt(name))
         == World(w.clock, Kept(w.rows, Second(w.clock) - RETENTION) + [Row(Column(name), false, Second(w.clock))], map[],
                  w.past.(checks := w.past.checks + [Check(name, w.clock)]))
  {
    hide Kept, Failures, Since, Second, Column, Window, Run;
    var a := Attempt(name, w.clock, Began);
    var k := c.stripe(name);
    var since := Since(w.rows, Column(name), Second(w.clock) - Window(c));
    var n := Failures(w.rows, Column(name), since);
    FailuresAtMost(w.rows, Column(name), since);
    var w1 := w.(running := map[k := a]);
    assert Apply(c, w, Begin(name)) == w1;
    var w2 := w.(running := map[k := a.(phase := Looked(since))]);
    assert Apply(c, w1, Look(name)).running == w2.running;
    var w3 := w.(running := map[k := a.(phase := Counted(n))]);
    assert Apply(c, w2, Count(name)).running == w3.running;
    var past := w.past.(checks := w.past.checks + [Check(name, w.clock)]);
    var w4 := w.(running := map[k := a.(phase := Checked(false))], past := past);
    assert Apply(c, w3, Verify(name, false)).running == w4.running;
    var w5 := w.(running := map[k := a.(phase := Stamped(false, Second(w.clock)))], past := past);
    assert Apply(c, w4, Stamp(name)).running == w5.running;
    assert Apply(c, w5, Record(name)).running == map[];
    SixSteps(c, w, Begin(name), Look(name), Count(name), Verify(name, false), Stamp(name), Record(name));
  }

  lemma SixSteps(c: Config, w: World, a: Event, b: Event, d: Event, e: Event, f: Event, g: Event)
    ensures Run(c, w, [a, b, d, e, f, g])
         == Apply(c, Apply(c, Apply(c, Apply(c, Apply(c, Apply(c, w, a), b), d), e), f), g)
  {
    hide Apply;
    ThreeSteps(c, w, a, b, d);
    ThreeSteps(c, Run(c, w, [a, b, d]), e, f, g);
    RunConcat(c, w, [a, b, d], [e, f, g]);
    assert [a, b, d] + [e, f, g] == [a, b, d, e, f, g];
  }

  lemma ThreeSteps(c: Config, w: World, a: Event, b: Event, d: Event)
    ensures Run(c, w, [a, b, d]) == Apply(c, Apply(c, Apply(c, w, a), b), d)
  {
    hide Apply;
    TwoSteps(c, Apply(c, w, a), b, d);
    assert [a, b, d][1..] == [b, d];
  }

  lemma {:induction false} FailuresAtMost(rows: seq<Row>, column: string, since: int)
    ensures Failures(rows, column, since) <= |rows|
  {
    if rows != [] { FailuresAtMost(rows[..|rows| - 1], column, since); }
  }

  function Copies<T>(n: nat, x: T): (r: seq<T>)
    ensures |r| == n
  {
    if n == 0 then [] else Copies(n - 1, x) + [x]
  }

  lemma {:induction false} KeptCopies(n: nat, row: Row, boundary: int)
    ensures Kept(Copies(n, row), boundary) == if row.second < boundary then [] else Copies(n, row)
  {
    if n > 0 {
      KeptCopies(n - 1, row, boundary);
      assert Copies(n, row)[..n - 1] == Copies(n - 1, row);
    }
  }

  lemma {:induction false} ChecksInCopies(n: nat, check: Check, from: int, to: int)
    requires from <= check.at < to
    ensures ChecksIn(Copies(n, check), check.name, from, to) == n
  {
    if n > 0 {
      ChecksInCopies(n - 1, check, from, to);
      assert Copies(n, check)[..n - 1] == Copies(n - 1, check);
    }
  }

  /** Failures at the end of the first second. */
  function Early(n: nat): World {
    World(MICROS - 1, Copies(n, Row("u", false, 0)), map[], Past(Copies(n, Check("u", MICROS - 1)), []))
  }

  lemma {:induction false} RepeatRun(c: Config, n: nat)
    requires n <= c.limit
    ensures Run(c, Early(0), Repeat(n, "u")) == Early(n)
  {
    hide Run, FailedAttempt, Kept;
    if n == 0 {
      NoSteps(c, Early(0));
    } else {
      RepeatRun(c, n - 1);
      RunConcat(c, Early(0), Repeat(n - 1, "u"), FailedAttempt("u"));
      FailedRun(c, Early(n - 1), "u");
      KeptCopies(n - 1, Row("u", false, 0), 0 - RETENTION);
      assert Second(MICROS - 1) == 0 && Column("u") == "u";
    }
  }

  lemma NoSteps(c: Config, w: World)
    ensures Run(c, w, []) == w
  {
  }

  lemma OneStep(c: Config, w: World, e: Event)
    ensures Run(c, w, [e]) == Apply(c, w, e)
  {
    hide Apply;
    assert [e][1..] == [];
  }

  lemma TwoSteps(c: Config, w: World, e: Event, f: Event)
    ensures Run(c, w, [e, f]) == Apply(c, Apply(c, w, e), f)
  {
    hide Apply;
    OneStep(c, Apply(c, w, e), f);
    assert [e, f][1..] == [f];
  }

  lemma ForgottenRun(c: Config)
    requires c.limit > 0 && Window(c) > RETENTION
    ensures !Bounded(c, Run(c, Start(), Forgotten(c.limit)).past)
  {
    hide Run, Repeat, FailedAttempt, Kept, Copies, ChecksIn;
    var late := (RETENTION + 1) * MICROS;
    var first, wait := [Tick(MICROS - 1)], [Tick(late), Audit(late)];
    OneStep(c, Start(), Tick(MICROS - 1));
    assert Run(c, Start(), first) == Early(0) by { NoCopies(); }
    RunConcat(c, Start(), first, Repeat(c.limit, "u"));
    RepeatRun(c, c.limit);
    RunConcat(c, Start(), first + Repeat(c.limit, "u"), wait);
    TwoSteps(c, Early(c.limit), Tick(late), Audit(late));
    KeptCopies(c.limit, Row("u", false, 0), 1);
    var after := Early(c.limit).(clock := late, rows := []);
    assert Second(late) - RETENTION == 1;
    assert Run(c, Early(c.limit), wait) == after;
    RunConcat(c, Start(), first + Repeat(c.limit, "u") + wait, FailedAttempt("u"));
    FailedRun(c, after, "u");
    ForgottenCount(c);
  }

  lemma NoCopies()
    ensures Early(0) == World(MICROS - 1, [], map[], Past([], []))
  {
  }

  lemma ForgottenCount(c: Config)
    requires Window(c) > RETENTION
    ensures !Bounded(c, Past(Copies(c.limit, Check("u", MICROS - 1)) + [Check("u", (RETENTION + 1) * MICROS)], []))
  {
    hide Copies, ChecksIn, Window;
    var from, to := MICROS - 1, MICROS - 1 + Window(c) * MICROS;
    ChecksInCopies(c.limit, Check("u", MICROS - 1), from, to);
    OneMoreIn(Copies(c.limit, Check("u", MICROS - 1)), Check("u", (RETENTION + 1) * MICROS), "u", from, to);
    assert NoWin([], Column("u"), Second(from), Second(to));
  }

  // ----- one attempt from start to end -----

  /** An event of another stripe, of the clock or of another kind of audit record. */
  predicate Foreign(c: Config, e: Event, k: nat) {
    match e
    case Tick(_) => true
    case Audit(_) => true
    case Begin(n) => c.stripe(n) != k
    case Look(n) => c.stripe(n) != k
    case Count(n) => c.stripe(n) != k
    case Refuse(n) => c.stripe(n) != k
    case Verify(n, _) => c.stripe(n) != k
    case Stamp(n) => c.stripe(n) != k
    case Record(n) => c.stripe(n) != k
  }

  /** How many failed checks of the name there have been. */
  function ChecksOf(checks: seq<Check>, name: string): nat {
    if checks == [] then 0
    else ChecksOf(checks[..|checks| - 1], name) + if checks[|checks| - 1].name == name then 1 else 0
  }

  lemma OneMoreOf(checks: seq<Check>, more: Check, name: string)
    ensures ChecksOf(checks + [more], name) == ChecksOf(checks, name) + if more.name == name then 1 else 0
  {
    assert (checks + [more])[..|checks|] == checks;
  }

  /** What another attempt cannot touch: the holder of a stripe, and the failed checks of a name under it. */
  ghost predicate SameHolder(c: Config, w: World, v: World, name: string) {
    var k := c.stripe(name);
    && (k in v.running <==> k in w.running) && (k in w.running ==> v.running[k] == w.running[k])
    && ChecksOf(v.past.checks, name) == ChecksOf(w.past.checks, name)
  }

  lemma ForeignStep(c: Config, w: World, e: Event, name: string)
    requires Foreign(c, e, c.stripe(name))
    ensures SameHolder(c, w, Apply(c, w, e), name)
  {
    hide ChecksOf, Kept, Failures, Since, Second;
    if e.Verify? { OneMoreOf(w.past.checks, Check(e.name, w.clock), name); }
  }

  lemma {:induction false} ForeignRun(c: Config, w: World, events: seq<Event>, name: string)
    requires forall e :: e in events ==> Foreign(c, e, c.stripe(name))
    ensures SameHolder(c, w, Run(c, w, events), name)
    decreases |events|
  {
    hide Apply, Foreign;
    if events != [] {
      ForeignStep(c, w, events[0], name);
      ForeignRun(c, Apply(c, w, events[0]), events[1..], name);
    }
  }

  datatype LoginResult = Blocked | Denied | SignedIn

  /** The failures an attempt counts that reads the clock after i events, the last success after j and the failures after k. */
  ghost function Tally(c: Config, run: seq<Event>, i: nat, j: nat, k: nat, name: string): nat
    requires i <= j <= k <= |run|
  {
    var floor := Second(Run(c, Start(), run[..i]).clock) - Window(c);
    Failures(Run(c, Start(), run[..k]).rows, Column(name), Since(Run(c, Start(), run[..j]).rows, Column(name), floor))
  }

  // ----- the failures an attempt counts, row by row -----

  /** A failure of the column in the window, no earlier than any success of the column in the window. */
  ghost predicate Counts(wins: seq<Row>, row: Row, column: string, floor: int) {
    && !row.success && row.column == column && row.second >= floor
    && forall q: nat :: q < |wins| && wins[q].success && wins[q].column == column && wins[q].second >= floor ==> row.second >= wins[q].second
  }

  /** The rows of the log, read after k events, that count against an attempt; it took the start of its window after i events and saw
      the successes after j. */
  ghost function Against(c: Config, run: seq<Event>, i: nat, j: nat, k: nat, name: string): set<nat>
    requires i <= j <= k <= |run|
  {
    var wins, log := Run(c, Start(), run[..j]).rows, Run(c, Start(), run[..k]).rows;
    var column := if |name| <= 64 then name else name[..64];
    var floor := Run(c, Start(), run[..i]).clock / 1_000_000 - (if c.configured > 60 then c.configured else 60);
    set p: nat | p < |log| && Counts(wins, log[p], column, floor)
  }

  /** Since is the start of the window or a success in it, and no success in it is later. */
  lemma {:induction false} SinceIs(rows: seq<Row>, column: string, floor: int)
    ensures var s := Since(rows, column, floor);
      && (s == floor || exists q: nat :: q < |rows| && rows[q].success && rows[q].column == column && rows[q].second == s)
      && (forall q: nat :: q < |rows| && rows[q].success && rows[q].column == column && rows[q].second >= floor ==> rows[q].second <= s)
  {
    if rows != [] {
      var n := |rows| - 1;
      SinceIs(rows[..n], column, floor);
      var s := Since(rows[..n], column, floor);
      if q: nat :| q < n && rows[..n][q].success && rows[..n][q].column == column && rows[..n][q].second == s { assert rows[q].second == s; }
      forall q: nat | q < n && rows[q].success && rows[q].column == column && rows[q].second >= floor ensures rows[q].second <= s {
        assert rows[..n][q] == rows[q];
      }
    }
  }

  lemma SinceCounts(wins: seq<Row>, row: Row, column: string, floor: int)
    ensures Counts(wins, row, column, floor) <==> Failed(row, column, Since(wins, column, floor))
  {
    hide Since;
    SinceIs(wins, column, floor);
  }

  ghost predicate Failed(row: Row, column: string, since: int) { !row.success && row.column == column && row.second >= since }

  ghost function FailedAt(rows: seq<Row>, column: string, since: int): set<nat> {
    set p: nat | p < |rows| && Failed(rows[p], column, since)
  }

  lemma FailedFront(rows: seq<Row>, column: string, since: int)
    requires rows != []
    ensures var n := |rows| - 1;
      FailedAt(rows, column, since) == FailedAt(rows[..n], column, since) + if Failed(rows[n], column, since) then {n} else {}
  {
    hide Failed;
  }

  lemma {:induction false} FailuresCount(rows: seq<Row>, column: string, since: int)
    ensures Failures(rows, column, since) == |FailedAt(rows, column, since)|
  {
    if rows == [] {
      assert FailedAt(rows, column, since) == {};
    } else {
      var n := |rows| - 1;
      FailuresCount(rows[..n], column, since);
      FailedFront(rows, column, since);
      assert n !in FailedAt(rows[..n], column, since);
      hide FailedAt;
    }
  }

  lemma TallyCounts(c: Config, run: seq<Event>, i: nat, j: nat, k: nat, name: string)
    requires i <= j <= k <= |run|
    ensures Tally(c, run, i, j, k, name) == |Against(c, run, i, j, k, name)|
  {
    hide Run, Since, Failures, Counts, Failed;
    var wins, log := Run(c, Start(), run[..j]).rows, Run(c, Start(), run[..k]).rows;
    var floor := Second(Run(c, Start(), run[..i]).clock) - Window(c);
    var since := Since(wins, Column(name), floor);
    FailuresCount(log, Column(name), since);
    forall p: nat | p < |log| ensures Counts(wins, log[p], Column(name), floor) <==> Failed(log[p], Column(name), since) {
      SinceCounts(wins, log[p], Column(name), floor);
    }
    assert Against(c, run, i, j, k, name) == FailedAt(log, Column(name), since);
  }

  /** A success starts the count again: no failure of an earlier second counts. */
  lemma SuccessRestarts(c: Config, run: seq<Event>, i: nat, j: nat, k: nat, name: string, q: nat)
    requires i <= j <= k <= |run| && |name| <= 64
    requires var wins := Run(c, Start(), run[..j]).rows;
      && q < |wins| && wins[q].success && wins[q].column == name
      && wins[q].second >= Run(c, Start(), run[..i]).clock / 1_000_000 - (if c.configured > 60 then c.configured else 60)
    ensures var wins, log := Run(c, Start(), run[..j]).rows, Run(c, Start(), run[..k]).rows;
      Tally(c, run, i, j, k, name) <= |set p: nat | p < |log| && !log[p].success && log[p].column == name && log[p].second >= wins[q].second|
  {
    hide Run, Tally;
    TallyCounts(c, run, i, j, k, name);
    var wins, log := Run(c, Start(), run[..j]).rows, Run(c, Start(), run[..k]).rows;
    var later := set p: nat | p < |log| && !log[p].success && log[p].column == name && log[p].second >= wins[q].second;
    assert Against(c, run, i, j, k, name) <= later;
    SmallerSet(Against(c, run, i, j, k, name), later);
  }

  lemma SmallerSet(a: set<nat>, b: set<nat>)
    requires a <= b
    ensures |a| <= |b|
  {
    assert b == a + (b - a);
  }

  /** The audit log with the attempts under way. */
  class LoginService {
    const config: Config
    var world: World
    ghost var run: seq<Event>

    ghost predicate Valid()
      reads this
    {
      world == Run(config, Start(), run)
    }

    constructor (config: Config)
      ensures Valid() && this.config == config && world == Start()
    {
      this.config, world, run := config, Start(), [];
    }

    /** The next step of this attempt, then whatever the others do before its next one. */
    method Do(name: string, e: Event, others: seq<Event>)
      requires Valid() && forall f :: f in others ==> Foreign(config, f, config.stripe(name))
      modifies this
      ensures Valid() && run == old(run) + [e] + others
      ensures SameHolder(config, Apply(config, old(world), e), world, name)
    {
      hide Run, Apply, Foreign, SameHolder;
      RunConcat(config, Start(), run, [e]);
      OneStep(config, world, e);
      RunConcat(config, Start(), run + [e], others);
      ForeignRun(config, Apply(config, world, e), others, name);
      world := Run(config, Apply(config, world, e), others);
      run := run + [e] + others;
    }

    /** The password check and its record. */
    method CheckPassword(name: string, correct: bool, others: seq<seq<Event>>)
      requires Valid() && Running(config, world, name) && |others| == 3
      requires PhaseOf(config, world, name).Counted? && PhaseOf(config, world, name).failures < config.limit
      requires forall n, e :: 0 <= n < 3 && e in others[n] ==> Foreign(config, e, config.stripe(name))
      modifies this
      ensures Valid() && old(run) <= run && config.stripe(name) !in world.running
      ensures ChecksOf(world.past.checks, name) == old(ChecksOf(world.past.checks, name)) + if correct then 0 else 1
    {
      hide Run, Apply, ChecksOf, Foreign, Since, Failures, Second, Column, Window;
      AttemptSteps(config, world, name, correct);
      Do(name, Verify(name, correct), others[0]);
      AttemptSteps(config, world, name, correct);
      Do(name, Stamp(name), others[1]);
      AttemptSteps(config, world, name, correct);
      Do(name, Record(name), others[2]);
    }

    /** The clock is read, then the last success, then the failures. */
    method CountFailures(name: string, others: seq<seq<Event>>) returns (failures: nat, ghost i: nat, ghost j: nat, ghost k: nat)
      requires Valid() && config.stripe(name) !in world.running && |others| == 3
      requires forall n, e :: 0 <= n < 3 && e in others[n] ==> Foreign(config, e, config.stripe(name))
      modifies this
      ensures Valid() && old(run) <= run && Running(config, world, name) && PhaseOf(config, world, name) == Counted(failures)
      ensures |old(run)| <= i < j < k < |run| && run[i] == Begin(name) && run[j] == Look(name) && run[k] == Count(name)
      ensures failures == Tally(config, run, i, j, k, name)
      ensures ChecksOf(world.past.checks, name) == old(ChecksOf(world.past.checks, name))
    {
      hide Run, Apply, ChecksOf, Foreign, Since, Failures, Second, Column, Window;
      ghost var began, looked, counted;
      AttemptSteps(config, world, name, true);
      i, began := |run|, run;
      Do(name, Begin(name), others[0]);
      AttemptSteps(config, world, name, true);
      j, looked := |run|, run;
      Do(name, Look(name), others[1]);
      AttemptSteps(config, world, name, true);
      k, counted := |run|, run;
      Do(name, Count(name), others[2]);
      failures := world.running[config.stripe(name)].phase.failures;
      assert run[..i] == began && run[..j] == looked && run[..k] == counted;
    }

    /** `_try_login` under the name's lock: `correct` is the outcome of the password check, `addressBlocked` that of the limit per
        address, and `others` what happens elsewhere after each step. Whatever that is, the attempt is blocked exactly when as many
        rows of the log as the limit count against it or the address is blocked, and one more failed check of the name is on record
        exactly when it is denied. */
    method TryLogin(name: string, correct: bool, addressBlocked: bool, others: seq<seq<Event>>)
      returns (r: LoginResult, ghost i: nat, ghost j: nat, ghost k: nat)
      requires Valid() && config.stripe(name) !in world.running && |others| == 6
      requires forall n, e :: 0 <= n < 6 && e in others[n] ==> Foreign(config, e, config.stripe(name))
      modifies this
      ensures Valid() && old(run) <= run && config.stripe(name) !in world.running
      ensures |old(run)| <= i < j < k < |run| && run[i] == Begin(name) && run[j] == Look(name) && run[k] == Count(name)
      ensures r == Blocked <==> |Against(config, run, i, j, k, name)| >= config.limit || addressBlocked
      ensures r == SignedIn ==> correct
      ensures r == Denied ==> !correct
      ensures ChecksOf(world.past.checks, name) == old(ChecksOf(world.past.checks, name)) + if r == Denied then 1 else 0
    {
      hide Run, Apply, ChecksOf, Foreign, Tally, Against;
      var failures;
      failures, i, j, k := CountFailures(name, others[..3]);
      ghost var counted := run;
      AttemptSteps(config, world, name, correct);
      if failures >= config.limit || addressBlocked {
        Do(name, Refuse(name), others[3]);
        r := Blocked;
      } else {
        CheckPassword(name, correct, others[3..]);
        r := if correct then SignedIn else Denied;
      }
      SameTally(config, counted, run, i, j, k, name);
    }
  }

  /** Later events do not change what was counted. */
  lemma SameTally(c: Config, counted: seq<Event>, run: seq<Event>, i: nat, j: nat, k: nat, name: string)
    requires i <= j <= k <= |counted| && counted <= run
    ensures Tally(c, counted, i, j, k, name) == |Against(c, run, i, j, k, name)|
  {
    hide Against;
    TallyCounts(c, run, i, j, k, name);
    assert run[..i] == counted[..i] && run[..j] == counted[..j] && run[..k] == counted[..k];
  }

  /** What each step does to the attempt itself. */
  lemma AttemptSteps(c: Config, w: World, name: string, ok: bool)
    ensures var k := c.stripe(name);
      && (k !in w.running ==> var v := Apply(c, w, Begin(name));
           k in v.running && v.running[k] == Attempt(name, w.clock, Began) && v.past == w.past)
      && (k in w.running && w.running[k].name == name ==>
           match w.running[k].phase
           case Began =>
             var v := Apply(c, w, Look(name));
             && k in v.running && v.past == w.past
             && v.running[k] == w.running[k].(phase := Looked(Since(w.rows, Column(name), Second(w.running[k].start) - Window(c))))
           case Looked(since) =>
             var v := Apply(c, w, Count(name));
             && k in v.running && v.past == w.past
             && v.running[k] == w.running[k].(phase := Counted(Failures(w.rows, Column(name), since)))
           case Counted(n) =>
             && (var v := Apply(c, w, Refuse(name)); k !in v.running && v.past == w.past)
             && (n < c.limit ==> var v := Apply(c, w, Verify(name, ok));
                  && k in v.running && v.running[k].name == name && v.running[k].phase == Checked(ok)
                  && ChecksOf(v.past.checks, name) == ChecksOf(w.past.checks, name) + if ok then 0 else 1)
           case Checked(_) =>
             var v := Apply(c, w, Stamp(name));
             k in v.running && v.running[k].name == name && v.running[k].phase.Stamped? && v.past == w.past
           case Stamped(_, _) =>
             var v := Apply(c, w, Record(name));
             k !in v.running && v.past.checks == w.past.checks)
  {
    hide ChecksOf, Kept, Failures, Since, Second;
    OneMoreOf(w.past.checks, Check(name, w.clock), name);
  }
}
