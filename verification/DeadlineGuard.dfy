/** The socket guard of a remote fetch (`_FetchDeadlineGuard`, src/importers.py), shared by the timer thread and the fetching
    thread. A step is what one thread does without letting go: a critical section, or one call on one socket. */
module DeadlineGuard {
  import opened Options

  /** Where a registered connection's duplicate is. */
  datatype Place =
    | Copied          // duplicated, the lock not yet taken
    | Failed          // could not be duplicated; the connection itself was closed
    | Listed
    | Refused         // found the guard expired or closed; to be shut down
    | Cut             // shut down by its own registration, to be closed
    | Taken           // taken from the list by a close
    | Closed

  datatype Timer = Waiting | Cancelled | Firing(todo: set<nat>) | Fired

  datatype Guard = Guard(closed: bool, timer: Timer, places: map<nat, Place>, shut: set<nat>, closes: multiset<nat>)

  predicate Expired(g: Guard) { g.timer.Firing? || g.timer.Fired? }

  datatype Event =
    | Copy(c: nat)
    | FailCopy(c: nat)
    | Enter(c: nat)
    | CutNew(c: nat)
    | CloseNew(c: nat)
    | Fire
    | FireOne(c: nat)
    | FireDone
    | Cancel
    | TakeAll
    | CloseOne(c: nat)

  predicate At(g: Guard, c: nat, place: Place) { c in g.places && g.places[c] == place }

  function ListedIn(places: map<nat, Place>): set<nat> { set c | c in places && places[c].Listed? }

  function Put(g: Guard, c: nat, place: Place): Guard { g.(places := g.places[c := place]) }

  /** Shutting down reaches the connection only while the duplicate is open. */
  function ShutDown(g: Guard, c: nat): Guard { if At(g, c, Closed) then g else g.(shut := g.shut + {c}) }

  function CloseCopy(g: Guard, c: nat): Guard { Put(g, c, Closed).(closes := g.closes + multiset{c}) }

  function Apply(g: Guard, e: Event): Guard {
    match e
    case Copy(c) => if c in g.places then g else Put(g, c, Copied)
    case FailCopy(c) => if c in g.places then g else Put(g, c, Failed)
    case Enter(c) => if At(g, c, Copied) then Put(g, c, if Expired(g) || g.closed then Refused else Listed) else g
    case CutNew(c) => if At(g, c, Refused) then Put(ShutDown(g, c), c, Cut) else g
    case CloseNew(c) => if At(g, c, Cut) then CloseCopy(g, c) else g
    case Fire => if g.timer.Waiting? then g.(timer := Firing(ListedIn(g.places))) else g
    case FireOne(c) =>
      if g.timer.Firing? && c in g.timer.todo then ShutDown(g, c).(timer := Firing(g.timer.todo - {c})) else g
    case FireDone => if g.timer == Firing({}) then g.(timer := Fired) else g
    case Cancel => if g.timer.Waiting? then g.(timer := Cancelled) else g
    case TakeAll =>
      g.(closed := true, places := map c | c in g.places :: if g.places[c].Listed? then Taken else g.places[c])
    case CloseOne(c) => if At(g, c, Taken) then CloseCopy(g, c) else g
  }

  function Run(g: Guard, events: seq<Event>): Guard {
    if events == [] then g else Apply(Run(g, events[..|events| - 1]), events[|events| - 1])
  }

  function Start(): Guard { Guard(false, Waiting, map[], {}, multiset{}) }

  // ----- what every run keeps -----

  ghost predicate ConnFits(g: Guard, c: nat) {
    && g.closes[c] == (if At(g, c, Closed) then 1 else 0)
    && (At(g, c, Listed) ==> !g.closed && (g.timer.Firing? ==> c in g.timer.todo || c in g.shut) && (g.timer.Fired? ==> c in g.shut))
    && (At(g, c, Taken) ==> g.closed)
    && (At(g, c, Refused) ==> Expired(g) || g.closed)
    && (At(g, c, Cut) ==> c in g.shut)
    && (At(g, c, Closed) ==> c in g.shut || g.closed)
    && (c in g.shut ==> c in g.places)
  }

  ghost predicate Inv(g: Guard) {
    && (forall c: nat :: ConnFits(g, c))
    && (g.timer.Firing? ==> forall c :: c in g.timer.todo ==> c in g.places)
  }

  lemma Keep(g: Guard, e: Event)
    requires Inv(g)
    ensures Inv(Apply(g, e))
  {
    var h := Apply(g, e);
    forall c: nat ensures ConnFits(h, c) {
      assert ConnFits(g, c);
    }
  }

  lemma {:induction false} KeepRun(events: seq<Event>)
    ensures Inv(Run(Start(), events))
  {
    hide Inv, Apply;
    if events == [] {
      StartInv();
    } else {
      KeepRun(events[..|events| - 1]);
      Keep(Run(Start(), events[..|events| - 1]), events[|events| - 1]);
    }
  }

  lemma StartInv()
    ensures Inv(Start())
  {
  }

  // ----- when a connection is left without a shutdown -----

  /** When the event first had an effect. */
  function Time(events: seq<Event>, e: Event): Option<nat> {
    if events == [] then None
    else
      var front := events[..|events| - 1];
      var before := Time(front, e);
      if before.Some? then before
      else if events[|events| - 1] == e && Apply(Run(Start(), front), e) != Run(Start(), front) then Some(|events| - 1)
      else None
  }

  predicate Precedes(a: Option<nat>, b: Option<nat>) { a.Some? && b.Some? && a.value < b.value }

  /** The times that decide about one connection. */
  datatype Times = Times(enter: Option<nat>, take: Option<nat>, fire: Option<nat>, close: Option<nat>, cut: Option<nat>)

  function TimesOf(events: seq<Event>, c: nat): Times {
    Times(Time(events, Enter(c)), Time(events, TakeAll), Time(events, Fire), Time(events, CloseOne(c)), Time(events, FireOne(c)))
  }

  predicate Early(t: Option<nat>, n: nat) { t.Some? ==> t.value < n }

  predicate Past(t: Times, n: nat) {
    Early(t.enter, n) && Early(t.take, n) && Early(t.fire, n) && Early(t.close, n) && Early(t.cut, n)
  }

  /** The connection was put on the list. */
  predicate Joined(t: Times) { t.enter.Some? && !Precedes(t.take, t.enter) && !Precedes(t.fire, t.enter) }

  /** It was on the list when the timer took its snapshot. */
  predicate Snapped(t: Times) { Joined(t) && t.fire.Some? && !Precedes(t.take, t.fire) }

  /** Where the connection is follows from the order of the times. */
  ghost predicate PlaceFits(g: Guard, c: nat, t: Times) {
    && (t.take.Some? <==> g.closed) && (t.fire.Some? <==> Expired(g))
    && (t.enter.Some? <==> c in g.places && g.places[c] != Copied && g.places[c] != Failed)
    && (At(g, c, Listed) <==> Joined(t) && t.take.None?)
    && (At(g, c, Taken) <==> Joined(t) && t.take.Some? && t.close.None?)
    && (t.close.Some? ==> At(g, c, Closed) && Joined(t))
    && (t.enter.Some? ==> t.take != t.enter)
  }

  ghost predicate ShutFits(g: Guard, c: nat, t: Times) {
    && (t.cut.Some? ==> Snapped(t))
    && (Snapped(t) && t.cut.None? <==> g.timer.Firing? && c in g.timer.todo)
    && (Joined(t) ==> (c in g.shut <==> t.cut.Some? && !Precedes(t.close, t.cut)))
    && (t.enter.Some? && !Joined(t) && !At(g, c, Refused) ==> c in g.shut)
    && (t.enter.None? ==> c !in g.shut)
    && (t.cut.Some? && t.close.Some? ==> t.cut != t.close)
  }

  ghost predicate Traced(g: Guard, c: nat, t: Times, n: nat) { Past(t, n) && PlaceFits(g, c, t) && ShutFits(g, c, t) }

  /** What one more event does to a time. */
  function Later(t: Option<nat>, now: bool, n: nat): Option<nat> { if t.None? && now then Some(n) else t }

  lemma TimeStep(events: seq<Event>, e: Event, last: Event)
    ensures var g := Run(Start(), events);
      Time(events + [last], e) == Later(Time(events, e), last == e && Apply(g, e) != g, |events|)
  {
    hide Apply;
    assert (events + [last])[..|events|] == events;
  }
  function LaterTimes(g: Guard, e: Event, c: nat, t: Times, n: nat): Times {
    if Apply(g, e) == g then t
    else
      match e
      case Enter(d) => if d == c then t.(enter := Later(t.enter, true, n)) else t
      case TakeAll => t.(take := Later(t.take, true, n))
      case Fire => t.(fire := Later(t.fire, true, n))
      case CloseOne(d) => if d == c then t.(close := Later(t.close, true, n)) else t
      case FireOne(d) => if d == c then t.(cut := Later(t.cut, true, n)) else t
      case _ => t
  }

  lemma TimesStep(events: seq<Event>, last: Event, c: nat)
    ensures TimesOf(events + [last], c) == LaterTimes(Run(Start(), events), last, c, TimesOf(events, c), |events|)
  {
    hide Apply, Run, Time;
    TimeStep(events, Enter(c), last);
    TimeStep(events, TakeAll, last);
    TimeStep(events, Fire, last);
    TimeStep(events, CloseOne(c), last);
    TimeStep(events, FireOne(c), last);
  }

  /** Which of the five events has an effect, and when. */
  lemma Effects(g: Guard, c: nat)
    ensures Apply(g, Enter(c)) != g <==> At(g, c, Copied)
    ensures Apply(g, CloseOne(c)) != g <==> At(g, c, Taken)
    ensures Apply(g, Fire) != g <==> g.timer.Waiting?
    ensures Apply(g, FireOne(c)) != g <==> g.timer.Firing? && c in g.timer.todo
    ensures !g.closed ==> Apply(g, TakeAll) != g
    ensures g.closed && (forall d :: !At(g, d, Listed)) ==> Apply(g, TakeAll) == g
  {
    if At(g, c, Copied) { assert !At(Apply(g, Enter(c)), c, Copied); }
    if At(g, c, Taken) { assert !At(Apply(g, CloseOne(c)), c, Taken); }
    if g.timer.Firing? && c in g.timer.todo { assert c !in Apply(g, FireOne(c)).timer.todo; }
    if g.closed && forall d :: !At(g, d, Listed) {
      forall d | d in g.places ensures !g.places[d].Listed? { assert !At(g, d, Listed); }
      assert Apply(g, TakeAll).places == g.places;
    }
  }

  lemma TraceEnter(g: Guard, c: nat, t: Times, n: nat)
    requires Traced(g, c, t, n) && At(g, c, Copied)
    ensures Traced(Apply(g, Enter(c)), c, t.(enter := Some(n)), n + 1)
  {
  }

  lemma TraceTake(g: Guard, c: nat, t: Times, n: nat)
    requires Traced(g, c, t, n) && !g.closed
    ensures Traced(Apply(g, TakeAll), c, t.(take := Some(n)), n + 1)
  {
  }

  lemma TraceFire(g: Guard, c: nat, t: Times, n: nat)
    requires Traced(g, c, t, n) && g.timer.Waiting? && ConnFits(g, c)
    ensures Traced(Apply(g, Fire), c, t.(fire := Some(n)), n + 1)
  {
  }

  lemma TraceClose(g: Guard, c: nat, t: Times, n: nat)
    requires Traced(g, c, t, n) && At(g, c, Taken)
    ensures Traced(Apply(g, CloseOne(c)), c, t.(close := Some(n)), n + 1)
  {
  }

  lemma TraceCut(g: Guard, c: nat, t: Times, n: nat)
    requires Traced(g, c, t, n) && g.timer.Firing? && c in g.timer.todo
    ensures Traced(Apply(g, FireOne(c)), c, t.(cut := Some(n)), n + 1)
  {
  }

  /** The connection's own shutdown after a refusal, and everything that leaves its times alone. */
  lemma TraceOther(g: Guard, e: Event, c: nat, t: Times, n: nat)
    requires Traced(g, c, t, n) && ConnFits(g, c)
    requires e != Enter(c) && e != TakeAll && e != Fire && e != CloseOne(c) && e != FireOne(c)
    ensures Traced(Apply(g, e), c, t, n + 1)
  {
  }

  lemma Idle(g: Guard, c: nat, t: Times, n: nat)
    requires Traced(g, c, t, n)
    ensures Traced(g, c, t, n + 1)
  {
    hide PlaceFits, ShutFits;
  }

  lemma NothingListed(g: Guard)
    requires Inv(g) && g.closed
    ensures forall d :: !At(g, d, Listed)
  {
    forall d ensures !At(g, d, Listed) { assert ConnFits(g, d); }
  }

  /** The event has a time of its own for this connection. */
  predicate Timed(e: Event, c: nat) { e == Enter(c) || e == TakeAll || e == Fire || e == CloseOne(c) || e == FireOne(c) }

  lemma TraceTimed(g: Guard, e: Event, c: nat, t: Times, n: nat)
    requires Inv(g) && Traced(g, c, t, n) && Timed(e, c) && Apply(g, e) != g
    ensures Traced(Apply(g, e), c, LaterTimes(g, e, c, t, n), n + 1)
  {
    assert ConnFits(g, c);
    if g.closed { NothingListed(g); }
    hide Apply, Inv, ConnFits, Traced;
    Effects(g, c);
    TimesFit(g, c, t, n);
    match e
    case Enter(_) => TraceEnter(g, c, t, n);
    case TakeAll => TraceTake(g, c, t, n);
    case Fire => TraceFire(g, c, t, n);
    case CloseOne(_) => TraceClose(g, c, t, n);
    case FireOne(_) => TraceCut(g, c, t, n);
  }

  lemma TraceStep(g: Guard, e: Event, c: nat, t: Times, n: nat)
    requires Inv(g) && Traced(g, c, t, n)
    ensures Traced(Apply(g, e), c, LaterTimes(g, e, c, t, n), n + 1)
  {
    assert ConnFits(g, c);
    hide Apply, Inv, ConnFits, Traced;
    if Apply(g, e) == g {
      Idle(g, c, t, n);
    } else if Timed(e, c) {
      TraceTimed(g, e, c, t, n);
    } else {
      TraceOther(g, e, c, t, n);
    }
  }

  /** An event that can still have an effect has had none before. */
  lemma TimesFit(g: Guard, c: nat, t: Times, n: nat)
    requires Traced(g, c, t, n)
    ensures At(g, c, Copied) ==> t.enter.None?
    ensures !g.closed ==> t.take.None?
    ensures g.timer.Waiting? ==> t.fire.None?
    ensures At(g, c, Taken) ==> t.close.None?
    ensures g.timer.Firing? && c in g.timer.todo ==> t.cut.None?
  {
  }

  lemma {:induction false} TraceRun(events: seq<Event>, c: nat)
    ensures Traced(Run(Start(), events), c, TimesOf(events, c), |events|)
  {
    hide Apply, Inv, Traced, LaterTimes;
    if events == [] {
      TraceStart(c);
    } else {
      var front, last := events[..|events| - 1], events[|events| - 1];
      TraceRun(front, c);
      KeepRun(front);
      TimesStep(front, last, c);
      assert front + [last] == events;
      TraceStep(Run(Start(), front), last, c, TimesOf(front, c), |front|);
    }
  }

  lemma TraceStart(c: nat)
    ensures Traced(Start(), c, Times(None, None, None, None, None), 0)
  {
  }

  /** Once the timer has fired, a connection whose registration has finished is left without a shutdown exactly when a close took
      it off the list before the timer's snapshot, or closed its duplicate before the timer came to it. */
  lemma DeadlineCuts(events: seq<Event>, c: nat)
    requires var g := Run(Start(), events);
      g.timer.Fired? && c in g.places && !At(g, c, Copied) && !At(g, c, Failed) && !At(g, c, Refused)
    ensures var t := TimesOf(events, c);
      c !in Run(Start(), events).shut
      <==> (Precedes(t.enter, t.take) && Precedes(t.take, t.fire)) || Precedes(t.close, t.cut)
  {
    hide Run, Time;
    TraceRun(events, c);
  }

  /** The exception is real: a close that comes between the timer's snapshot and its call on a socket leaves the connection of
      that socket without a shutdown. */
  lemma CloseOvertakesTimer(c: nat)
    ensures var g := Apply(Apply(Apply(Apply(Apply(Apply(Apply(Start(), Copy(c)), Enter(c)), Fire), TakeAll), CloseOne(c)),
                                 FireOne(c)), FireDone);
      g.timer.Fired? && At(g, c, Closed) && c !in g.shut
  {
    var a := Apply(Apply(Start(), Copy(c)), Enter(c));
    assert a == Guard(false, Waiting, map[c := Listed], {}, multiset{});
    assert ListedIn(a.places) == {c};
    var b := Apply(Apply(a, Fire), TakeAll);
    assert b == Guard(true, Firing({c}), map[c := Taken], {}, multiset{});
    var d := Apply(b, CloseOne(c));
    assert d.places == map[c := Closed] && d.timer == Firing({c}) && d.shut == {};
    assert Apply(d, FireOne(c)).timer.todo == {};
  }

  /** No duplicate is ever closed twice, and after a close nothing stays on the list: what it took, and what registers later, is
      closed once by the time its steps are done. */
  lemma ClosedOnce(events: seq<Event>, c: nat)
    ensures var g := Run(Start(), events);
      && g.closes[c] == (if At(g, c, Closed) then 1 else 0)
      && (g.closed ==> !At(g, c, Listed))
      && (g.closed && c in g.places && !At(g, c, Copied) && !At(g, c, Refused) && !At(g, c, Cut) && !At(g, c, Taken) ==>
           At(g, c, Failed) || g.closes[c] == 1)
  {
    hide Run;
    KeepRun(events);
    var g := Run(Start(), events);
    assert ConnFits(g, c);
  }

  // ----- the guard, one call at a time -----

  lemma OneMore(g: Guard, run: seq<Event>, e: Event)
    requires g == Run(Start(), run)
    ensures Run(Start(), run + [e]) == Apply(g, e)
  {
    hide Apply;
    assert (run + [e])[..|run|] == run;
  }

  ghost predicate Distinct(s: seq<nat>) { forall i, j :: 0 <= i < j < |s| ==> s[i] != s[j] }

  ghost predicate AllAt(g: Guard, s: seq<nat>, place: Place) { forall c :: c in s ==> At(g, c, place) }

  /** The list holds the listed duplicates, each once. */
  ghost predicate Lists(g: Guard, s: seq<nat>) {
    Distinct(s) && AllAt(g, s, Listed) && forall c :: At(g, c, Listed) ==> c in s
  }

  /** What registering a new connection does to the guard. */
  ghost function Registered(g: Guard, c: nat, copies: bool): Guard {
    if !copies then Put(g, c, Failed)
    else if !(Expired(g) || g.closed) then Put(g, c, Listed)
    else Put(g, c, Closed).(shut := g.shut + {c}, closes := g.closes + multiset{c})
  }

  lemma ListedSteps(g: Guard, c: nat)
    requires c !in g.places
    ensures Apply(g, FailCopy(c)) == Registered(g, c, false)
    ensures !(Expired(g) || g.closed) ==> Apply(Apply(g, Copy(c)), Enter(c)) == Registered(g, c, true)
  {
    assert g.places[c := Copied][c := Listed] == g.places[c := Listed];
  }

  lemma RefusedSteps(g: Guard, c: nat)
    requires c !in g.places && (Expired(g) || g.closed)
    ensures Apply(Apply(Apply(Apply(g, Copy(c)), Enter(c)), CutNew(c)), CloseNew(c)) == Registered(g, c, true)
  {
    var a := Apply(Apply(g, Copy(c)), Enter(c));
    assert a == Put(g, c, Refused) by { assert g.places[c := Copied][c := Refused] == g.places[c := Refused]; }
    var b := Apply(a, CutNew(c));
    assert b == Put(g, c, Cut).(shut := g.shut + {c}) by { assert g.places[c := Refused][c := Cut] == g.places[c := Cut]; }
    assert g.places[c := Cut][c := Closed] == g.places[c := Closed];
  }

  lemma RegisterSteps(g: Guard, c: nat)
    requires c !in g.places
    ensures Apply(g, FailCopy(c)) == Registered(g, c, false)
    ensures !(Expired(g) || g.closed) ==> Apply(Apply(g, Copy(c)), Enter(c)) == Registered(g, c, true)
    ensures Expired(g) || g.closed ==>
      Apply(Apply(Apply(Apply(g, Copy(c)), Enter(c)), CutNew(c)), CloseNew(c)) == Registered(g, c, true)
  {
    hide Apply;
    ListedSteps(g, c);
    if Expired(g) || g.closed { RefusedSteps(g, c); }
  }

  lemma RegisterLists(g: Guard, s: seq<nat>, c: nat, copies: bool)
    requires Lists(g, s) && c !in g.places
    ensures Lists(Registered(g, c, copies), if copies && !(Expired(g) || g.closed) then s + [c] else s)
  {
    var h := Registered(g, c, copies);
    var t := if copies && !(Expired(g) || g.closed) then s + [c] else s;
    assert c !in s;
    assert forall d :: d != c ==> At(h, d, Listed) == At(g, d, Listed);
    assert At(h, c, Listed) ==> c in t;
  }

  /** The fields are those of the source; `guard` and `run` record every step that a call takes. */
  class FetchGuard {
    var expired: bool
    var closed: bool
    var sockets: seq<nat>
    ghost var guard: Guard
    ghost var run: seq<Event>

    ghost predicate Valid()
      reads this
    {
      guard == Run(Start(), run) && expired == Expired(guard) && closed == guard.closed && Lists(guard, sockets)
    }

    constructor ()
      ensures Valid() && !expired && !closed && sockets == [] && guard == Start()
    {
      expired, closed, sockets, guard, run := false, false, [], Start(), [];
    }

    ghost method Do(e: Event)
      requires guard == Run(Start(), run)
      modifies this`guard, this`run
      ensures guard == Apply(old(guard), e) && run == old(run) + [e] && guard == Run(Start(), run)
    {
      OneMore(guard, run, e);
      guard, run := Apply(guard, e), run + [e];
    }

    /** A new connection joins the list, or is cut at once when the guard has expired or closed. */
    method Register(c: nat, copies: bool) returns (ok: bool)
      requires Valid() && c !in guard.places
      modifies this
      ensures Valid() && ok == copies && expired == old(expired) && closed == old(closed)
      ensures guard == Registered(old(guard), c, copies)
      ensures sockets == if copies && !(old(expired) || old(closed)) then old(sockets) + [c] else old(sockets)
    {
      hide Run, Apply, Lists;
      RegisterSteps(guard, c);
      RegisterLists(guard, sockets, c, copies);
      if !copies {
        Do(FailCopy(c));
        return false;
      }
      Do(Copy(c));
      Do(Enter(c));
      if !(expired || closed) {
        sockets := sockets + [c];
        return true;
      }
      Do(CutNew(c));
      Do(CloseNew(c));
      ok := true;
    }

    /** The timer: every connection on the list is shut down, and none leaves it. */
    method FireTimer()
      requires Valid() && guard.timer.Waiting?
      modifies this
      ensures Valid() && expired && sockets == old(sockets) && closed == old(closed)
      ensures guard == old(guard).(timer := Fired, shut := old(guard).shut + Set(sockets))
    {
      hide Run, Apply, Lists;
      ghost var before := guard;
      FireStep(guard, sockets);
      Do(Fire);
      expired := true;
      var snapshot := sockets;
      var i := 0;
      while i < |snapshot|
        invariant 0 <= i <= |snapshot| && snapshot == sockets == old(sockets)
        invariant guard == Run(Start(), run) && closed == old(closed) && expired
        invariant guard == HalfFired(before, snapshot, i)
      {
        FireOneStep(before, snapshot, i);
        Do(FireOne(snapshot[i]));
        i := i + 1;
      }
      FireDoneStep(before, snapshot);
      Do(FireDone);
      SameLists(before, guard, sockets);
    }

    /** The end of the fetch: the list is emptied and each duplicate on it is closed. */
    method Close()
      requires Valid()
      modifies this
      ensures Valid() && closed && sockets == [] && expired == old(expired)
      ensures AllAt(guard, old(sockets), Closed)
      ensures guard.closes == old(guard).closes + multiset(old(sockets)) && guard.shut == old(guard).shut
    {
      hide Run, Apply, Lists, AllAt, Distinct;
      TakeStep(guard, sockets);
      Do(Cancel);
      Do(TakeAll);
      ghost var before := guard;
      var taken := sockets;
      closed, sockets := true, [];
      var i := 0;
      while i < |taken|
        invariant 0 <= i <= |taken| && taken == old(sockets) && sockets == [] && closed
        invariant guard == Run(Start(), run) && expired == old(expired)
        invariant HalfClosed(before, guard, taken, i)
      {
        CloseOneStep(before, guard, taken, i);
        Do(CloseOne(taken[i]));
        i := i + 1;
      }
      AllClosed(before, guard, taken);
    }
  }

  ghost function Set(s: seq<nat>): set<nat> { set c | c in s }

  /** The guard when the timer has been through the first `i` connections. */
  ghost function HalfFired(g: Guard, s: seq<nat>, i: nat): Guard
    requires i <= |s|
  {
    g.(timer := Firing(Set(s) - Set(s[..i])), shut := g.shut + Set(s[..i]))
  }

  lemma FireStep(g: Guard, s: seq<nat>)
    requires Lists(g, s) && g.timer.Waiting?
    ensures Apply(g, Fire) == HalfFired(g, s, 0)
  {
    assert forall c :: c in ListedIn(g.places) <==> At(g, c, Listed);
    assert ListedIn(g.places) == Set(s);
    assert Set(s) - Set(s[..0]) == Set(s) && g.shut + Set(s[..0]) == g.shut;
  }

  lemma FireOneStep(g: Guard, s: seq<nat>, i: nat)
    requires Lists(g, s) && i < |s|
    ensures Apply(HalfFired(g, s, i), FireOne(s[i])) == HalfFired(g, s, i + 1)
  {
    assert s[..i + 1] == s[..i] + [s[i]];
    assert At(g, s[i], Listed);
    assert s[i] !in Set(s[..i]);
    assert Set(s) - Set(s[..i]) - {s[i]} == Set(s) - Set(s[..i + 1]);
    assert g.shut + Set(s[..i]) + {s[i]} == g.shut + Set(s[..i + 1]);
  }

  lemma FireDoneStep(g: Guard, s: seq<nat>)
    ensures Apply(HalfFired(g, s, |s|), FireDone) == g.(timer := Fired, shut := g.shut + Set(s))
  {
    assert s[..|s|] == s;
    assert Set(s) - Set(s) == {};
  }

  lemma SameLists(g: Guard, h: Guard, s: seq<nat>)
    requires Lists(g, s) && h.places == g.places
    ensures Lists(h, s)
  {
  }

  ghost predicate HalfClosed(g: Guard, h: Guard, s: seq<nat>, i: nat)
    requires i <= |s|
  {
    && Distinct(s) && AllAt(h, s[..i], Closed) && AllAt(h, s[i..], Taken)
    && (forall c :: !At(h, c, Listed))
    && h.closes == g.closes + multiset(s[..i]) && h.shut == g.shut && h.closed && h.timer == g.timer
  }

  lemma TakeStep(g: Guard, s: seq<nat>)
    requires Lists(g, s)
    ensures var h := Apply(Apply(g, Cancel), TakeAll);
      HalfClosed(h, h, s, 0) && h.closes == g.closes && h.shut == g.shut && Expired(h) == Expired(g)
  {
    assert s[..0] == [] && s[0..] == s;
  }

  lemma CloseOneStep(g: Guard, h: Guard, s: seq<nat>, i: nat)
    requires i < |s| && HalfClosed(g, h, s, i)
    ensures HalfClosed(g, Apply(h, CloseOne(s[i])), s, i + 1)
  {
    assert s[..i + 1] == s[..i] + [s[i]];
    assert s[i..] == [s[i]] + s[i + 1..];
    assert At(h, s[i], Taken) by { assert s[i] in s[i..]; }
    var next := Apply(h, CloseOne(s[i]));
    assert next == CloseCopy(h, s[i]);
    assert forall c :: At(next, c, Listed) ==> c != s[i] && At(h, c, Listed);
    assert AllAt(next, s[i + 1..], Taken) by {
      forall c | c in s[i + 1..] ensures At(next, c, Taken) {
        var j :| i + 1 <= j < |s| && s[j] == c;
        assert c in s[i..];
      }
    }
  }

  lemma AllClosed(g: Guard, h: Guard, s: seq<nat>)
    requires HalfClosed(g, h, s, |s|)
    ensures AllAt(h, s, Closed) && Lists(h, []) && h.closes == g.closes + multiset(s) && h.closed && h.shut == g.shut
    ensures Expired(h) == Expired(g)
  {
    assert s[..|s|] == s;
  }
}
