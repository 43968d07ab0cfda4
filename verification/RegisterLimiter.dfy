/** The sliding-window limit on registrations (`_register_rate_limited`, src/auth_service.py).

    The clock is read before the guard lock is taken, so the calls on a key may reach its queue out of clock order. A sequence of
    clock reads is given in lock order here; `Late` bounds how far a read may lie behind an earlier one. */
module RegisterLimiter {

  type Time = int

  const MAX_KEYS: nat := 10000

  // ----- one key -----

  /** The accepted registrations of a key in lock order: the ones dropped from its queue, then the ones still in it. */
  datatype History = History(gone: seq<Time>, times: seq<Time>)

  function Log(h: History): seq<Time> { h.gone + h.times }

  /** How many times at the front of the queue are at least `window` old. */
  function Expired(times: seq<Time>, now: Time, window: nat): (n: nat)
    ensures n <= |times|
    ensures forall i :: 0 <= i < n ==> now - times[i] >= window
    ensures n < |times| ==> now - times[n] < window
  {
    if times == [] || now - times[0] < window then 0 else 1 + Expired(times[1..], now, window)
  }

  function Recent(times: seq<Time>, now: Time, window: nat): seq<Time> { times[Expired(times, now, window)..] }

  function Attempt(h: History, now: Time, window: nat, limit: nat): History {
    var recent := Recent(h.times, now, window);
    var gone := h.gone + h.times[..Expired(h.times, now, window)];
    if |recent| >= limit then History(gone, recent) else History(gone, recent + [now])
  }

  function After(calls: seq<Time>, window: nat, limit: nat): History {
    if calls == [] then History([], [])
    else Attempt(After(calls[..|calls| - 1], window, limit), calls[|calls| - 1], window, limit)
  }

  predicate Accepts(calls: seq<Time>, now: Time, window: nat, limit: nat) {
    |Recent(After(calls, window, limit).times, now, window)| < limit
  }

  function Top(calls: seq<Time>): Time
    requires calls != []
  {
    if |calls| == 1 then calls[0]
    else
      var before := Top(calls[..|calls| - 1]);
      if before >= calls[|calls| - 1] then before else calls[|calls| - 1]
  }

  /** No read lies more than `late` behind an earlier one. */
  ghost predicate Late(calls: seq<Time>, late: nat) {
    |calls| <= 1 || (Late(calls[..|calls| - 1], late) && calls[|calls| - 1] >= Top(calls[..|calls| - 1]) - late)
  }

  /** How many of the times fall in [start, start + width). */
  function Count(times: seq<Time>, start: Time, width: int): nat {
    if times == [] then 0
    else Count(times[..|times| - 1], start, width) + if start <= times[|times| - 1] < start + width then 1 else 0
  }

  lemma {:induction false} CountConcat(a: seq<Time>, b: seq<Time>, start: Time, width: int)
    ensures Count(a + b, start, width) == Count(a, start, width) + Count(b, start, width)
    decreases |b|
  {
    if b == [] {
      assert a + b == a;
    } else {
      assert (a + b)[..|a + b| - 1] == a + b[..|b| - 1];
      CountConcat(a, b[..|b| - 1], start, width);
    }
  }

  lemma {:induction false} CountAtMost(a: seq<Time>, start: Time, width: int)
    ensures Count(a, start, width) <= |a|
  {
    if a != [] { CountAtMost(a[..|a| - 1], start, width); }
  }

  lemma {:induction false} CountNone(a: seq<Time>, start: Time, width: int)
    requires forall i :: 0 <= i < |a| ==> a[i] < start
    ensures Count(a, start, width) == 0
  {
    if a != [] { CountNone(a[..|a| - 1], start, width); }
  }

  /** Every dropped time was at least `window` before some read. */
  ghost predicate LongGone(gone: seq<Time>, top: Time, window: nat) {
    forall i :: 0 <= i < |gone| ==> top - gone[i] >= window
  }

  lemma {:induction false} DroppedAreOld(calls: seq<Time>, window: nat, limit: nat)
    requires calls != []
    ensures LongGone(After(calls, window, limit).gone, Top(calls), window)
  {
    var before := calls[..|calls| - 1];
    if before != [] { DroppedAreOld(before, window, limit); }
  }

  /** Accepting or refusing adds the new read to the log or leaves the log alone. */
  lemma LogGrows(h: History, now: Time, window: nat, limit: nat)
    ensures var next := Attempt(h, now, window, limit);
      Log(next) == if |Recent(h.times, now, window)| < limit then Log(h) + [now] else Log(h)
  {
    var n := Expired(h.times, now, window);
    assert h.times == h.times[..n] + h.times[n..];
  }

  /** Any window shorter than the configured one by the lateness holds at most `limit` accepted registrations. */
  lemma {:induction false} WindowHolds(calls: seq<Time>, window: nat, limit: nat, late: nat, start: Time)
    requires Late(calls, late)
    ensures Count(Log(After(calls, window, limit)), start, window - late) <= limit
  {
    hide Expired;
    if calls == [] {
    } else {
      var before, now := calls[..|calls| - 1], calls[|calls| - 1];
      var h := After(before, window, limit);
      WindowHolds(before, window, limit, late, start);
      LogGrows(h, now, window, limit);
      if Accepts(before, now, window, limit) {
        AcceptedCount(calls, window, limit, late, start);
      }
    }
  }

  lemma AcceptedCount(calls: seq<Time>, window: nat, limit: nat, late: nat, start: Time)
    requires Late(calls, late) && calls != []
    requires Accepts(calls[..|calls| - 1], calls[|calls| - 1], window, limit)
    requires Count(Log(After(calls[..|calls| - 1], window, limit)), start, window - late) <= limit
    ensures Count(Log(After(calls, window, limit)), start, window - late) <= limit
  {
    hide Recent, Count, Log, LongGone, Top;
    var before, now := calls[..|calls| - 1], calls[|calls| - 1];
    var h := After(before, window, limit);
    var next := After(calls, window, limit);
    LogGrows(h, now, window, limit);
    if start <= now < start + window - late {
      DroppedAreOld(calls, window, limit);
      TopNear(calls, late);
      assert next.times == Recent(h.times, now, window) + [now];
      FewInQueue(next, Top(calls), now, window, limit, late, start);
    } else {
      CountConcat(Log(h), [now], start, window - late);
      CountOne(now, start, window - late);
    }
  }

  lemma TopNear(calls: seq<Time>, late: nat)
    requires Late(calls, late) && calls != []
    ensures calls[|calls| - 1] >= Top(calls) - late
  {
  }

  /** What left the queue is too old for a window that reaches the newest call. */
  lemma FewInQueue(h: History, top: Time, now: Time, window: nat, limit: nat, late: nat, start: Time)
    requires LongGone(h.gone, top, window) && |h.times| <= limit && now >= top - late && start <= now < start + window - late
    ensures Count(Log(h), start, window - late) <= limit
  {
    hide Count;
    CountNone(h.gone, start, window - late);
    CountConcat(h.gone, h.times, start, window - late);
    CountAtMost(h.times, start, window - late);
  }

  lemma CountOne(now: Time, start: Time, width: int)
    requires !(start <= now < start + width)
    ensures Count([now], start, width) == 0
  {
    assert [now][..0] == [];
  }

  ghost predicate Sorted(times: seq<Time>) { forall i, j :: 0 <= i < j < |times| ==> times[i] <= times[j] }

  ghost predicate AtMost(times: seq<Time>, top: Time) { forall i :: 0 <= i < |times| ==> times[i] <= top }

  lemma OrderedStep(h: History, now: Time, window: nat, limit: nat)
    requires Sorted(h.times) && AtMost(h.times, now) && window > 0
    ensures var times := Attempt(h, now, window, limit).times;
      Sorted(times) && AtMost(times, now) && forall i :: 0 <= i < |times| ==> now - times[i] < window
  {
    hide Expired;
    var n := Expired(h.times, now, window);
    var recent := h.times[n..];
    assert Sorted(recent) && AtMost(recent, now);
    forall i | 0 <= i < |recent| ensures now - recent[i] < window {
      assert i > 0 ==> h.times[n] <= h.times[n + i];
    }
  }

  /** When the calls take the lock in clock order, the queue stays sorted and, after a call, inside the window. */
  lemma {:induction false} OrderedQueue(calls: seq<Time>, window: nat, limit: nat)
    requires Late(calls, 0) && calls != [] && window > 0
    ensures var times := After(calls, window, limit).times;
      Sorted(times) && AtMost(times, Top(calls)) && forall i :: 0 <= i < |times| ==> Top(calls) - times[i] < window
  {
    hide Sorted, AtMost, Attempt;
    var before, now := calls[..|calls| - 1], calls[|calls| - 1];
    var h := After(before, window, limit);
    if before != [] {
      OrderedQueue(before, window, limit);
      AtMostLater(h.times, Top(before), now);
    } else {
      NoTimes(now);
    }
    OrderedStep(h, now, window, limit);
    assert Top(calls) == now;
  }

  lemma AtMostLater(times: seq<Time>, top: Time, now: Time)
    requires AtMost(times, top) && top <= now
    ensures AtMost(times, now)
  {
  }

  lemma NoTimes(now: Time)
    ensures Sorted([]) && AtMost([], now)
  {
  }

  /** With a limit of one, each accepted registration is at least a window after the one before it, whatever the lock order. */
  lemma {:induction false} SingleApart(calls: seq<Time>, window: nat, start: Time)
    requires window > 0
    ensures var h := After(calls, window, 1);
      && |h.times| <= 1 && (h.times == [] ==> h.gone == []) && (h.times != [] ==> LongGone(h.gone, h.times[0], window))
      && Count(Log(h), start, window) <= 1
  {
    if calls != [] {
      var before, now := calls[..|calls| - 1], calls[|calls| - 1];
      SingleApart(before, window, start);
      var h := After(before, window, 1);
      var next := After(calls, window, 1);
      LogGrows(h, now, window, 1);
      SingleStep(h, now, window, start);
    }
  }

  lemma SingleStep(h: History, now: Time, window: nat, start: Time)
    requires window > 0 && |h.times| <= 1 && (h.times == [] ==> h.gone == [])
    requires h.times != [] ==> LongGone(h.gone, h.times[0], window)
    requires Count(Log(h), start, window) <= 1
    ensures var next := Attempt(h, now, window, 1);
      && |next.times| == 1 && LongGone(next.gone, next.times[0], window) && Count(Log(next), start, window) <= 1
  {
    hide Count;
    var next := Attempt(h, now, window, 1);
    LogGrows(h, now, window, 1);
    if h.times == [] || now - h.times[0] >= window {
      assert h.times[..Expired(h.times, now, window)] == h.times;
      assert next == History(h.gone + h.times, [now]);
      assert LongGone(next.gone, now, window);
      SingleCount(next.gone, now, window, start);
    } else {
      assert h.gone + [] == h.gone;
      assert next == h;
    }
  }

  lemma SingleCount(gone: seq<Time>, now: Time, window: nat, start: Time)
    requires LongGone(gone, now, window) && Count(gone, start, window) <= 1
    ensures Count(gone + [now], start, window) <= 1
  {
    hide Count;
    CountConcat(gone, [now], start, window);
    CountAtMost([now], start, window);
    if start <= now < start + window { CountNone(gone, start, window); } else { CountOne(now, start, window); }
  }

  /** In every run of the given lateness, any window holds at most `limit` accepted registrations of the key. */
  ghost predicate LimitKept(window: nat, limit: nat, late: nat) {
    forall calls, start: Time :: Late(calls, late) ==> Count(Log(After(calls, window, limit)), start, window) <= limit
  }

  /** The limit is exact just when one registration is allowed per window or the calls take the lock in clock order. */
  lemma LimitKeptExactly(window: nat, limit: nat, late: nat)
    requires window > 0 && limit > 0
    ensures LimitKept(window, limit, late) <==> limit == 1 || late == 0
  {
    hide Count, After, Late;
    if limit == 1 || late == 0 {
      forall calls, start: Time | Late(calls, late) ensures Count(Log(After(calls, window, limit)), start, window) <= limit {
        if late == 0 { WindowHolds(calls, window, limit, 0, start); } else { SingleApart(calls, window, start); }
      }
    } else {
      OvertakenRun(window, limit, if late <= window then late else window, late);
    }
  }

  /** As many registrations as allowed at time 0. */
  function Zeros(n: nat): (z: seq<Time>)
    ensures |z| == n && forall i :: 0 <= i < n ==> z[i] == 0
  {
    if n == 0 then [] else Zeros(n - 1) + [0]
  }

  /** A full window at 0, a call at the end of the window, and a call that read the clock before it and got the lock after it. */
  function Overtaken(window: nat, limit: nat, behind: nat): seq<Time> { (Zeros(limit) + [window]) + [window - behind] }

  lemma {:induction false} ZerosRun(n: nat, window: nat, limit: nat, late: nat)
    requires n <= limit && window > 0
    ensures After(Zeros(n), window, limit) == History([], Zeros(n))
    ensures Late(Zeros(n), late) && (n > 0 ==> Top(Zeros(n)) == 0) && Count(Zeros(n), 0, window) == n
  {
    hide Attempt;
    if n > 0 {
      ZerosRun(n - 1, window, limit, late);
      assert Zeros(n)[..n - 1] == Zeros(n - 1);
      ZerosStep(n - 1, window, limit);
    }
  }

  lemma ZerosStep(n: nat, window: nat, limit: nat)
    requires n < limit && window > 0
    ensures Attempt(History([], Zeros(n)), 0, window, limit) == History([], Zeros(n) + [0])
  {
    assert Expired(Zeros(n), 0, window) == 0;
    assert Zeros(n)[0..] == Zeros(n);
  }

  /** The last step of each of the two functions. */
  lemma OneMore(calls: seq<Time>, now: Time, window: nat, limit: nat, late: nat)
    requires calls != []
    ensures After(calls + [now], window, limit) == Attempt(After(calls, window, limit), now, window, limit)
    ensures Late(calls + [now], late) <==> Late(calls, late) && now >= Top(calls) - late
    ensures Top(calls + [now]) == if Top(calls) >= now then Top(calls) else now
  {
    hide Attempt;
    assert (calls + [now])[..|calls|] == calls;
  }

  lemma OvertakenRun(window: nat, limit: nat, behind: nat, late: nat)
    requires window > 0 && limit >= 2 && 0 < behind <= late && behind <= window
    ensures Late(Overtaken(window, limit, behind), late)
    ensures Count(Log(After(Overtaken(window, limit, behind), window, limit)), 0, window) == limit + 1
  {
    hide Late, After, Attempt, Top, Zeros;
    var z := Zeros(limit);
    ZerosRun(limit, window, limit, late);
    OneMore(z, window, window, limit, late);
    OneMore(z + [window], window - behind, window, limit, late);
    OvertakenLog(z, window, limit, behind);
    CountConcat(z, [window, window - behind], 0, window);
    OvertakenCount(window, behind);
  }

  lemma CountLast(times: seq<Time>, t: Time, start: Time, width: int)
    ensures Count(times + [t], start, width) == Count(times, start, width) + if start <= t < start + width then 1 else 0
  {
    assert (times + [t])[..|times|] == times;
  }

  lemma OvertakenCount(window: nat, behind: nat)
    requires 0 < behind <= window
    ensures Count([window, window - behind], 0, window) == 1
  {
    CountLast([], window, 0, window);
    CountLast([window], window - behind, 0, window);
    assert [] + [window] == [window] && [window] + [window - behind] == [window, window - behind];
  }

  lemma OvertakenLog(z: seq<Time>, window: nat, limit: nat, behind: nat)
    requires window > 0 && limit >= 2 && 0 < behind <= window && z == Zeros(limit)
    ensures Log(Attempt(Attempt(History([], z), window, window, limit), window - behind, window, limit))
         == z + [window, window - behind]
  {
    assert Expired(z, window, window) == |z|;
    var first := Attempt(History([], z), window, window, limit);
    assert first == History(z, [window]) by { assert [] + z[..|z|] == z; assert z[|z|..] + [window] == [window]; }
    assert Expired([window], window - behind, window) == 0;
    assert [window][0..] == [window];
  }

  // ----- the table of keys -----

  /** A source and its queue of accepted registrations. */
  datatype Slot = Slot(key: string, times: seq<Time>)

  function KeyOf(ip: string): string { if ip == "" then "unknown" else ip }

  function Find(table: seq<Slot>, key: string): (i: nat)
    ensures i <= |table|
    ensures i < |table| ==> table[i].key == key
    ensures forall j :: 0 <= j < i ==> table[j].key != key
  {
    if table == [] || table[0].key == key then 0 else 1 + Find(table[1..], key)
  }

  ghost predicate Keys(table: seq<Slot>) { forall i, j :: 0 <= i < j < |table| ==> table[i].key != table[j].key }

  /** Each queue is what its key's clock reads since it entered the table leave behind. */
  ghost predicate Queues(table: seq<Slot>, calls: map<string, seq<Time>>, window: nat, limit: nat) {
    forall s :: s in table ==> s.key in calls && s.times == After(calls[s.key], window, limit).times
  }

  function Without(table: seq<Slot>, key: string): seq<Slot> {
    var at := Find(table, key);
    if at < |table| then table[..at] + table[at + 1..] else table
  }

  function TimesOf(table: seq<Slot>, key: string): seq<Time> {
    var at := Find(table, key);
    if at < |table| then table[at].times else []
  }

  /** The clock reads of a key since it entered the table. */
  ghost function ReadsOf(table: seq<Slot>, calls: map<string, seq<Time>>, key: string): seq<Time> {
    if Find(table, key) < |table| && key in calls then calls[key] else []
  }

  /** Taking out one element leaves the others in order. */
  lemma Removed(table: seq<Slot>, at: nat)
    requires at < |table|
    ensures var rest := table[..at] + table[at + 1..];
      && |rest| == |table| - 1
      && (forall i :: 0 <= i < at ==> rest[i] == table[i])
      && (forall i :: at < i < |table| ==> rest[i - 1] == table[i])
      && (forall i :: at <= i < |rest| ==> rest[i] == table[i + 1])
  {
  }

  lemma KeysRemoved(table: seq<Slot>, at: nat, rest: seq<Slot>)
    requires Keys(table) && at < |table| && |rest| == |table| - 1
    requires forall i :: 0 <= i < at ==> rest[i] == table[i]
    requires forall i :: at <= i < |rest| ==> rest[i] == table[i + 1]
    ensures Keys(rest)
  {
    forall i, j | 0 <= i < j < |rest| ensures rest[i].key != rest[j].key {
      var p, q := if i < at then i else i + 1, if j < at then j else j + 1;
      assert table[p].key != table[q].key;
    }
  }

  lemma WithoutKeys(table: seq<Slot>, key: string)
    requires Keys(table)
    ensures Keys(Without(table, key)) && |Without(table, key)| == (if Find(table, key) < |table| then |table| - 1 else |table|)
    ensures forall s :: s in Without(table, key) ==> s in table && s.key != key
  {
    var at := Find(table, key);
    var rest := Without(table, key);
    if at < |table| {
      Removed(table, at);
      KeysRemoved(table, at, rest);
      forall s | s in rest ensures s in table && s.key != key {
        var i :| 0 <= i < |rest| && rest[i] == s;
        OtherSlot(table, at, if i < at then i else i + 1);
      }
    }
  }

  lemma OtherSlot(table: seq<Slot>, at: nat, i: nat)
    requires Keys(table) && at < |table| && i < |table| && i != at
    ensures table[i] in table && table[i].key != table[at].key
  {
    if i < at { assert table[i].key != table[at].key; } else { assert table[at].key != table[i].key; }
  }

  /** The table after a call: the key's slot moved to the end, and the first slot gone if there is one too many. */
  function Moved(table: seq<Slot>, slot: Slot): seq<Slot> {
    var all := Without(table, slot.key) + [slot];
    if |all| > MAX_KEYS then all[1..] else all
  }

  lemma MovedQueues(table: seq<Slot>, calls: map<string, seq<Time>>, slot: Slot, now: Time, window: nat, limit: nat)
    requires Keys(table) && Queues(table, calls, window, limit) && |table| <= MAX_KEYS && limit > 0
    requires slot.times == Attempt(History([], TimesOf(table, slot.key)), now, window, limit).times
    ensures var mine := ReadsOf(table, calls, slot.key) + [now];
      && Keys(Moved(table, slot)) && |Moved(table, slot)| <= MAX_KEYS
      && Queues(Moved(table, slot), calls[slot.key := mine], window, limit)
  {
    hide Keys, Attempt, After, Find;
    WithoutKeys(table, slot.key);
    var mine := ReadsOf(table, calls, slot.key) + [now];
    assert Keys(Moved(table, slot)) by { KeysMoved(Without(table, slot.key), slot); }
    assert slot.times == After(mine, window, limit).times by { SlotQueue(table, calls, slot, now, window, limit); }
    forall s | s in Moved(table, slot)
      ensures s.key in calls[slot.key := mine] && s.times == After(calls[slot.key := mine][s.key], window, limit).times
    {
      assert s == slot || s in Without(table, slot.key);
    }
  }

  lemma KeysMoved(others: seq<Slot>, slot: Slot)
    requires Keys(others) && forall s :: s in others ==> s.key != slot.key
    ensures Keys(others + [slot]) && Keys((others + [slot])[1..])
  {
    var all := others + [slot];
    forall i, j | 0 <= i < j < |all| ensures all[i].key != all[j].key {
      if j == |others| { assert others[i] in others; }
    }
  }

  lemma SlotQueue(table: seq<Slot>, calls: map<string, seq<Time>>, slot: Slot, now: Time, window: nat, limit: nat)
    requires Queues(table, calls, window, limit)
    requires slot.times == Attempt(History([], TimesOf(table, slot.key)), now, window, limit).times
    ensures slot.times == After(ReadsOf(table, calls, slot.key) + [now], window, limit).times
  {
    hide Recent;
    var mine := ReadsOf(table, calls, slot.key);
    var at := Find(table, slot.key);
    assert at < |table| ==> table[at] in table;
    assert TimesOf(table, slot.key) == After(mine, window, limit).times;
    assert (mine + [now])[..|mine|] == mine;
  }

  /** 10000 keys are there, the call is for none of them, and this slot is the least recently used. */
  ghost predicate Evicted(table: seq<Slot>, key: string, slot: Slot) {
    |table| == 10000 && slot == table[0] && forall s :: s in table ==> s.key != key
  }

  /** Every other key keeps its queue, but for the least recently used one when 10000 keys are there and a new one comes; and no
      other queue appears. */
  lemma MovedKeeps(table: seq<Slot>, slot: Slot, other: Slot)
    requires Keys(table) && |table| <= 10000 && other.key != slot.key
    ensures other in table ==> other in Moved(table, slot) || Evicted(table, slot.key, other)
    ensures other in Moved(table, slot) ==> other in table
  {
    hide Keys, Without;
    WithoutKeys(table, slot.key);
    var rest := Without(table, slot.key);
    assert forall s :: s in Moved(table, slot) ==> s == slot || s in rest;
    if other in table {
      WithoutKeepsOthers(table, slot.key, other);
      var i: nat :| i < |rest| && rest[i] == other;
      if |rest + [slot]| > MAX_KEYS {
        WithoutNone(table, slot.key);
        if i > 0 { assert (rest + [slot])[1..][i - 1] == other; }
      } else {
        assert (rest + [slot])[i] == other;
      }
    }
  }

  lemma WithoutKeepsOthers(table: seq<Slot>, key: string, other: Slot)
    requires other.key != key && other in table
    ensures other in Without(table, key)
  {
    var at := Find(table, key);
    if at < |table| {
      var i :| 0 <= i < |table| && table[i] == other;
      assert Without(table, key)[if i < at then i else i - 1] == other;
    }
  }

  lemma WithoutNone(table: seq<Slot>, key: string)
    requires |Without(table, key)| == |table|
    ensures Without(table, key) == table && forall s :: s in table ==> s.key != key
  {
  }

  class Limiter {
    const limit: nat
    const window: nat
    var table: seq<Slot>             // least recently used first
    ghost var calls: map<string, seq<Time>>

    ghost predicate Valid()
      reads this
    {
      && limit > 0 && |table| <= MAX_KEYS && Keys(table)
      && Queues(table, calls, window, limit)
    }

    constructor (limit: nat, window: nat)
      requires limit > 0
      ensures Valid() && table == [] && this.limit == limit && this.window == window
    {
      this.limit, this.window, table, calls := limit, window, [], map[];
    }

    /** One attempt: refused, and not counted, when the key's queue holds `limit` registrations of the window. The key moves to the
        end of the table, where no eviction can reach it. */
    method Limited(ip: string, now: Time) returns (refused: bool)
      requires Valid()
      modifies this
      ensures Valid()
      ensures refused <==> !Accepts(ReadsOf(old(table), old(calls), KeyOf(ip)), now, window, limit)
      ensures table != [] && table[|table| - 1].key == if ip == "" then "unknown" else ip
      ensures forall other: Slot :: other.key != (if ip == "" then "unknown" else ip) ==>
        && (other in table ==> other in old(table))
        && (other in old(table) ==> other in table || Evicted(old(table), if ip == "" then "unknown" else ip, other))
      ensures table == Moved(old(table), table[|table| - 1])
      ensures calls == old(calls)[KeyOf(ip) := ReadsOf(old(table), old(calls), KeyOf(ip)) + [now]]
    {
      hide Keys, Queues, After, Find, Accepts, Without;
      var key := KeyOf(ip);
      var times := TimesOf(table, key);
      var recent := PruneFront(times, now, window);
      refused := |recent| >= limit;
      var slot := Slot(key, if refused then recent else recent + [now]);
      MovedQueues(table, calls, slot, now, window, limit);
      forall other: Slot | other.key != key
        ensures other in Moved(table, slot) ==> other in table
        ensures other in table ==> other in Moved(table, slot) || Evicted(table, key, other)
      {
        MovedKeeps(table, slot, other);
      }
      RefusedWhen(table, calls, key, now, window, limit);
      calls := calls[key := ReadsOf(table, calls, key) + [now]];
      var all := Without(table, key) + [slot];
      SizeWithout(table, key);
      if !refused {
        ghost var whole := all;
        while |all| > MAX_KEYS
          invariant all == whole || (|whole| > MAX_KEYS && all == whole[1..])
          invariant |whole| <= MAX_KEYS + 1
        {
          all := all[1..];
        }
      } else {
        RefusedKnown(table, key, now, window, limit);
      }
      table := all;
    }
  }

  /** Drops the expired times one by one. */
  method PruneFront(times: seq<Time>, now: Time, window: nat) returns (recent: seq<Time>)
    ensures recent == Recent(times, now, window)
  {
    recent := times;
    ghost var n := 0;
    while recent != [] && now - recent[0] >= window
      invariant 0 <= n <= |times| && recent == times[n..]
      invariant n <= Expired(times, now, window)
      decreases |recent|
    {
      assert recent[0] == times[n];
      recent, n := recent[1..], n + 1;
    }
  }

  lemma SizeWithout(table: seq<Slot>, key: string)
    ensures |Without(table, key)| == (if Find(table, key) < |table| then |table| - 1 else |table|)
  {
  }

  lemma RefusedWhen(table: seq<Slot>, calls: map<string, seq<Time>>, key: string, now: Time, window: nat, limit: nat)
    requires Queues(table, calls, window, limit)
    ensures Accepts(ReadsOf(table, calls, key), now, window, limit) <==> |Recent(TimesOf(table, key), now, window)| < limit
  {
    hide Recent;
    var at := Find(table, key);
    assert at < |table| ==> table[at] in table;
  }

  /** A refused key already had a slot, so the table did not grow. */
  lemma RefusedKnown(table: seq<Slot>, key: string, now: Time, window: nat, limit: nat)
    requires limit > 0 && |Recent(TimesOf(table, key), now, window)| >= limit
    ensures Find(table, key) < |table|
  {
  }
}
