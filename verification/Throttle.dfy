// Fixed-window throttling (src/throttle.rs).
//
// A call counts itself in one counter per check: the counter's name holds the end of the window the
// clock reading falls into, so each window has its own. INCR and EXPIRE are separate commands, and many
// callers interleave.

module Throttle {
  import Arith
  import opened Options

  // The hash that turns a window's end and a name into a Redis key is taken to be free of collisions.
  datatype Key = Key(bucket: nat, name: string)

  datatype Cell = Cell(value: int, deadline: Option<int>)

  type Store = map<Key, Cell>

  const LAST_SAFE_WINDOW := 35791394

  function Seconds(window: int): int {
    60 * window
  }

  // round_up_to_minutes
  function RoundUp(timestamp: nat, window: int): nat
    requires window > 0
  {
    var w := Seconds(window);
    var q := (timestamp + w - 1) / w;
    QuotientTimes(timestamp, w);
    q * w
  }

  lemma QuotientTimes(timestamp: nat, w: int)
    requires w > 0
    ensures var up := ((timestamp + w - 1) / w) * w;
      timestamp <= up < timestamp + w
  {
    Arith.Split(timestamp + w - 1, w);
  }

  // The least multiple of the window at or above the timestamp.
  lemma RoundUpIsLeast(timestamp: nat, window: int, m: int)
    requires window > 0
    ensures timestamp <= RoundUp(timestamp, window) < timestamp + Seconds(window)
    ensures RoundUp(timestamp, window) % Seconds(window) == 0
    ensures timestamp <= m && m % Seconds(window) == 0 ==> RoundUp(timestamp, window) <= m
  {
    var w := Seconds(window);
    var q := (timestamp + w - 1) / w;
    QuotientTimes(timestamp, w);
    Arith.Unique(q * w, q, 0, w);
    if timestamp <= m && m % w == 0 && m < q * w {
      Arith.Split(m, w);
      if m / w >= q {
        Arith.Monotone(q, m / w, w);
      } else {
        Arith.Monotone(m / w, q - 1, w);
        Arith.Distribute(q, 1, w);
      }
    }
  }

  // The product window * 60 is computed in 32 bits and handed to EXPIRE as a signed number.
  function ExpireSeconds(window: int): int {
    var low := Seconds(window) % 0x1_0000_0000;
    if low < 0x8000_0000 then low else low - 0x1_0000_0000
  }

  // A counter created at any moment of a window outlives that window exactly for windows whose length in
  // seconds fits 32 bits; for longer ones it can vanish, and start again, inside its own window.
  lemma CounterOutlivesWindowIff(window: int)
    requires 0 < window < 0x8000_0000
    ensures (forall t: nat :: RoundUp(t, window) < t + ExpireSeconds(window)) <==> window <= LAST_SAFE_WINDOW
  {
    if window <= LAST_SAFE_WINDOW {
      forall t: nat
        ensures RoundUp(t, window) < t + ExpireSeconds(window)
      {
        RoundUpIsLeast(t, window, 0);
      }
    } else {
      RoundUpIsLeast(1, window, Seconds(window));
      var w := Seconds(window);
      assert RoundUp(1, window) == w by {
        assert (1 + w - 1) / w == 1;
      }
      assert ExpireSeconds(window) <= w - 0x1_0000_0000;
      assert !(RoundUp(1, window) < 1 + ExpireSeconds(window));
    }
  }

  // ---------------------------------------------------------------- the two commands

  predicate Live(store: Store, key: Key, now: int) {
    key in store && (store[key].deadline.Some? ==> now < store[key].deadline.value)
  }

  // INCR: an absent or expired counter starts again at 1, without a deadline.
  function Incr(store: Store, key: Key, now: int): (Store, int) {
    if Live(store, key, now) then (store[key := store[key].(value := store[key].value + 1)], store[key].value + 1)
    else (store[key := Cell(1, None)], 1)
  }

  function Expire(store: Store, key: Key, now: int, seconds: int): Store {
    if Live(store, key, now) then store[key := store[key].(deadline := Some(now + seconds))] else store
  }

  // ---------------------------------------------------------------- interleaved callers

  datatype Check = Check(name: string, window: int, limit: int)

  // A caller is about to send INCR for its current check, or has seen the count 1 and is about to send
  // EXPIRE, or is done. Failed covers crashes and errors at any point.
  datatype Phase = Counting | Expiring | Admitted | Denied | Failed

  datatype Call = Call(clock: nat, checks: seq<Check>, current: nat, phase: Phase)

  // One INCR that was executed.
  datatype Entry = Entry(caller: nat, check: nat, key: Key, at: nat, count: int, limit: int, window: int)

  datatype State = State(now: nat, store: Store, calls: seq<Call>, log: seq<Entry>)

  datatype Action =
    | Advance(seconds: nat)
    | Begin(checks: seq<Check>)
    | SendIncr(c: nat)
    | SendExpire(c: nat)
    | Fail(c: nat)

  const INITIAL := State(0, map[], [], [])

  // Windows are positive 32-bit numbers of minutes.
  predicate ValidChecks(checks: seq<Check>) {
    forall k :: 0 <= k < |checks| ==> 0 < checks[k].window < 0x8000_0000
  }

  predicate SafeChecks(checks: seq<Check>) {
    forall k :: 0 <= k < |checks| ==> checks[k].window <= LAST_SAFE_WINDOW
  }

  function KeyOf(call: Call, k: nat): Key
    requires k < |call.checks| && ValidChecks(call.checks)
  {
    Key(RoundUp(call.clock, call.checks[k].window), call.checks[k].name)
  }

  function Next(call: Call, count: int): Call
    requires call.current < |call.checks|
  {
    if count > call.checks[call.current].limit then call.(phase := Denied)
    else if call.current + 1 == |call.checks| then call.(current := call.current + 1, phase := Admitted)
    else call.(current := call.current + 1, phase := Counting)
  }

  predicate Busy(s: State, c: nat, phase: Phase) {
    && c < |s.calls| && s.calls[c].phase == phase
    && s.calls[c].current < |s.calls[c].checks| && ValidChecks(s.calls[c].checks)
  }

  function Step(s: State, a: Action): Option<State> {
    match a
    case Advance(seconds) => Some(s.(now := s.now + seconds))
    case Begin(checks) =>
      if !ValidChecks(checks) then None
      else Some(s.(calls := s.calls + [Call(s.now, checks, 0, if checks == [] then Admitted else Counting)]))
    case SendIncr(c) =>
      if !Busy(s, c, Counting) then None
      else
        var call := s.calls[c];
        var key := KeyOf(call, call.current);
        var (store, count) := Incr(s.store, key, s.now);
        Some(s.(store := store,
                calls := s.calls[c := if count == 1 then call.(phase := Expiring) else Next(call, count)],
                log := s.log + [Entry(c, call.current, key, s.now, count, call.checks[call.current].limit,
                                    call.checks[call.current].window)]))
    case SendExpire(c) =>
      if !Busy(s, c, Expiring) then None
      else
        var call := s.calls[c];
        var seconds := ExpireSeconds(call.checks[call.current].window);
        Some(s.(store := Expire(s.store, KeyOf(call, call.current), s.now, seconds),
                calls := s.calls[c := Next(call, 1)]))
    case Fail(c) =>
      if c >= |s.calls| || s.calls[c].phase !in {Counting, Expiring} then None
      else Some(s.(calls := s.calls[c := s.calls[c].(phase := Failed)]))
  }

  ghost predicate IsRun(tr: seq<State>, acts: seq<Action>) {
    && |tr| == |acts| + 1
    && tr[0] == INITIAL
    && forall k :: 0 <= k < |acts| ==> Step(tr[k], acts[k]) == Some(tr[k + 1])
  }

  // ---------------------------------------------------------------- counting in the log

  predicate Passed(e: Entry) {
    e.count <= e.limit
  }

  function Passes(log: seq<Entry>, key: Key): nat {
    if log == [] then 0
    else
      var e := log[|log| - 1];
      Passes(log[..|log| - 1], key) + (if e.key == key && Passed(e) then 1 else 0)
  }

  // How often the counter started from nothing.
  function Creations(log: seq<Entry>, key: Key): nat {
    if log == [] then 0
    else
      var e := log[|log| - 1];
      Creations(log[..|log| - 1], key) + (if e.key == key && e.count == 1 then 1 else 0)
  }

  // The last count returned for the key; 0 if there was none.
  function LastCount(log: seq<Entry>, key: Key): int {
    if log == [] then 0
    else if log[|log| - 1].key == key then log[|log| - 1].count
    else LastCount(log[..|log| - 1], key)
  }

  // Every count is 1 or one more than the last.
  predicate Consecutive(log: seq<Entry>) {
    log != [] ==>
      var e := log[|log| - 1];
      Consecutive(log[..|log| - 1])
      && (e.count == 1 || (LastCount(log[..|log| - 1], e.key) > 0 && e.count == LastCount(log[..|log| - 1], e.key) + 1))
  }

  predicate LimitedBy(log: seq<Entry>, key: Key, limit: nat) {
    forall e :: e in log && e.key == key ==> e.limit <= limit
  }

  function Min(a: int, b: int): int {
    if a < b then a else b
  }

  // Each life of the counter lets at most limit calls pass.
  lemma {:induction false} PassesPerCreation(log: seq<Entry>, key: Key, limit: nat)
    requires Consecutive(log) && LimitedBy(log, key, limit)
    ensures LastCount(log, key) >= 0
    ensures Creations(log, key) == 0 ==> Passes(log, key) == 0 && LastCount(log, key) == 0
    ensures Creations(log, key) > 0 ==>
      Passes(log, key) <= limit * (Creations(log, key) - 1) + Min(LastCount(log, key), limit)
  {
    if log != [] {
      var before, e := log[..|log| - 1], log[|log| - 1];
      PassesPerCreation(before, key, limit);
      if e.key == key {
        assert e in log;
        Scaled(limit, Creations(before, key));
      }
    }
  }

  lemma Scaled(limit: nat, n: nat)
    ensures limit * n == limit * (n - 1) + limit
  {
  }

  // ---------------------------------------------------------------- every run

  // A live counter holds the last count returned for it.
  predicate Follows(store: Store, log: seq<Entry>, now: int, key: Key) {
    Live(store, key, now) ==> store[key].value == LastCount(log, key) && LastCount(log, key) > 0
  }

  ghost predicate InStep(s: State) {
    Consecutive(s.log) && forall key :: Follows(s.store, s.log, s.now, key)
  }

  lemma IncrFollows(store: Store, log: seq<Entry>, now: int, e: Entry, key: Key)
    requires Follows(store, log, now, e.key) && Follows(store, log, now, key) && e.count == Incr(store, e.key, now).1
    ensures Follows(Incr(store, e.key, now).0, log + [e], now, key)
    ensures e.count == 1 || (LastCount(log, e.key) > 0 && e.count == LastCount(log, e.key) + 1)
  {
    assert (log + [e])[..|log|] == log;
  }

  lemma IncrKeepsInStep(s: State, c: nat, s': State)
    requires InStep(s) && Step(s, SendIncr(c)) == Some(s')
    ensures InStep(s')
  {
    var e := s'.log[|s.log|];
    assert s'.log == s.log + [e] && s'.log[..|s.log|] == s.log;
    assert Follows(s.store, s.log, s.now, e.key);
    IncrFollows(s.store, s.log, s.now, e, e.key);
    forall key
      ensures Follows(s'.store, s'.log, s'.now, key)
    {
      assert Follows(s.store, s.log, s.now, key);
      IncrFollows(s.store, s.log, s.now, e, key);
    }
  }

  lemma InStepIsKept(s: State, a: Action, s': State)
    requires InStep(s) && Step(s, a) == Some(s')
    ensures InStep(s')
  {
    if a.SendIncr? {
      IncrKeepsInStep(s, a.c, s');
    } else {
      forall key
        ensures Follows(s'.store, s'.log, s'.now, key)
      {
        assert Follows(s.store, s.log, s.now, key);
      }
    }
  }

  lemma {:induction false} InStepAlongRun(tr: seq<State>, acts: seq<Action>, n: nat)
    requires IsRun(tr, acts) && n < |tr|
    ensures InStep(tr[n])
  {
    if n > 0 {
      InStepAlongRun(tr, acts, n - 1);
      InStepIsKept(tr[n - 1], acts[n - 1], tr[n]);
    }
  }

  // In any run, with any crashes and delays, at most limit calls pass per life of a counter.
  lemma PassesBoundedByCreations(tr: seq<State>, acts: seq<Action>, n: nat, key: Key, limit: nat)
    requires IsRun(tr, acts) && n < |tr| && LimitedBy(tr[n].log, key, limit)
    ensures Passes(tr[n].log, key) <= limit * Creations(tr[n].log, key)
  {
    InStepAlongRun(tr, acts, n);
    PassesPerCreation(tr[n].log, key, limit);
    Scaled(limit, Creations(tr[n].log, key));
  }

  // ---------------------------------------------------------------- exactly when the limit is kept

  function Attempts(log: seq<Entry>, key: Key): nat {
    if log == [] then 0
    else Attempts(log[..|log| - 1], key) + (if log[|log| - 1].key == key then 1 else 0)
  }

  predicate AllLimited(log: seq<Entry>, key: Key, limit: int) {
    forall e :: e in log && e.key == key ==> e.limit == limit
  }

  // How many calls pass in one life of a counter, in the first of several, and after a second one has begun.
  lemma {:induction false} PassesByLives(log: seq<Entry>, key: Key, limit: int)
    requires Consecutive(log) && AllLimited(log, key, limit) && 1 <= limit
    ensures Passes(log, key) <= Attempts(log, key)
    ensures Creations(log, key) == 0 ==> Attempts(log, key) == 0 && LastCount(log, key) == 0
    ensures Creations(log, key) > 0 ==> Passes(log, key) > 0 && LastCount(log, key) > 0
    ensures Creations(log, key) == 1 ==>
      LastCount(log, key) == Attempts(log, key) && Passes(log, key) == Min(Attempts(log, key), limit)
    ensures Creations(log, key) > 1 ==>
      Passes(log, key) >= Min(Attempts(log, key), limit + 1) && Passes(log, key) > Min(LastCount(log, key), limit)
  {
    if log != [] {
      var before, e := log[..|log| - 1], log[|log| - 1];
      PassesByLives(before, key, limit);
      if e.key == key {
        assert e in log;
      }
    }
  }

  // The INCR finds the counter gone that an earlier call has counted in.
  predicate Recreates(s: State, a: Action, key: Key) {
    && a.SendIncr? && Busy(s, a.c, Counting) && KeyOf(s.calls[a.c], s.calls[a.c].current) == key
    && !Live(s.store, key, s.now) && Attempts(s.log, key) > 0
  }

  ghost predicate NeverRecreated(tr: seq<State>, acts: seq<Action>, n: nat, key: Key)
    requires n <= |acts| && |tr| == |acts| + 1
  {
    forall k :: 0 <= k < n ==> !Recreates(tr[k], acts[k], key)
  }

  lemma {:induction false} NoneBeforeFirst(log: seq<Entry>, key: Key)
    requires Consecutive(log)
    ensures Attempts(log, key) == 0 <==> Creations(log, key) == 0
    ensures Attempts(log, key) == 0 <==> LastCount(log, key) == 0
    ensures LastCount(log, key) >= 0
  {
    if log != [] {
      NoneBeforeFirst(log[..|log| - 1], key);
    }
  }

  lemma StepCreates(s: State, a: Action, s': State, key: Key)
    requires InStep(s) && Step(s, a) == Some(s')
    ensures Recreates(s, a, key) ==> Creations(s'.log, key) == Creations(s.log, key) + 1 && Creations(s.log, key) > 0
    ensures !Recreates(s, a, key) ==> Creations(s'.log, key) == Creations(s.log, key) || Creations(s'.log, key) == 1
    ensures Creations(s.log, key) <= Creations(s'.log, key)
  {
    NoneBeforeFirst(s.log, key);
    assert Follows(s.store, s.log, s.now, key);
    if a.SendIncr? {
      assert s'.log[..|s.log|] == s.log;
    }
  }

  lemma {:induction false} CreatedOnceIff(tr: seq<State>, acts: seq<Action>, n: nat, key: Key)
    requires IsRun(tr, acts) && n < |tr|
    ensures Creations(tr[n].log, key) <= 1 <==> NeverRecreated(tr, acts, n, key)
  {
    if n > 0 {
      CreatedOnceIff(tr, acts, n - 1, key);
      InStepAlongRun(tr, acts, n - 1);
      StepCreates(tr[n - 1], acts[n - 1], tr[n], key);
    }
  }

  // In any run, with any windows, delays and crashes: no more than limit calls pass on a counter exactly when
  // no INCR finds it gone after it was created, or no more than limit calls counted in it at all.
  lemma KeptOnKeyIff(tr: seq<State>, acts: seq<Action>, n: nat, key: Key, limit: int)
    requires IsRun(tr, acts) && n < |tr| && AllLimited(tr[n].log, key, limit) && 1 <= limit
    ensures Passes(tr[n].log, key) <= limit
       <==> NeverRecreated(tr, acts, n, key) || Attempts(tr[n].log, key) <= limit
  {
    InStepAlongRun(tr, acts, n);
    PassesByLives(tr[n].log, key, limit);
    CreatedOnceIff(tr, acts, n, key);
  }

  // On a counter that is never created twice, neither more nor fewer pass than the limit allows.
  lemma ExactlyLimitPasses(tr: seq<State>, acts: seq<Action>, n: nat, key: Key, limit: int)
    requires IsRun(tr, acts) && n < |tr| && AllLimited(tr[n].log, key, limit) && 1 <= limit
    requires NeverRecreated(tr, acts, n, key)
    ensures Passes(tr[n].log, key) == Min(Attempts(tr[n].log, key), limit)
  {
    InStepAlongRun(tr, acts, n);
    PassesByLives(tr[n].log, key, limit);
    CreatedOnceIff(tr, acts, n, key);
    NoneBeforeFirst(tr[n].log, key);
  }

  // ---------------------------------------------------------------- runs whose INCRs land in their window

  // An INCR is executed before the window named by the caller's clock reading ends.
  ghost predicate OnTime(s: State, a: Action) {
    a.SendIncr? && Busy(s, a.c, Counting) ==> s.now <= KeyOf(s.calls[a.c], s.calls[a.c].current).bucket
  }

  // And no window is so long that its counter can vanish early (CounterOutlivesWindowIff).
  ghost predicate Landed(s: State, a: Action) {
    OnTime(s, a) && (a.Begin? ==> SafeChecks(a.checks))
  }

  ghost predicate LandedRun(tr: seq<State>, acts: seq<Action>, n: nat)
    requires n <= |acts| && |tr| == |acts| + 1
  {
    forall k :: 0 <= k < n ==> Landed(tr[k], acts[k])
  }

  // Inside its window a counter that exists does not expire.
  ghost predicate Lasting(s: State, key: Key) {
    Creations(s.log, key) <= 1
    && (Creations(s.log, key) > 0 && s.now <= key.bucket ==>
          Live(s.store, key, s.now) && (s.store[key].deadline.Some? ==> key.bucket < s.store[key].deadline.value))
  }

  ghost predicate InWindow(s: State) {
    && InStep(s)
    && (forall key :: Lasting(s, key))
    && (forall call :: call in s.calls ==> ValidChecks(call.checks) && SafeChecks(call.checks) && call.clock <= s.now)
    && (forall e :: e in s.log ==> 0 < e.window <= LAST_SAFE_WINDOW && e.key.bucket == RoundUp(e.at, e.window))
  }

  // Between a clock reading and the end of its window, every reading falls into the same window.
  lemma SameWindow(clock: nat, now: nat, window: int)
    requires 0 < window && clock <= now <= RoundUp(clock, window)
    ensures RoundUp(now, window) == RoundUp(clock, window)
  {
    RoundUpIsLeast(clock, window, RoundUp(now, window));
    RoundUpIsLeast(now, window, RoundUp(clock, window));
  }

  lemma IncrKeepsWindow(s: State, c: nat, s': State)
    requires InWindow(s) && Landed(s, SendIncr(c)) && Step(s, SendIncr(c)) == Some(s')
    ensures InWindow(s')
  {
    InStepIsKept(s, SendIncr(c), s');
    var call := s.calls[c];
    var e := s'.log[|s.log|];
    assert call in s.calls && s'.log == s.log + [e];
    SameWindow(call.clock, s.now, call.checks[call.current].window);
    assert Lasting(s, e.key) && Follows(s.store, s.log, s.now, e.key);
    forall other
      ensures Lasting(s', other)
    {
      assert Lasting(s, other);
      IncrKeepsLasting(s, e, s', other);
    }
  }

  lemma IncrKeepsLasting(s: State, e: Entry, s': State, other: Key)
    requires Lasting(s, e.key) && Lasting(s, other) && Follows(s.store, s.log, s.now, e.key)
    requires s'.now == s.now <= e.key.bucket && s'.log == s.log + [e]
    requires (s'.store, e.count) == Incr(s.store, e.key, s.now)
    ensures Lasting(s', other)
  {
    assert s'.log[..|s.log|] == s.log;
  }

  lemma ExpireKeepsLasting(s: State, key: Key, window: int, other: Key)
    requires Lasting(s, other) && 0 < window <= LAST_SAFE_WINDOW && key.bucket < s.now + Seconds(window)
    ensures Lasting(s.(store := Expire(s.store, key, s.now, ExpireSeconds(window))), other)
  {
  }

  lemma ExpireKeepsWindow(s: State, c: nat, s': State)
    requires InWindow(s) && Step(s, SendExpire(c)) == Some(s')
    ensures InWindow(s')
  {
    InStepIsKept(s, SendExpire(c), s');
    var call := s.calls[c];
    var window := call.checks[call.current].window;
    assert call in s.calls;
    RoundUpIsLeast(call.clock, window, 0);
    var key := KeyOf(call, call.current);
    forall other
      ensures Lasting(s', other)
    {
      assert Lasting(s, other);
      ExpireKeepsLasting(s, key, window, other);
      SameCounters(s.(store := s'.store), s', other);
    }
  }

  lemma SameCounters(s: State, s': State, key: Key)
    requires s.store == s'.store && s.now == s'.now && s.log == s'.log && Lasting(s, key)
    ensures Lasting(s', key)
  {
  }

  lemma InWindowIsKept(s: State, a: Action, s': State)
    requires InWindow(s) && Landed(s, a) && Step(s, a) == Some(s')
    ensures InWindow(s')
  {
    match a
    case SendIncr(c) => IncrKeepsWindow(s, c, s');
    case SendExpire(c) => ExpireKeepsWindow(s, c, s');
    case _ =>
      InStepIsKept(s, a, s');
      forall key
        ensures Lasting(s', key)
      {
        assert Lasting(s, key);
      }
  }

  lemma {:induction false} InWindowAlongRun(tr: seq<State>, acts: seq<Action>, n: nat)
    requires IsRun(tr, acts) && n < |tr| && LandedRun(tr, acts, n)
    ensures InWindow(tr[n])
  {
    if n > 0 {
      InWindowAlongRun(tr, acts, n - 1);
      InWindowIsKept(tr[n - 1], acts[n - 1], tr[n]);
    }
  }

  // At most limit calls pass a check on one counter, that is, on one name in one window.
  lemma AtMostLimitPerWindow(tr: seq<State>, acts: seq<Action>, n: nat, key: Key, limit: nat)
    requires IsRun(tr, acts) && n < |tr| && LandedRun(tr, acts, n) && LimitedBy(tr[n].log, key, limit)
    ensures Passes(tr[n].log, key) <= limit
  {
    InWindowAlongRun(tr, acts, n);
    assert Lasting(tr[n], key);
    PassesPerCreation(tr[n].log, key, limit);
  }

  // ---------------------------------------------------------------- admitted calls

  // The log shows that caller c passed its check number k on this key.
  ghost predicate Vouched(log: seq<Entry>, c: nat, k: nat, key: Key) {
    exists e :: e in log && e.caller == c && e.check == k && e.key == key && Passed(e)
  }

  ghost predicate FirstSeen(log: seq<Entry>, c: nat, k: nat, key: Key, limit: int) {
    exists e :: e in log && e.caller == c && e.check == k && e.key == key && e.count == 1 && e.limit == limit
  }

  ghost predicate Justified(s: State, c: nat)
    requires c < |s.calls|
  {
    var call := s.calls[c];
    && ValidChecks(call.checks) && call.current <= |call.checks|
    && (forall k :: 0 <= k < call.current ==> Vouched(s.log, c, k, KeyOf(call, k)))
    && (call.phase.Expiring? ==>
          && call.current < |call.checks|
          && FirstSeen(s.log, c, call.current, KeyOf(call, call.current), call.checks[call.current].limit))
    && (call.phase.Admitted? ==> call.current == |call.checks|)
  }

  ghost predicate AllJustified(s: State) {
    forall c :: 0 <= c < |s.calls| ==> Justified(s, c)
  }

  lemma LongerLogVouches(log: seq<Entry>, e: Entry, c: nat, k: nat, key: Key, limit: int)
    ensures Vouched(log, c, k, key) ==> Vouched(log + [e], c, k, key)
    ensures FirstSeen(log, c, k, key, limit) ==> FirstSeen(log + [e], c, k, key, limit)
  {
    if Vouched(log, c, k, key) {
      var v :| v in log && v.caller == c && v.check == k && v.key == key && Passed(v);
      assert v in log + [e];
    }
    if FirstSeen(log, c, k, key, limit) {
      var v :| v in log && v.caller == c && v.check == k && v.key == key && v.count == 1 && v.limit == limit;
      assert v in log + [e];
    }
  }

  lemma JustifiedIsKept(s: State, a: Action, s': State)
    requires AllJustified(s) && Step(s, a) == Some(s')
    ensures AllJustified(s')
  {
    forall c | 0 <= c < |s'.calls|
      ensures Justified(s', c)
    {
      if c < |s.calls| {
        assert Justified(s, c);
        CallStaysJustified(s, a, s', c);
      }
    }
  }

  lemma CallStaysJustified(s: State, a: Action, s': State, c: nat)
    requires Step(s, a) == Some(s') && c < |s.calls| && Justified(s, c)
    ensures Justified(s', c)
  {
    var call, call' := s.calls[c], s'.calls[c];
    assert call'.checks == call.checks && call'.clock == call.clock;
    if a.SendIncr? {
      var e := s'.log[|s.log|];
      assert s'.log == s.log + [e] && e in s'.log;
      forall k | 0 <= k < call'.current
        ensures Vouched(s'.log, c, k, KeyOf(call', k))
      {
        if k < call.current {
          LongerLogVouches(s.log, e, c, k, KeyOf(call, k), 0);
        }
      }
      if call.phase.Expiring? {
        LongerLogVouches(s.log, e, c, call.current, KeyOf(call, call.current), call.checks[call.current].limit);
      }
    } else {
      assert s'.log == s.log;
      forall k | 0 <= k < call'.current
        ensures Vouched(s'.log, c, k, KeyOf(call', k))
      {
        if k < call.current {
          assert Vouched(s.log, c, k, KeyOf(call, k));
        }
      }
    }
  }

  lemma {:induction false} JustifiedAlongRun(tr: seq<State>, acts: seq<Action>, n: nat)
    requires IsRun(tr, acts) && n < |tr|
    ensures AllJustified(tr[n])
  {
    if n > 0 {
      JustifiedAlongRun(tr, acts, n - 1);
      JustifiedIsKept(tr[n - 1], acts[n - 1], tr[n]);
    }
  }

  // Every executed INCR belongs to a check that its caller has reached.
  ghost predicate OnlyReached(s: State) {
    forall e :: e in s.log ==> e.caller < |s.calls| && e.check <= s.calls[e.caller].current
  }

  lemma OnlyReachedIsKept(s: State, a: Action, s': State)
    requires OnlyReached(s) && Step(s, a) == Some(s')
    ensures OnlyReached(s')
  {
    forall e | e in s'.log
      ensures e.caller < |s'.calls| && e.check <= s'.calls[e.caller].current
    {
      if a.SendIncr? {
        assert s'.log == s.log + [s'.log[|s.log|]];
      }
    }
  }

  lemma {:induction false} OnlyReachedAlongRun(tr: seq<State>, acts: seq<Action>, n: nat)
    requires IsRun(tr, acts) && n < |tr|
    ensures OnlyReached(tr[n])
  {
    if n > 0 {
      OnlyReachedAlongRun(tr, acts, n - 1);
      OnlyReachedIsKept(tr[n - 1], acts[n - 1], tr[n]);
    }
  }

  // In any run, a call that was denied, or failed, has counted itself in no check beyond the one that stopped
  // it: denied for its authority, it takes nothing from the AT-URI's budget.
  lemma NothingBeyondDenial(tr: seq<State>, acts: seq<Action>, n: nat, c: nat)
    requires IsRun(tr, acts) && n < |tr| && c < |tr[n].calls|
    ensures forall e :: e in tr[n].log && e.caller == c ==> e.check <= tr[n].calls[c].current
  {
    OnlyReachedAlongRun(tr, acts, n);
  }

  // The log shows that caller c was over the limit of its check number k.
  ghost predicate Convicted(s: State, c: nat)
    requires c < |s.calls|
  {
    var call := s.calls[c];
    && call.current < |call.checks| && ValidChecks(call.checks)
    && exists e :: e in s.log && e.caller == c && e.check == call.current && e.key == KeyOf(call, call.current)
                && e.count > call.checks[call.current].limit
  }

  // A denied call was over the limit, and a first count is on the record of whoever is about to set a deadline.
  ghost predicate DenialsAreJust(s: State) {
    forall c :: 0 <= c < |s.calls| ==> Justified(s, c) && (s.calls[c].phase.Denied? ==> Convicted(s, c))
  }

  lemma DenialStaysJust(s: State, a: Action, s': State, c: nat)
    requires Step(s, a) == Some(s') && c < |s.calls| && Justified(s, c)
    requires s.calls[c].phase.Denied? ==> Convicted(s, c)
    ensures s'.calls[c].phase.Denied? ==> Convicted(s', c)
  {
    var call, call' := s.calls[c], s'.calls[c];
    if call'.phase.Denied? && a.SendIncr? {
      var e := s'.log[|s.log|];
      assert s'.log == s.log + [e] && e in s'.log;
      if call.phase.Denied? {
        var v :| v in s.log && v.caller == c && v.check == call.current && v.key == KeyOf(call, call.current)
              && v.count > call.checks[call.current].limit;
        assert v in s'.log;
      }
    } else if call'.phase.Denied? && a.SendExpire? && a.c == c {
      var v :| v in s.log && v.caller == c && v.check == call.current && v.key == KeyOf(call, call.current)
            && v.count == 1 && v.limit == call.checks[call.current].limit;
      assert v in s'.log;
    }
  }

  lemma DenialsStayJust(s: State, a: Action, s': State)
    requires DenialsAreJust(s) && Step(s, a) == Some(s')
    ensures DenialsAreJust(s')
  {
    forall c | 0 <= c < |s'.calls|
      ensures Justified(s', c) && (s'.calls[c].phase.Denied? ==> Convicted(s', c))
    {
      if c < |s.calls| {
        CallStaysJustified(s, a, s', c);
        DenialStaysJust(s, a, s', c);
      }
    }
  }

  // In any run, a call is denied only when it has itself counted to more than its check's limit.
  lemma {:induction false} DenialsAreJustAlongRun(tr: seq<State>, acts: seq<Action>, n: nat)
    requires IsRun(tr, acts) && n < |tr|
    ensures DenialsAreJust(tr[n])
  {
    if n > 0 {
      DenialsAreJustAlongRun(tr, acts, n - 1);
      DenialsStayJust(tr[n - 1], acts[n - 1], tr[n]);
    }
  }

  // Every executed INCR is the one that its caller's check asks for.
  ghost predicate FromChecks(s: State) {
    forall e :: e in s.log ==>
      && e.caller < |s.calls| && ValidChecks(s.calls[e.caller].checks) && e.check < |s.calls[e.caller].checks|
      && e.key == KeyOf(s.calls[e.caller], e.check) && e.limit == s.calls[e.caller].checks[e.check].limit
  }

  lemma FromChecksIsKept(s: State, a: Action, s': State)
    requires FromChecks(s) && Step(s, a) == Some(s')
    ensures FromChecks(s')
  {
    assert forall c :: 0 <= c < |s.calls| ==>
      s'.calls[c].checks == s.calls[c].checks && s'.calls[c].clock == s.calls[c].clock;
    if a.SendIncr? {
      assert s'.log == s.log + [s'.log[|s.log|]];
    }
  }

  lemma {:induction false} FromChecksAlongRun(tr: seq<State>, acts: seq<Action>, n: nat)
    requires IsRun(tr, acts) && n < |tr|
    ensures FromChecks(tr[n])
  {
    if n > 0 {
      FromChecksAlongRun(tr, acts, n - 1);
      FromChecksIsKept(tr[n - 1], acts[n - 1], tr[n]);
    }
  }

  function PassingCallers(log: seq<Entry>, key: Key): (callers: set<nat>)
    ensures |callers| <= Passes(log, key)
    ensures forall e :: e in log && e.key == key && Passed(e) ==> e.caller in callers
  {
    if log == [] then {}
    else
      var e := log[|log| - 1];
      assert log == log[..|log| - 1] + [e];
      PassingCallers(log[..|log| - 1], key) + (if e.key == key && Passed(e) then {e.caller} else {})
  }

  // The admitted calls that had a check on this counter.
  function AdmittedOn(s: State, key: Key): set<nat> {
    set c | 0 <= c < |s.calls| && s.calls[c].phase.Admitted? && ValidChecks(s.calls[c].checks)
            && (exists k :: 0 <= k < |s.calls[c].checks| && KeyOf(s.calls[c], k) == key)
  }

  // The throttle's promise: in one window, at most limit calls on one name are admitted, over every
  // interleaving and with callers failing anywhere.
  lemma AtMostLimitAdmitted(tr: seq<State>, acts: seq<Action>, n: nat, key: Key, limit: nat)
    requires IsRun(tr, acts) && n < |tr| && LandedRun(tr, acts, n) && LimitedBy(tr[n].log, key, limit)
    ensures |AdmittedOn(tr[n], key)| <= limit
  {
    AtMostLimitPerWindow(tr, acts, n, key, limit);
    JustifiedAlongRun(tr, acts, n);
    var callers := PassingCallers(tr[n].log, key);
    forall c | c in AdmittedOn(tr[n], key)
      ensures c in callers
    {
      assert Justified(tr[n], c);
      var k :| 0 <= k < |tr[n].calls[c].checks| && KeyOf(tr[n].calls[c], k) == key;
      assert Vouched(tr[n].log, c, k, key);
    }
    Arith.SubsetIsNoLarger(AdmittedOn(tr[n], key), callers);
  }

  // ---------------------------------------------------------------- for which windows the promise holds

  // A run in which every INCR is on time, every check has this window, and checks on the key have this limit.
  ghost predicate Promised(tr: seq<State>, acts: seq<Action>, window: int, key: Key, limit: nat) {
    && IsRun(tr, acts) && LimitedBy(tr[|acts|].log, key, limit)
    && forall k :: 0 <= k < |acts| ==> OnTime(tr[k], acts[k]) && HasWindow(acts[k], window)
  }

  predicate HasWindow(a: Action, window: int) {
    a.Begin? ==> forall k :: 0 <= k < |a.checks| ==> a.checks[k].window == window
  }

  ghost predicate Kept(tr: seq<State>, acts: seq<Action>, key: Key, limit: nat)
    requires |tr| == |acts| + 1
  {
    |AdmittedOn(tr[|acts|], key)| <= limit
  }

  // The limit is kept in every run whose INCRs are on time exactly for windows whose length in seconds fits
  // 32 bits.
  lemma LimitIsKeptIff(window: int)
    requires 0 < window < 0x8000_0000
    ensures (forall tr, acts, key, limit: nat :: Promised(tr, acts, window, key, limit) ==> Kept(tr, acts, key, limit))
       <==> window <= LAST_SAFE_WINDOW
  {
    if window <= LAST_SAFE_WINDOW {
      forall tr, acts, key, limit: nat | Promised(tr, acts, window, key, limit)
        ensures Kept(tr, acts, key, limit)
      {
        AtMostLimitAdmitted(tr, acts, |acts|, key, limit);
      }
    } else {
      var tr, acts := TooMany(window);
      assert !Kept(tr, acts, Key(Seconds(window), "a"), 1);
    }
  }

  // The run so far ends in s.
  ghost predicate Reaches(tr: seq<State>, acts: seq<Action>, window: int, s: State) {
    && IsRun(tr, acts) && tr[|acts|] == s
    && forall k :: 0 <= k < |acts| ==> HasWindow(acts[k], window)
  }

  ghost predicate AllOnTime(tr: seq<State>, acts: seq<Action>)
    requires |tr| == |acts| + 1
  {
    forall k :: 0 <= k < |acts| ==> OnTime(tr[k], acts[k])
  }

  lemma Extend(tr: seq<State>, acts: seq<Action>, window: int, s: State, a: Action, s': State)
    returns (tr': seq<State>, acts': seq<Action>)
    requires Reaches(tr, acts, window, s) && Step(s, a) == Some(s') && HasWindow(a, window)
    ensures Reaches(tr', acts', window, s')
    ensures AllOnTime(tr, acts) && OnTime(s, a) ==> AllOnTime(tr', acts')
  {
    tr', acts' := tr + [s'], acts + [a];
  }

  // The first windows end together: any time from 1 to the window's length falls into the same one.
  lemma FirstWindow(t: nat, window: int)
    requires 0 < window && 1 <= t <= Seconds(window)
    ensures RoundUp(t, window) == Seconds(window)
  {
    RoundUpIsLeast(t, window, Seconds(window));
    var w := Seconds(window);
    Arith.Split(RoundUp(t, window), w);
    if RoundUp(t, window) < w {
      Arith.Unique(RoundUp(t, window), 0, RoundUp(t, window), w);
    }
  }

  // One call comes, counts to 1 on an absent or expired counter, sets the deadline and is admitted.
  lemma OneAdmitted(tr: seq<State>, acts: seq<Action>, window: int, s: State)
    returns (tr': seq<State>, acts': seq<Action>)
    requires LAST_SAFE_WINDOW < window < 0x8000_0000
    requires Reaches(tr, acts, window, s) && AllOnTime(tr, acts) && 1 <= s.now <= Seconds(window)
    requires !Live(s.store, Key(Seconds(window), "a"), s.now)
    ensures Reaches(tr', acts', window, Admitting(s, window)) && AllOnTime(tr', acts')
  {
    var check, c, key := Check("a", window, 1), |s.calls|, Key(Seconds(window), "a");
    FirstWindow(s.now, window);
    var s1 := s.(calls := s.calls + [Call(s.now, [check], 0, Counting)]);
    tr', acts' := Extend(tr, acts, window, s, Begin([check]), s1);
    var s2 := s1.(store := s.store[key := Cell(1, None)], calls := s.calls + [Call(s.now, [check], 0, Expiring)],
                  log := s.log + [Entry(c, 0, key, s.now, 1, 1, window)]);
    assert s1.calls[c := Call(s.now, [check], 0, Expiring)] == s2.calls;
    tr', acts' := Extend(tr', acts', window, s1, SendIncr(c), s2);
    var s3 := Admitting(s, window);
    assert s2.calls[c := Call(s.now, [check], 1, Admitted)] == s3.calls;
    assert s2.store[key := Cell(1, Some(s.now + ExpireSeconds(window)))] == s3.store;
    tr', acts' := Extend(tr', acts', window, s2, SendExpire(c), s3);
  }

  function Admitting(s: State, window: int): State
    requires window > 0
  {
    var key := Key(Seconds(window), "a");
    s.(store := s.store[key := Cell(1, Some(s.now + ExpireSeconds(window)))],
       calls := s.calls + [Call(s.now, [Check("a", window, 1)], 1, Admitted)],
       log := s.log + [Entry(|s.calls|, 0, key, s.now, 1, 1, window)])
  }

  // A longer window: the counter is gone before its window ends, and a second call is admitted at limit 1.
  lemma TooMany(window: int) returns (tr: seq<State>, acts: seq<Action>)
    requires LAST_SAFE_WINDOW < window < 0x8000_0000
    ensures Promised(tr, acts, window, Key(Seconds(window), "a"), 1)
    ensures !Kept(tr, acts, Key(Seconds(window), "a"), 1)
  {
    var key, start := Key(Seconds(window), "a"), INITIAL.(now := 1);
    tr, acts := Extend([INITIAL], [], window, INITIAL, Advance(1), start);
    tr, acts := OneAdmitted(tr, acts, window, start);
    var once := Admitting(start, window);
    var wait := if ExpireSeconds(window) > 0 then ExpireSeconds(window) else 0;
    var later := once.(now := 1 + wait);
    tr, acts := Extend(tr, acts, window, once, Advance(wait), later);
    tr, acts := OneAdmitted(tr, acts, window, later);
    TwoAdmitted(Admitting(later, window), window);
  }

  lemma TwoAdmitted(s: State, window: int)
    requires 0 < window < 0x8000_0000 && |s.calls| == 2
    requires forall c :: 0 <= c < 2 ==>
      && s.calls[c].checks == [Check("a", window, 1)] && s.calls[c].phase == Admitted
      && 1 <= s.calls[c].clock <= Seconds(window)
    ensures |AdmittedOn(s, Key(Seconds(window), "a"))| > 1
  {
    forall c | 0 <= c < 2
      ensures c in AdmittedOn(s, Key(Seconds(window), "a"))
    {
      FirstWindow(s.calls[c].clock, window);
      assert KeyOf(s.calls[c], 0) == Key(Seconds(window), "a");
    }
    Arith.SubsetIsNoLarger({0, 1}, AdmittedOn(s, Key(Seconds(window), "a")));
  }

  // ---------------------------------------------------------------- what a late INCR does

  const KEY := Key(60, "a")
  const FIRST := Entry(0, 0, KEY, 1, 1, 1, 1)
  const SECOND := Entry(1, 0, KEY, 61, 1, 1, 1)
  const WAITING := Call(1, [Check("a", 1, 1)], 0, Counting)
  const COUNTED := Call(1, [Check("a", 1, 1)], 0, Expiring)
  const DONE := Call(1, [Check("a", 1, 1)], 1, Admitted)

  lemma Play(tr: seq<State>, acts: seq<Action>, s: State, a: Action, now: nat, store: Store, calls: seq<Call>,
             log: seq<Entry>)
    returns (tr': seq<State>, acts': seq<Action>)
    requires Reaches(tr, acts, 1, s) && Step(s, a).Some? && HasWindow(a, 1)
    requires var s' := Step(s, a).value; s'.now == now && s'.store == store && s'.calls == calls && s'.log == log
    ensures Reaches(tr', acts', 1, State(now, store, calls, log))
  {
    tr', acts' := Extend(tr, acts, 1, s, a, State(now, store, calls, log));
  }

  lemma BothWaiting() returns (tr: seq<State>, acts: seq<Action>)
    ensures Reaches(tr, acts, 1, State(1, map[], [WAITING, WAITING], []))
  {
    var checks := [Check("a", 1, 1)];
    tr, acts := Play([INITIAL], [], INITIAL, Advance(1), 1, map[], [], []);
    tr, acts := Play(tr, acts, State(1, map[], [], []), Begin(checks), 1, map[], [WAITING], []);
    tr, acts := Play(tr, acts, State(1, map[], [WAITING], []), Begin(checks), 1, map[], [WAITING, WAITING], []);
  }

  lemma OneDone() returns (tr: seq<State>, acts: seq<Action>)
    ensures Reaches(tr, acts, 1, State(1, map[KEY := Cell(1, Some(61))], [DONE, WAITING], [FIRST]))
  {
    FirstWindow(1, 1);
    tr, acts := BothWaiting();
    tr, acts := Play(tr, acts, State(1, map[], [WAITING, WAITING], []), SendIncr(0),
                     1, map[KEY := Cell(1, None)], [COUNTED, WAITING], [FIRST]);
    tr, acts := Play(tr, acts, State(1, map[KEY := Cell(1, None)], [COUNTED, WAITING], [FIRST]), SendExpire(0),
                     1, map[KEY := Cell(1, Some(61))], [DONE, WAITING], [FIRST]);
  }

  // A window of one minute and limit 1. Two calls read the clock at 1; one counts and sets the deadline 61. At
  // 61 the counter is gone, the other call counts late, in the same counter, and both are admitted.
  lemma LateIncr() returns (tr: seq<State>, acts: seq<Action>)
    ensures IsRun(tr, acts) && AllLimited(tr[|acts|].log, KEY, 1)
    ensures forall k :: 0 <= k < |acts| ==> HasWindow(acts[k], 1)
    ensures |AdmittedOn(tr[|acts|], KEY)| > 1
  {
    FirstWindow(1, 1);
    tr, acts := OneDone();
    tr, acts := Play(tr, acts, State(1, map[KEY := Cell(1, Some(61))], [DONE, WAITING], [FIRST]), Advance(60),
                     61, map[KEY := Cell(1, Some(61))], [DONE, WAITING], [FIRST]);
    tr, acts := Play(tr, acts, State(61, map[KEY := Cell(1, Some(61))], [DONE, WAITING], [FIRST]), SendIncr(1),
                     61, map[KEY := Cell(1, None)], [DONE, COUNTED], [FIRST, SECOND]);
    tr, acts := Play(tr, acts, State(61, map[KEY := Cell(1, None)], [DONE, COUNTED], [FIRST, SECOND]), SendExpire(1),
                     61, map[KEY := Cell(1, Some(121))], [DONE, DONE], [FIRST, SECOND]);
    TwoAdmitted(tr[|acts|], 1);
  }

  // ---------------------------------------------------------------- any stretch of time

  function PassesBetween(log: seq<Entry>, name: string, from: nat, until: nat): nat {
    if log == [] then 0
    else
      var e := log[|log| - 1];
      PassesBetween(log[..|log| - 1], name, from, until)
      + (if e.key.name == name && from <= e.at < until && Passed(e) then 1 else 0)
  }

  // A stretch as long as a window meets two windows at most.
  lemma TwoWindows(at: nat, from: nat, window: int)
    requires 0 < window && from <= at < from + Seconds(window)
    ensures RoundUp(at, window) in {RoundUp(from, window), RoundUp(from, window) + Seconds(window)}
  {
    var w, b := Seconds(window), RoundUp(from, window);
    RoundUpIsLeast(from, window, RoundUp(at, window));
    Arith.Split(b, w);
    Arith.AddMultiple(0, b / w + 1, w);
    Arith.Distribute(b / w, 1, w);
    if at <= b {
      RoundUpIsLeast(at, window, b);
    } else {
      RoundUpIsLeast(at, window, b + w);
      var m := RoundUp(at, window);
      Arith.Split(m, w);
      if m / w <= b / w {
        Arith.Monotone(m / w, b / w, w);
      } else {
        Arith.Monotone(b / w + 1, m / w, w);
      }
    }
  }

  lemma {:induction false} BetweenIsInTwoKeys(log: seq<Entry>, name: string, from: nat, window: int)
    requires 0 < window
    requires forall e :: e in log && e.key.name == name ==> e.key.bucket == RoundUp(e.at, window)
    ensures var first := RoundUp(from, window);
      PassesBetween(log, name, from, from + Seconds(window))
      <= Passes(log, Key(first, name)) + Passes(log, Key(first + Seconds(window), name))
  {
    if log != [] {
      var last := |log| - 1;
      assert log[last] in log;
      BetweenIsInTwoKeys(log[..last], name, from, window);
      var e := log[last];
      if from <= e.at < from + Seconds(window) {
        TwoWindows(e.at, from, window);
      }
    }
  }

  // In any stretch of time as long as the window, at most twice the limit pass.
  lemma AtMostTwiceLimit(tr: seq<State>, acts: seq<Action>, n: nat, name: string, window: int, limit: nat, from: nat)
    requires IsRun(tr, acts) && n < |tr| && LandedRun(tr, acts, n) && 0 < window
    requires forall e :: e in tr[n].log && e.key.name == name ==> e.window == window && e.limit <= limit
    ensures PassesBetween(tr[n].log, name, from, from + Seconds(window)) <= 2 * limit
  {
    InWindowAlongRun(tr, acts, n);
    BetweenIsInTwoKeys(tr[n].log, name, from, window);
    AtMostLimitPerWindow(tr, acts, n, Key(RoundUp(from, window), name), limit);
    AtMostLimitPerWindow(tr, acts, n, Key(RoundUp(from, window) + Seconds(window), name), limit);
  }

  // ---------------------------------------------------------------- the two throttlers

  datatype Denial = ParseFailed | WindowFault

  // Ok(true) throttles, Ok(false) lets the call proceed.
  type Answer = Result<bool, Denial>

  // The end of the window. A negative number of minutes, which only a stored override can hold, wraps when it
  // is cast to an unsigned one, and so does the arithmetic on it.
  function Bucket(now: nat, window: int): nat
    requires window != 0
  {
    if window > 0 then RoundUp(now, window)
    else
      var w := Seconds(window) % Arith.U64;
      var up := (now + w - 1) % Arith.U64;
      if 0 < w then Arith.RoundDown(up, w) else 0
  }

  // One block of throttle(): count, expire on the first count, compare. A window of 0 divides by zero.
  function RunCheck(store: Store, now: nat, check: Check): (Store, Answer) {
    if check.window == 0 then (store, Err(WindowFault))
    else
      var key := Key(Bucket(now, check.window), check.name);
      var (counted, count) := Incr(store, key, now);
      (if count == 1 then Expire(counted, key, now, ExpireSeconds(check.window)) else counted, Ok(count > check.limit))
  }

  function RunChecks(store: Store, now: nat, checks: seq<Check>): (Store, Answer)
    decreases |checks|
  {
    if checks == [] then (store, Ok(false))
    else
      var (after, answer) := RunCheck(store, now, checks[0]);
      if answer == Ok(false) then RunChecks(after, now, checks[1..]) else (after, answer)
  }

  lemma OneOrTwoChecks(store: Store, now: nat, first: Check, second: Check)
    ensures RunChecks(store, now, [first]) == RunCheck(store, now, first)
    ensures var (after, answer) := RunCheck(store, now, first);
      RunChecks(store, now, [first, second])
      == if answer == Ok(false) then RunCheck(after, now, second) else (after, answer)
  {
    assert [first][1..] == [] && [first, second][1..] == [second] && [second][1..] == [];
    var after := RunCheck(store, now, first).0;
    assert RunChecks(after, now, [second]) == RunCheck(after, now, second);
  }

  // A caller that nobody interrupts.
  function Alone(s: State, c: nat): State
    requires c < |s.calls| && ValidChecks(s.calls[c].checks) && s.calls[c].current <= |s.calls[c].checks|
    decreases |s.calls[c].checks| - s.calls[c].current,
              if s.calls[c].phase.Counting? then 2 else if s.calls[c].phase.Expiring? then 1 else 0
  {
    if Busy(s, c, Counting) then Alone(Step(s, SendIncr(c)).value, c)
    else if Busy(s, c, Expiring) then Alone(Step(s, SendExpire(c)).value, c)
    else s
  }

  // One check of a caller that nobody interrupts: INCR, and EXPIRE after a first count.
  function OneBlock(s: State, c: nat): State
    requires Busy(s, c, Counting)
  {
    var s1 := Step(s, SendIncr(c)).value;
    if s1.calls[c].phase.Expiring? then Step(s1, SendExpire(c)).value else s1
  }

  lemma AloneByBlocks(s: State, c: nat)
    requires Busy(s, c, Counting)
    ensures var s' := OneBlock(s, c);
      && c < |s'.calls| && ValidChecks(s'.calls[c].checks) && s'.calls[c].current <= |s'.calls[c].checks|
      && Alone(s, c) == Alone(s', c)
  {
  }

  lemma BlockRunsTheCheck(s: State, c: nat)
    requires Busy(s, c, Counting) && s.calls[c].clock == s.now
    ensures var call, s' := s.calls[c], OneBlock(s, c);
      var (store, answer) := RunCheck(s.store, s.now, call.checks[call.current]);
      && s'.store == store && s'.now == s.now && answer.Ok?
      && |s'.calls| == |s.calls| && s'.calls[c].clock == call.clock && s'.calls[c].checks == call.checks
      && (answer == Ok(true) ==> s'.calls[c].phase == Denied)
      && (answer == Ok(false) ==> s'.calls[c].current == call.current + 1)
      && (answer == Ok(false) ==> s'.calls[c].phase == if call.current + 1 < |call.checks| then Counting else Admitted)
  {
  }

  // Without interruption the interleaved steps do what the block-by-block code does.
  lemma {:induction false} AloneRunsTheChecks(s: State, c: nat)
    requires c < |s.calls| && s.calls[c].clock == s.now && ValidChecks(s.calls[c].checks)
    requires s.calls[c].current <= |s.calls[c].checks|
    requires s.calls[c].phase == if s.calls[c].current < |s.calls[c].checks| then Counting else Admitted
    ensures var call := s.calls[c];
      var (store, answer) := RunChecks(s.store, s.now, call.checks[call.current..]);
      && Alone(s, c).store == store
      && |Alone(s, c).calls| == |s.calls|
      && (answer == Ok(true) ==> Alone(s, c).calls[c].phase == Denied)
      && (answer == Ok(false) ==> Alone(s, c).calls[c].phase == Admitted)
      && answer.Ok?
    decreases |s.calls[c].checks| - s.calls[c].current
  {
    var call := s.calls[c];
    if call.current < |call.checks| {
      var todo := call.checks[call.current..];
      assert todo[0] == call.checks[call.current] && todo[1..] == call.checks[call.current + 1..];
      BlockRunsTheCheck(s, c);
      AloneByBlocks(s, c);
      if RunCheck(s.store, s.now, todo[0]).1 == Ok(false) {
        AloneRunsTheChecks(OneBlock(s, c), c);
      }
    }
  }

  // The authority of an AT-URI, when it can be parsed.
  type Authority = string -> Option<string>

  // The static configuration: limit and window, both or neither, for each of the two checks.
  datatype StaticConfig = StaticConfig(authorityLimit: Option<int>, authorityWindow: Option<int>,
                                       aturiLimit: Option<int>, aturiWindow: Option<int>)

  predicate PairAccepted(limit: Option<int>, window: Option<int>) {
    match (limit, window)
    case (None, None) => true
    case (Some(l), Some(w)) => l > 0 && w > 0
    case _ => false
  }

  predicate StaticAccepted(c: StaticConfig) {
    PairAccepted(c.authorityLimit, c.authorityWindow) && PairAccepted(c.aturiLimit, c.aturiWindow)
  }

  function StaticThrottle(c: StaticConfig, store: Store, now: nat, aturi: string, authority: Authority)
    : (Store, Answer)
  {
    if c.authorityLimit.Some? && c.authorityWindow.Some? && authority(aturi).None? then (store, Err(ParseFailed))
    else RunChecks(store, now, StaticChecks(c, aturi, authority))
  }

  function StaticChecks(c: StaticConfig, aturi: string, authority: Authority): seq<Check> {
    (if c.authorityLimit.Some? && c.authorityWindow.Some? && authority(aturi).Some?
     then [Check(authority(aturi).value, c.authorityWindow.value, c.authorityLimit.value)] else [])
    + (if c.aturiLimit.Some? && c.aturiWindow.Some?
       then [Check(aturi, c.aturiWindow.value, c.aturiLimit.value)] else [])
  }

  // The defaults of the per-identity throttler, and the overrides stored per identity as strings.
  datatype Defaults = Defaults(authorityLimit: int, authorityWindow: int, aturiLimit: int, aturiWindow: int)

  type Overrides = map<string, map<string, string>>

  type ParseInt = string -> Option<int>

  function Chosen(overrides: Overrides, did: string, field: string, default: int, parse: ParseInt): int {
    if did in overrides && field in overrides[did] && parse(overrides[did][field]).Some?
    then parse(overrides[did][field]).value else default
  }

  function IdentityChecks(d: Defaults, o: Overrides, parse: ParseInt, aturi: string, did: string): seq<Check> {
    [Check(did, Chosen(o, did, "authority_window", d.authorityWindow, parse),
           Chosen(o, did, "authority_limit", d.authorityLimit, parse)),
     Check(aturi, Chosen(o, did, "aturi_window", d.aturiWindow, parse),
           Chosen(o, did, "aturi_limit", d.aturiLimit, parse))]
  }

  function IdentityThrottle(d: Defaults, o: Overrides, parse: ParseInt, store: Store, now: nat, aturi: string,
                            authority: Authority)
    : (Store, Answer)
  {
    if authority(aturi).None? then (store, Err(ParseFailed))
    else RunChecks(store, now, IdentityChecks(d, o, parse, aturi, authority(aturi).value))
  }

  /** The shared counters, changed in place by both throttlers. */
  class Counters {
    var now: nat
    var store: Store

    constructor ()
      ensures now == 0 && store == map[]
    {
      now, store := 0, map[];
    }

    method Increment(key: Key) returns (count: int)
      modifies this`store
      ensures (store, count) == Incr(old(store), key, now)
    {
      if key in store && (store[key].deadline.None? || now < store[key].deadline.value) {
        count := store[key].value + 1;
        store := store[key := store[key].(value := count)];
      } else {
        count := 1;
        store := store[key := Cell(1, None)];
      }
    }

    method SetDeadline(key: Key, seconds: int)
      modifies this`store
      ensures store == Expire(old(store), key, now, seconds)
    {
      if key in store && (store[key].deadline.None? || now < store[key].deadline.value) {
        store := store[key := store[key].(deadline := Some(now + seconds))];
      }
    }

    method CountAndCheck(name: string, window: int, limit: int) returns (r: Answer)
      modifies this`store
      ensures (store, r) == RunCheck(old(store), now, Check(name, window, limit))
    {
      if window == 0 {
        return Err(WindowFault);
      }
      var key := Key(Bucket(now, window), name);
      var count := Increment(key);
      if count == 1 {
        SetDeadline(key, ExpireSeconds(window));
      }
      r := Ok(count > limit);
    }

    // RedisBlueprintThrottler::throttle
    method ThrottleStatic(c: StaticConfig, aturi: string, authority: Authority) returns (r: Answer)
      requires StaticAccepted(c)
      modifies this`store
      ensures (store, r) == StaticThrottle(c, old(store), now, aturi, authority)
    {
      if c.authorityLimit.None? && c.aturiLimit.None? {
        return Ok(false);
      }
      ghost var checks := StaticChecks(c, aturi, authority);
      if |checks| == 1 {
        OneOrTwoChecks(store, now, checks[0], checks[0]);
        assert checks == [checks[0]];
      } else if |checks| == 2 {
        OneOrTwoChecks(store, now, checks[0], checks[1]);
        assert checks == [checks[0], checks[1]];
      }
      if c.authorityLimit.Some? && c.authorityWindow.Some? {
        var did := authority(aturi);
        if did.None? {
          return Err(ParseFailed);
        }
        r := CountAndCheck(did.value, c.authorityWindow.value, c.authorityLimit.value);
        if r != Ok(false) {
          return;
        }
      }
      if c.aturiLimit.Some? && c.aturiWindow.Some? {
        r := CountAndCheck(aturi, c.aturiWindow.value, c.aturiLimit.value);
        if r != Ok(false) {
          return;
        }
      }
      r := Ok(false);
    }

    // RedisPerIdentityBlueprintThrottler::throttle
    method ThrottleIdentity(d: Defaults, o: Overrides, parse: ParseInt, aturi: string, authority: Authority)
      returns (r: Answer)
      modifies this`store
      ensures (store, r) == IdentityThrottle(d, o, parse, old(store), now, aturi, authority)
    {
      var did := authority(aturi);
      if did.None? {
        return Err(ParseFailed);
      }
      var authorityLimit := Chosen(o, did.value, "authority_limit", d.authorityLimit, parse);
      var authorityWindow := Chosen(o, did.value, "authority_window", d.authorityWindow, parse);
      var aturiLimit := Chosen(o, did.value, "aturi_limit", d.aturiLimit, parse);
      var aturiWindow := Chosen(o, did.value, "aturi_window", d.aturiWindow, parse);
      OneOrTwoChecks(store, now, Check(did.value, authorityWindow, authorityLimit),
                     Check(aturi, aturiWindow, aturiLimit));
      r := CountAndCheck(did.value, authorityWindow, authorityLimit);
      if r != Ok(false) {
        return;
      }
      r := CountAndCheck(aturi, aturiWindow, aturiLimit);
    }
  }

  // ---------------------------------------------------------------- the one refines the other

  datatype Request = Request(now: nat, aturi: string)

  function StaticRun(c: StaticConfig, store: Store, requests: seq<Request>, authority: Authority): (Store, seq<Answer>)
    decreases |requests|
  {
    if requests == [] then (store, [])
    else
      var (after, answer) := StaticThrottle(c, store, requests[0].now, requests[0].aturi, authority);
      var (final, answers) := StaticRun(c, after, requests[1..], authority);
      (final, [answer] + answers)
  }

  function IdentityRun(d: Defaults, o: Overrides, parse: ParseInt, store: Store, requests: seq<Request>,
                       authority: Authority)
    : (Store, seq<Answer>)
    decreases |requests|
  {
    if requests == [] then (store, [])
    else
      var (after, answer) := IdentityThrottle(d, o, parse, store, requests[0].now, requests[0].aturi, authority);
      var (final, answers) := IdentityRun(d, o, parse, after, requests[1..], authority);
      (final, [answer] + answers)
  }

  function AsStatic(d: Defaults): StaticConfig {
    StaticConfig(Some(d.authorityLimit), Some(d.authorityWindow), Some(d.aturiLimit), Some(d.aturiWindow))
  }

  // What a counter stands at: nothing, once it has expired.
  function Standing(store: Store, now: nat, key: Key): int {
    if Live(store, key, now) then store[key].value else 0
  }

  predicate HasRoom(store: Store, now: nat, name: string, window: int, limit: int)
    requires window > 0
  {
    Standing(store, now, Key(RoundUp(now, window), name)) < limit
  }

  // With both checks configured, a call goes ahead exactly when its AT-URI can be parsed and both counters stand
  // below their limits. It counts for its authority in any case, and for its AT-URI only when the authority's
  // counter had room.
  lemma AdmittedIff(c: StaticConfig, store: Store, now: nat, aturi: string, authority: Authority)
    requires c.authorityLimit.Some? && c.authorityWindow.Some? && c.aturiLimit.Some? && c.aturiWindow.Some?
    requires 0 < c.authorityWindow.value <= LAST_SAFE_WINDOW && 0 < c.aturiWindow.value <= LAST_SAFE_WINDOW
    requires authority(aturi) != Some(aturi)
    ensures var (after, answer) := StaticThrottle(c, store, now, aturi, authority);
      && (authority(aturi).None? ==> answer == Err(ParseFailed) && after == store)
      && (authority(aturi).Some? ==>
            var did := authority(aturi).value;
            var general := HasRoom(store, now, did, c.authorityWindow.value, c.authorityLimit.value);
            var own := HasRoom(store, now, aturi, c.aturiWindow.value, c.aturiLimit.value);
            var didKey := Key(RoundUp(now, c.authorityWindow.value), did);
            var ownKey := Key(RoundUp(now, c.aturiWindow.value), aturi);
            && answer == Ok(!(general && own))
            && Standing(after, now, didKey) == Standing(store, now, didKey) + 1
            && Standing(after, now, ownKey) == Standing(store, now, ownKey) + (if general then 1 else 0))
  {
    if authority(aturi).Some? {
      var did := authority(aturi).value;
      var first := Check(did, c.authorityWindow.value, c.authorityLimit.value);
      var second := Check(aturi, c.aturiWindow.value, c.aturiLimit.value);
      assert StaticChecks(c, aturi, authority) == [first, second];
      OneOrTwoChecks(store, now, first, second);
      OneCheckCounts(store, now, first, Key(RoundUp(now, second.window), aturi));
      OneCheckCounts(RunCheck(store, now, first).0, now, second, Key(RoundUp(now, first.window), did));
    }
  }

  lemma OneCheckCounts(store: Store, now: nat, check: Check, other: Key)
    requires 0 < check.window <= LAST_SAFE_WINDOW && other.name != check.name
    ensures var (after, answer) := RunCheck(store, now, check);
      var key := Key(RoundUp(now, check.window), check.name);
      && answer == Ok(Standing(store, now, key) >= check.limit)
      && Standing(after, now, key) == Standing(store, now, key) + 1
      && Standing(after, now, other) == Standing(store, now, other)
  {
  }

  // Only one of the two checks configured, or none: no other check and no parsing get in the way.
  lemma AdmittedByOneIff(c: StaticConfig, store: Store, now: nat, aturi: string, authority: Authority)
    requires StaticAccepted(c)
    ensures c.authorityLimit.None? && c.aturiLimit.None? ==>
      StaticThrottle(c, store, now, aturi, authority) == (store, Ok(false))
    ensures c.authorityLimit.None? && c.aturiLimit.Some? ==>
      StaticThrottle(c, store, now, aturi, authority).1
      == Ok(!HasRoom(store, now, aturi, c.aturiWindow.value, c.aturiLimit.value))
    ensures c.authorityLimit.Some? && c.aturiLimit.None? && authority(aturi).Some? ==>
      StaticThrottle(c, store, now, aturi, authority).1
      == Ok(!HasRoom(store, now, authority(aturi).value, c.authorityWindow.value, c.authorityLimit.value))
  {
    if c.authorityLimit.None? && c.aturiLimit.Some? {
      var check := Check(aturi, c.aturiWindow.value, c.aturiLimit.value);
      assert StaticChecks(c, aturi, authority) == [check];
      OneOrTwoChecks(store, now, check, check);
    } else if c.authorityLimit.Some? && c.aturiLimit.None? && authority(aturi).Some? {
      var check := Check(authority(aturi).value, c.authorityWindow.value, c.authorityLimit.value);
      assert StaticChecks(c, aturi, authority) == [check];
      OneOrTwoChecks(store, now, check, check);
    }
  }

  // The number in force for a field: the stored one, if there is one and it parses, else the default.
  predicate InForce(n: int, o: Overrides, did: string, field: string, default: int, parse: ParseInt) {
    && (did in o && field in o[did] && parse(o[did][field]).Some? ==> parse(o[did][field]) == Some(n))
    && (did !in o || field !in o[did] || parse(o[did][field]).None? ==> n == default)
  }

  // For an authority with stored overrides, the per-identity throttler answers every request as the static one
  // does with the four numbers in force, and leaves the same counters behind.
  lemma {:induction false} OverridesAreObeyed(d: Defaults, o: Overrides, parse: ParseInt, store: Store,
                                              requests: seq<Request>, authority: Authority, did: string, e: Defaults)
    requires forall r :: r in requests ==> authority(r.aturi) in {None, Some(did)}
    requires InForce(e.authorityLimit, o, did, "authority_limit", d.authorityLimit, parse)
    requires InForce(e.authorityWindow, o, did, "authority_window", d.authorityWindow, parse)
    requires InForce(e.aturiLimit, o, did, "aturi_limit", d.aturiLimit, parse)
    requires InForce(e.aturiWindow, o, did, "aturi_window", d.aturiWindow, parse)
    ensures IdentityRun(d, o, parse, store, requests, authority) == StaticRun(AsStatic(e), store, requests, authority)
    decreases |requests|
  {
    if requests != [] {
      var r := requests[0];
      assert r in requests;
      if authority(r.aturi).Some? {
        assert IdentityChecks(d, o, parse, r.aturi, did) == StaticChecks(AsStatic(e), r.aturi, authority);
      }
      var after := IdentityThrottle(d, o, parse, store, r.now, r.aturi, authority).0;
      OverridesAreObeyed(d, o, parse, after, requests[1..], authority, did, e);
    }
  }

  // No stored value that parses.
  predicate NoOverrides(o: Overrides, parse: ParseInt) {
    forall did, field :: did in o && field in o[did] ==> parse(o[did][field]).None?
  }

  // Without overrides, the per-identity throttler answers every request as the static one with the same
  // four numbers does, and leaves the same counters behind.
  lemma {:induction false} IdentityRefinesStatic(d: Defaults, o: Overrides, parse: ParseInt, store: Store,
                                                 requests: seq<Request>, authority: Authority)
    requires NoOverrides(o, parse)
    ensures IdentityRun(d, o, parse, store, requests, authority) == StaticRun(AsStatic(d), store, requests, authority)
    decreases |requests|
  {
    if requests != [] {
      var r := requests[0];
      if authority(r.aturi).Some? {
        var did := authority(r.aturi).value;
        assert IdentityChecks(d, o, parse, r.aturi, did) == StaticChecks(AsStatic(d), r.aturi, authority);
      }
      var after := IdentityThrottle(d, o, parse, store, r.now, r.aturi, authority).0;
      IdentityRefinesStatic(d, o, parse, after, requests[1..], authority);
    }
  }

  // ---------------------------------------------------------------- what an override below zero does

  // A stored window of a negative number of minutes switches its check off: the wrapped window is so long that
  // all clock readings round up to 0, the deadline lies in the past, and every call counts to 1 anew.
  lemma NegativeWindowNeverCounts(store: Store, now: nat, check: Check)
    requires -LAST_SAFE_WINDOW <= check.window < 0 && 0 < check.limit
    requires -Seconds(check.window) < now < 0x8000_0000_0000_0000
    requires !Live(store, Key(0, check.name), now)
    ensures var (after, answer) := RunCheck(store, now, check);
      answer == Ok(false) && !Live(after, Key(0, check.name), now)
  {
    NegativeBucket(now, check.window);
  }

  lemma NegativeBucket(now: nat, window: int)
    requires -LAST_SAFE_WINDOW <= window < 0 && -Seconds(window) < now < 0x8000_0000_0000_0000
    ensures Bucket(now, window) == 0
  {
    var u, w := Arith.U64, Seconds(window) % Arith.U64;
    Arith.Unique(Seconds(window), -1, u + Seconds(window), u);
    assert w == u + Seconds(window);
    Arith.Unique(now + w - 1, 1, now + w - 1 - u, u);
    Arith.Unique(now + w - 1 - u, 0, now + w - 1 - u, w);
  }
}
