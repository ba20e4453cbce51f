/** The failure limiter that slows repeated wrong credentials. Times are in seconds. */
module FailureLimiter {
  import opened Base

  const HOUR: int := 3600
  const MAX_DELAY: int := 900
  const PRUNE_SIZE: nat := 1024

  datatype RateKey = RateKey(key: string, threshold: int)

  /** `blockedUntil` is None while the key was never blocked (Go's zero time). */
  datatype Attempt = Attempt(failures: nat, blockedUntil: Option<int>, updatedAt: int)

  type Attempts = map<string, Attempt>

  // ---------------------------------------------------------------- one key

  predicate Blocked(a: Attempt, now: int) { a.blockedUntil.Some? && a.blockedUntil.value > now }

  function Shift(over: nat): nat { if over == 0 then 1 else 2 * Shift(over - 1) }

  /** 30 seconds doubled for every failure past the threshold, five times at most, up to 15 minutes. */
  function Delay(over: nat): int { Min(30 * Shift(Min(over, 5)), MAX_DELAY) }

  function Failed(e: Option<Attempt>, threshold: int, now: int): Attempt {
    var failures := if e.Some? then e.value.failures + 1 else 1;
    var kept := if e.Some? then e.value.blockedUntil else None;
    Attempt(failures, if failures >= threshold then Some(now + Delay(failures - threshold)) else kept, now)
  }

  function Entry(m: Attempts, key: string): Option<Attempt> { if key in m then Some(m[key]) else None }

  /** How long an attempt is still blocked. */
  function Left(m: Attempts, key: string, now: int): nat {
    if key in m && Blocked(m[key], now) then m[key].blockedUntil.value - now else 0
  }

  // ---------------------------------------------------------------- all keys

  predicate Stale(a: Attempt, now: int) { !Blocked(a, now) && now - a.updatedAt > HOUR }

  function Pruned(m: Attempts, now: int): Attempts {
    if |m| < PRUNE_SIZE then m else map k | k in m && !Stale(m[k], now) :: m[k]
  }

  function Longest(m: Attempts, keys: seq<RateKey>, now: int): nat {
    if |keys| == 0 then 0
    else Max(Longest(m, keys[..|keys| - 1], now), Left(m, keys[|keys| - 1].key, now))
  }

  function FailedAll(m: Attempts, keys: seq<RateKey>, now: int): Attempts {
    if |keys| == 0 then m
    else var k, before := keys[|keys| - 1], FailedAll(m, keys[..|keys| - 1], now);
      before[k.key := Failed(Entry(before, k.key), k.threshold, now)]
  }

  /** The wait after a failure: the longest block of the keys, each seen when it was counted. */
  function LongestAfter(m: Attempts, keys: seq<RateKey>, now: int): nat {
    if |keys| == 0 then 0
    else Max(LongestAfter(m, keys[..|keys| - 1], now), Left(FailedAll(m, keys, now), keys[|keys| - 1].key, now))
  }

  function Cleared(m: Attempts, keys: seq<RateKey>): Attempts {
    map k | k in m && !Names(keys, k) :: m[k]
  }

  predicate Names(keys: seq<RateKey>, key: string) { exists i :: 0 <= i < |keys| && keys[i].key == key }

  // ---------------------------------------------------------------- the object

  class Limiter {
    var attempts: Attempts

    constructor ()
      ensures attempts == map[]
    {
      attempts := map[];
    }

    method Prune(now: int)
      modifies this
      ensures attempts == Pruned(old(attempts), now)
    {
      if |attempts| < PRUNE_SIZE {
        return;
      }
      var todo := attempts.Keys;
      while todo != {}
        invariant todo <= old(attempts).Keys
        invariant forall k :: k in attempts <==> k in old(attempts) && (k in todo || !Stale(old(attempts)[k], now))
        invariant forall k :: k in attempts ==> attempts[k] == old(attempts)[k]
        decreases todo
      {
        var key :| key in todo;
        if Stale(attempts[key], now) {
          attempts := attempts - {key};
        }
        todo := todo - {key};
      }
    }

    /** Zero exactly when no key is blocked. */
    method Wait(keys: seq<RateKey>, now: int) returns (wait: nat)
      modifies this
      ensures attempts == Pruned(old(attempts), now) && wait == Longest(attempts, keys, now)
      ensures wait == 0 <==> forall i :: 0 <= i < |keys| ==> Left(attempts, keys[i].key, now) == 0
    {
      Prune(now);
      wait := 0;
      for i := 0 to |keys|
        invariant wait == Longest(attempts, keys[..i], now) && attempts == Pruned(old(attempts), now)
        invariant wait == 0 <==> forall j :: 0 <= j < i ==> Left(attempts, keys[j].key, now) == 0
      {
        assert keys[..i + 1][..i] == keys[..i];
        if keys[i].key in attempts && Blocked(attempts[keys[i].key], now) {
          wait := Max(wait, attempts[keys[i].key].blockedUntil.value - now);
        }
      }
      assert keys[..|keys|] == keys;
    }

    method Fail(keys: seq<RateKey>, now: int) returns (wait: nat)
      modifies this
      ensures attempts == FailedAll(Pruned(old(attempts), now), keys, now)
      ensures wait == LongestAfter(Pruned(old(attempts), now), keys, now)
    {
      Prune(now);
      ghost var start := attempts;
      wait := 0;
      for i := 0 to |keys|
        invariant attempts == FailedAll(start, keys[..i], now) && wait == LongestAfter(start, keys[..i], now)
      {
        assert keys[..i + 1][..i] == keys[..i];
        var k := keys[i];
        var attempt := Failed(Entry(attempts, k.key), k.threshold, now);
        attempts := attempts[k.key := attempt];
        if Blocked(attempt, now) {
          wait := Max(wait, attempt.blockedUntil.value - now);
        }
      }
      assert keys[..|keys|] == keys;
    }

    method Succeed(keys: seq<RateKey>)
      modifies this
      ensures attempts == Cleared(old(attempts), keys)
    {
      for i := 0 to |keys|
        invariant forall k :: k in attempts <==> k in old(attempts) && !Names(keys[..i], k)
        invariant forall k :: k in attempts ==> attempts[k] == old(attempts)[k]
      {
        assert keys[..i + 1] == keys[..i] + [keys[i]];
        OneMore(keys, i);
        attempts := attempts - {keys[i].key};
      }
      assert keys[..|keys|] == keys;
    }
  }

  lemma {:induction false} OneMore(keys: seq<RateKey>, i: nat)
    requires i < |keys|
    ensures forall k :: Names(keys[..i + 1], k) <==> Names(keys[..i], k) || k == keys[i].key
  {
    forall k ensures Names(keys[..i + 1], k) <==> Names(keys[..i], k) || k == keys[i].key {
      if Names(keys[..i], k) {
        var j :| 0 <= j < i && keys[..i][j].key == k;
        assert keys[..i + 1][j].key == k;
      }
      if k == keys[i].key {
        assert keys[..i + 1][i].key == k;
      }
    }
  }

  // ---------------------------------------------------------------- runs

  /** A request with a wrong credential (Wait, and Fail unless blocked), one that only waits, or one with
      the right credential (Wait, and Succeed unless blocked). */
  datatype Op = Try(keys: seq<RateKey>, now: int) | Look(keys: seq<RateKey>, now: int)
    | Clear(keys: seq<RateKey>, now: int)

  predicate Passes(m: Attempts, op: Op) { op.Try? && Longest(Pruned(m, op.now), op.keys, op.now) == 0 }

  function Step(m: Attempts, op: Op): Attempts {
    match op
    case Try(keys, now) =>
      var seen := Pruned(m, now);
      if Longest(seen, keys, now) > 0 then seen else FailedAll(Pruned(seen, now), keys, now)
    case Look(_, now) => Pruned(m, now)
    case Clear(keys, now) =>
      var seen := Pruned(m, now);
      if Longest(seen, keys, now) > 0 then seen else Cleared(seen, keys)
  }

  function After(ops: seq<Op>): Attempts { if |ops| == 0 then map[] else Step(After(ops[..|ops| - 1]), ops[|ops| - 1]) }

  datatype Failure = Failure(time: int, count: nat)

  /** The failures recorded against a key, with the count each left behind. */
  function Log(ops: seq<Op>, key: string): seq<Failure> {
    if |ops| == 0 then []
    else
      var op, before := ops[|ops| - 1], ops[..|ops| - 1];
      if Passes(After(before), op) && Names(op.keys, key) && key in After(ops) then
        Log(before, key) + [Failure(op.now, After(ops)[key].failures)]
      else Log(before, key)
  }

  /** Requests arrive in time order; the key is never cleared and is always listed once, with the
      same positive threshold. */
  predicate Steady(ops: seq<Op>, key: RateKey) {
    && key.threshold >= 1
    && (forall i, j :: 0 <= i < j < |ops| ==> ops[i].now <= ops[j].now)
    && (forall i :: 0 <= i < |ops| ==> Once(ops[i].keys, key))
    && (forall i :: 0 <= i < |ops| && ops[i].Clear? ==> !Names(ops[i].keys, key.key))
  }

  predicate Once(keys: seq<RateKey>, key: RateKey) {
    && (forall i :: 0 <= i < |keys| && keys[i].key == key.key ==> keys[i] == key)
    && (forall i, j :: 0 <= i < j < |keys| ==> keys[i].key != key.key || keys[j].key != key.key)
  }

  /** The limiter object under a run of requests, as the sign-in check makes them. */
  method Serve(l: Limiter, ops: seq<Op>)
    requires l.attempts == map[]
    modifies l
    ensures l.attempts == After(ops)
  {
    hide Pruned, Longest, FailedAll, Cleared;
    for i := 0 to |ops|
      invariant l.attempts == After(ops[..i])
    {
      var op := ops[i];
      assert ops[..i + 1][..i] == ops[..i] && ops[..i + 1][i] == op;
      var wait := l.Wait(op.keys, op.now);
      if wait == 0 {
        if op.Try? {
          var _ := l.Fail(op.keys, op.now);
        } else if op.Clear? {
          l.Succeed(op.keys);
        }
      }
    }
    assert ops[..|ops|] == ops;
  }

  // ---------------------------------------------------------------- one key in a run

  lemma {:induction false} FailedAllAt(m: Attempts, keys: seq<RateKey>, now: int, key: RateKey)
    requires Once(keys, key)
    ensures Entry(FailedAll(m, keys, now), key.key) ==
            if Names(keys, key.key) then Some(Failed(Entry(m, key.key), key.threshold, now)) else Entry(m, key.key)
    decreases |keys|
  {
    hide Failed;
    if |keys| > 0 {
      var n := |keys| - 1;
      var front := keys[..n];
      FailedAllAt(m, front, now, key);
      OneMore(keys, n);
      assert keys[..n + 1] == keys;
      assert keys[n].key == key.key ==> forall i :: 0 <= i < n ==> front[i].key != key.key;
    }
  }

  lemma {:induction false} LongestZero(m: Attempts, keys: seq<RateKey>, now: int, key: string)
    requires Longest(m, keys, now) == 0 && Names(keys, key)
    ensures Left(m, key, now) == 0
    decreases |keys|
  {
    var n := |keys| - 1;
    if keys[n].key != key {
      var i :| 0 <= i < |keys| && keys[i].key == key;
      assert keys[..n][i].key == key;
      LongestZero(m, keys[..n], now, key);
    }
  }

  /** The entry of a key: None after a reset, which takes an hour without failures. */
  predicate EntryOk(e: Option<Attempt>, log: seq<Failure>, threshold: int, now: int) {
    match e
    case None => |log| > 0 ==> now - log[|log| - 1].time > HOUR
    case Some(a) =>
      && |log| > 0 && log[|log| - 1] == Failure(a.updatedAt, a.failures) && a.failures >= 1 && a.updatedAt <= now
      && a.blockedUntil == if a.failures >= threshold then Some(a.updatedAt + Delay(a.failures - threshold)) else None
  }

  /** Consecutive failures: the count goes on after the block has passed, or starts again after more than an hour. */
  predicate Follows(a: Failure, b: Failure, threshold: int) {
    || (b.count == 1 && b.time - a.time > HOUR)
    || (b.count == a.count + 1 && b.time >= a.time + if a.count >= threshold then Delay(a.count - threshold) else 0)
  }

  predicate Chain(log: seq<Failure>, threshold: int) {
    && (|log| > 0 ==> log[0].count >= 1)
    && forall i :: 0 < i < |log| ==> Follows(log[i - 1], log[i], threshold) && log[i].count >= 1
  }

  lemma {:induction false} PrunedOk(m: Attempts, now: int, key: RateKey, log: seq<Failure>, earlier: int)
    requires EntryOk(Entry(m, key.key), log, key.threshold, earlier) && earlier <= now
    ensures EntryOk(Entry(Pruned(m, now), key.key), log, key.threshold, now)
  {
    hide Delay;
  }

  lemma {:induction false} Extended(e: Option<Attempt>, log: seq<Failure>, threshold: int, now: int)
    requires threshold >= 1 && EntryOk(e, log, threshold, now) && Chain(log, threshold)
             && (e.Some? ==> !Blocked(e.value, now))
    ensures var a := Failed(e, threshold, now);
            var log' := log + [Failure(now, a.failures)];
            EntryOk(Some(a), log', threshold, now) && Chain(log', threshold)
  {
    hide Delay;
    var a := Failed(e, threshold, now);
    var log' := log + [Failure(now, a.failures)];
    forall i | 0 < i < |log'| ensures Follows(log'[i - 1], log'[i], threshold) && log'[i].count >= 1 {
      if i < |log| {
        assert log'[i - 1] == log[i - 1] && log'[i] == log[i];
      }
    }
  }

  lemma {:induction false} RunOk(ops: seq<Op>, key: RateKey, now: int)
    requires Steady(ops, key) && (|ops| > 0 ==> ops[|ops| - 1].now <= now)
    ensures Chain(Log(ops, key.key), key.threshold)
            && EntryOk(Entry(After(ops), key.key), Log(ops, key.key), key.threshold, now)
    decreases |ops|
  {
    hide Delay, Failed, Chain, FailedAll, Longest, Pruned;
    if |ops| == 0 {
      EmptyChain(key.threshold);
    } else {
      var n := |ops| - 1;
      var before, op := ops[..n], ops[n];
      var m, log := After(before), Log(before, key.key);
      RunOk(before, key, op.now);
      PrunedOk(m, op.now, key, log, op.now);
      var seen := Pruned(m, op.now);
      if op.Try? && Longest(seen, op.keys, op.now) == 0 {
        PrunedOk(seen, op.now, key, log, op.now);
        var kept := Pruned(seen, op.now);
        FailedAllAt(kept, op.keys, op.now, key);
        if Names(op.keys, key.key) {
          LongestZero(seen, op.keys, op.now, key.key);
          NotBlockedAfterPrune(seen, op.now, key.key);
          Extended(Entry(kept, key.key), log, key.threshold, op.now);
        }
      }
      Later(Entry(After(ops), key.key), Log(ops, key.key), key.threshold, op.now, now);
    }
  }

  lemma {:induction false} EmptyChain(threshold: int)
    ensures Chain([], threshold)
  {
  }

  lemma {:induction false} NotBlockedAfterPrune(m: Attempts, now: int, key: string)
    requires Left(m, key, now) == 0
    ensures key in Pruned(m, now) ==> !Blocked(Pruned(m, now)[key], now)
  {
  }

  lemma {:induction false} Later(e: Option<Attempt>, log: seq<Failure>, threshold: int, now: int, later: int)
    requires EntryOk(e, log, threshold, now) && now <= later
    ensures EntryOk(e, log, threshold, later)
  {
  }

  // ---------------------------------------------------------------- what the chain promises

  /** The blocks after failures number `from` to `to`. */
  function Blocks(from: nat, to: nat): int
    decreases to
  {
    if to <= from then 0 else Blocks(from, to - 1) + Delay(to - 1)
  }

  lemma {:induction false} DelayGrows(a: nat, b: nat)
    requires a <= b
    ensures 30 <= Delay(a) <= Delay(b) <= MAX_DELAY
  {
    assert Shift(0) == 1 && Shift(1) == 2 && Shift(2) == 4 && Shift(3) == 8 && Shift(4) == 16 && Shift(5) == 32;
  }

  lemma {:induction false} EightBlocks()
    ensures Blocks(0, 8) == 3630
  {
    assert Shift(0) == 1 && Shift(1) == 2 && Shift(2) == 4 && Shift(3) == 8 && Shift(4) == 16 && Shift(5) == 32;
    assert Blocks(0, 1) == 30 && Blocks(0, 2) == 90 && Blocks(0, 3) == 210 && Blocks(0, 4) == 450;
    assert Blocks(0, 5) == 930 && Blocks(0, 6) == 1830 && Blocks(0, 7) == 2730;
  }

  /** From failure i to failure i+n the time passed is more than an hour, or at least the blocks that
      n failures from the first one on would have brought. */
  lemma {:induction false} Spread(log: seq<Failure>, threshold: int, i: nat, n: nat)
    requires Chain(log, threshold) && threshold >= 1 && i + n < |log|
    ensures log[i + n].time >= log[i].time
    ensures || log[i + n].time - log[i].time > HOUR
            || (&& log[i + n].count >= n + 1
                && log[i + n].time - log[i].time >= Blocks(0, if n >= threshold then n - threshold + 1 else 0))
    decreases n
  {
    hide Delay;
    if n == 0 {
      assert log[i].count >= 1;
    } else {
      Spread(log, threshold, i, n - 1);
      var a, b := log[i + n - 1], log[i + n];
      assert Follows(a, b, threshold);
      if a.count >= threshold {
        DelayGrows(a.count - threshold, a.count - threshold);
      }
      if n >= threshold && a.count >= n {
        DelayGrows(n - threshold, a.count - threshold);
      }
    }
  }

  /** Main result: of any threshold + 8 failures in a row the last comes more than an hour after the
      first, so no hour holds more than threshold + 7, whatever else is tried, looked up or pruned. */
  lemma {:induction false} HourlyBound(ops: seq<Op>, key: RateKey, i: nat)
    requires Steady(ops, key) && i + key.threshold + 7 < |Log(ops, key.key)|
    ensures Log(ops, key.key)[i + key.threshold + 7].time - Log(ops, key.key)[i].time > HOUR
  {
    hide Log, Chain, Delay, Blocks;
    RunOk(ops, key, if |ops| == 0 then 0 else ops[|ops| - 1].now);
    Spread(Log(ops, key.key), key.threshold, i, key.threshold + 7);
    EightBlocks();
  }

  /** One step leaves a key's entry alone, removes it, starts it again, or counts one more failure
      while the key is not blocked. */
  lemma {:induction false} EntryMoves(m: Attempts, op: Op, key: RateKey)
    requires Once(op.keys, key) && (op.Clear? ==> !Names(op.keys, key.key))
    ensures var e, e' := Entry(m, key.key), Entry(Step(m, op), key.key);
            || e' == e || e' == None || e' == Some(Failed(None, key.threshold, op.now))
            || (e' == Some(Failed(e, key.threshold, op.now)) && (e.Some? ==> !Blocked(e.value, op.now)))
  {
    hide Failed;
    if op.Try? {
      var seen := Pruned(m, op.now);
      FailedAllAt(Pruned(seen, op.now), op.keys, op.now, key);
      if Longest(seen, op.keys, op.now) == 0 && Names(op.keys, key.key) {
        LongestZero(seen, op.keys, op.now, key.key);
      }
    }
  }

  lemma {:induction false} SteadyFront(ops: seq<Op>, op: Op, key: RateKey)
    requires Steady(ops + [op], key)
    ensures Steady(ops, key) && (|ops| > 0 ==> ops[|ops| - 1].now <= op.now)
            && After(ops + [op]) == Step(After(ops), op)
    ensures Once(op.keys, key) && (op.Clear? ==> !Names(op.keys, key.key))
  {
    hide Step, Once;
    var all := ops + [op];
    assert all[..|ops|] == ops && all[|ops|] == op && forall i :: 0 <= i < |ops| ==> all[i] == ops[i];
  }

  predicate BlockOk(a: Attempt) {
    a.blockedUntil.Some? ==> a.updatedAt < a.blockedUntil.value <= a.updatedAt + MAX_DELAY
  }

  lemma {:induction false} EntryBlock(a: Attempt, log: seq<Failure>, threshold: int, now: int)
    requires EntryOk(Some(a), log, threshold, now)
    ensures BlockOk(a) && (a.blockedUntil.Some? <==> a.failures >= threshold)
  {
    if a.failures >= threshold {
      DelayGrows(a.failures - threshold, a.failures - threshold);
    }
  }

  /** A block ends at most 15 minutes after the last failure. It never moves back while the entry
      lasts: only a reset, which starts the count again at one, ends it. */
  lemma {:induction false} BlockEnd(ops: seq<Op>, op: Op, key: RateKey)
    requires Steady(ops + [op], key)
    ensures var m, m' := After(ops), After(ops + [op]);
            && (key.key in m' ==> BlockOk(m'[key.key]))
            && (key.key in m && key.key in m' && m[key.key].blockedUntil.Some? && m'[key.key].failures > 1 ==>
                  m'[key.key].blockedUntil.Some? && m'[key.key].blockedUntil.value >= m[key.key].blockedUntil.value)
  {
    hide Delay, After, Step, Log, Chain, Steady, Once;
    SteadyFront(ops, op, key);
    var m, m' := After(ops), After(ops + [op]);
    RunOk(ops + [op], key, op.now);
    RunOk(ops, key, op.now);
    EntryMoves(m, op, key);
    if key.key in m {
      EntryBlock(m[key.key], Log(ops, key.key), key.threshold, op.now);
    }
    if key.key in m' {
      EntryBlock(m'[key.key], Log(ops + [op], key.key), key.threshold, op.now);
    }
  }

  // ---------------------------------------------------------------- overlapping requests

  /** Wait and Fail are two calls, each under the lock on its own. Requests that overlap make any
      sequence of calls, and a failure carries the time at which its request was admitted. */
  datatype Call =
    | Waited(keys: seq<RateKey>, now: int) | FailedFor(keys: seq<RateKey>, now: int) | Succeeded(keys: seq<RateKey>)

  function Apply(m: Attempts, call: Call): Attempts {
    match call
    case Waited(_, now) => Pruned(m, now)
    case FailedFor(keys, now) => FailedAll(Pruned(m, now), keys, now)
    case Succeeded(keys) => Cleared(m, keys)
  }

  function Called(calls: seq<Call>): Attempts {
    if |calls| == 0 then map[] else Apply(Called(calls[..|calls| - 1]), calls[|calls| - 1])
  }

  /** The limiter object under any sequence of calls. */
  method Answer(l: Limiter, calls: seq<Call>)
    requires l.attempts == map[]
    modifies l
    ensures l.attempts == Called(calls)
  {
    hide Pruned, Longest, FailedAll, Cleared;
    for i := 0 to |calls|
      invariant l.attempts == Called(calls[..i])
    {
      var call := calls[i];
      assert calls[..i + 1][..i] == calls[..i] && calls[..i + 1][i] == call;
      match call {
        case Waited(keys, now) => var _ := l.Wait(keys, now);
        case FailedFor(keys, now) => var _ := l.Fail(keys, now);
        case Succeeded(keys) => l.Succeed(keys);
      }
    }
    assert calls[..|calls|] == calls;
  }

  /** A call names the key at most once, with its own threshold. */
  predicate Regular(call: Call, key: RateKey) { call.FailedFor? ==> Once(call.keys, key) }

  predicate AllRegular(calls: seq<Call>, key: RateKey) { forall i :: 0 <= i < |calls| ==> Regular(calls[i], key) }

  /** The block of an entry, from its count and its last failure. */
  function BlockOf(a: Attempt, threshold: int): Option<int> {
    if a.failures >= threshold then Some(a.updatedAt + Delay(a.failures - threshold)) else None
  }

  predicate Kept(e: Option<Attempt>, threshold: int) {
    e.Some? ==> e.value.failures >= 1 && e.value.blockedUntil == BlockOf(e.value, threshold)
  }

  lemma {:induction false} FailedKept(e: Option<Attempt>, threshold: int, now: int)
    requires Kept(e, threshold)
    ensures Kept(Some(Failed(e, threshold, now)), threshold)
  {
    hide Delay;
  }

  /** One call removes the key's entry, leaves it alone, or counts a failure on what the prune left. */
  lemma {:induction false} ApplyAt(m: Attempts, call: Call, key: RateKey)
    requires Regular(call, key)
    ensures var e, e' := Entry(m, key.key), Entry(Apply(m, call), key.key);
            match call
            case Waited(_, now) => e' == Entry(Pruned(m, now), key.key)
            case FailedFor(keys, now) =>
              var left := Entry(Pruned(m, now), key.key);
              e' == if Names(keys, key.key) then Some(Failed(left, key.threshold, now)) else left
            case Succeeded(keys) => e' == if Names(keys, key.key) then None else e
  {
    hide Failed, Pruned;
    if call.FailedFor? {
      FailedAllAt(Pruned(m, call.now), call.keys, call.now, key);
    }
  }

  /** A full table forgets a key an hour after its last failure, once its block has ended. */
  predicate Forgets(m: Attempts, now: int, key: string) { key in m && |m| >= PRUNE_SIZE && Stale(m[key], now) }

  lemma {:induction false} PrunedAt(m: Attempts, now: int, key: string)
    ensures Entry(Pruned(m, now), key) == if Forgets(m, now, key) then None else Entry(m, key)
  {
  }

  /** Whatever the calls and their times, an entry's block is its last failure's time and its delay. */
  lemma {:induction false} CalledKept(calls: seq<Call>, key: RateKey)
    requires AllRegular(calls, key)
    ensures Kept(Entry(Called(calls), key.key), key.threshold)
    decreases |calls|
  {
    hide Failed, Pruned, Apply, Delay, Kept;
    if |calls| == 0 {
      NoEntryKept(key.threshold);
    } else {
      var front, call := calls[..|calls| - 1], calls[|calls| - 1];
      CalledKept(front, key);
      NoEntryKept(key.threshold);
      ApplyAt(Called(front), call, key);
      if !call.Succeeded? {
        PrunedAt(Called(front), call.now, key.key);
        FailedKept(Entry(Pruned(Called(front), call.now), key.key), key.threshold, call.now);
      }
    }
  }

  lemma {:induction false} NoEntryKept(threshold: int)
    ensures Kept(None, threshold)
  {
  }

  /** How much longer the next block would be than the present one. */
  function Growth(failures: nat, threshold: int): int
    requires failures >= threshold
  {
    Delay(failures + 1 - threshold) - Delay(failures - threshold)
  }

  function End(m: Attempts, key: string): Option<int> { if key in m then m[key].blockedUntil else None }

  /** Main result on overlapping requests. After any calls at any times, prunes included, one more call
      moves the end of a key's block back if and only if it is a failure of that key which comes later
      than its time by more than the block grows. */
  lemma {:induction false} BlockMovesBackIff(calls: seq<Call>, call: Call, key: RateKey)
    requires AllRegular(calls + [call], key)
    ensures var m, m' := Called(calls), Called(calls + [call]);
            End(m, key.key).Some? && End(m', key.key).Some? ==>
              (End(m', key.key).value < End(m, key.key).value <==>
               && call.FailedFor? && Names(call.keys, key.key) && m[key.key].failures >= key.threshold
               && m[key.key].updatedAt - call.now > Growth(m[key.key].failures, key.threshold))
  {
    hide Pruned, Apply, Delay, Called, Names;
    LastCall(calls, call, key);
    var m := Called(calls);
    CalledKept(calls, key);
    ApplyAt(m, call, key);
    if !call.Succeeded? {
      PrunedAt(m, call.now, key.key);
    }
    if key.key in m && m[key.key].failures >= key.threshold {
      DelayGrows(m[key.key].failures - key.threshold, m[key.key].failures + 1 - key.threshold);
    }
    if 1 >= key.threshold {
      DelayGrows(1 - key.threshold, 1 - key.threshold);
    }
  }

  lemma {:induction false} LastCall(calls: seq<Call>, call: Call, key: RateKey)
    requires AllRegular(calls + [call], key)
    ensures AllRegular(calls, key) && Regular(call, key) && Called(calls + [call]) == Apply(Called(calls), call)
  {
    hide Apply, Regular;
    var all := calls + [call];
    assert all[..|calls|] == calls && all[|calls|] == call && forall i :: 0 <= i < |calls| ==> all[i] == calls[i];
  }

  /** A block disappears if and only if a success clears it, or the table forgets it after its end and
      the call does not start a new one. */
  lemma {:induction false} BlockGoesIff(calls: seq<Call>, call: Call, key: RateKey)
    requires AllRegular(calls + [call], key)
    ensures var m, m' := Called(calls), Called(calls + [call]);
            End(m, key.key).Some? ==>
              (End(m', key.key).None? <==>
               if call.Succeeded? then Names(call.keys, key.key)
               else && Forgets(m, call.now, key.key)
                    && (call.FailedFor? && Names(call.keys, key.key) ==> key.threshold > 1))
  {
    hide Pruned, Apply, Delay, Called, Names;
    LastCall(calls, call, key);
    var m := Called(calls);
    CalledKept(calls, key);
    ApplyAt(m, call, key);
    if !call.Succeeded? {
      PrunedAt(m, call.now, key.key);
    }
  }

  /** From the sixth block on the delay no longer grows, so a failure moves the end back by as much
      as it is late. */
  lemma {:induction false} LateBySeconds(calls: seq<Call>, key: RateKey, late: nat)
    requires AllRegular(calls, key) && key.key in Called(calls)
             && Called(calls)[key.key].failures >= key.threshold + 5
    ensures var m := Called(calls);
            var call := FailedFor([key], m[key.key].updatedAt - late);
            && End(m, key.key) == Some(m[key.key].updatedAt + MAX_DELAY)
            && End(Called(calls + [call]), key.key) == Some(m[key.key].updatedAt + MAX_DELAY - late)
  {
    hide Pruned, Apply, Called, Shift;
    var m := Called(calls);
    var call := FailedFor([key], m[key.key].updatedAt - late);
    assert Regular(call, key) && [key][0].key == key.key;
    RegularSnoc(calls, call, key);
    LastCall(calls, call, key);
    CalledKept(calls, key);
    ApplyAt(m, call, key);
    PrunedAt(m, call.now, key.key);
    assert Shift(5) == 32 by { ShiftFive(); }
  }

  lemma {:induction false} ShiftFive()
    ensures Shift(5) == 32
  {
    assert Shift(1) == 2 && Shift(2) == 4 && Shift(3) == 8 && Shift(4) == 16;
  }

  lemma {:induction false} RegularSnoc(calls: seq<Call>, call: Call, key: RateKey)
    requires AllRegular(calls, key) && Regular(call, key)
    ensures AllRegular(calls + [call], key)
  {
  }

  // ---------------------------------------------------------------- a run in which one second is too late

  /** Every failure belongs to a request that waited at the same time and found the key free. */
  predicate Admitted(calls: seq<Call>, key: string) {
    forall j :: 0 <= j < |calls| && calls[j].FailedFor? ==> FreeBefore(calls, key, j, calls[j].now)
  }

  predicate Free(calls: seq<Call>, key: string, i: nat, now: int)
    requires i < |calls|
  {
    calls[i] == Waited([RateKey(key, 1)], now) && Longest(Called(calls[..i + 1]), calls[i].keys, now) == 0
  }

  predicate FreeBefore(calls: seq<Call>, key: string, j: nat, now: int) {
    exists i :: 0 <= i < j && i < |calls| && Free(calls, key, i, now)
  }

  lemma {:induction false} AdmittedSnoc(calls: seq<Call>, call: Call, key: string)
    requires Admitted(calls, key) && (call.FailedFor? ==> FreeBefore(calls, key, |calls|, call.now))
    ensures Admitted(calls + [call], key)
  {
    hide Called, Longest;
    var all := calls + [call];
    forall j | 0 <= j < |all| && all[j].FailedFor? ensures FreeBefore(all, key, j, all[j].now) {
      assert FreeBefore(calls, key, j, all[j].now);
      var i :| 0 <= i < j && i < |calls| && Free(calls, key, i, all[j].now);
      assert all[..i + 1] == calls[..i + 1] && all[i] == calls[i];
      assert Free(all, key, i, all[j].now);
    }
  }

  function Only(key: string, e: Option<Attempt>): Attempts { if e.Some? then map[key := e.value] else map[] }

  lemma {:induction false} Waits(calls: seq<Call>, key: string, e: Option<Attempt>, now: int)
    requires Admitted(calls, key) && Called(calls) == Only(key, e) && (e.Some? ==> !Blocked(e.value, now))
    ensures var more := calls + [Waited([RateKey(key, 1)], now)];
            Admitted(more, key) && Called(more) == Only(key, e) && FreeBefore(more, key, |more|, now)
  {
    var keys := [RateKey(key, 1)];
    var wait := Waited(keys, now);
    var more := calls + [wait];
    assert more[..|calls|] == calls && more[..|calls| + 1] == more && more[|calls|] == wait;
    AdmittedSnoc(calls, wait, key);
    assert |Only(key, e)| <= 1 && keys[..0] == [] && Longest(Only(key, e), [], now) == 0;
    assert Free(more, key, |calls|, now);
  }

  lemma {:induction false} Fails(calls: seq<Call>, key: string, e: Option<Attempt>, now: int)
    requires Admitted(calls, key) && Called(calls) == Only(key, e) && FreeBefore(calls, key, |calls|, now)
    ensures var more := calls + [FailedFor([RateKey(key, 1)], now)];
            Admitted(more, key) && Called(more) == Only(key, Some(Failed(e, 1, now)))
  {
    hide Failed, Admitted, FreeBefore;
    var keys := [RateKey(key, 1)];
    var call := FailedFor(keys, now);
    var more := calls + [call];
    assert more[..|calls|] == calls && more[|calls|] == call;
    AdmittedSnoc(calls, call, key);
    assert |Only(key, e)| <= 1 && Pruned(Only(key, e), now) == Only(key, e);
    assert keys[..0] == [] && FailedAll(Only(key, e), [], now) == Only(key, e);
    assert Entry(Only(key, e), key) == e;
  }

  /** A request that waits and then fails, with nothing in between. */
  lemma {:induction false} TriesAndFails(calls: seq<Call>, key: string, e: Option<Attempt>, now: int)
    returns (more: seq<Call>)
    requires Admitted(calls, key) && Called(calls) == Only(key, e) && (e.Some? ==> !Blocked(e.value, now))
    ensures Admitted(more, key) && Called(more) == Only(key, Some(Failed(e, 1, now)))
  {
    hide Failed, Admitted, Called, FreeBefore;
    Waits(calls, key, e, now);
    var keys := [RateKey(key, 1)];
    Fails(calls + [Waited(keys, now)], key, e, now);
    more := calls + [Waited(keys, now)] + [FailedFor(keys, now)];
  }

  lemma {:induction false} Delays()
    ensures Delay(0) == 30 && Delay(1) == 60 && Delay(2) == 120 && Delay(3) == 240 && Delay(4) == 480
            && Delay(5) == 900 && Delay(6) == 900 && Delay(7) == 900
  {
    assert Shift(0) == 1 && Shift(1) == 2 && Shift(2) == 4 && Shift(3) == 8 && Shift(4) == 16 && Shift(5) == 32;
  }

  /** Six failures, each after the last block, bring the longest delay. */
  lemma {:induction false} SixFailures(key: string) returns (calls: seq<Call>)
    ensures Admitted(calls, key) && Called(calls) == Only(key, Some(Attempt(6, Some(1830), 930)))
  {
    hide Admitted, Called, Delay;
    Delays();
    NoCalls(key);
    calls := TriesAndFails([], key, None, 0);
    calls := TriesAndFails(calls, key, Some(Attempt(1, Some(30), 0)), 30);
    calls := TriesAndFails(calls, key, Some(Attempt(2, Some(90), 30)), 90);
    calls := TriesAndFails(calls, key, Some(Attempt(3, Some(210), 90)), 210);
    calls := TriesAndFails(calls, key, Some(Attempt(4, Some(450), 210)), 450);
    calls := TriesAndFails(calls, key, Some(Attempt(5, Some(930), 450)), 930);
  }

  lemma {:induction false} NoCalls(key: string)
    ensures Admitted([], key) && Called([]) == Only(key, None)
  {
  }

  /** Two requests are admitted one second apart and fail in the other order: the second failure
      moves the end of the block from 2731 back to 2730. */
  lemma {:induction false} OneSecondMovesBlockBack(key: string) returns (calls: seq<Call>)
    ensures |calls| > 0 && Admitted(calls, key)
    ensures End(Called(calls[..|calls| - 1]), key) == Some(2731) && End(Called(calls), key) == Some(2730)
  {
    hide Admitted, Called, Delay, FreeBefore;
    Delays();
    var six := SixFailures(key);
    var keys, e := [RateKey(key, 1)], Some(Attempt(6, Some(1830), 930));
    Waits(six, key, e, 1830);
    var first := six + [Waited(keys, 1830)];
    Waits(first, key, e, 1831);
    var both := first + [Waited(keys, 1831)];
    Fails(both, key, e, 1831);
    var later := both + [FailedFor(keys, 1831)];
    StillFree(first, [Waited(keys, 1831), FailedFor(keys, 1831)], key, 1830);
    assert first + [Waited(keys, 1831), FailedFor(keys, 1831)] == later;
    Fails(later, key, Some(Attempt(7, Some(2731), 1831)), 1830);
    calls := later + [FailedFor(keys, 1830)];
    assert calls[..|calls| - 1] == later;
  }

  lemma {:induction false} StillFree(calls: seq<Call>, more: seq<Call>, key: string, now: int)
    requires FreeBefore(calls, key, |calls|, now)
    ensures FreeBefore(calls + more, key, |calls + more|, now)
  {
    hide Called, Longest;
    var i :| 0 <= i < |calls| && Free(calls, key, i, now);
    assert (calls + more)[..i + 1] == calls[..i + 1] && (calls + more)[i] == calls[i];
    assert Free(calls + more, key, i, now);
  }
}
