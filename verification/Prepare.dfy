/** Prepare: callers, their constructor goroutines and the shared slots, in every interleaving. */
module Prepare {

  const SLOTS: nat := 16

  /** The calling side: waiting for a slot, waiting for the result, returned. */
  datatype Caller = Queued | Awaiting | Returned(source: bool)

  /** The goroutine: what it does next, and whether it holds a source it did not close. */
  datatype Worker = Absent | Constructing | Built(source: bool, failed: bool)
    | Judged(source: bool, failed: bool) | Offering(source: bool) | Leaving | Gone

  /** `made` and `closed` count the call's sources and Close calls; `done` is its context. */
  datatype Call = Call(caller: Caller, worker: Worker, done: bool, made: nat, closed: nat)

  datatype State = State(slots: nat, calls: map<nat, Call>)

  predicate Init(s: State) { s.slots == 0 && s.calls == map[] }

  // ---------------------------------------------------------------- steps

  predicate Enter(s: State, s': State, c: nat) {
    c !in s.calls && s' == s.(calls := s.calls[c := Call(Queued, Absent, false, 0, 0)])
  }

  /** The caller gives up, or its timeout passes. */
  predicate Expire(s: State, s': State, c: nat) {
    c in s.calls && s' == s.(calls := s.calls[c := s.calls[c].(done := true)])
  }

  predicate TakeSlot(s: State, s': State, c: nat) {
    && c in s.calls && s.calls[c].caller == Queued && s.slots < SLOTS
    && s' == State(s.slots + 1, s.calls[c := s.calls[c].(caller := Awaiting, worker := Constructing)])
  }

  /** Returning cancels the context. */
  predicate Abort(s: State, s': State, c: nat) {
    && c in s.calls && s.calls[c].caller in {Queued, Awaiting} && s.calls[c].done
    && s' == s.(calls := s.calls[c := s.calls[c].(caller := Returned(false))])
  }

  /** construct() returns a source, a typed nil or nothing, each with or without an error. */
  predicate Construct(s: State, s': State, c: nat, source: bool, failed: bool) {
    && c in s.calls && s.calls[c].worker == Constructing
    && var built := Built(source, failed || !source);
       s' == s.(calls := s.calls[c := s.calls[c].(worker := built, made := if source then 1 else 0)])
  }

  predicate Check(s: State, s': State, c: nat, unhealthy: bool) {
    && c in s.calls && s.calls[c].worker.Built?
    && var w := s.calls[c].worker;
       s' == s.(calls := s.calls[c := s.calls[c].(worker := Judged(w.source, w.failed || unhealthy))])
  }

  /** A source that failed is closed before anything is offered. */
  predicate Settle(s: State, s': State, c: nat) {
    && c in s.calls && s.calls[c].worker.Judged?
    && var call := s.calls[c];
       var drop := call.worker.source && call.worker.failed;
       var offer := Offering(call.worker.source && !drop);
       s' == s.(calls := s.calls[c := call.(worker := offer, closed := call.closed + if drop then 1 else 0)])
  }

  /** The unbuffered channel: sender and receiver meet in one step. */
  predicate HandOver(s: State, s': State, c: nat) {
    && c in s.calls && s.calls[c].worker.Offering? && s.calls[c].caller == Awaiting
    && var caller := Returned(s.calls[c].worker.source);
       s' == s.(calls := s.calls[c := s.calls[c].(worker := Leaving, caller := caller, done := true)])
  }

  predicate Discard(s: State, s': State, c: nat) {
    && c in s.calls && s.calls[c].worker.Offering? && s.calls[c].done
    && var call := s.calls[c];
       var closed := call.closed + if call.worker.source then 1 else 0;
       s' == s.(calls := s.calls[c := call.(worker := Leaving, closed := closed)])
  }

  predicate FreeSlot(s: State, s': State, c: nat) {
    && c in s.calls && s.calls[c].worker == Leaving && s.slots > 0
    && s' == State(s.slots - 1, s.calls[c := s.calls[c].(worker := Gone)])
  }

  predicate Move(s: State, s': State, c: nat) {
    || Enter(s, s', c) || Expire(s, s', c) || TakeSlot(s, s', c) || Abort(s, s', c)
    || (exists source, failed :: Construct(s, s', c, source, failed))
    || (exists unhealthy :: Check(s, s', c, unhealthy))
    || Settle(s, s', c) || HandOver(s, s', c) || Discard(s, s', c) || FreeSlot(s, s', c)
  }

  ghost predicate Next(s: State, s': State) { exists c :: Move(s, s', c) }

  // ---------------------------------------------------------------- the invariant

  /** Sources this call's goroutine still holds. */
  function Held(w: Worker): nat {
    match w
    case Built(source, _) => if source then 1 else 0
    case Judged(source, _) => if source then 1 else 0
    case Offering(source) => if source then 1 else 0
    case _ => 0
  }

  /** Every source is held, closed or returned, and only one of them. */
  predicate CallOk(call: Call) {
    && call.made == Held(call.worker) + call.closed + (if call.caller == Returned(true) then 1 else 0)
    && call.made <= 1
    && (call.caller.Returned? ==> call.done)
    && (call.worker == Absent ==> call.caller != Awaiting && call.made == 0)
    && (call.worker != Absent ==> call.caller != Queued)
    && (call.worker == Constructing ==> call.made == 0)
    && ((call.worker.Built? || call.worker.Judged?) && !call.worker.source ==> call.worker.failed)
    && (call.caller == Awaiting ==> call.worker !in {Leaving, Gone} || call.done)
    && (call.caller == Returned(true) ==> call.worker in {Leaving, Gone})
  }

  predicate Busy(call: Call) { call.worker != Absent && call.worker != Gone }

  function BusyCalls(s: State): set<nat> { set c | c in s.calls && Busy(s.calls[c]) }

  predicate Inv(s: State) {
    && s.slots == |BusyCalls(s)| <= SLOTS
    && forall c :: c in s.calls ==> CallOk(s.calls[c])
  }

  /** A step changes one call, and the slot count by what that call's goroutine does. */
  lemma {:induction false} OwnCall(s: State, s': State, c: nat)
    requires Move(s, s', c) && (c in s.calls ==> CallOk(s.calls[c])) && s.slots <= SLOTS
    ensures c in s'.calls && s'.calls == s.calls[c := s'.calls[c]] && CallOk(s'.calls[c]) && s'.slots <= SLOTS
    ensures s'.slots - s.slots ==
            (if Busy(s'.calls[c]) then 1 else 0) - (if c in s.calls && Busy(s.calls[c]) then 1 else 0)
  {
  }

  lemma {:induction false} MoveKeeps(s: State, s': State, c: nat)
    requires Inv(s) && Move(s, s', c)
    ensures Inv(s')
  {
    hide Move, CallOk;
    OwnCall(s, s', c);
    var before, after := BusyCalls(s), BusyCalls(s');
    if c in after && c !in before {
      assert after == before + {c};
    } else if c in before && c !in after {
      assert after == before - {c};
    } else {
      assert after == before;
    }
  }

  // ---------------------------------------------------------------- whole runs

  ghost predicate Run(tr: seq<State>) {
    |tr| > 0 && Init(tr[0]) && forall i :: 0 <= i < |tr| - 1 ==> Next(tr[i], tr[i + 1])
  }

  lemma {:induction false} RunInv(tr: seq<State>, i: nat)
    requires Run(tr) && i < |tr|
    ensures Inv(tr[i])
    decreases i
  {
    hide Move;
    if i > 0 {
      RunInv(tr, i - 1);
      assert Next(tr[i - 1], tr[i]);
      var c :| Move(tr[i - 1], tr[i], c);
      MoveKeeps(tr[i - 1], tr[i], c);
    } else {
      assert BusyCalls(tr[0]) == {};
    }
  }

  /** Main result. At any moment at most 16 constructors run. A call's source is closed at most once and
      never after it was returned; once the goroutine is gone, a source that was made has either been
      returned, with a nil error, or closed exactly once. */
  lemma {:induction false} ReturnedOrClosed(tr: seq<State>, i: nat, c: nat)
    requires Run(tr) && i < |tr| && c in tr[i].calls
    ensures |BusyCalls(tr[i])| <= SLOTS && tr[i].slots == |BusyCalls(tr[i])|
    ensures var call := tr[i].calls[c];
            && call.closed <= call.made <= 1
            && !(call.caller == Returned(true) && call.closed > 0)
            && (call.caller == Returned(true) ==> call.made == 1)
            && (call.worker == Gone && call.made == 1 ==> (call.caller == Returned(true) <==> call.closed == 0))
  {
    RunInv(tr, i);
    assert CallOk(tr[i].calls[c]);
  }

  /** No goroutine is left behind: from wherever it is, its own next step is possible. */
  lemma {:induction false} WorkerCanMove(tr: seq<State>, i: nat, c: nat) returns (s': State)
    requires Run(tr) && i < |tr| && c in tr[i].calls && Busy(tr[i].calls[c])
    ensures Next(tr[i], s') && s'.calls[c].worker != tr[i].calls[c].worker
    ensures tr[i].calls[c].worker == Leaving ==> s'.slots == tr[i].slots - 1
  {
    RunInv(tr, i);
    var s := tr[i];
    var call := s.calls[c];
    assert CallOk(call);
    match call.worker {
      case Constructing =>
        s' := s.(calls := s.calls[c := call.(worker := Built(true, false), made := 1)]);
        assert Construct(s, s', c, true, false);
      case Built(source, failed) =>
        s' := s.(calls := s.calls[c := call.(worker := Judged(source, failed || false))]);
        assert Check(s, s', c, false);
      case Judged(source, failed) =>
        var drop := source && failed;
        var offer := Offering(source && !drop);
        s' := s.(calls := s.calls[c := call.(worker := offer, closed := call.closed + if drop then 1 else 0)]);
        assert Settle(s, s', c);
      case Offering(source) =>
        if call.caller == Awaiting {
          s' := s.(calls := s.calls[c := call.(worker := Leaving, caller := Returned(source), done := true)]);
          assert HandOver(s, s', c);
        } else {
          s' := s.(calls := s.calls[c := call.(worker := Leaving, closed := call.closed + if source then 1 else 0)]);
          assert Discard(s, s', c);
        }
      case Leaving =>
        assert c in BusyCalls(s);
        s' := State(s.slots - 1, s.calls[c := call.(worker := Gone)]);
        assert FreeSlot(s, s', c);
    }
    assert Move(s, s', c);
  }
}
