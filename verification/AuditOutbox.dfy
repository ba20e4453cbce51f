/** The audit outbox as a state machine: concurrent Record calls, the drain, retention, lost replies
    and crashes, in every interleaving. The two tables survive a crash; everything else does not. */
module AuditOutbox {
  import opened AuditPaging

  // ---------------------------------------------------------------- tables keyed by id

  predicate Has(rows: seq<Event>, id: string) { exists i :: 0 <= i < |rows| && rows[i].id == id }

  /** INSERT ... ON CONFLICT(id) DO NOTHING. */
  function Put(rows: seq<Event>, e: Event): seq<Event> { if Has(rows, e.id) then rows else rows + [e] }

  /** DELETE ... WHERE id = ?. */
  function Without(rows: seq<Event>, id: string): seq<Event> {
    if |rows| == 0 then [] else (if rows[0].id == id then [] else [rows[0]]) + Without(rows[1..], id)
  }

  /** DELETE ... WHERE occurred_at < ?. */
  function Since(rows: seq<Event>, cutoff: int): seq<Event> {
    if |rows| == 0 then [] else (if rows[0].time < cutoff then [] else [rows[0]]) + Since(rows[1..], cutoff)
  }

  lemma {:induction false} PutIs(rows: seq<Event>, e: Event)
    requires Keyed(rows)
    ensures Keyed(Put(rows, e)) && Has(Put(rows, e), e.id)
    ensures forall x :: x in Put(rows, e) ==> x in rows || x == e
    ensures forall id :: Has(rows, id) ==> Has(Put(rows, e), id)
  {
    var out := Put(rows, e);
    if !Has(rows, e.id) {
      assert out[|rows|] == e;
      forall id | Has(rows, id) ensures Has(out, id) {
        var i :| 0 <= i < |rows| && rows[i].id == id;
        assert out[i] == rows[i];
      }
    }
  }

  lemma {:induction false} Sifted(rows: seq<Event>, e: Event, out: seq<Event>)
    requires Keyed(rows) && |rows| > 0 && Keyed(out) && (forall x :: x in out ==> x in rows[1..]) && e == rows[0]
    ensures Keyed([e] + out) && Keyed(rows[1..])
  {
    forall j | 0 <= j < |out| ensures out[j].id != e.id {
      assert out[j] in rows[1..];
      var k :| 0 <= k < |rows[1..]| && rows[1..][k] == out[j];
      assert rows[k + 1] == out[j];
    }
  }

  lemma {:induction false} WithoutIs(rows: seq<Event>, id: string)
    requires Keyed(rows)
    ensures Keyed(Without(rows, id)) && !Has(Without(rows, id), id)
    ensures forall x :: x in Without(rows, id) <==> x in rows && x.id != id
    decreases |rows|
  {
    if |rows| > 0 {
      assert rows == [rows[0]] + rows[1..];
      WithoutIs(rows[1..], id);
      Sifted(rows, rows[0], Without(rows[1..], id));
    }
  }

  lemma {:induction false} SinceIs(rows: seq<Event>, cutoff: int)
    requires Keyed(rows)
    ensures Keyed(Since(rows, cutoff)) && forall x :: x in Since(rows, cutoff) <==> x in rows && x.time >= cutoff
    decreases |rows|
  {
    if |rows| > 0 {
      assert rows == [rows[0]] + rows[1..];
      SinceIs(rows[1..], cutoff);
      Sifted(rows, rows[0], Since(rows[1..], cutoff));
    }
  }

  lemma HasMember(rows: seq<Event>, id: string)
    ensures Has(rows, id) <==> exists x :: x in rows && x.id == id
  {
    if x :| x in rows && x.id == id {
      var i :| 0 <= i < |rows| && rows[i] == x;
    }
  }

  // ---------------------------------------------------------------- states

  /** Where a Record call is. */
  datatype Phase = Deciding | Checking | Writing | Queueing | Queued | Counted | Losing | Marked | Acked | Refused

  datatype Record = Record(event: Event, phase: Phase)

  /** Where the one drain is: between items, after an item was written, or closing the batch. */
  datatype Drain = Idle | Items(todo: seq<Event>) | Written(item: Event, todo: seq<Event>)
    | Tallied(count: nat) | Stored(count: nat)

  /** `used`, `acked` and `purged` are history: events by id, ids whose Record returned nil, and ids
      retention removed. `process` counts crashes. */
  datatype State = State(
    table: seq<Event>, outbox: seq<Event>,
    pending: int, writeBad: bool, lost: bool, retainBad: bool, records: map<nat, Record>, drain: Drain,
    used: map<string, Event>, acked: set<string>, purged: set<string>, process: nat)

  predicate Init(s: State) {
    && s.table == [] && s.outbox == [] && s.used == map[] && s.acked == {} && s.purged == {} && s.process == 0
    && s.pending == 0 && !s.writeBad && !s.lost && !s.retainBad && s.records == map[] && s.drain == Idle
  }

  /** Health reports nil only in states like this one. */
  predicate Healthy(s: State) { !s.lost && !s.retainBad && s.pending <= 0 && !s.writeBad }

  // ---------------------------------------------------------------- steps of Record

  // `applied` says that the database performed a statement, `ok` that the caller was told so: a
  // statement can fail after it was performed, but not succeed without.

  predicate In(s: State, r: nat, phase: Phase) { r in s.records && s.records[r].phase == phase }

  function To(s: State, r: nat, phase: Phase): State
    requires r in s.records
  {
    s.(records := s.records[r := s.records[r].(phase := phase)])
  }

  function Ack(s: State, r: nat): State
    requires r in s.records
  {
    To(s, r, Acked).(acked := s.acked + {s.records[r].event.id})
  }

  /** Ids are chosen fresh, or name the same event again. */
  predicate Begin(s: State, s': State, r: nat, e: Event) {
    && r !in s.records && (e.id in s.used ==> s.used[e.id] == e)
    && s' == s.(records := s.records[r := Record(e, Deciding)], used := s.used[e.id := e])
  }

  predicate Decide(s: State, s': State, r: nat) {
    In(s, r, Deciding) && s' == To(s, r, if s.writeBad then Queueing else Checking)
  }

  predicate Check(s: State, s': State, r: nat) {
    In(s, r, Checking) && s' == To(s, r, if s.pending > 0 then Queueing else Writing)
  }

  predicate Write(s: State, s': State, r: nat, applied: bool, ok: bool) {
    && In(s, r, Writing) && (ok ==> applied)
    && var t := if applied then s.(table := Put(s.table, s.records[r].event)) else s;
       s' == if ok then Ack(t, r) else To(t, r, Queueing)
  }

  predicate Enqueue(s: State, s': State, r: nat, applied: bool, ok: bool) {
    && In(s, r, Queueing) && (ok ==> applied)
    && var t := if applied then s.(outbox := Put(s.outbox, s.records[r].event)) else s;
       s' == To(t, r, if ok then Queued else Losing)
  }

  predicate AddPending(s: State, s': State, r: nat) {
    In(s, r, Queued) && s' == To(s, r, Counted).(pending := s.pending + 1)
  }

  predicate FlagBacklog(s: State, s': State, r: nat) { In(s, r, Counted) && s' == Ack(s, r).(writeBad := true) }

  predicate MarkLost(s: State, s': State, r: nat) { In(s, r, Losing) && s' == To(s, r, Marked).(lost := true) }

  predicate MarkBad(s: State, s': State, r: nat) { In(s, r, Marked) && s' == To(s, r, Refused).(writeBad := true) }

  // ---------------------------------------------------------------- steps of the drain

  predicate Abandon(s: State, s': State) { s' == s.(writeBad := true, drain := Idle) }

  predicate DrainList(s: State, s': State, items: seq<Event>, ok: bool) {
    && s.drain == Idle && (forall x :: x in items ==> x in s.outbox)
    && if ok then s' == s.(drain := Items(items)) else Abandon(s, s')
  }

  predicate DrainWrite(s: State, s': State, applied: bool, ok: bool) {
    && s.drain.Items? && |s.drain.todo| > 0 && (ok ==> applied)
    && var item := s.drain.todo[0];
       var t := if applied then s.(table := Put(s.table, item)) else s;
       if ok then s' == t.(drain := Written(item, s.drain.todo[1..])) else Abandon(t, s')
  }

  /** A row that is already gone counts as deleted. */
  predicate DrainDelete(s: State, s': State, applied: bool, ok: bool) {
    && s.drain.Written? && (ok ==> applied)
    && var t := if applied then s.(outbox := Without(s.outbox, s.drain.item.id)) else s;
       if ok then s' == t.(pending := s.pending - 1, drain := Items(s.drain.todo)) else Abandon(t, s')
  }

  predicate DrainCount(s: State, s': State, ok: bool) {
    && s.drain == Items([])
    && if ok then s' == s.(drain := Tallied(|s.outbox|)) else Abandon(s, s')
  }

  predicate DrainStore(s: State, s': State) {
    s.drain.Tallied? && s' == s.(pending := s.drain.count, drain := Stored(s.drain.count))
  }

  predicate DrainSettle(s: State, s': State) {
    s.drain.Stored? && s' == s.(writeBad := s.drain.count > 0 || s.lost, drain := Idle)
  }

  // ---------------------------------------------------------------- retention and crashes

  function Ids(rows: seq<Event>): set<string> { set i | 0 <= i < |rows| :: rows[i].id }

  predicate Purge(s: State, s': State, cutoff: int, applied: bool, ok: bool) {
    && (ok ==> applied)
    && var kept := if applied then Since(s.table, cutoff) else s.table;
       s' == s.(table := kept, retainBad := !ok, purged := s.purged + (Ids(s.table) - Ids(kept)))
  }

  /** The process stops anywhere and starts again over the same two tables. */
  predicate Crash(s: State, s': State) {
    s' == s.(pending := |s.outbox|, writeBad := |s.outbox| > 0, lost := false, retainBad := false,
             records := map[], drain := Idle, process := s.process + 1)
  }

  predicate RecordStep(s: State, s': State, r: nat) {
    || Decide(s, s', r) || Check(s, s', r)
    || (exists applied, ok :: Write(s, s', r, applied, ok))
    || (exists applied, ok :: Enqueue(s, s', r, applied, ok))
    || AddPending(s, s', r) || FlagBacklog(s, s', r) || MarkLost(s, s', r) || MarkBad(s, s', r)
  }

  ghost predicate DrainStep(s: State, s': State) {
    || (exists items, ok :: DrainList(s, s', items, ok))
    || (exists applied, ok :: DrainWrite(s, s', applied, ok))
    || (exists applied, ok :: DrainDelete(s, s', applied, ok))
    || (exists ok :: DrainCount(s, s', ok))
    || DrainStore(s, s') || DrainSettle(s, s')
  }

  ghost predicate Next(s: State, s': State) {
    || (exists r, e :: Begin(s, s', r, e))
    || (exists r :: RecordStep(s, s', r))
    || DrainStep(s, s')
    || (exists cutoff, applied, ok :: Purge(s, s', cutoff, applied, ok))
    || Crash(s, s')
  }

  // ---------------------------------------------------------------- the invariant

  predicate Safe(s: State, id: string) { Has(s.table, id) || Has(s.outbox, id) || id in s.purged }

  predicate Known(s: State, e: Event) { e.id in s.used && s.used[e.id] == e }

  predicate RowsOk(s: State) {
    && Keyed(s.table) && Keyed(s.outbox)
    && (forall x :: x in s.table ==> Known(s, x)) && (forall x :: x in s.outbox ==> Known(s, x))
  }

  /** Every acknowledged event is in a table or was removed by retention. */
  predicate AckedOk(s: State) { forall id :: id in s.acked ==> Safe(s, id) }

  /** A queued event is safe already; a refused one has marked the process. */
  predicate RecordOk(s: State, r: Record) {
    && Known(s, r.event)
    && (r.phase in {Queued, Counted} ==> Safe(s, r.event.id))
    && (r.phase in {Marked, Refused} ==> s.lost)
  }

  predicate RecordsOk(s: State) { forall r :: r in s.records ==> RecordOk(s, s.records[r]) }

  /** An item leaves the outbox only when it is in the table, or was and retention removed it. */
  predicate DrainOk(s: State) {
    match s.drain
    case Items(todo) => forall x :: x in todo ==> Known(s, x)
    case Written(item, todo) => (Has(s.table, item.id) || item.id in s.purged) && forall x :: x in todo ==> Known(s, x)
    case _ => true
  }

  predicate Inv(s: State) { RowsOk(s) && AckedOk(s) && RecordsOk(s) && DrainOk(s) }

  /** What every step keeps of an event that is safe. */
  ghost predicate Keeps(s: State, s': State) {
    && (forall id :: Safe(s, id) ==> Safe(s', id))
    && (forall id :: Has(s.table, id) || id in s.purged ==> Has(s'.table, id) || id in s'.purged)
    && (forall e :: Known(s, e) ==> Known(s', e))
    && s.acked <= s'.acked && s.process <= s'.process
    && (s'.process == s.process && s.lost ==> s'.lost)
  }

  // ---------------------------------------------------------------- table steps

  /** An insert into the audit table or the outbox. */
  lemma {:induction false} PutKeeps(s: State, s': State, e: Event)
    requires RowsOk(s) && Known(s, e)
    requires s' == s.(table := Put(s.table, e)) || s' == s.(outbox := Put(s.outbox, e)) || s' == s
    ensures RowsOk(s') && Keeps(s, s')
    ensures s'.table == Put(s.table, e) ==> Has(s'.table, e.id)
    ensures s'.outbox == Put(s.outbox, e) ==> Has(s'.outbox, e.id)
  {
    hide Put, Has;
    PutIs(s.table, e);
    PutIs(s.outbox, e);
  }

  lemma {:induction false} DeleteKeeps(s: State, s': State, id: string)
    requires RowsOk(s) && (Has(s.table, id) || id in s.purged) && s' == s.(outbox := Without(s.outbox, id))
    ensures RowsOk(s') && Keeps(s, s')
  {
    hide Has, Without;
    WithoutIs(s.outbox, id);
    forall x | Has(s.outbox, x) ensures Has(s'.outbox, x) || x == id {
      HasMember(s.outbox, x);
      HasMember(s'.outbox, x);
    }
  }

  lemma {:induction false} PurgeKeeps(s: State, s': State, cutoff: int, applied: bool, ok: bool)
    requires RowsOk(s) && Purge(s, s', cutoff, applied, ok)
    ensures RowsOk(s') && Keeps(s, s')
  {
    hide Has, Since;
    SinceIs(s.table, cutoff);
    forall id | Has(s.table, id) ensures Has(s'.table, id) || id in s'.purged {
      HasId(s.table, id);
      HasId(s'.table, id);
    }
  }

  lemma HasId(rows: seq<Event>, id: string)
    ensures Has(rows, id) <==> id in Ids(rows)
  {
  }

  /** After a step that keeps safe events safe, only what it changed itself is left to check. */
  lemma {:induction false} Rest(s: State, s': State)
    requires Inv(s) && Keeps(s, s') && RowsOk(s')
    requires s'.acked == s.acked && s'.records == s.records && s'.drain == s.drain && s'.process == s.process
    ensures Inv(s')
  {
    hide Safe, RowsOk, Has, Known;
    forall r | r in s'.records ensures RecordOk(s', s'.records[r]) {
      assert RecordOk(s, s.records[r]);
    }
  }

  lemma {:induction false} KeepsTwice(s: State, t: State, u: State)
    requires Keeps(s, t) && Keeps(t, u)
    ensures Keeps(s, u)
  {
    hide Safe, Has, Known;
  }

  // ---------------------------------------------------------------- every step keeps the invariant

  /** A record moves on; its own obligations hold in the new phase. */
  lemma {:induction false} PhaseKeeps(s: State, s': State, r: nat, phase: Phase, pending: int,
      writeBad: bool, lost: bool)
    requires Inv(s) && r in s.records && (s.lost ==> lost)
    requires s' == To(s, r, phase).(pending := pending, writeBad := writeBad, lost := lost)
    requires (phase in {Queued, Counted} ==> Safe(s, s.records[r].event.id)) && (phase in {Marked, Refused} ==> lost)
    ensures Inv(s') && Keeps(s, s')
  {
    hide Has, Keyed;
    forall q | q in s'.records ensures RecordOk(s', s'.records[q]) {
      assert RecordOk(s, s.records[q]);
    }
  }

  lemma {:induction false} AckKeeps(s: State, s': State, r: nat, writeBad: bool)
    requires Inv(s) && r in s.records && Safe(s, s.records[r].event.id) && s' == Ack(s, r).(writeBad := writeBad)
    ensures Inv(s') && Keeps(s, s')
  {
    hide Has, Keyed;
    var t := To(s, r, Acked).(writeBad := writeBad);
    PhaseKeeps(s, t, r, Acked, s.pending, writeBad, s.lost);
    forall q | q in s'.records ensures RecordOk(s', s'.records[q]) {
      assert RecordOk(t, t.records[q]);
    }
  }

  lemma {:induction false} WriteKeeps(s: State, s': State, r: nat, applied: bool, ok: bool)
    requires Inv(s) && Write(s, s', r, applied, ok)
    ensures Inv(s') && Keeps(s, s')
  {
    hide Has, Put, RowsOk, AckedOk, DrainOk;
    var e := s.records[r].event;
    assert RecordOk(s, s.records[r]);
    var t := if applied then s.(table := Put(s.table, e)) else s;
    PutKeeps(s, t, e);
    Rest(s, t);
    if ok {
      AckKeeps(t, s', r, t.writeBad);
    } else {
      PhaseKeeps(t, s', r, Queueing, t.pending, t.writeBad, t.lost);
    }
    KeepsTwice(s, t, s');
  }

  lemma {:induction false} EnqueueKeeps(s: State, s': State, r: nat, applied: bool, ok: bool)
    requires Inv(s) && Enqueue(s, s', r, applied, ok)
    ensures Inv(s') && Keeps(s, s')
  {
    hide Has, Put, RowsOk, AckedOk, DrainOk;
    var e := s.records[r].event;
    assert RecordOk(s, s.records[r]);
    var t := if applied then s.(outbox := Put(s.outbox, e)) else s;
    PutKeeps(s, t, e);
    Rest(s, t);
    PhaseKeeps(t, s', r, if ok then Queued else Losing, t.pending, t.writeBad, t.lost);
    KeepsTwice(s, t, s');
  }

  /** The steps of Record that only move flags and phases. */
  lemma {:induction false} FlagKeeps(s: State, s': State, r: nat)
    requires Inv(s)
    requires Decide(s, s', r) || Check(s, s', r) || AddPending(s, s', r) || MarkLost(s, s', r) || MarkBad(s, s', r)
    ensures Inv(s') && Keeps(s, s')
  {
    hide Safe, Has, RowsOk, AckedOk, DrainOk, Keeps, Known;
    assert RecordOk(s, s.records[r]);
    PhaseKeeps(s, s', r, s'.records[r].phase, s'.pending, s'.writeBad, s'.lost);
  }

  lemma {:induction false} RecordKeeps(s: State, s': State, r: nat)
    requires Inv(s) && RecordStep(s, s', r)
    ensures Inv(s') && Keeps(s, s')
  {
    hide Inv, Keeps, Write, Enqueue, Decide, Check, AddPending, FlagBacklog, MarkLost, MarkBad;
    if applied, ok :| Write(s, s', r, applied, ok) {
      WriteKeeps(s, s', r, applied, ok);
    } else if applied, ok :| Enqueue(s, s', r, applied, ok) {
      EnqueueKeeps(s, s', r, applied, ok);
    } else if FlagBacklog(s, s', r) {
      BacklogKeeps(s, s', r);
    } else {
      FlagKeeps(s, s', r);
    }
  }

  lemma {:induction false} BacklogKeeps(s: State, s': State, r: nat)
    requires Inv(s) && FlagBacklog(s, s', r)
    ensures Inv(s') && Keeps(s, s')
  {
    hide Safe, Has, RowsOk, AckedOk, DrainOk, Keeps;
    assert RecordOk(s, s.records[r]);
    AckKeeps(s, s', r, true);
  }

  /** The drain moves on without touching the tables. */
  lemma {:induction false} DrainMoves(s: State, s': State)
    requires Inv(s) && s' == s.(drain := s'.drain, pending := s'.pending, writeBad := s'.writeBad) && DrainOk(s')
    ensures Inv(s') && Keeps(s, s')
  {
    hide Has, Keyed;
    forall r | r in s'.records ensures RecordOk(s', s'.records[r]) {
      assert RecordOk(s, s.records[r]);
    }
  }

  lemma {:induction false} DrainWriteKeeps(s: State, s': State, applied: bool, ok: bool)
    requires Inv(s) && DrainWrite(s, s', applied, ok)
    ensures Inv(s') && Keeps(s, s')
  {
    hide Has, Put, RowsOk, AckedOk, RecordsOk;
    var item := s.drain.todo[0];
    assert item in s.drain.todo && forall x :: x in s.drain.todo[1..] ==> x in s.drain.todo;
    var t := if applied then s.(table := Put(s.table, item)) else s;
    PutKeeps(s, t, item);
    Rest(s, t);
    assert DrainOk(s');
    DrainMoves(t, s');
    KeepsTwice(s, t, s');
  }

  lemma {:induction false} DrainDeleteKeeps(s: State, s': State, applied: bool, ok: bool)
    requires Inv(s) && DrainDelete(s, s', applied, ok)
    ensures Inv(s') && Keeps(s, s')
  {
    hide Has, Without, RowsOk, AckedOk, RecordsOk;
    var t := if applied then s.(outbox := Without(s.outbox, s.drain.item.id)) else s;
    if applied {
      DeleteKeeps(s, t, s.drain.item.id);
      Rest(s, t);
    } else {
      DrainMoves(s, t);
    }
    DrainMoves(t, s');
    KeepsTwice(s, t, s');
  }

  lemma {:induction false} DrainKeeps(s: State, s': State)
    requires Inv(s) && DrainStep(s, s')
    ensures Inv(s') && Keeps(s, s')
  {
    hide Has, AckedOk, RecordsOk, Keeps, DrainWrite, DrainDelete;
    if applied, ok :| DrainWrite(s, s', applied, ok) {
      DrainWriteKeeps(s, s', applied, ok);
    } else if applied, ok :| DrainDelete(s, s', applied, ok) {
      DrainDeleteKeeps(s, s', applied, ok);
    } else {
      DrainMoves(s, s');
    }
  }

  lemma {:induction false} BeginKeeps(s: State, s': State, r: nat, e: Event)
    requires Inv(s) && Begin(s, s', r, e)
    ensures Inv(s') && Keeps(s, s')
  {
    hide Has, Keyed;
    forall q | q in s'.records ensures RecordOk(s', s'.records[q]) {
      if q != r {
        assert RecordOk(s, s.records[q]);
      }
    }
  }

  lemma {:induction false} NextKeeps(s: State, s': State)
    requires Inv(s) && Next(s, s')
    ensures Inv(s') && Keeps(s, s')
  {
    hide RecordStep, DrainStep, Begin, Purge, RowsOk, AckedOk, RecordsOk, DrainOk;
    if r, e :| Begin(s, s', r, e) { BeginKeeps(s, s', r, e); }
    else if r :| RecordStep(s, s', r) { RecordKeeps(s, s', r); }
    else if DrainStep(s, s') { DrainKeeps(s, s'); }
    else if cutoff, applied, ok :| Purge(s, s', cutoff, applied, ok) { PurgeStep(s, s', cutoff, applied, ok); }
    else { CrashKeeps(s, s'); }
  }

  lemma {:induction false} PurgeStep(s: State, s': State, cutoff: int, applied: bool, ok: bool)
    requires Inv(s) && Purge(s, s', cutoff, applied, ok)
    ensures Inv(s') && Keeps(s, s')
  {
    hide RowsOk, AckedOk, RecordsOk, DrainOk, Keeps, Since, Ids;
    PurgeKeeps(s, s', cutoff, applied, ok);
    Rest(s, s');
  }

  lemma {:induction false} CrashKeeps(s: State, s': State)
    requires Inv(s) && Crash(s, s')
    ensures Inv(s') && Keeps(s, s')
  {
    hide Has, Keyed;
  }

  // ---------------------------------------------------------------- whole runs

  ghost predicate Run(tr: seq<State>) {
    |tr| > 0 && Init(tr[0]) && forall i :: 0 <= i < |tr| - 1 ==> Next(tr[i], tr[i + 1])
  }

  lemma {:induction false} RunKeeps(tr: seq<State>, i: nat, j: nat)
    requires Run(tr) && i <= j < |tr|
    ensures Inv(tr[j]) && Keeps(tr[i], tr[j])
    decreases j
  {
    hide Next, Inv, Keeps;
    if i < j {
      RunKeeps(tr, i, j - 1);
      NextKeeps(tr[j - 1], tr[j]);
      KeepsTwice(tr[i], tr[j - 1], tr[j]);
    } else if j > 0 {
      RunKeeps(tr, j - 1, j - 1);
      NextKeeps(tr[j - 1], tr[j]);
      KeepsSelf(tr[j]);
    } else {
      InitInv(tr[0]);
    }
  }

  lemma {:induction false} InitInv(s: State)
    requires Init(s)
    ensures Inv(s) && Keeps(s, s)
  {
  }

  lemma {:induction false} KeepsSelf(s: State)
    ensures Keeps(s, s)
  {
  }

  /** Main result. Once Record returned nil for an id, at every later moment, across failures, lost
      replies and crashes, the event itself is in the audit table or in the outbox, unless retention
      has removed it; and neither table ever holds two rows for one id. */
  lemma {:induction false} AcknowledgedSurvives(tr: seq<State>, i: nat, j: nat, id: string)
    requires Run(tr) && i <= j < |tr| && id in tr[i].acked
    ensures id in tr[j].purged
            || (id in tr[j].used && (tr[j].used[id] in tr[j].table || tr[j].used[id] in tr[j].outbox))
    ensures Keyed(tr[j].table) && Keyed(tr[j].outbox)
  {
    hide Next, Keyed;
    RunKeeps(tr, i, j);
    var s := tr[j];
    assert Safe(s, id);
    if Has(s.table, id) {
      var k :| 0 <= k < |s.table| && s.table[k].id == id;
      assert s.table[k] in s.table && Known(s, s.table[k]);
    } else if Has(s.outbox, id) {
      var k :| 0 <= k < |s.outbox| && s.outbox[k].id == id;
      assert s.outbox[k] in s.outbox && Known(s, s.outbox[k]);
    }
  }

  /** A Record that returned an error has latched Health: it never reports nil again in that process. */
  lemma {:induction false} LostHandoffLatches(tr: seq<State>, i: nat, j: nat, r: nat)
    requires Run(tr) && i <= j < |tr| && tr[i].process == tr[j].process
    requires r in tr[i].records && tr[i].records[r].phase == Refused
    ensures !Healthy(tr[j])
  {
    hide Next, Keyed;
    RunKeeps(tr, i, i);
    RunKeeps(tr, i, j);
    assert RecordOk(tr[i], tr[i].records[r]);
  }

  /** The one record of a lost event on its way. */
  function Handing(e: Event, phase: Phase, lost: bool, writeBad: bool): State {
    State([], [], 0, writeBad, lost, false, map[0 := Record(e, phase)], Idle, map[e.id := e], {}, {}, 0)
  }

  lemma {:induction false} LossStarts(e: Event, s0: State)
    requires s0 == State([], [], 0, false, false, false, map[], Idle, map[], {}, {}, 0)
    ensures Init(s0) && Next(s0, Handing(e, Deciding, false, false))
    ensures Next(Handing(e, Deciding, false, false), Handing(e, Checking, false, false))
    ensures Next(Handing(e, Checking, false, false), Handing(e, Writing, false, false))
  {
    hide DrainStep, Purge, Crash, Write, Enqueue;
    var s1, s2, s3 :=
      Handing(e, Deciding, false, false), Handing(e, Checking, false, false), Handing(e, Writing, false, false);
    assert Begin(s0, s1, 0, e);
    assert Decide(s1, s2, 0) && Check(s2, s3, 0);
    assert RecordStep(s1, s2, 0) && RecordStep(s2, s3, 0);
  }

  lemma {:induction false} LossFails(e: Event)
    ensures Next(Handing(e, Writing, false, false), Handing(e, Queueing, false, false))
    ensures Next(Handing(e, Queueing, false, false), Handing(e, Losing, false, false))
  {
    hide DrainStep, Purge, Crash, Begin, Put;
    var s3, s4, s5 :=
      Handing(e, Writing, false, false), Handing(e, Queueing, false, false), Handing(e, Losing, false, false);
    assert Write(s3, s4, 0, false, false) && Enqueue(s4, s5, 0, false, false);
    assert RecordStep(s3, s4, 0) && RecordStep(s4, s5, 0);
  }

  lemma {:induction false} LossMarks(e: Event)
    ensures Next(Handing(e, Losing, false, false), Handing(e, Marked, true, false))
    ensures Next(Handing(e, Marked, true, false), Handing(e, Refused, true, true))
  {
    hide DrainStep, Purge, Crash, Begin, Write, Enqueue;
    var s5, s6, s7 :=
      Handing(e, Losing, false, false), Handing(e, Marked, true, false), Handing(e, Refused, true, true);
    assert MarkLost(s5, s6, 0) && MarkBad(s6, s7, 0);
    assert RecordStep(s5, s6, 0) && RecordStep(s6, s7, 0);
  }

  /** The latch ends with the process: a run in which an event is handed off to neither table, Health
      fails, and after a restart reports nil although the event is nowhere and retention took nothing. */
  lemma {:induction false} RestartForgetsLoss(e: Event) returns (tr: seq<State>)
    ensures Run(tr) && |tr| == 9
    ensures In(tr[7], 0, Refused) && tr[7].records[0].event == e && !Healthy(tr[7])
    ensures tr[8].process == 1 && Healthy(tr[8]) && Known(tr[8], e) && !Safe(tr[8], e.id)
  {
    hide Next, Init, Handing, Healthy, Safe, Known;
    var s0 := State([], [], 0, false, false, false, map[], Idle, map[], {}, {}, 0);
    var s1, s2, s3 :=
      Handing(e, Deciding, false, false), Handing(e, Checking, false, false), Handing(e, Writing, false, false);
    var s4, s5, s6 :=
      Handing(e, Queueing, false, false), Handing(e, Losing, false, false), Handing(e, Marked, true, false);
    var s7 := Handing(e, Refused, true, true);
    LossStarts(e, s0);
    LossFails(e);
    LossMarks(e);
    var s8 := LossForgotten(e);
    tr := [s0, s1, s2, s3, s4, s5, s6, s7, s8];
    assert tr[0] == s0 && tr[7] == s7 && tr[8] == s8;
    forall i | 0 <= i < |tr| - 1 ensures Next(tr[i], tr[i + 1]) {
      assert i == 0 || i == 1 || i == 2 || i == 3 || i == 4 || i == 5 || i == 6 || i == 7;
    }
  }

  lemma {:induction false} LossForgotten(e: Event) returns (s8: State)
    ensures var s7 := Handing(e, Refused, true, true);
            Next(s7, s8) && In(s7, 0, Refused) && s7.records[0].event == e && !Healthy(s7)
    ensures s8.process == 1 && Healthy(s8) && Known(s8, e) && !Safe(s8, e.id)
  {
    hide RecordStep, DrainStep, Purge, Begin;
    var s7 := Handing(e, Refused, true, true);
    s8 := s7.(writeBad := false, lost := false, records := map[], process := 1);
    assert Crash(s7, s8);
  }
}
