/** Record, enqueue and drainBatch as the manager runs them, one call at a time, against databases
    whose statements may fail before or after they took effect. */
module AuditManager {
  import opened Base
  import opened AuditPaging
  import opened AuditOutbox

  /** How a statement ends: performed; refused; or performed with its reply lost. */
  datatype Reply = Done | Rejected | Unheard {
    predicate Ok() { Done? }
    predicate Applied() { !Rejected? }
  }

  /** The replies a batch meets, item by item. */
  datatype Weather = Weather(list: Reply, writes: nat -> Reply, deletes: nat -> Reply, count: Reply)

  // ---------------------------------------------------------------- the outbox in delivery order

  predicate Ascending(es: seq<Event>) { forall i, j :: 0 <= i < j < |es| ==> Below(At(es[i]), At(es[j])) }

  function InsertOldest(e: Event, es: seq<Event>): seq<Event> {
    if |es| == 0 || Below(At(e), At(es[0])) then [e] + es else [es[0]] + InsertOldest(e, es[1..])
  }

  /** INSERT ... ON CONFLICT DO NOTHING, seen through ORDER BY occurred_at, id. */
  function Enlist(rows: seq<Event>, e: Event): seq<Event> { if Has(rows, e.id) then rows else InsertOldest(e, rows) }

  lemma {:induction false} InsertOldestIs(e: Event, es: seq<Event>)
    requires Ascending(es) && Keyed(es) && !Has(es, e.id)
    ensures Ascending(InsertOldest(e, es)) && Keyed(InsertOldest(e, es))
    ensures forall x :: x in InsertOldest(e, es) <==> x in es || x == e
    decreases |es|
  {
    hide Below;
    if |es| > 0 {
      var out := InsertOldest(e, es);
      BelowOrder(At(e), At(es[0]), At(e));
      if Below(At(e), At(es[0])) {
        forall j | 0 < j < |es| ensures Below(At(e), At(es[j])) {
          BelowOrder(At(e), At(es[0]), At(es[j]));
        }
      } else {
        var rest := InsertOldest(e, es[1..]);
        assert es == [es[0]] + es[1..];
        assert !Has(es[1..], e.id) by { assert forall i :: 0 <= i < |es[1..]| ==> es[1..][i] == es[i + 1]; }
        InsertOldestIs(e, es[1..]);
        forall j | 0 <= j < |rest| ensures Below(At(es[0]), At(rest[j])) && rest[j].id != es[0].id {
          assert rest[j] in rest;
          assert rest[j] == e || rest[j] in es[1..];
        }
      }
    }
  }

  lemma {:induction false} EnlistIs(rows: seq<Event>, e: Event)
    requires Ascending(rows) && Keyed(rows)
    ensures Ascending(Enlist(rows, e)) && Keyed(Enlist(rows, e)) && Has(Enlist(rows, e), e.id)
    ensures forall x :: x in Enlist(rows, e) ==> x in rows || x == e
    ensures forall id :: Has(rows, id) ==> Has(Enlist(rows, e), id)
  {
    hide Below, Has;
    var out := Enlist(rows, e);
    if !Has(rows, e.id) {
      InsertOldestIs(e, rows);
      forall id ensures Has(rows, id) || id == e.id ==> Has(out, id) {
        HasMember(rows, id);
        HasMember(out, id);
        assert e in out;
      }
    }
  }

  class Manager {
    var table: seq<Event>
    var outbox: seq<Event>   // rows in the order ListAuditOutbox gives them: oldest first
    var pending: int
    var writeBad: bool
    var lost: bool
    const hasOutbox: bool
    const batchSize: int

    ghost predicate Valid()
      reads this
    {
      Keyed(table) && Keyed(outbox) && Ascending(outbox) && (!hasOutbox ==> outbox == [])
    }

    /** Nothing that was stored anywhere is gone, and only `more` is new. */
    twostate predicate Kept(more: set<Event>)
      reads this
    {
      && (forall id :: Has(old(table), id) ==> Has(table, id))
      && (forall id :: Has(old(outbox), id) ==> Has(outbox, id) || Has(table, id))
      && (forall x :: x in table || x in outbox ==> x in old(table) || x in old(outbox) || x in more)
      && (old(lost) ==> lost)
    }

    constructor (hasOutbox: bool, batchSize: int)
      ensures Valid() && table == [] && outbox == [] && !lost && !writeBad && pending == 0
      ensures this.hasOutbox == hasOutbox && this.batchSize == batchSize
    {
      table, outbox, pending, writeBad, lost := [], [], 0, false, false;
      this.hasOutbox := hasOutbox;
      this.batchSize := batchSize;
    }

    /** An event whose hand-off succeeds is stored; a failed one latches `lost`. */
    method Record(event: Event, write: Reply, queue: Reply) returns (ok: bool)
      requires Valid()
      modifies this
      ensures Valid() && Kept({event})
      ensures ok ==> Has(table, event.id) || Has(outbox, event.id)
      ensures !ok ==> lost && writeBad
      ensures old(writeBad) || old(pending) > 0 ==> table == old(table)
      ensures !old(writeBad) && old(pending) <= 0 && write.Ok() ==>
              ok && outbox == old(outbox) && table == Put(old(table), event)
    {
      PutIs(table, event);
      if writeBad || pending > 0 {
        ok := Enqueue(event, queue);
        return;
      }
      if write.Applied() {
        table := Put(table, event);
      }
      if write.Ok() {
        return true;
      }
      ok := Enqueue(event, queue);
    }

    method Enqueue(event: Event, queue: Reply) returns (ok: bool)
      requires Valid()
      modifies this`outbox, this`pending, this`writeBad, this`lost
      ensures Valid() && Kept({event})
      ensures ok == (hasOutbox && queue.Ok()) && writeBad
      ensures ok ==> Has(outbox, event.id) && pending == old(pending) + 1 && lost == old(lost)
      ensures !ok ==> lost
    {
      hide Keyed, Ascending, Enlist;
      EnlistIs(outbox, event);
      if !hasOutbox {
        lost, writeBad := true, true;
        return false;
      }
      if queue.Applied() {
        outbox := Enlist(outbox, event);
      }
      if !queue.Ok() {
        lost, writeBad := true, true;
        return false;
      }
      pending := pending + 1;
      writeBad := true;
      return true;
    }

    function Batch(): nat { if batchSize <= 0 || batchSize > 1000 then 100 else batchSize }

    /** One item of a batch, the oldest row of the outbox: written, then deleted. */
    method Deliver(item: Event, write: Reply, delete: Reply) returns (ok: bool)
      requires Valid() && hasOutbox && |outbox| > 0 && item == outbox[0]
      modifies this`table, this`outbox, this`pending, this`writeBad
      ensures Valid() && ok == (write.Ok() && delete.Ok()) && (!ok ==> writeBad)
      ensures table == if write.Applied() then Put(old(table), item) else old(table)
      ensures outbox == if write.Ok() && delete.Applied() then old(outbox)[1..] else old(outbox)
      ensures pending == if ok then old(pending) - 1 else old(pending)
    {
      hide Keyed, Has, Put, Without, Below;
      PutIs(table, item);
      DropHead(outbox);
      if write.Applied() {
        table := Put(table, item);
      }
      if !write.Ok() {
        writeBad := true;
        return false;
      }
      if delete.Applied() {
        outbox := Without(outbox, item.id);
      }
      if !delete.Ok() {
        writeBad := true;
        return false;
      }
      pending := pending - 1;
      return true;
    }

    /** The loop of drainBatch: items are the first rows of the outbox. */
    method DeliverAll(items: seq<Event>, w: Weather) returns (ok: bool, ghost moved: nat)
      requires Valid() && hasOutbox && |items| <= |outbox| && items == outbox[..|items|]
      modifies this`table, this`outbox, this`pending, this`writeBad
      ensures Valid() && Moved(old(table), old(outbox), table, outbox, moved)
      ensures if ok then moved == |items| else writeBad
    {
      hide Keyed, Has, Put, Ascending, Moved;
      var i := 0;
      NoneMoved(table, outbox);
      while i < |items|
        invariant i <= |items| && Valid() && Moved(old(table), old(outbox), table, outbox, i)
      {
        ghost var t, rows := table, outbox;
        NextRow(old(table), old(outbox), table, outbox, i);
        assert items[i] == old(outbox)[i];
        var delivered := Deliver(items[i], w.writes(i), w.deletes(i));
        RowWritten(old(table), old(outbox), t, rows, i, table);
        if !delivered {
          return false, if outbox == rows then i else i + 1;
        }
        i := i + 1;
      }
      return true, i;
    }

    /** Delivers the oldest rows of the outbox, one after another, until one step fails. A completed
        batch has moved exactly the listed rows, and clears the backlog flag only on an empty outbox. */
    method DrainBatch(w: Weather) returns (ok: bool)
      requires Valid()
      modifies this`table, this`outbox, this`pending, this`writeBad
      ensures Valid() && Kept({})
      ensures hasOutbox && !ok ==> writeBad
      ensures hasOutbox && ok ==>
                var n := Min(Batch(), |old(outbox)|);
                (&& outbox == old(outbox)[n..] && (forall x :: x in old(outbox)[..n] ==> Has(table, x.id))
                 && pending == |outbox| && writeBad == (outbox != [] || lost))
    {
      hide Keyed, Has, Ascending, Moved;
      if !hasOutbox {
        return true;
      }
      if !w.list.Ok() {
        writeBad := true;
        return false;
      }
      ghost var moved;
      ok, moved := DeliverAll(outbox[..Min(Batch(), |outbox|)], w);
      HeadsMoved(old(table), old(outbox), table, outbox, moved);
      if !ok {
        return false;
      }
      if !w.count.Ok() {
        writeBad := true;
        return false;
      }
      pending := |outbox|;
      writeBad := |outbox| > 0 || lost;
      return true;
    }
  }

  // ---------------------------------------------------------------- rows on the move

  /** The first i rows of the outbox have moved to the table. */
  ghost predicate Moved(table: seq<Event>, rows: seq<Event>, table': seq<Event>, rows': seq<Event>, i: nat) {
    && i <= |rows| && rows' == rows[i..]
    && (forall id :: Has(table, id) ==> Has(table', id))
    && (forall k :: 0 <= k < i ==> Has(table', rows[k].id))
    && (forall x :: x in table' ==> x in table || x in rows)
  }

  lemma {:induction false} NoneMoved(table: seq<Event>, rows: seq<Event>)
    ensures Moved(table, rows, table, rows, 0)
  {
  }

  lemma {:induction false} NextRow(table: seq<Event>, rows: seq<Event>, table': seq<Event>, rows': seq<Event>, i: nat)
    requires Moved(table, rows, table', rows', i) && i < |rows|
    ensures |rows'| > 0 && rows'[0] == rows[i]
  {
  }

  /** Writing the next row, and dropping it from the outbox or not. */
  lemma {:induction false} RowWritten(table: seq<Event>, rows: seq<Event>, t: seq<Event>,
      r: seq<Event>, i: nat, t': seq<Event>)
    requires Moved(table, rows, t, r, i) && i < |rows| && Keyed(t) && (t' == t || t' == Put(t, rows[i]))
    ensures Moved(table, rows, t', r, i)
    ensures t' == Put(t, rows[i]) ==> Moved(table, rows, t', r[1..], i + 1)
  {
    hide Has, Put;
    PutIs(t, rows[i]);
    assert rows[i] in rows && r[1..] == rows[i + 1..];
  }

  lemma {:induction false} DropHead(rows: seq<Event>)
    requires Keyed(rows) && |rows| > 0
    ensures Without(rows, rows[0].id) == rows[1..] && Keyed(rows[1..])
  {
    NoneDropped(rows[1..], rows[0].id);
  }

  lemma {:induction false} NoneDropped(rows: seq<Event>, id: string)
    requires forall i :: 0 <= i < |rows| ==> rows[i].id != id
    ensures Without(rows, id) == rows
    decreases |rows|
  {
    if |rows| > 0 {
      NoneDropped(rows[1..], id);
    }
  }

  /** While rows move, none is gone. */
  lemma {:induction false} HeadsMoved(table: seq<Event>, rows: seq<Event>, table': seq<Event>,
      rows': seq<Event>, i: nat)
    requires Moved(table, rows, table', rows', i)
    ensures rows' == rows[i..] && (forall id :: Has(table, id) ==> Has(table', id))
    ensures forall id :: Has(rows, id) ==> Has(rows', id) || Has(table', id)
    ensures forall x :: x in rows' || x in table' ==> x in rows || x in table
    ensures forall x :: x in rows[..i] ==> Has(table', x.id)
  {
    forall id | Has(rows, id) ensures Has(rows', id) || Has(table', id) {
      var k :| 0 <= k < |rows| && rows[k].id == id;
      if k >= i {
        assert rows'[k - i].id == id;
      }
    }
  }
}
