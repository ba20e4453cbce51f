/** Keyset paging over the audit table: List, ListPage, and following NextCursor. */
module AuditPaging {
  import opened Base

  /** `time` counts nanoseconds since 1970, in UTC. */
  datatype Event = Event(id: string, time: int, workspace: string, principal: string,
    credential: string, status: int, text: string)

  datatype Outcome = Any | Failed | Succeeded

  /** A cursor is the (time, id) of the last event of a page. */
  datatype Cursor = Cursor(time: int, id: string)

  datatype Query = Query(
    limit: int, workspace: string, principal: string, credential: string,
    since: Option<int>, outcome: Outcome, search: string -> bool)

  const SECOND: int := 1_000_000_000

  /** Go's zero time, and the first moments of the years 0 and 10000. */
  const ZERO_TIME: int := -62135596800 * SECOND
  const YEAR_0: int := -62167219200 * SECOND
  const YEAR_10000: int := 253402300800 * SECOND

  /** json.Marshal of a time fails outside these years. ListPage ignores the error, and the cursor is empty. */
  predicate Encodes(c: Cursor) { YEAR_0 <= c.time < YEAR_10000 }

  /** decodeCursor: cursors it takes back. `fits` says that the encoded text has at most 2048 bytes. */
  predicate Accepted(fits: Cursor -> bool, c: Cursor) { c.time != ZERO_TIME && 0 < |c.id| <= 256 && fits(c) }

  // ---------------------------------------------------------------- order

  predicate TextBelow(a: string, b: string) {
    b != "" && (a == "" || a[0] < b[0] || (a[0] == b[0] && TextBelow(a[1..], b[1..])))
  }

  lemma {:induction false} TextOrder(a: string, b: string, c: string)
    ensures !TextBelow(a, a)
    ensures TextBelow(a, b) && TextBelow(b, c) ==> TextBelow(a, c)
    ensures a != b ==> TextBelow(a, b) || TextBelow(b, a)
    decreases |a|
  {
    if a != "" {
      TextOrder(a[1..], if b == "" then "" else b[1..], if c == "" then "" else c[1..]);
      if b != "" && a[0] == b[0] && a[1..] == b[1..] {
        assert a == [a[0]] + a[1..] && b == [b[0]] + b[1..];
      }
    }
  }

  function At(e: Event): Cursor { Cursor(e.time, e.id) }

  /** (occurred_at, id) before another, as the cursor condition and the ORDER BY compare it. */
  predicate Below(a: Cursor, b: Cursor) { a.time < b.time || (a.time == b.time && TextBelow(a.id, b.id)) }

  lemma {:induction false} BelowOrder(a: Cursor, b: Cursor, c: Cursor)
    ensures !Below(a, a)
    ensures Below(a, b) && Below(b, c) ==> Below(a, c)
    ensures a != b ==> Below(a, b) || Below(b, a)
  {
    TextOrder(a.id, b.id, c.id);
  }

  predicate Descending(es: seq<Event>) { forall i, j :: 0 <= i < j < |es| ==> Below(At(es[j]), At(es[i])) }

  // ---------------------------------------------------------------- List

  function Limit(q: Query): (n: nat)
    ensures 1 <= n <= 1000
  {
    if q.limit <= 0 || q.limit > 1000 then 100 else q.limit
  }

  predicate Matches(q: Query, e: Event) {
    && (q.workspace != "" ==> e.workspace == q.workspace)
    && (q.principal != "" ==> e.principal == q.principal)
    && (q.credential != "" ==> e.credential == q.credential)
    && (q.since.Some? ==> e.time >= q.since.value)
    && (q.outcome == Failed ==> e.status >= 400)
    && (q.outcome == Succeeded ==> e.status < 400)
    && q.search(e.text)
  }

  predicate Wanted(q: Query, from: Option<Cursor>, e: Event) {
    Matches(q, e) && (from.Some? ==> Below(At(e), from.value))
  }

  /** The table's rows; ids are the primary key. */
  predicate Keyed(table: seq<Event>) { forall i, j :: 0 <= i < j < |table| ==> table[i].id != table[j].id }

  function Insert(e: Event, es: seq<Event>): seq<Event> {
    if |es| == 0 || Below(At(es[0]), At(e)) then [e] + es else [es[0]] + Insert(e, es[1..])
  }

  /** WHERE and ORDER BY: the wanted rows, newest first. */
  function Selected(table: seq<Event>, q: Query, from: Option<Cursor>): seq<Event> {
    if |table| == 0 then []
    else
      var rest := Selected(table[1..], q, from);
      if Wanted(q, from, table[0]) then Insert(table[0], rest) else rest
  }

  function List(table: seq<Event>, q: Query, from: Option<Cursor>, extra: bool): seq<Event> {
    var es := Selected(table, q, from);
    es[..Min(Limit(q) + if extra then 1 else 0, |es|)]
  }

  // ---------------------------------------------------------------- ListPage

  datatype Page = Page(events: seq<Event>, next: Option<Cursor>)

  /** One row more than the page is fetched, to see whether another page is needed. */
  function ListPage(table: seq<Event>, q: Query, from: Option<Cursor>): Page {
    var events, n := List(table, q, from, true), Limit(q);
    if |events| <= n then Page(events, None)
    else Page(events[..n], if Encodes(At(events[n - 1])) then Some(At(events[n - 1])) else None)
  }

  /** Rows are left, but the page's last event has no cursor. */
  predicate CutOff(table: seq<Event>, q: Query, from: Option<Cursor>) {
    var es := Selected(table, q, from);
    |es| > Limit(q) && !Encodes(At(es[Limit(q) - 1]))
  }

  // ---------------------------------------------------------------- what Selected is

  lemma {:induction false} InsertKeeps(e: Event, es: seq<Event>)
    requires Descending(es) && forall i :: 0 <= i < |es| ==> es[i].id != e.id
    ensures Descending(Insert(e, es)) && forall x :: x in Insert(e, es) <==> x in es || x == e
    decreases |es|
  {
    hide Below;
    if |es| > 0 {
      var first, rest := es[0], es[1..];
      assert es == [first] + rest;
      BelowOrder(At(first), At(e), At(first));
      if Below(At(first), At(e)) {
        forall j | 0 < j < |es| ensures Below(At(es[j]), At(e)) {
          BelowOrder(At(es[j]), At(first), At(e));
        }
      } else {
        InsertKeeps(e, rest);
        OnTop(first, Insert(e, rest));
      }
    }
  }

  lemma {:induction false} OnTop(first: Event, rest: seq<Event>)
    requires Descending(rest) && forall x :: x in rest ==> Below(At(x), At(first))
    ensures Descending([first] + rest)
  {
    hide Below;
    assert forall j :: 0 <= j < |rest| ==> rest[j] in rest;
  }

  lemma {:induction false} SelectedIs(table: seq<Event>, q: Query, from: Option<Cursor>)
    requires Keyed(table)
    ensures Descending(Selected(table, q, from))
    ensures forall e :: e in Selected(table, q, from) <==> e in table && Wanted(q, from, e)
    decreases |table|
  {
    hide Below, Matches;
    if |table| > 0 {
      SelectedIs(table[1..], q, from);
      var rest := Selected(table[1..], q, from);
      assert table == [table[0]] + table[1..];
      if Wanted(q, from, table[0]) {
        forall i | 0 <= i < |rest| ensures rest[i].id != table[0].id {
          assert rest[i] in table[1..];
          var j :| 0 <= j < |table[1..]| && table[1..][j] == rest[i];
          assert table[j + 1] == rest[i];
        }
        InsertKeeps(table[0], rest);
      }
    }
  }

  /** A page is the newest wanted rows in order. It names a cursor exactly when rows are left and the
      cursor can be encoded; the rows left are then the wanted rows below it. */
  lemma {:induction false} PageIs(table: seq<Event>, q: Query, from: Option<Cursor>)
    requires Keyed(table)
    ensures var p, es := ListPage(table, q, from), Selected(table, q, from);
            && p.events == es[..Min(Limit(q), |es|)] && Descending(p.events)
            && (p.next.Some? <==> |es| > Limit(q) && !CutOff(table, q, from))
            && (p.next.Some? ==> p.events != [] && p.next.value == At(p.events[|p.events| - 1]))
            && (forall e :: e in p.events ==> e in table && Wanted(q, from, e))
            && (forall e :: e in table && Wanted(q, from, e) && e !in p.events ==>
                  |es| > Limit(q) && (p.next.Some? ==> Below(At(e), p.next.value)))
            && (p.next.Some? ==> forall e :: e in p.events ==> !Below(At(e), p.next.value))
  {
    hide Below, Matches, Wanted, Limit, Selected, Encodes;
    SelectedIs(table, q, from);
    var es, p, n := Selected(table, q, from), ListPage(table, q, from), Limit(q);
    if |es| > n {
      assert p.events == es[..n];
      FrontIs(es, n);
    } else {
      assert p.events == es[..|es|] == es;
    }
  }

  lemma {:induction false} FrontIs(es: seq<Event>, n: nat)
    requires Descending(es) && 0 < n < |es|
    ensures Descending(es[..n]) && forall e :: e in es[..n] <==> e in es && !Below(At(e), At(es[n - 1]))
  {
    hide Below;
    var last := At(es[n - 1]);
    forall i | 0 <= i < |es| ensures Below(At(es[i]), last) == (i >= n) {
      BelowOrder(At(es[i]), last, At(es[i]));
    }
    forall e ensures e in es[..n] <==> e in es && !Below(At(e), last) {
      if e in es {
        var i :| 0 <= i < |es| && es[i] == e;
        assert i < n ==> es[..n][i] == e;
      }
    }
  }

  // ---------------------------------------------------------------- following NextCursor

  /** The concatenated pages of a walk over the tables as they are when each page is fetched. */
  function Walked(tables: seq<seq<Event>>, q: Query, from: Option<Cursor>): seq<Event> {
    if |tables| == 0 then []
    else var p := ListPage(tables[0], q, from);
      p.events + if p.next.None? then [] else Walked(tables[1..], q, p.next)
  }

  /** The walk ends: its last page, and no earlier one, names no cursor, and every cursor is taken back. */
  predicate Complete(tables: seq<seq<Event>>, q: Query, fits: Cursor -> bool, from: Option<Cursor>) {
    |tables| > 0 &&
    var p := ListPage(tables[0], q, from);
    if p.next.None? then |tables| == 1 else Accepted(fits, p.next.value) && Complete(tables[1..], q, fits, p.next)
  }

  /** ... with rows left, because the last event of its last page has no cursor. */
  predicate EndsEarly(tables: seq<seq<Event>>, q: Query, from: Option<Cursor>) {
    |tables| > 0 &&
    var p := ListPage(tables[0], q, from);
    if p.next.None? then CutOff(tables[0], q, from) else EndsEarly(tables[1..], q, p.next)
  }

  predicate AllKeyed(tables: seq<seq<Event>>) { forall i :: 0 <= i < |tables| ==> Keyed(tables[i]) }

  /** Everything listed is wanted, and the list is strictly descending: so no event comes twice. */
  lemma {:induction false} WalkDescends(tables: seq<seq<Event>>, q: Query, from: Option<Cursor>)
    requires AllKeyed(tables)
    ensures Descending(Walked(tables, q, from))
    ensures forall e :: e in Walked(tables, q, from) ==>
            Wanted(q, from, e) && exists i :: 0 <= i < |tables| && e in tables[i]
    decreases |tables|
  {
    hide Below, Matches, ListPage;
    if |tables| > 0 {
      PageIs(tables[0], q, from);
      var p := ListPage(tables[0], q, from);
      if p.next.Some? {
        var more := tables[1..];
        WalkDescends(more, q, p.next);
        var rest := Walked(more, q, p.next);
        forall i, j | 0 <= i < |p.events| && 0 <= j < |rest| ensures Below(At(rest[j]), At(p.events[i])) {
          assert rest[j] in rest && p.events[i] in p.events;
          BelowOrder(At(rest[j]), p.next.value, At(p.events[i]));
          BelowOrder(At(p.events[i]), p.next.value, At(p.events[i]));
        }
        forall e | e in rest ensures Wanted(q, from, e) && exists i :: 0 <= i < |tables| && e in tables[i] {
          var k :| 0 <= k < |more| && e in more[k];
          assert e in tables[k + 1];
          assert p.events[|p.events| - 1] in p.events;
          if from.Some? {
            BelowOrder(At(e), p.next.value, from.value);
          }
        }
      }
    }
  }

  /** Main result: a complete walk that does not end early lists every matching event that is in the
      table throughout, even when rows are inserted or removed between the pages. */
  lemma {:induction false} WalkListsAll(tables: seq<seq<Event>>, q: Query, fits: Cursor -> bool,
      from: Option<Cursor>, e: Event)
    requires AllKeyed(tables) && Complete(tables, q, fits, from) && !EndsEarly(tables, q, from) && Wanted(q, from, e)
    requires forall i :: 0 <= i < |tables| ==> e in tables[i]
    ensures e in Walked(tables, q, from)
    decreases |tables|
  {
    hide Below, Matches, ListPage, CutOff, Accepted;
    PageIs(tables[0], q, from);
    var p := ListPage(tables[0], q, from);
    if e !in p.events {
      assert p.next.Some? && Below(At(e), p.next.value);
      WalkListsAll(tables[1..], q, fits, p.next, e);
    }
  }

  /** That condition is exact: a walk that ends early leaves out a matching row of its last table. */
  lemma {:induction false} EarlyEndLosesRow(tables: seq<seq<Event>>, q: Query, fits: Cursor -> bool,
      from: Option<Cursor>)
    returns (e: Event)
    requires AllKeyed(tables) && Complete(tables, q, fits, from) && EndsEarly(tables, q, from)
    ensures e in tables[|tables| - 1] && Wanted(q, from, e) && e !in Walked(tables, q, from)
    decreases |tables|
  {
    hide Below, Matches, ListPage, Accepted, CutOff;
    PageIs(tables[0], q, from);
    var p := ListPage(tables[0], q, from);
    if p.next.None? {
      e := CutOffLosesRow(tables[0], q, from);
    } else {
      e := EarlyEndLosesRow(tables[1..], q, fits, p.next);
      assert p.events[|p.events| - 1] in p.events;
      if from.Some? {
        BelowOrder(At(e), p.next.value, from.value);
      }
    }
  }

  lemma {:induction false} CutOffLosesRow(table: seq<Event>, q: Query, from: Option<Cursor>) returns (e: Event)
    requires Keyed(table) && CutOff(table, q, from)
    ensures e in table && Wanted(q, from, e) && e !in ListPage(table, q, from).events
  {
    hide Below, Matches, Wanted, Encodes, ListPage, Selected;
    PageIs(table, q, from);
    SelectedIs(table, q, from);
    var es, n := Selected(table, q, from), Limit(q);
    FrontIs(es, n);
    e := es[n];
    assert e in es && Below(At(es[n]), At(es[n - 1]));
  }

  /** ... exactly once. */
  lemma {:induction false} WalkListsOnce(tables: seq<seq<Event>>, q: Query, from: Option<Cursor>, i: nat, j: nat)
    requires AllKeyed(tables) && i < j < |Walked(tables, q, from)|
    ensures At(Walked(tables, q, from)[i]) != At(Walked(tables, q, from)[j])
  {
    WalkDescends(tables, q, from);
    var es := Walked(tables, q, from);
    BelowOrder(At(es[j]), At(es[i]), At(es[j]));
  }

  // ---------------------------------------------------------------- a table that stands still

  /** What is selected below a page's cursor is what the page left over. */
  lemma {:induction false} RestIs(table: seq<Event>, q: Query, from: Option<Cursor>)
    requires Keyed(table) && ListPage(table, q, from).next.Some?
    ensures Selected(table, q, ListPage(table, q, from).next) == Selected(table, q, from)[Limit(q)..]
  {
    hide Below, Matches, Encodes;
    var p, n := ListPage(table, q, from), Limit(q);
    PageIs(table, q, from);
    SelectedIs(table, q, from);
    SelectedIs(table, q, p.next);
    var es, rest := Selected(table, q, from), Selected(table, q, p.next);
    var tail := es[n..];
    forall e ensures e in rest <==> e in tail {
      assert es == es[..n] + tail && p.events == es[..n];
      assert p.events[n - 1] in p.events;
      if e in tail {
        var i :| 0 <= i < |tail| && tail[i] == e;
        assert es[n + i] == e && e in es;
        assert Below(At(e), At(es[n - 1]));
      }
      if e in rest && from.Some? {
        BelowOrder(At(e), p.next.value, from.value);
      }
    }
    DescendingUnique(rest, tail);
  }

  lemma {:induction false} HeadOnce(a: seq<Event>)
    requires Descending(a) && |a| > 0
    ensures a[0] !in a[1..]
  {
    forall i | 0 < i < |a| ensures a[i] != a[0] {
      BelowOrder(At(a[i]), At(a[0]), At(a[i]));
    }
  }

  /** A descending list is determined by its members. */
  lemma {:induction false} DescendingUnique(a: seq<Event>, b: seq<Event>)
    requires Descending(a) && Descending(b) && forall e :: e in a <==> e in b
    ensures a == b
    decreases |a|
  {
    assert |b| > 0 ==> b[0] in a;
    if |a| > 0 {
      assert a[0] in b && |b| > 0;
      assert b[0] in a;
      var i :| 0 <= i < |b| && b[i] == a[0];
      var j :| 0 <= j < |a| && a[j] == b[0];
      BelowOrder(At(a[0]), At(b[0]), At(a[0]));
      assert a[0] == b[0];
      assert a == [a[0]] + a[1..] && b == [b[0]] + b[1..];
      HeadOnce(a);
      HeadOnce(b);
      assert forall e :: e in a[1..] <==> e in a && e != a[0];
      DescendingUnique(a[1..], b[1..]);
    }
  }

  /** Following NextCursor on a fixed table until it is empty; None when a cursor is refused. */
  function Follow(table: seq<Event>, q: Query, fits: Cursor -> bool, from: Option<Cursor>): Option<seq<seq<Event>>>
    requires Keyed(table)
    decreases |Selected(table, q, from)|
  {
    if from.Some? && !Accepted(fits, from.value) then None
    else
      var p := ListPage(table, q, from);
      if p.next.None? then Some([p.events])
      else
        RestIs(table, q, from);
        match Follow(table, q, fits, p.next)
        case None => None
        case Some(pages) => Some([p.events] + pages)
  }

  /** A list cut into pages of n; only the last may be shorter, and only a lone one empty. */
  function Cut(es: seq<Event>, n: nat): seq<seq<Event>>
    requires n >= 1
  {
    if |es| <= n then [es] else [es[..n]] + Cut(es[n..], n)
  }

  /** Every page but the last ends in an event whose cursor can be encoded and is taken back. */
  predicate Turns(fits: Cursor -> bool, es: seq<Event>, n: nat)
    requires n >= 1
  {
    |es| <= n || (Encodes(At(es[n - 1])) && Accepted(fits, At(es[n - 1])) && Turns(fits, es[n..], n))
  }

  /** The walk over a fixed table ends, and gives the whole selection cut into pages, exactly when
      the events at which it turns the page have cursors that are encoded and taken back. */
  lemma {:induction false} FollowCuts(table: seq<Event>, q: Query, fits: Cursor -> bool, from: Option<Cursor>)
    requires Keyed(table) && (from.Some? ==> Accepted(fits, from.value))
    ensures var es := Selected(table, q, from);
            Follow(table, q, fits, from) == Some(Cut(es, Limit(q))) <==> Turns(fits, es, Limit(q))
    decreases |Selected(table, q, from)|
  {
    hide Selected, Below, Accepted, Limit, Encodes;
    var es, p, n := Selected(table, q, from), ListPage(table, q, from), Limit(q);
    if |es| > n {
      assert p.events == es[..n];
      if p.next.None? {
        CutTwice(es, n);
      } else {
        RestIs(table, q, from);
        assert p.next == Some(At(es[n - 1]));
        if Accepted(fits, p.next.value) {
          FollowCuts(table, q, fits, p.next);
          var rest := Follow(table, q, fits, p.next);
          assert rest.Some? ==> ([es[..n]] + rest.value)[1..] == rest.value;
          assert Cut(es, n)[1..] == Cut(es[n..], n);
        }
      }
    } else {
      assert p.events == es[..|es|] == es;
    }
  }

  lemma {:induction false} CutTwice(es: seq<Event>, n: nat)
    requires 1 <= n < |es|
    ensures |Cut(es, n)| >= 2
  {
    assert |Cut(es[n..], n)| >= 1;
  }

  function Flatten(pages: seq<seq<Event>>): seq<Event> {
    if |pages| == 0 then [] else pages[0] + Flatten(pages[1..])
  }

  lemma {:induction false} CutFlattens(es: seq<Event>, n: nat)
    requires n >= 1
    ensures Flatten(Cut(es, n)) == es && |Cut(es, n)| <= Max(1, |es|)
    ensures forall i :: 0 <= i < |Cut(es, n)| - 1 ==> |Cut(es, n)[i]| == n
    decreases |es|
  {
    if |es| > n {
      CutFlattens(es[n..], n);
      assert es == es[..n] + es[n..];
      assert ([es[..n]] + Cut(es[n..], n))[1..] == Cut(es[n..], n);
    } else {
      assert [es][1..] == [];
    }
  }

  predicate Unfiltered(q: Query) {
    q.workspace == q.principal == q.credential == "" && q.since.None? && q.outcome.Any? && q.search("")
  }

  lemma {:induction false} TwoRows(q: Query, late: Event, early: Event)
    requires Unfiltered(q) && late.text == early.text == "" && Below(At(early), At(late)) && late.id != early.id
    ensures Keyed([late, early]) && Selected([late, early], q, None) == [late, early]
  {
    var table := [late, early];
    assert table[1..] == [early] && [early][1..] == [] && Selected([], q, None) == [];
    assert Selected([early], q, None) == [early];
  }

  /** A refused cursor is possible: an id of 257 bytes at the end of a page stops the walk with an error. */
  lemma {:induction false} LongIdStopsWalk(q: Query, fits: Cursor -> bool, id: string) returns (table: seq<Event>)
    requires q.limit == 1 && |id| == 257 && Unfiltered(q)
    ensures Keyed(table) && |table| == 2 && Follow(table, q, fits, None).None?
  {
    hide Selected;
    var late, early := Event(id, 1, "", "", "", 200, ""), Event("a", 0, "", "", "", 200, "");
    table := [late, early];
    TwoRows(q, late, early);
    var next := Some(At(late));
    assert ListPage(table, q, None).next == next && Follow(table, q, fits, next) == None;
    assert Follow(table, q, fits, None) == None;
  }

  /** A missing cursor is possible too: a time in the year 10000 at the end of a page ends the walk
      without an error and without the rows that are left. */
  lemma {:induction false} LateYearEndsWalk(q: Query, fits: Cursor -> bool) returns (table: seq<Event>)
    requires q.limit == 1 && Unfiltered(q)
    ensures Keyed(table) && |Selected(table, q, None)| == 2 && Follow(table, q, fits, None) == Some([[table[0]]])
  {
    hide Selected;
    var late, early := Event("b", YEAR_10000, "", "", "", 200, ""), Event("a", 0, "", "", "", 200, "");
    table := [late, early];
    TwoRows(q, late, early);
    assert table[..2] == table && table[..1] == [late];
    assert ListPage(table, q, None) == Page([late], None);
    assert Follow(table, q, fits, None) == Some([[late]]);
  }
}
