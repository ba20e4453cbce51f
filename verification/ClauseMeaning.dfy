/** Which rows a WHERE of feature ids, boxes and filters selects. */
module ClauseMeaning {
  import opened Base
  import opened SqlText
  import opened Emission
  import opened Cql2Grammar
  import opened Cql2Parser
  import opened Cql2Exact
  import opened Lexing
  import opened LexerFacts
  import opened SqlReading
  import opened SqlFidelity
  import opened FilterSql
  import opened FilterMeaning
  import opened FilterTheorems
  import opened QueryClauses
  import opened ClauseReading

  // ---------------------------------------------------------------- the database

  type Point = (real, real)

  /** Where a geometry lies, and where a point goes when the coordinate system changes. */
  datatype Plane = Plane(points: Shape -> iset<Point>, move: (nat, nat, Point) -> Point)

  ghost predicate Meet(plane: Plane, a: Shape, b: Shape) { exists p :: p in plane.points(a) && p in plane.points(b) }

  ghost predicate Image(ps: iset<Point>, move: (nat, nat, Point) -> Point, from: nat, to: nat, p: Point) {
    exists q :: q in ps && p == move(from, to, q)
  }

  /** Texts are equal when they are the same, nothing equals null, geometries intersect when they
      share a point, and an envelope with its corners in order is a rectangle. */
  ghost predicate Lawful(w: World, plane: Plane) {
    && (forall a, b :: w.compare("=", VText(a), VText(b)) == if a == b then Yes else No)
    && (forall v :: w.compare("=", VNull, v) == Unknown)
    && (forall a, b :: w.spatial("ST_Intersects", a, b).Yes? <==> Meet(plane, a, b))
    && (forall b: BBox, p :: b.minX <= b.maxX && b.minY <= b.maxY ==>
          (p in plane.points(Corner(b)) <==> b.Contains(p.0, p.1)))
    && (forall from, to, s, p :: p in plane.points(Moved(from, to, s)) <==>
          Image(plane.points(s), plane.move, from, to, p))
  }

  function Corner(b: BBox): Shape { Rectangle(b.minX, b.minY, b.maxX, b.maxY) }

  ghost function PointsOf(stored: Shape -> iset<Point>, move: (nat, nat, Point) -> Point, s: Shape): iset<Point> {
    match s
    case Rectangle(x0, y0, x1, y1) => iset p: Point | x0 <= p.0 <= x1 && y0 <= p.1 <= y1
    case Moved(from, to, inner) => iset p: Point | Image(PointsOf(stored, move, inner), move, from, to, p)
    case _ => stored(s)
  }

  /** Nothing else is asked: beside any other comparisons and any other spatial tests there is a
      lawful database, wherever stored geometries lie and points move. */
  lemma {:induction false} LawFitsAnyDatabase(w: World, stored: Shape -> iset<Point>,
                                              move: (nat, nat, Point) -> Point)
    returns (w': World, plane: Plane)
    ensures Lawful(w', plane) && plane.move == move
    ensures forall s: Shape :: !s.Rectangle? && !s.Moved? ==> plane.points(s) == stored(s)
    ensures forall op: string, a: FilterMeaning.Value, b: FilterMeaning.Value ::
              op != "=" || !(a.VNull? || (a.VText? && b.VText?)) ==> w'.compare(op, a, b) == w.compare(op, a, b)
    ensures forall fn, a, b :: fn != "ST_Intersects" ==> w'.spatial(fn, a, b) == w.spatial(fn, a, b)
  {
    plane := Plane(s => PointsOf(stored, move, s), move);
    var points := plane.points;
    w' := w.(
      compare := (op: string, a: FilterMeaning.Value, b: FilterMeaning.Value) =>
        if op == "=" && a.VNull? then Unknown
        else if op == "=" && a.VText? && b.VText? then (if a.text == b.text then Yes else No)
        else w.compare(op, a, b),
      spatial := (fn: string, a: Shape, b: Shape) =>
        if fn == "ST_Intersects" then (if exists p :: p in points(a) && p in points(b) then Yes else No)
        else w.spatial(fn, a, b));
  }

  // ---------------------------------------------------------------- what a clause asks of a row

  predicate Ordered(b: BBox) { b.minX <= b.maxX && b.minY <= b.maxY }

  /** The box itself, wrapped around the antimeridian when west is east of east in CRS84. */
  predicate InBox(b: BBox, srid: nat, p: Point) {
    && b.minY <= p.1 <= b.maxY
    && if srid == 4326 && b.minX > b.maxX then b.minX <= p.0 <= 180.0 || -180.0 <= p.0 <= b.maxX
       else b.minX <= p.0 <= b.maxX
  }

  predicate Moves(x: Clause)
    requires x.Box?
  {
    x.sourceSRID != 0 && x.sourceSRID != x.Srid()
  }

  /** A point of the source's coordinate system that came from the box. */
  ghost predicate FromBox(plane: Plane, x: Clause, p: Point)
    requires x.Box?
  {
    if Moves(x) then exists q :: InBox(x.bbox, x.Srid(), q) && p == plane.move(x.Srid(), x.sourceSRID, q)
    else InBox(x.bbox, x.Srid(), p)
  }

  /** The row's id, as text, is listed; its geometry has a point in the box; or the filter holds. */
  ghost predicate Selects(w: World, plane: Plane, row: Row, x: Clause) {
    match x
    case Ids(ids, name, _, _) =>
      !row(name).VNull? && (if row(name).VText? then row(name).text else w.text(row(name))) in ids
    case Box(name, _, _, _, _, _) => exists p :: p in plane.points(ShapeOf(row(name))) && FromBox(plane, x, p)
    case Filter(d, options, _, e) => Holds(w, TargetOf(d, options).opt, row, e) == Yes
  }

  /** The adapter's expressions denote the row's columns, and the parts of a box have their corners in
      order, as the request parser ensures for longitudes on the globe. */
  ghost predicate Denotes(w: World, row: Row, bind: nat -> FilterMeaning.Value, x: Clause) {
    match x
    case Ids(_, name, _, c) => SqlValue(w, row, bind, c) == row(name)
    case Box(name, _, g, _, _, bbox) =>
      && ShapeOf(SqlValue(w, row, bind, g)) == ShapeOf(row(name))
      && forall i :: 0 <= i < |bbox.Parts(x.Srid())| ==> Ordered(bbox.Parts(x.Srid())[i])
    case Filter(d, options, _, _) => GeometryDenotes(w, row, bind, TargetOf(d, options))
  }

  // ---------------------------------------------------------------- feature ids

  /** The clause's placeholders are its ids, and one of them is the row's. */
  lemma {:induction false} ListedIff(w: World, plane: Plane, row: Row, bind: nat -> FilterMeaning.Value,
                                     text: string, ids: seq<string>, n: nat)
    requires Lawful(w, plane) && Binds(bind, n, Texts(ids))
    ensures AnySqlEqual(w, VText(text), SqlValues(w, row, bind, TreeBinds(n, |ids|))) ==
            if text in ids then Yes else No
    decreases |ids|
  {
    hide Lawful;
    if |ids| > 0 {
      var rest := ids[1..];
      assert Texts(ids) == [TextArg(ids[0])] + Texts(rest);
      BindsSplit(bind, n, [TextArg(ids[0])], Texts(rest));
      BindsOne(bind, n, TextArg(ids[0]));
      ListedIff(w, plane, row, bind, text, rest, n + 1);
      SameText(w, plane, text, ids[0]);
      var more := SqlValues(w, row, bind, TreeBinds(n + 1, |rest|));
      assert SqlValues(w, row, bind, TreeBinds(n, |ids|)) == [bind(n)] + more && ([bind(n)] + more)[1..] == more;
      assert text in ids <==> text == ids[0] || text in rest;
    }
  }

  lemma {:induction false} SameText(w: World, plane: Plane, a: string, b: string)
    requires Lawful(w, plane)
    ensures w.compare("=", VText(a), VText(b)) == if a == b then Yes else No
  {
  }

  lemma {:induction false} NullUnlisted(w: World, plane: Plane, vs: seq<FilterMeaning.Value>)
    requires Lawful(w, plane)
    ensures AnySqlEqual(w, VNull, vs) != Yes
    decreases |vs|
  {
    if |vs| > 0 {
      NullUnlisted(w, plane, vs[1..]);
    }
  }

  lemma {:induction false} IdsSelect(w: World, plane: Plane, row: Row, bind: nat -> FilterMeaning.Value,
                                     x: Clause, n: nat)
    requires x.Ids? && Lawful(w, plane) && Denotes(w, row, bind, x) && Binds(bind, n, x.Values())
    ensures ToTri(SqlValue(w, row, bind, x.TreeAt(n))) == Yes <==> Selects(w, plane, row, x)
  {
    hide Lawful, Binds, Texts, AnySqlEqual, SqlValues, TreeBinds;
    var v := CastValue(w, row(x.name), "VARCHAR");
    assert SqlValue(w, row, bind, QCast(x.c, "VARCHAR")) == v;
    if v.VNull? {
      NullUnlisted(w, plane, SqlValues(w, row, bind, TreeBinds(n, |x.ids|)));
    } else {
      ListedIff(w, plane, row, bind, v.text, x.ids, n);
    }
  }

  // ---------------------------------------------------------------- boxes

  ghost predicate FromPart(plane: Plane, x: Clause, part: BBox, p: Point)
    requires x.Box?
  {
    if Moves(x) then exists q: Point :: part.Contains(q.0, q.1) && p == plane.move(x.Srid(), x.sourceSRID, q)
    else part.Contains(p.0, p.1)
  }

  ghost predicate PartMeets(plane: Plane, x: Clause, shape: Shape, part: BBox)
    requires x.Box?
  {
    exists p :: p in plane.points(shape) && FromPart(plane, x, part, p)
  }

  function PartShape(x: Clause, part: BBox): Shape
    requires x.Box?
  {
    if Moves(x) then Moved(x.Srid(), x.sourceSRID, Corner(part)) else Corner(part)
  }

  lemma {:induction false} CornersValue(w: World, row: Row, bind: nat -> FilterMeaning.Value, part: BBox, n: nat)
    requires Binds(bind, n, Corners(part))
    ensures SqlValue(w, row, bind, QCall("ST_MakeEnvelope", TreeBinds(n, 4))) == VGeom(0, Corner(part))
  {
    var a := Corners(part);
    assert bind(n + 0) == ArgValue(a[0]) && bind(n + 1) == ArgValue(a[1]);
    assert bind(n + 2) == ArgValue(a[2]) && bind(n + 3) == ArgValue(a[3]);
    assert SqlValues(w, row, bind, TreeBinds(n + 4, 0)) == [];
    assert SqlValues(w, row, bind, TreeBinds(n + 3, 1)) == [bind(n + 3)];
    assert SqlValues(w, row, bind, TreeBinds(n + 2, 2)) == [bind(n + 2), bind(n + 3)];
    assert SqlValues(w, row, bind, TreeBinds(n + 1, 3)) == [bind(n + 1), bind(n + 2), bind(n + 3)];
    assert SqlValues(w, row, bind, TreeBinds(n, 4)) == [bind(n), bind(n + 1), bind(n + 2), bind(n + 3)];
  }

  lemma {:induction false} PartValue(w: World, row: Row, bind: nat -> FilterMeaning.Value,
                                     x: Clause, part: BBox, n: nat)
    requires x.Box? && Binds(bind, n, Corners(part))
    ensures SqlValue(w, row, bind, BoxTree(x.g, x.sourceSRID, x.Srid(), n)) ==
            OfTri(w.spatial("ST_Intersects", ShapeOf(SqlValue(w, row, bind, x.g)), PartShape(x, part)))
  {
    hide Binds, Corners, TreeBinds, ReprojectTree;
    CornersValue(w, row, bind, part, n);
    var corners := QCall("ST_MakeEnvelope", TreeBinds(n, 4));
    if Moves(x) {
      TransformValue(w, row, bind, corners, Corner(part), x.Srid(), x.sourceSRID);
    }
    var e := EnvelopeTree(x.sourceSRID, x.Srid(), n);
    assert ShapeOf(SqlValue(w, row, bind, e)) == PartShape(x, part);
    IntersectsValue(w, row, bind, x.g, e);
  }

  lemma {:induction false} IntersectsValue(w: World, row: Row, bind: nat -> FilterMeaning.Value, a: Sql, b: Sql)
    ensures SqlValue(w, row, bind, QCall("ST_Intersects", SqlCons(a, SqlCons(b, SqlNil)))) ==
            OfTri(w.spatial("ST_Intersects", ShapeOf(SqlValue(w, row, bind, a)), ShapeOf(SqlValue(w, row, bind, b))))
  {
    var va, vb := SqlValue(w, row, bind, a), SqlValue(w, row, bind, b);
    assert SqlValues(w, row, bind, SqlNil) == [];
    assert SqlValues(w, row, bind, SqlCons(b, SqlNil)) == [vb];
    assert SqlValues(w, row, bind, SqlCons(a, SqlCons(b, SqlNil))) == [va, vb];
  }

  lemma {:induction false} PartMeetsIff(w: World, plane: Plane, x: Clause, shape: Shape, part: BBox)
    requires x.Box? && Lawful(w, plane) && Ordered(part)
    ensures w.spatial("ST_Intersects", shape, PartShape(x, part)) == Yes <==> PartMeets(plane, x, shape, part)
  {
    assert w.spatial("ST_Intersects", shape, PartShape(x, part)).Yes? <==> Meet(plane, shape, PartShape(x, part));
    forall p: Point
      ensures p in plane.points(PartShape(x, part)) <==> FromPart(plane, x, part, p)
    {
      if Moves(x) {
        assert p in plane.points(PartShape(x, part)) <==>
          Image(plane.points(Corner(part)), plane.move, x.Srid(), x.sourceSRID, p);
      }
    }
  }

  /** The disjunction over the parts, at any number of them. */
  lemma {:induction false} PartsSelect(w: World, plane: Plane, row: Row, bind: nat -> FilterMeaning.Value,
                                       x: Clause, parts: seq<BBox>, n: nat)
    requires x.Box? && |parts| > 0 && Lawful(w, plane) && Binds(bind, n, CornersOf(parts))
    requires forall i :: 0 <= i < |parts| ==> Ordered(parts[i])
    ensures var shape := ShapeOf(SqlValue(w, row, bind, x.g));
            ToTri(SqlValue(w, row, bind, BoxesTree(x.g, x.sourceSRID, x.Srid(), n, |parts|))) == Yes <==>
            exists i :: 0 <= i < |parts| && PartMeets(plane, x, shape, parts[i])
    decreases |parts|
  {
    hide Lawful, Binds, Corners, BoxTree, PartMeets, PartShape;
    var k := |parts| - 1;
    var front, last := parts[..k], parts[k];
    var shape := ShapeOf(SqlValue(w, row, bind, x.g));
    CornersCount(front);
    BindsSplit(bind, n, CornersOf(front), Corners(last));
    assert n + |CornersOf(front)| == n + 4 * k;
    PartValue(w, row, bind, x, last, n + 4 * k);
    PartMeetsIff(w, plane, x, shape, last);
    if k > 0 {
      PartsSelect(w, plane, row, bind, x, front, n);
      assert forall i :: 0 <= i < k ==> front[i] == parts[i];
    }
  }

  lemma {:induction false} CornersCount(parts: seq<BBox>)
    ensures |CornersOf(parts)| == 4 * |parts|
    decreases |parts|
  {
    if |parts| > 0 {
      CornersCount(parts[..|parts| - 1]);
    }
  }

  lemma {:induction false} PartsAreBox(b: BBox, srid: nat, p: Point)
    ensures InBox(b, srid, p) <==> exists i :: 0 <= i < |b.Parts(srid)| && b.Parts(srid)[i].Contains(p.0, p.1)
  {
    var parts := b.Parts(srid);
    if srid == 4326 && b.minX > b.maxX {
      assert parts[0].Contains(p.0, p.1) <==> b.minY <= p.1 <= b.maxY && b.minX <= p.0 <= 180.0;
      assert parts[1].Contains(p.0, p.1) <==> b.minY <= p.1 <= b.maxY && -180.0 <= p.0 <= b.maxX;
    } else {
      assert parts[0].Contains(p.0, p.1) <==> InBox(b, srid, p);
    }
  }

  lemma {:induction false} SomePartIff(plane: Plane, x: Clause, shape: Shape)
    requires x.Box?
    ensures var parts := x.bbox.Parts(x.Srid());
            (exists i :: 0 <= i < |parts| && PartMeets(plane, x, shape, parts[i])) <==>
            exists p :: p in plane.points(shape) && FromBox(plane, x, p)
  {
    hide InBox, BBox.Parts, BBox.Contains;
    var parts := x.bbox.Parts(x.Srid());
    forall q ensures InBox(x.bbox, x.Srid(), q) <==> exists i :: 0 <= i < |parts| && parts[i].Contains(q.0, q.1) {
      PartsAreBox(x.bbox, x.Srid(), q);
    }
    if i :| 0 <= i < |parts| && PartMeets(plane, x, shape, parts[i]) {
      var p :| p in plane.points(shape) && FromPart(plane, x, parts[i], p);
      assert FromBox(plane, x, p);
    }
    if p :| p in plane.points(shape) && FromBox(plane, x, p) {
      var q :| InBox(x.bbox, x.Srid(), q) && p == if Moves(x) then plane.move(x.Srid(), x.sourceSRID, q) else q;
      var i :| 0 <= i < |parts| && parts[i].Contains(q.0, q.1);
      assert PartMeets(plane, x, shape, parts[i]);
    }
  }

  lemma {:induction false} BoxSelects(w: World, plane: Plane, row: Row, bind: nat -> FilterMeaning.Value,
                                      x: Clause, n: nat)
    requires x.Box? && Lawful(w, plane) && Denotes(w, row, bind, x) && Binds(bind, n, x.Values())
    ensures ToTri(SqlValue(w, row, bind, x.TreeAt(n))) == Yes <==> Selects(w, plane, row, x)
  {
    hide Lawful, Binds, CornersOf, BoxesTree, PartMeets, FromBox, SqlValue;
    PartsSelect(w, plane, row, bind, x, x.bbox.Parts(x.Srid()), n);
    SomePartIff(plane, x, ShapeOf(row(x.name)));
  }

  // ---------------------------------------------------------------- the whole WHERE

  lemma {:induction false} ClauseSelects(w: World, plane: Plane, row: Row, bind: nat -> FilterMeaning.Value,
                                         x: Clause, n: nat)
    requires x.Ok() && Lawful(w, plane) && Denotes(w, row, bind, x) && Binds(bind, n, x.Values())
    ensures ToTri(SqlValue(w, row, bind, x.TreeAt(n))) == Yes <==> Selects(w, plane, row, x)
  {
    hide Lawful, Binds, SqlValue, Holds, Tree, Args, ValidExpr, ParseFilter, Lex, IsBlank, GeometryDenotes;
    match x {
      case Ids(_, _, _, _) => IdsSelect(w, plane, row, bind, x, n);
      case Box(_, _, _, _, _, _) => BoxSelects(w, plane, row, bind, x, n);
      case Filter(d, options, cql, e) =>
        var t := TargetOf(d, options);
        LexCanonical(cql, 0);
        GrammarExact(t.opt, Lex(cql, 0), e);
        MeaningPreserved(w, row, bind, t, e, n);
    }
  }

  /** A row passes a conjunction exactly when it passes every conjunct. */
  lemma {:induction false} PassesIffAllPass(w: World, row: Row, bind: nat -> FilterMeaning.Value, trees: seq<Sql>)
    requires |trees| > 0
    ensures ToTri(SqlValue(w, row, bind, Conjunction(trees))) == Yes <==>
            forall i :: 0 <= i < |trees| ==> ToTri(SqlValue(w, row, bind, trees[i])) == Yes
    decreases |trees|
  {
    if |trees| > 1 {
      var m := |trees| - 1;
      PassesIffAllPass(w, row, bind, trees[..m]);
      assert forall i :: 0 <= i < m ==> trees[..m][i] == trees[i];
      assert Conjunction(trees) == QAnd(Conjunction(trees[..m]), trees[m]);
    }
  }

  lemma {:induction false} OwnBinds(bind: nat -> FilterMeaning.Value, args: seq<Arg>, n: nat, values: seq<Arg>)
    requires Binds(bind, 1, args) && ValuesAt(args, n, values)
    ensures Binds(bind, n, values)
  {
    forall i | 0 <= i < |values| ensures bind(n + i) == ArgValue(values[i]) {
      assert values[i] == args[n - 1..n - 1 + |values|][i] == args[n - 1 + i];
      assert bind(1 + (n - 1 + i)) == ArgValue(args[n - 1 + i]);
    }
  }

  /** Main result: whatever feature-id, box and filter clauses were appended, and in whatever order, the
      WHERE text is true of a row exactly when the row's id is in every list, its geometry meets
      every box and every filter holds. */
  lemma {:induction false} WhereSelects(w: World, plane: Plane, row: Row, bind: nat -> FilterMeaning.Value,
                                        xs: seq<Clause>, where: seq<string>)
    returns (q: Sql)
    requires |where| == |xs| > 0 && AllOk(xs) && Lawful(w, plane) && Binds(bind, 1, ValuesOf(xs))
    requires forall i :: 0 <= i < |xs| ==> where[i] == SqlText.Text(xs[i].SqlAt(StartOf(xs, i)))
    requires forall i :: 0 <= i < |xs| ==> Denotes(w, row, bind, xs[i])
    ensures "WHERE " <= WhereClause(where) && ReadSql(WhereClause(where)[6..]) == Some(q)
    ensures ToTri(SqlValue(w, row, bind, q)) == Yes <==> forall i :: 0 <= i < |xs| ==> Selects(w, plane, row, xs[i])
  {
    hide Lawful, Binds, SqlValue, Denotes, Selects, ReadSql, WhereClause, Conjunction, ValuesOf, StartOf, ValuesAt,
       Clause.Ok, Clause.SqlAt, Clause.TreeAt, Clause.Values;
    WhereReads(xs, where);
    var trees := TreesOf(xs);
    q := Conjunction(trees);
    PassesIffAllPass(w, row, bind, trees);
    assert xs[..|xs|] == xs;
    forall i | 0 <= i < |xs|
      ensures ToTri(SqlValue(w, row, bind, trees[i])) == Yes <==> Selects(w, plane, row, xs[i])
    {
      OwnValues(xs, i, |xs|);
      OwnBinds(bind, ValuesOf(xs), StartOf(xs, i), xs[i].Values());
      ClauseSelects(w, plane, row, bind, xs[i], StartOf(xs, i));
    }
  }

  // ---------------------------------------------------------------- what the adapters pass

  predicate FromAdapter(x: Clause) {
    match x
    case Ids(_, name, column, c) =>
      exists alias :: alias in {"t", "v"} && column == Column(alias, name) && c == QCol(alias, name)
    case Box(name, geom, g, _, _, _) =>
      exists alias :: alias in {"t", "v"} &&
        (|| (geom == Column(alias, name) && g == QCol(alias, name))
         || (geom == WkbColumn(alias, name) && g == QCall("ST_GeomFromWKB", SqlCons(QCol(alias, name), SqlNil))))
    case Filter(d, options, _, _) => AdapterGeometry(TargetOf(d, options))
  }

  /** What a request owes: some ids, a box with its corners in order, a filter that is accepted. */
  predicate WellAsked(x: Clause) {
    match x
    case Ids(ids, _, _, _) => |ids| > 0
    case Box(_, _, _, _, _, bbox) => forall i :: 0 <= i < |bbox.Parts(x.Srid())| ==> Ordered(bbox.Parts(x.Srid())[i])
    case Filter(d, options, cql, e) => !IsBlank(cql) && ParseFilter(TargetOf(d, options).opt, Lex(cql, 0)) == Some(e)
  }

  /** Every clause the adapters make of such a request meets what `WhereSelects` asks, on every row. */
  lemma {:induction false} AdapterClauseMeets(x: Clause, w: World, row: Row, bind: nat -> FilterMeaning.Value)
    requires FromAdapter(x) && WellAsked(x)
    ensures x.Ok() && Denotes(w, row, bind, x)
  {
    hide ColumnSql, GeometrySql, TrustedGeometry, GeometryDenotes, AdapterGeometry, ParseFilter, Lex, IsBlank,
       Column, WkbColumn, BBox.Parts, Ordered;
    match x {
      case Ids(_, name, column, c) =>
        var alias :| alias in {"t", "v"} && column == Column(alias, name) && c == QCol(alias, name);
        ColumnIsColumnSql(alias, name);
        assert SqlValue(w, row, bind, c) == row(name);
      case Box(name, geom, g, _, _, _) =>
        var alias :| alias in {"t", "v"} &&
          (|| (geom == Column(alias, name) && g == QCol(alias, name))
           || (geom == WkbColumn(alias, name) && g == QCall("ST_GeomFromWKB", SqlCons(QCol(alias, name), SqlNil))));
        ColumnIsGeometrySql(alias, name);
        WkbColumnValue(w, row, bind, alias, name);
      case Filter(d, options, _, _) => AdapterGeometryDenotes(TargetOf(d, options), w, row, bind);
    }
  }

  lemma {:induction false} WkbColumnValue(w: World, row: Row, bind: nat -> FilterMeaning.Value,
                                          alias: string, name: string)
    ensures SqlValue(w, row, bind, QCol(alias, name)) == row(name)
    ensures SqlValue(w, row, bind, QCall("ST_GeomFromWKB", SqlCons(QCol(alias, name), SqlNil))) == row(name)
  {
    assert SqlValues(w, row, bind, SqlNil) == [];
    assert SqlValues(w, row, bind, SqlCons(QCol(alias, name), SqlNil)) == [row(name)];
  }

  lemma {:induction false} ColumnIsGeometrySql(alias: string, name: string)
    requires alias in {"t", "v"}
    ensures GeometrySql(Column(alias, name), QCol(alias, name))
    ensures GeometrySql(WkbColumn(alias, name), QCall("ST_GeomFromWKB", SqlCons(QCol(alias, name), SqlNil)))
  {
    hide ReadPrimary, ReadArg, Strip;
    ColumnReadsBack(alias, name, Nil);
    assert EndsArgument(Tok(SRp, Nil));
    WkbColumnReads(alias, name, Tok(SRp, Nil));
    forall k | EndsArgument(k)
      ensures ReadArg(Strip(Column(alias, name), k)) == Got(QCol(alias, name), k)
      ensures ReadArg(Strip(WkbColumn(alias, name), k)) ==
              Got(QCall("ST_GeomFromWKB", SqlCons(QCol(alias, name), SqlNil)), k)
    {
      ColumnReadsBack(alias, name, k);
      PrimaryArgument(Strip(Column(alias, name), k), QCol(alias, name), k);
      WkbColumnReads(alias, name, k);
    }
  }
}
