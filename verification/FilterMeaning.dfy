/** Three-valued meaning of a filter and of the SQL it compiles to. */
module FilterMeaning {
  import opened Base
  import opened Tokens
  import opened Lexing
  import opened Cql2Grammar
  import opened Emission
  import opened SqlReading
  import opened SqlFidelity
  import opened SqlLexing

  // ---------------------------------------------------------------- values

  datatype Tri = Yes | No | Unknown

  function And3(a: Tri, b: Tri): Tri {
    if a.No? || b.No? then No else if a.Yes? && b.Yes? then Yes else Unknown
  }

  function Or3(a: Tri, b: Tri): Tri {
    if a.Yes? || b.Yes? then Yes else if a.No? && b.No? then No else Unknown
  }

  function Not3(a: Tri): Tri {
    match a case Yes => No case No => Yes case Unknown => Unknown
  }

  function If3(neg: bool, a: Tri): Tri { if neg then Not3(a) else a }

  /** A geometry: one stored in a row, one given as WKT or by its corners, or one moved to another
      coordinate system. */
  datatype Shape =
    | NoShape | Stored(id: int) | FromWkt(text: string)
    | Rectangle(minX: real, minY: real, maxX: real, maxY: real)
    | Moved(from: nat, to: nat, shape: Shape)

  datatype Value =
    | VNull | VBool(b: bool) | VNum(num: real) | VText(text: string)
    | VTime(zoned: bool, text: string) | VGeom(srid: nat, shape: Shape)

  /** The database's own comparison, arithmetic, pattern, text and spatial primitives: any will do. */
  datatype World = World(
    compare: (string, Value, Value) -> Tri,
    arith: (string, Value, Value) -> Value,
    like: (bool, Value, Value) -> Tri,
    spatial: (string, Shape, Shape) -> Tri,
    dwithin: (Shape, Shape, Value) -> Tri,
    text: Value -> string,
    now: Value)

  type Row = string -> Value

  function OfTri(a: Tri): Value {
    match a case Yes => VBool(true) case No => VBool(false) case Unknown => VNull
  }

  function ToTri(v: Value): Tri {
    match v case VBool(b) => (if b then Yes else No) case _ => Unknown
  }

  function ShapeOf(v: Value): Shape { if v.VGeom? then v.shape else NoShape }

  // ---------------------------------------------------------------- the meaning of CQL2

  /** c occurs after the date of a temporal literal. */
  predicate AfterDate(raw: string, c: char) { exists i :: 10 <= i < |raw| && raw[i] == c }

  predicate TimeOfDay(raw: string) { AfterDate(raw, 'T') && AfterDate(raw, ':') }

  /** Which literals are compared as zoned timestamps: those marked Z or +, and those with a time of day. */
  predicate Zoned(raw: string) { AfterDate(raw, 'Z') || AfterDate(raw, '+') || TimeOfDay(raw) }

  /** A zone is present: Z or a signed offset follows the date. */
  predicate ZonePresent(raw: string) { AfterDate(raw, 'Z') || AfterDate(raw, '+') || AfterDate(raw, '-') }

  function ScalarValue(w: World, o: Options, row: Row, s: Scalar): Value {
    match s
    case Prop(name) => row(name)
    case Text(text) => VText(text)
    case Number(raw) => ArgValue(NumberArg(o, raw))
    case Boolean(raw) => VBool(raw == "true")
    case Instant(raw) => VTime(Zoned(raw), raw)
    case Now => w.now
    case Group(inner) => ScalarValue(w, o, row, inner)
    case Arith(l, op, r) => w.arith(Fixed(op).raw, ScalarValue(w, o, row, l), ScalarValue(w, o, row, r))
  }

  /** A literal is given in the filter's coordinate system and compared in the source's. */
  function GeomShape(o: Options, row: Row, g: Geom): Shape {
    if g.GeomProp? then ShapeOf(row(g.name))
    else if Reprojects(o) then Moved(o.filterSRID, o.sourceSRID, FromWkt(WktText(o, g)))
    else FromWkt(WktText(o, g))
  }

  function AnyEqual(w: World, o: Options, v: Value, items: Stream): Tri {
    match items
    case End => No
    case Cons(t, more) => Or3(w.compare("=", v, ArgValue(ItemArg(o, t))), AnyEqual(w, o, v, more))
  }

  function PredHolds(w: World, o: Options, row: Row, p: Pred): Tri {
    match p
    case Spatial(op, g1, g2) => w.spatial(StFunction(op), GeomShape(o, row, g1), GeomShape(o, row, g2))
    case DWithin(g1, g2, d) => w.dwithin(GeomShape(o, row, g1), GeomShape(o, row, g2), ArgValue(NumberArg(o, d)))
    case Like(prop, neg, ci, _, pattern) => If3(neg.Some?, w.like(ci, row(prop), VText(pattern)))
    case IsNull(prop, _, neg, _) => If3(neg.Some?, if row(prop).VNull? then Yes else No)
    case InList(prop, neg, _, items) => If3(neg.Some?, AnyEqual(w, o, row(prop), items))
    case Compare(l, op, r) => w.compare(Fixed(op).raw, ScalarValue(w, o, row, l), ScalarValue(w, o, row, r))
    case Between(l, neg, _, a, _, b) =>
      var v := ScalarValue(w, o, row, l);
      If3(neg.Some?, And3(w.compare(">=", v, ScalarValue(w, o, row, a)), w.compare("<=", v, ScalarValue(w, o, row, b))))
  }

  /** The truth value of a filter on a row. */
  function Holds(w: World, o: Options, row: Row, e: Expr): Tri {
    match e
    case Atom(p) => PredHolds(w, o, row, p)
    case Paren(inner) => Holds(w, o, row, inner)
    case Not(_, arg) => Not3(Holds(w, o, row, arg))
    case And(l, _, r) => And3(Holds(w, o, row, l), Holds(w, o, row, r))
    case Or(l, _, r) => Or3(Holds(w, o, row, l), Holds(w, o, row, r))
  }

  // ---------------------------------------------------------------- the meaning of SQL

  function ArgValue(a: Arg): Value {
    match a case TextArg(s) => VText(s) case NumArg(r) => VNum(r)
  }

  /** `SRID=n;wkt` as PostGIS reads it; text without the prefix has SRID 0. */
  function ReadEwkt(s: string): Value {
    if |s| >= 5 && s[..5] == "SRID=" then
      var e := RunEnd(s, 5, IsDigit);
      if e < |s| && s[e] == ';' then VGeom(Atoi(s[5..e]), FromWkt(s[e + 1..])) else VNull
    else VGeom(0, FromWkt(s))
  }

  function ReadEpsg(s: string): nat {
    if |s| >= 5 && s[..5] == "EPSG:" && AllDigits(s[5..]) then Atoi(s[5..]) else 0
  }

  function CastValue(w: World, v: Value, typ: string): Value {
    if typ == "VARCHAR" then (if v.VNull? || v.VText? then v else VText(w.text(v)))
    else if !v.VText? then VNull
    else if typ == "timestamptz" || typ == "TIMESTAMPTZ" then VTime(true, v.text)
    else if typ == "timestamp" || typ == "TIMESTAMP" then VTime(false, v.text)
    else if typ == "geometry" then ReadEwkt(v.text)
    else VNull
  }

  /** A geometry column has its geometry as value, whether it is stored natively or as WKB. */
  function CallValue(w: World, fn: string, vs: seq<Value>): Value {
    if fn == "NOW" && |vs| == 0 then w.now
    else if fn == "ST_GeomFromWKB" && |vs| == 1 then vs[0]
    else if fn == "ST_MakeEnvelope" && |vs| == 4 && vs[0].VNum? && vs[1].VNum? && vs[2].VNum? && vs[3].VNum? then
      VGeom(0, Rectangle(vs[0].num, vs[1].num, vs[2].num, vs[3].num))
    else if fn == "ST_GeomFromText" && |vs| == 1 && vs[0].VText? then VGeom(0, FromWkt(vs[0].text))
    else if fn == "ST_Transform" && |vs| == 2 && vs[0].VGeom? && vs[1].VNum? && vs[1].num >= 0.0 then
      VGeom(vs[1].num.Floor, Moved(vs[0].srid, vs[1].num.Floor, vs[0].shape))
    else if fn == "ST_Transform" && |vs| == 4 && vs[0].VGeom? && vs[1].VText? && vs[2].VText?
      && vs[3] == VBool(true) then
      VGeom(ReadEpsg(vs[2].text), Moved(ReadEpsg(vs[1].text), ReadEpsg(vs[2].text), vs[0].shape))
    else if fn == "ST_DWithin" && |vs| == 3 then OfTri(w.dwithin(ShapeOf(vs[0]), ShapeOf(vs[1]), vs[2]))
    else if |vs| == 2 then OfTri(w.spatial(fn, ShapeOf(vs[0]), ShapeOf(vs[1])))
    else VNull
  }

  function SqlValues(w: World, row: Row, bind: nat -> Value, qs: SqlList): seq<Value>
    decreases qs
  {
    match qs case SqlNil => [] case SqlCons(q, more) => [SqlValue(w, row, bind, q)] + SqlValues(w, row, bind, more)
  }

  function AnySqlEqual(w: World, v: Value, vs: seq<Value>): Tri {
    if |vs| == 0 then No else Or3(w.compare("=", v, vs[0]), AnySqlEqual(w, v, vs[1..]))
  }

  /** The value of a SQL expression on a row, `bind` giving the value of each placeholder. */
  function SqlValue(w: World, row: Row, bind: nat -> Value, q: Sql): Value
    decreases q
  {
    match q
    case QOr(l, r) => OfTri(Or3(ToTri(SqlValue(w, row, bind, l)), ToTri(SqlValue(w, row, bind, r))))
    case QAnd(l, r) => OfTri(And3(ToTri(SqlValue(w, row, bind, l)), ToTri(SqlValue(w, row, bind, r))))
    case QNot(e) => OfTri(Not3(ToTri(SqlValue(w, row, bind, e))))
    case QCmp(op, l, r) => OfTri(w.compare(op, SqlValue(w, row, bind, l), SqlValue(w, row, bind, r)))
    case QArith(op, l, r) => w.arith(op, SqlValue(w, row, bind, l), SqlValue(w, row, bind, r))
    case QBetween(neg, e, a, b) =>
      var v := SqlValue(w, row, bind, e);
      OfTri(If3(neg,
        And3(w.compare(">=", v, SqlValue(w, row, bind, a)), w.compare("<=", v, SqlValue(w, row, bind, b)))))
    case QIn(neg, e, items) =>
      OfTri(If3(neg, AnySqlEqual(w, SqlValue(w, row, bind, e), SqlValues(w, row, bind, items))))
    case QLike(neg, ci, e, p) => OfTri(If3(neg, w.like(ci, SqlValue(w, row, bind, e), SqlValue(w, row, bind, p))))
    case QIsNull(neg, e) => OfTri(If3(neg, if SqlValue(w, row, bind, e).VNull? then Yes else No))
    case QCol(_, name) => row(name)
    case QBind(i) => bind(i)
    case QBool(b) => VBool(b)
    case QStr(text) => VText(text)
    case QInt(value) => VNum(value as real)
    case QCast(e, typ) => CastValue(w, SqlValue(w, row, bind, e), typ)
    case QCall(fn, items) => CallValue(w, fn, SqlValues(w, row, bind, items))
    case QNamed(_, e) => SqlValue(w, row, bind, e)
  }

  // ---------------------------------------------------------------- preservation

  /** Placeholder n+i is bound to the i-th argument. */
  ghost predicate Binds(bind: nat -> Value, n: nat, args: seq<Arg>) {
    forall i :: 0 <= i < |args| ==> bind(n + i) == ArgValue(args[i])
  }

  /** The adapter's expression denotes the geometry column. */
  ghost predicate GeometryDenotes(w: World, row: Row, bind: nat -> Value, t: Target) {
    t.geometrySql != [] ==> ShapeOf(SqlValue(w, row, bind, GeometryTree(t))) == ShapeOf(row(t.opt.geometry))
  }

  lemma {:induction false} BindsSplit(bind: nat -> Value, n: nat, a: seq<Arg>, b: seq<Arg>)
    requires Binds(bind, n, a + b)
    ensures Binds(bind, n, a) && Binds(bind, n + |a|, b)
  {
    forall i | 0 <= i < |a| ensures bind(n + i) == ArgValue(a[i]) {
      assert (a + b)[i] == a[i];
    }
    forall i | 0 <= i < |b| ensures bind(n + |a| + i) == ArgValue(b[i]) {
      assert (a + b)[|a| + i] == b[i];
      assert n + |a| + i == n + (|a| + i);
    }
  }

  lemma {:induction false} BindsOne(bind: nat -> Value, n: nat, a: Arg)
    requires Binds(bind, n, [a])
    ensures bind(n) == ArgValue(a)
  {
    assert bind(n + 0) == ArgValue([a][0]);
  }

  lemma {:induction false} OnlyAfterDate(raw: string, c: char)
    requires LooksLikeDate(raw) && !IsDigit(c) && c != '-'
    ensures Has(raw, c) <==> AfterDate(raw, c)
  {
    assert forall i :: 0 <= i < 10 ==> IsDigit(raw[i]) || raw[i] == '-';
  }

  /** Both compilers' zone tests are this one on every temporal token of the lexer. */
  lemma {:induction false} ZoneTestsAgree(raw: string)
    requires raw == "NOW" || LooksLikeDate(raw)
    ensures PostgisZoned(raw) == Zoned(raw) && DuckdbZoned(raw) == Zoned(raw)
  {
    if LooksLikeDate(raw) {
      hide AfterDate;
      assert raw[4] == '-';
      OnlyAfterDate(raw, 'Z');
      OnlyAfterDate(raw, '+');
      OnlyAfterDate(raw, 'T');
      OnlyAfterDate(raw, ':');
    }
  }

  /** The code means to use a zoned timestamp when a zone is present. It does exactly when Z or + is,
      or when a negative offset and a time of day come together or are both missing. */
  lemma {:induction false} ZonedWhenPresentIff(raw: string)
    requires LooksLikeDate(raw)
    ensures PostgisZoned(raw) == ZonePresent(raw) <==>
            AfterDate(raw, 'Z') || AfterDate(raw, '+') || (TimeOfDay(raw) <==> AfterDate(raw, '-'))
  {
    hide AfterDate;
    ZoneTestsAgree(raw);
  }

  /** A local date-time has no zone and is compared as a zoned timestamp all the same. */
  lemma {:induction false} LocalTimeTakenAsZoned()
    ensures var raw := "2024-01-01T10:00:00";
            LooksLikeDate(raw) && !ZonePresent(raw) && PostgisZoned(raw) && DuckdbZoned(raw)
  {
    var raw := "2024-01-01T10:00:00";
    assert raw[10] == 'T' && raw[13] == ':';
    ZoneTestsAgree(raw);
  }

  lemma {:induction false} InstantPreserved(w: World, row: Row, bind: nat -> Value, t: Target, raw: string, n: nat)
    requires ValidScalar(t.opt, Instant(raw)) && bind(n) == VText(raw)
    ensures SqlValue(w, row, bind, QCast(QBind(n), InstantType(t.dialect, raw))) == VTime(Zoned(raw), raw)
  {
    hide PostgisZoned, DuckdbZoned, Zoned, LooksLikeDate;
    ZoneTestsAgree(raw);
    assert SqlValue(w, row, bind, QBind(n)) == VText(raw);
  }

  lemma {:induction false} LeafPreserved(w: World, row: Row, bind: nat -> Value, t: Target, s: Scalar, n: nat)
    requires ValidScalar(t.opt, s) && !s.Group? && !s.Arith? && Binds(bind, n, ArgsScalar(t.opt, s))
    ensures SqlValue(w, row, bind, TreeScalar(t, s, n)) == ScalarValue(w, t.opt, row, s)
  {
    hide Binds, InstantType, Zoned, LooksLikeDate, NumberArg, CastValue;
    match s {
      case Instant(raw) =>
        BindsOne(bind, n, TextArg(raw));
        InstantPreserved(w, row, bind, t, raw, n);
      case Text(text) => BindsOne(bind, n, TextArg(text));
      case Number(raw) => BindsOne(bind, n, NumberArg(t.opt, raw));
      case _ =>
    }
  }

  lemma {:induction false} ScalarPreserved(w: World, row: Row, bind: nat -> Value, t: Target, s: Scalar, n: nat)
    requires ValidScalar(t.opt, s) && Binds(bind, n, ArgsScalar(t.opt, s))
    ensures SqlValue(w, row, bind, TreeScalar(t, s, n)) == ScalarValue(w, t.opt, row, s)
    decreases s
  {
    hide Binds, SqlValue, TreeScalar, ScalarValue;
    match s {
      case Arith(l, op, r) =>
        var m := n + |ArgsScalar(t.opt, l)|;
        BindsSplit(bind, n, ArgsScalar(t.opt, l), ArgsScalar(t.opt, r));
        ScalarPreserved(w, row, bind, t, l, n);
        ScalarPreserved(w, row, bind, t, r, m);
        ArithValue(w, row, bind, t, l, op, r, n);
      case Group(inner) =>
        ScalarPreserved(w, row, bind, t, inner, n);
        GroupValue(w, row, t, inner, n);
      case _ => LeafPreserved(w, row, bind, t, s, n);
    }
  }

  lemma {:induction false} GroupValue(w: World, row: Row, t: Target, inner: Scalar, n: nat)
    ensures TreeScalar(t, Group(inner), n) == TreeScalar(t, inner, n)
    ensures ScalarValue(w, t.opt, row, Group(inner)) == ScalarValue(w, t.opt, row, inner)
  {
  }

  lemma {:induction false} ArithValue(w: World, row: Row, bind: nat -> Value, t: Target,
      l: Scalar, op: Typ, r: Scalar, n: nat)
    requires var m := n + |ArgsScalar(t.opt, l)|;
             && SqlValue(w, row, bind, TreeScalar(t, l, n)) == ScalarValue(w, t.opt, row, l)
             && SqlValue(w, row, bind, TreeScalar(t, r, m)) == ScalarValue(w, t.opt, row, r)
    ensures SqlValue(w, row, bind, TreeScalar(t, Arith(l, op, r), n)) == ScalarValue(w, t.opt, row, Arith(l, op, r))
  {
    hide CastValue, CallValue, Fixed, SqlValues, InstantType, Zoned, NumberArg;
  }

  lemma {:induction false} EwktReads(n: nat, wkt: string)
    ensures ReadEwkt("SRID=" + Itoa(n) + ";" + wkt) == VGeom(n, FromWkt(wkt))
  {
    var s := "SRID=" + Itoa(n) + ";" + wkt;
    NumeralFirst("SRID=", n, ";" + wkt);
    assert s == "SRID=" + Itoa(n) + (";" + wkt);
    assert s[..5] == "SRID=";
    assert s[5 + |Itoa(n)| + 1..] == wkt;
  }

  lemma {:induction false} EpsgReads(n: nat)
    ensures ReadEpsg("EPSG:" + Itoa(n)) == n
  {
    AtoiItoa(n);
    assert ("EPSG:" + Itoa(n))[5..] == Itoa(n);
    assert ("EPSG:" + Itoa(n))[..5] == "EPSG:";
  }

  lemma {:induction false} GeomPreserved(w: World, row: Row, bind: nat -> Value, t: Target, g: Geom, n: nat)
    requires ValidGeom(t.opt, g) && GeometryDenotes(w, row, bind, t) && Binds(bind, n, ArgsGeom(t, g))
    ensures ShapeOf(SqlValue(w, row, bind, TreeGeom(t, g, n))) == GeomShape(t.opt, row, g)
  {
    hide WktText, Binds, GeomArg, SqlValues;
    if !g.GeomProp? {
      var wkt := WktText(t.opt, g);
      BindsOne(bind, n, GeomArg(t, wkt));
      assert TreeGeom(t, g, n) == TreeGeom(t, Wkt(TPoint, End), n);
      if t.dialect.PostGIS? {
        PgLiteralPreserved(w, row, bind, t, n, wkt);
      } else {
        DuckLiteralPreserved(w, row, bind, t, n, wkt);
      }
    }
  }

  function LiteralShape(o: Options, wkt: string): Shape {
    if Reprojects(o) then Moved(o.filterSRID, o.sourceSRID, FromWkt(wkt)) else FromWkt(wkt)
  }

  lemma {:induction false} PgLiteralPreserved(w: World, row: Row, bind: nat -> Value, t: Target, n: nat, wkt: string)
    requires t.dialect.PostGIS? && bind(n) == ArgValue(GeomArg(t, wkt))
    ensures ShapeOf(SqlValue(w, row, bind, TreeGeom(t, Wkt(TPoint, End), n))) == LiteralShape(t.opt, wkt)
  {
    hide Itoa, ReadEwkt;
    EwktReads(t.opt.filterSRID, wkt);
    var lit := QCast(QBind(n), "geometry");
    assert SqlValue(w, row, bind, lit) == VGeom(t.opt.filterSRID, FromWkt(wkt));
    if Reprojects(t.opt) {
      var srid := SqlCons(QInt(t.opt.sourceSRID), SqlNil);
      var vs := SqlValues(w, row, bind, SqlCons(lit, srid));
      assert SqlValues(w, row, bind, SqlNil) == [];
      assert SqlValues(w, row, bind, srid) == [VNum(t.opt.sourceSRID as real)];
      assert vs == [VGeom(t.opt.filterSRID, FromWkt(wkt)), VNum(t.opt.sourceSRID as real)];
      assert (t.opt.sourceSRID as real).Floor == t.opt.sourceSRID;
    }
  }

  lemma {:induction false} FromTextValue(w: World, row: Row, bind: nat -> Value, n: nat, wkt: string)
    requires bind(n) == VText(wkt)
    ensures SqlValue(w, row, bind, QCall("ST_GeomFromText", SqlCons(QCast(QBind(n), "VARCHAR"), SqlNil))) ==
            VGeom(0, FromWkt(wkt))
  {
    hide ReadEwkt;
    var cast := SqlCons(QCast(QBind(n), "VARCHAR"), SqlNil);
    assert SqlValue(w, row, bind, QCast(QBind(n), "VARCHAR")) == VText(wkt);
    assert SqlValues(w, row, bind, SqlNil) == [];
    assert SqlValues(w, row, bind, cast) == [VText(wkt)];
  }

  /** ST_Transform(lit, 'EPSG:from', 'EPSG:to', always_xy := true) */
  lemma {:induction false} TransformValue(w: World, row: Row, bind: nat -> Value, lit: Sql,
      shape: Shape, from: nat, to: nat)
    requires SqlValue(w, row, bind, lit) == VGeom(0, shape)
    ensures ShapeOf(SqlValue(w, row, bind, QCall("ST_Transform", SqlCons(lit, ReprojectTree(from, to))))) ==
            Moved(from, to, shape)
  {
    hide Itoa, ReadEpsg, ReadEwkt, CastValue;
    EpsgReads(from);
    EpsgReads(to);
    var a, b := "EPSG:" + Itoa(from), "EPSG:" + Itoa(to);
    var axis := SqlCons(QNamed("always_xy", QBool(true)), SqlNil);
    assert SqlValue(w, row, bind, QNamed("always_xy", QBool(true))) == VBool(true)
      && SqlValues(w, row, bind, SqlNil) == [];
    assert SqlValues(w, row, bind, axis) == [VBool(true)];
    var last := SqlCons(QStr(b), axis);
    assert SqlValues(w, row, bind, last) == [VText(b), VBool(true)];
    var more := SqlCons(QStr(a), last);
    assert SqlValues(w, row, bind, more) == [VText(a), VText(b), VBool(true)];
    assert SqlValues(w, row, bind, SqlCons(lit, more)) == [VGeom(0, shape), VText(a), VText(b), VBool(true)];
  }

  lemma {:induction false} DuckLiteralPreserved(w: World, row: Row, bind: nat -> Value, t: Target, n: nat, wkt: string)
    requires t.dialect.DuckDB? && bind(n) == ArgValue(GeomArg(t, wkt))
    ensures ShapeOf(SqlValue(w, row, bind, TreeGeom(t, Wkt(TPoint, End), n))) == LiteralShape(t.opt, wkt)
  {
    hide Itoa, SqlValue, SqlValues;
    FromTextValue(w, row, bind, n, wkt);
    if Reprojects(t.opt) {
      var lit := QCall("ST_GeomFromText", SqlCons(QCast(QBind(n), "VARCHAR"), SqlNil));
      TransformValue(w, row, bind, lit, FromWkt(wkt), t.opt.filterSRID, t.opt.sourceSRID);
    }
  }

  lemma {:induction false} ItemsPreserved(w: World, row: Row, bind: nat -> Value, o: Options,
      v: Value, items: Stream, n: nat)
    requires Binds(bind, n, ArgsItems(o, items))
    ensures AnySqlEqual(w, v, SqlValues(w, row, bind, TreeItems(items, n))) == AnyEqual(w, o, v, items)
    decreases items
  {
    if items.Cons? {
      BindsSplit(bind, n, [ItemArg(o, items.head)], ArgsItems(o, items.tail));
      assert bind(n + 0) == ArgValue([ItemArg(o, items.head)][0]);
      ItemsPreserved(w, row, bind, o, v, items.tail, n + 1);
      var rest := SqlValues(w, row, bind, TreeItems(items.tail, n + 1));
      assert ([bind(n)] + rest)[1..] == rest;
    }
  }

  lemma {:induction false} SpatialPreserved(w: World, row: Row, bind: nat -> Value, t: Target, p: Pred, n: nat)
    requires p.Spatial? && ValidPred(t.opt, p) && GeometryDenotes(w, row, bind, t) && Binds(bind, n, ArgsPred(t, p))
    ensures SqlValue(w, row, bind, TreePred(t, p, n)) == OfTri(PredHolds(w, t.opt, row, p))
  {
    hide TreeGeom, ArgsGeom, GeomShape, GeometryDenotes, Binds;
    BindsSplit(bind, n, ArgsGeom(t, p.g1), ArgsGeom(t, p.g2));
    var m := n + |ArgsGeom(t, p.g1)|;
    GeomPreserved(w, row, bind, t, p.g1, n);
    GeomPreserved(w, row, bind, t, p.g2, m);
    var a, b := TreeGeom(t, p.g1, n), TreeGeom(t, p.g2, m);
    assert SqlValues(w, row, bind, SqlNil) == [];
    assert SqlValues(w, row, bind, SqlCons(b, SqlNil)) == [SqlValue(w, row, bind, b)];
    assert SqlValues(w, row, bind, SqlCons(a, SqlCons(b, SqlNil))) ==
      [SqlValue(w, row, bind, a), SqlValue(w, row, bind, b)];
    SpatialIsNoTransform(p.fn);
  }

  lemma {:induction false} SpatialIsNoTransform(op: string)
    requires op in SpatialNames
    ensures StFunction(op) != "ST_Transform"
  {
  }

  lemma {:induction false} DWithinPreserved(w: World, row: Row, bind: nat -> Value, t: Target, p: Pred, n: nat)
    requires p.DWithin? && ValidPred(t.opt, p) && GeometryDenotes(w, row, bind, t) && Binds(bind, n, ArgsPred(t, p))
    ensures SqlValue(w, row, bind, TreePred(t, p, n)) == OfTri(PredHolds(w, t.opt, row, p))
  {
    hide TreeGeom, ArgsGeom, GeomShape, GeometryDenotes, Binds, NumberArg;
    var gs := ArgsGeom(t, p.d1) + ArgsGeom(t, p.d2);
    var m := n + |ArgsGeom(t, p.d1)|;
    var d := m + |ArgsGeom(t, p.d2)|;
    BindsSplit(bind, n, gs, [NumberArg(t.opt, p.distance)]);
    BindsSplit(bind, n, ArgsGeom(t, p.d1), ArgsGeom(t, p.d2));
    BindsOne(bind, d, NumberArg(t.opt, p.distance));
    GeomPreserved(w, row, bind, t, p.d1, n);
    GeomPreserved(w, row, bind, t, p.d2, m);
    var a, b := TreeGeom(t, p.d1, n), TreeGeom(t, p.d2, m);
    var last := SqlCons(QBind(d), SqlNil);
    assert SqlValues(w, row, bind, SqlNil) == [];
    assert SqlValues(w, row, bind, last) == [bind(d)];
    assert SqlValues(w, row, bind, SqlCons(b, last)) == [SqlValue(w, row, bind, b), bind(d)];
    assert SqlValues(w, row, bind, SqlCons(a, SqlCons(b, last))) ==
      [SqlValue(w, row, bind, a), SqlValue(w, row, bind, b), bind(d)];
  }

  lemma {:induction false} ComparisonPreserved(w: World, row: Row, bind: nat -> Value, t: Target, p: Pred, n: nat)
    requires (p.Compare? || p.Between?) && ValidPred(t.opt, p) && Binds(bind, n, ArgsPred(t, p))
    ensures SqlValue(w, row, bind, TreePred(t, p, n)) == OfTri(PredHolds(w, t.opt, row, p))
  {
    hide ScalarValue, TreeScalar, ArgsScalar, ValidScalar, Binds, CallValue, SqlValues, Leftmost, Fixed;
    var o := t.opt;
    var l := ArgsScalar(o, p.left);
    if p.Compare? {
      BindsSplit(bind, n, l, ArgsScalar(o, p.right));
      ScalarPreserved(w, row, bind, t, p.left, n);
      ScalarPreserved(w, row, bind, t, p.right, n + |l|);
    } else {
      var a := ArgsScalar(o, p.low);
      BindsSplit(bind, n, l + a, ArgsScalar(o, p.high));
      BindsSplit(bind, n, l, a);
      ScalarPreserved(w, row, bind, t, p.left, n);
      ScalarPreserved(w, row, bind, t, p.low, n + |l|);
      ScalarPreserved(w, row, bind, t, p.high, n + |l| + |a|);
    }
  }

  lemma {:induction false} PredPreserved(w: World, row: Row, bind: nat -> Value, t: Target, p: Pred, n: nat)
    requires ValidPred(t.opt, p) && GeometryDenotes(w, row, bind, t) && Binds(bind, n, ArgsPred(t, p))
    ensures SqlValue(w, row, bind, TreePred(t, p, n)) == OfTri(PredHolds(w, t.opt, row, p))
  {
    hide ScalarValue, TreeScalar, ArgsScalar, ValidScalar, CallValue, Binds, GeometryDenotes, TreeGeom, GeomShape;
    match p {
      case Spatial(_, _, _) => SpatialPreserved(w, row, bind, t, p, n);
      case DWithin(_, _, _) => DWithinPreserved(w, row, bind, t, p, n);
      case Like(_, _, _, _, pattern) => BindsOne(bind, n, TextArg(pattern));
      case IsNull(_, _, _, _) =>
      case InList(prop, _, _, items) => ItemsPreserved(w, row, bind, t.opt, row(prop), items, n);
      case Compare(_, _, _) => ComparisonPreserved(w, row, bind, t, p, n);
      case Between(_, _, _, _, _, _) => ComparisonPreserved(w, row, bind, t, p, n);
    }
  }

  /** On every row, the SQL tree of a filter has the filter's own three-valued result. */
  lemma {:induction false} MeaningPreserved(w: World, row: Row, bind: nat -> Value, t: Target, e: Expr, n: nat)
    requires ValidExpr(t.opt, e) && GeometryDenotes(w, row, bind, t) && Binds(bind, n, Args(t, e))
    ensures SqlValue(w, row, bind, Tree(t, e, n)) == OfTri(Holds(w, t.opt, row, e))
    decreases e
  {
    hide ValidPred, TreePred, PredHolds, ArgsPred, GeometryDenotes, Binds;
    match e {
      case Atom(p) => PredPreserved(w, row, bind, t, p, n);
      case Paren(inner) => MeaningPreserved(w, row, bind, t, inner, n);
      case Not(_, arg) => MeaningPreserved(w, row, bind, t, arg, n);
      case And(l, _, r) =>
        BindsSplit(bind, n, Args(t, l), Args(t, r));
        MeaningPreserved(w, row, bind, t, l, n);
        MeaningPreserved(w, row, bind, t, r, n + |Args(t, l)|);
      case Or(l, _, r) =>
        BindsSplit(bind, n, Args(t, l), Args(t, r));
        MeaningPreserved(w, row, bind, t, l, n);
        MeaningPreserved(w, row, bind, t, r, n + |Args(t, l)|);
    }
  }
}
