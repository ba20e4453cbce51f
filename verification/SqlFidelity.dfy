/** The emitted SQL, read by the database's own precedence rules, is the tree the CQL2 grammar
    gives the filter: no operator changes hands between writing and reading. */
module SqlFidelity {
  import opened Base
  import opened Tokens
  import opened Lexing
  import opened Cql2Grammar
  import opened SqlText
  import opened Emission
  import opened SqlReading

  // ---------------------------------------------------------------- the intended SQL tree

  function InstantType(d: Dialect, raw: string): string {
    if d.PostGIS? then if PostgisZoned(raw) then "timestamptz" else "timestamp"
    else if DuckdbZoned(raw) then "TIMESTAMPTZ" else "TIMESTAMP"
  }

  function TreeScalar(t: Target, s: Scalar, n: nat): Sql {
    match s
    case Prop(name) => QCol("", name)
    case Text(_) => QBind(n)
    case Number(_) => QBind(n)
    case Boolean(raw) => QBool(raw == "true")
    case Instant(raw) => QCast(QBind(n), InstantType(t.dialect, raw))
    case Now => QCall("NOW", SqlNil)
    case Group(inner) => TreeScalar(t, inner, n)
    case Arith(l, op, r) =>
      QArith(Fixed(op).raw, TreeScalar(t, l, n), TreeScalar(t, r, n + |ArgsScalar(t.opt, l)|))
  }

  /** The tree of the adapter's geometry expression, read from the expression itself. */
  function GeometryTree(t: Target): Sql {
    match ReadArg(Strip(t.geometrySql, Tok(SRp, Nil))) case Got(e, _) => e case Bad => QBool(false)
  }

  /** The arguments of a DuckDB ST_Transform call after the geometry. */
  function ReprojectTree(from: nat, to: nat): SqlList {
    var axis := SqlCons(QNamed("always_xy", QBool(true)), SqlNil);
    SqlCons(QStr("EPSG:" + Itoa(from)), SqlCons(QStr("EPSG:" + Itoa(to)), axis))
  }

  function TreeGeom(t: Target, g: Geom, n: nat): Sql {
    if g.GeomProp? then
      if t.dialect.DuckDB? && t.geometrySql != [] then GeometryTree(t) else QCol("", g.name)
    else if t.dialect.PostGIS? then
      var lit := QCast(QBind(n), "geometry");
      if Reprojects(t.opt) then QCall("ST_Transform", SqlCons(lit, SqlCons(QInt(t.opt.sourceSRID), SqlNil))) else lit
    else
      var lit := QCall("ST_GeomFromText", SqlCons(QCast(QBind(n), "VARCHAR"), SqlNil));
      if Reprojects(t.opt) then
        QCall("ST_Transform", SqlCons(lit, ReprojectTree(t.opt.filterSRID, t.opt.sourceSRID)))
      else lit
  }

  function TreeItems(items: Stream, n: nat): SqlList {
    match items case End => SqlNil case Cons(_, more) => SqlCons(QBind(n), TreeItems(more, n + 1))
  }

  function TreePred(t: Target, p: Pred, n: nat): Sql {
    match p
    case Spatial(op, g1, g2) =>
      QCall(StFunction(op), SqlCons(TreeGeom(t, g1, n), SqlCons(TreeGeom(t, g2, n + |ArgsGeom(t, g1)|), SqlNil)))
    case DWithin(g1, g2, _) =>
      var m := n + |ArgsGeom(t, g1)|;
      var distance := SqlCons(QBind(m + |ArgsGeom(t, g2)|), SqlNil);
      QCall("ST_DWithin", SqlCons(TreeGeom(t, g1, n), SqlCons(TreeGeom(t, g2, m), distance)))
    case Like(prop, neg, ci, _, _) => QLike(neg.Some?, ci, QCol("", prop), QBind(n))
    case IsNull(prop, _, neg, _) => QIsNull(neg.Some?, QCol("", prop))
    case InList(prop, neg, _, items) => QIn(neg.Some?, QCol("", prop), TreeItems(items, n))
    case Compare(l, op, r) =>
      QCmp(Fixed(op).raw, TreeScalar(t, l, n), TreeScalar(t, r, n + |ArgsScalar(t.opt, l)|))
    case Between(l, neg, _, a, _, b) =>
      var m := n + |ArgsScalar(t.opt, l)|;
      QBetween(neg.Some?, TreeScalar(t, l, n), TreeScalar(t, a, m), TreeScalar(t, b, m + |ArgsScalar(t.opt, a)|))
  }

  /** The filter's own tree, with SQL operators at the nodes and placeholders at the literals. */
  function Tree(t: Target, e: Expr, n: nat): Sql {
    match e
    case Atom(p) => TreePred(t, p, n)
    case Paren(inner) => Tree(t, inner, n)
    case Not(_, arg) => QNot(Tree(t, arg, n))
    case And(l, _, r) => QAnd(Tree(t, l, n), Tree(t, r, n + |Args(t, l)|))
    case Or(l, _, r) => QOr(Tree(t, l, n), Tree(t, r, n + |Args(t, l)|))
  }

  // ---------------------------------------------------------------- emitted lexemes as tokens

  function TokOf(l: Lexeme): SqlTok {
    match l
    case Sp => SBad
    case LP => SLp
    case RP => SRp
    case Comma => SComma
    case Op(op) => OpTok(op)
    case Word(w) => WordTok(w)
    case Quoted(name) => SIdent(name)
    case Str(text) => SStr(text)
    case Int(value) => SInt(value)
    case Param(index) => SParam(index)
  }

  function Put(l: Lexeme, k: Toks): Toks { if l.Sp? then k else Tok(TokOf(l), k) }

  /** The tokens of ls followed by k; spaces only separate. */
  function Strip(ls: seq<Lexeme>, k: Toks): Toks {
    if |ls| == 0 then k else Put(ls[0], Strip(ls[1..], k))
  }

  lemma {:induction false} StripConcat(a: seq<Lexeme>, b: seq<Lexeme>, k: Toks)
    ensures Strip(a + b, k) == Strip(a, Strip(b, k))
  {
    if |a| == 0 {
      assert a + b == b;
    } else {
      assert (a + b)[1..] == a[1..] + b;
      StripConcat(a[1..], b, k);
    }
  }

  lemma {:induction false} Strip1(a: Lexeme, k: Toks)
    ensures Strip([a], k) == Put(a, k)
  {
    assert [a][1..] == [];
  }

  lemma {:induction false} Strip2(a: Lexeme, b: Lexeme, k: Toks)
    ensures Strip([a, b], k) == Put(a, Put(b, k))
  {
    assert [a, b][1..] == [b];
    Strip1(b, k);
  }

  lemma {:induction false} Strip3(a: Lexeme, b: Lexeme, c: Lexeme, k: Toks)
    ensures Strip([a, b, c], k) == Put(a, Put(b, Put(c, k)))
  {
    assert [a, b, c][1..] == [b, c];
    Strip2(b, c, k);
  }

  // ---------------------------------------------------------------- the token stream of a tree

  function ToksScalar(t: Target, s: Scalar, n: nat, k: Toks): Toks {
    match s
    case Prop(name) => Tok(SIdent(name), k)
    case Text(_) => Tok(SParam(n), k)
    case Number(_) => Tok(SParam(n), k)
    case Boolean(raw) => Tok(SName(raw), k)
    case Instant(raw) =>
      if t.dialect.PostGIS? then Tok(SParam(n), Tok(SColons, Tok(SName(InstantType(PostGIS, raw)), k)))
      else ToksCast(n, InstantType(DuckDB, raw), k)
    case Now => Tok(SName("NOW"), Tok(SLp, Tok(SRp, k)))
    case Group(inner) => Tok(SLp, ToksScalar(t, inner, n, Tok(SRp, k)))
    case Arith(l, op, r) =>
      var right := ToksScalar(t, r, n + |ArgsScalar(t.opt, l)|, Tok(SRp, k));
      Tok(SLp, ToksScalar(t, l, n, Tok(OpTok(Fixed(op).raw), right)))
  }

  /** CAST($n AS typ) */
  function ToksCast(n: nat, typ: string, k: Toks): Toks {
    var tail := Tok(SAs, Tok(SName(typ), Tok(SRp, k)));
    Tok(SCast, Tok(SLp, Tok(SParam(n), tail)))
  }

  function ToksGeomLiteral(t: Target, n: nat, k: Toks): Toks {
    if t.dialect.PostGIS? then
      if Reprojects(t.opt) then
        var lit := ToksPgGeom(n, Tok(SComma, Tok(SInt(t.opt.sourceSRID), Tok(SRp, k))));
        Tok(SName("ST_Transform"), Tok(SLp, lit))
      else ToksPgGeom(n, k)
    else if Reprojects(t.opt) then
      Tok(SName("ST_Transform"), Tok(SLp, ToksDuckGeom(n, ToksReproject(t.opt.filterSRID, t.opt.sourceSRID, k))))
    else ToksDuckGeom(n, k)
  }

  function ToksPgGeom(n: nat, k: Toks): Toks { Tok(SParam(n), Tok(SColons, Tok(SName("geometry"), k))) }

  function ToksDuckGeom(n: nat, k: Toks): Toks {
    Tok(SName("ST_GeomFromText"), Tok(SLp, ToksCast(n, "VARCHAR", Tok(SRp, k))))
  }

  function ToksReproject(from: nat, to: nat, k: Toks): Toks {
    var axis := Tok(SName("always_xy"), Tok(SAssign, Tok(SName("true"), Tok(SRp, k))));
    var last := Tok(SComma, Tok(SStr("EPSG:" + Itoa(to)), Tok(SComma, axis)));
    Tok(SComma, Tok(SStr("EPSG:" + Itoa(from)), last))
  }

  function ToksGeom(t: Target, g: Geom, n: nat, k: Toks): Toks {
    if g.GeomProp? then
      if t.dialect.DuckDB? && t.geometrySql != [] then Strip(t.geometrySql, k) else Tok(SIdent(g.name), k)
    else ToksGeomLiteral(t, n, k)
  }

  function ToksItems(items: Stream, n: nat, k: Toks): Toks {
    match items
    case End => k
    case Cons(_, more) => Tok(SParam(n), if more.End? then k else Tok(SComma, ToksItems(more, n + 1, k)))
  }

  function ToksNot(neg: Option<string>, k: Toks): Toks { if neg.Some? then Tok(SNot, k) else k }

  function ToksPred(t: Target, p: Pred, n: nat, k: Toks): Toks {
    match p
    case Spatial(op, g1, g2) =>
      var second := Tok(SComma, ToksGeom(t, g2, n + |ArgsGeom(t, g1)|, Tok(SRp, k)));
      Tok(SName(StFunction(op)), Tok(SLp, ToksGeom(t, g1, n, second)))
    case DWithin(g1, g2, _) =>
      var m := n + |ArgsGeom(t, g1)|;
      var distance := Tok(SComma, Tok(SParam(m + |ArgsGeom(t, g2)|), Tok(SRp, k)));
      var second := Tok(SComma, ToksGeom(t, g2, m, distance));
      Tok(SName("ST_DWithin"), Tok(SLp, ToksGeom(t, g1, n, second)))
    case Like(prop, neg, ci, _, _) =>
      Tok(SIdent(prop), ToksNot(neg, Tok(if ci then SILike else SLike, Tok(SParam(n), k))))
    case IsNull(prop, _, neg, _) => Tok(SIdent(prop), Tok(SIs, ToksNot(neg, Tok(SNull, k))))
    case InList(prop, neg, _, items) =>
      var list := Tok(SLp, ToksItems(items, n, Tok(SRp, k)));
      Tok(SIdent(prop), ToksNot(neg, Tok(SIn, list)))
    case Compare(l, op, r) =>
      var right := ToksScalar(t, r, n + |ArgsScalar(t.opt, l)|, k);
      ToksScalar(t, l, n, Tok(OpTok(Fixed(op).raw), right))
    case Between(l, neg, _, a, _, b) =>
      var m := n + |ArgsScalar(t.opt, l)|;
      var high := Tok(SAnd, ToksScalar(t, b, m + |ArgsScalar(t.opt, a)|, k));
      ToksScalar(t, l, n, ToksNot(neg, Tok(SBetween, ToksScalar(t, a, m, high))))
  }

  function ToksExpr(t: Target, e: Expr, n: nat, k: Toks): Toks {
    match e
    case Atom(p) => ToksPred(t, p, n, k)
    case Paren(inner) => Tok(SLp, ToksExpr(t, inner, n, Tok(SRp, k)))
    case Not(_, arg) => Tok(SLp, Tok(SNot, ToksExpr(t, arg, n, Tok(SRp, k))))
    case And(l, _, r) =>
      Tok(SLp, ToksExpr(t, l, n, Tok(SAnd, ToksExpr(t, r, n + |Args(t, l)|, Tok(SRp, k)))))
    case Or(l, _, r) =>
      Tok(SLp, ToksExpr(t, l, n, Tok(SOr, ToksExpr(t, r, n + |Args(t, l)|, Tok(SRp, k)))))
  }

  // ---------------------------------------------------------------- reading the stream back

  /** What may follow an operand: no cast, call, qualification or named-argument sign. */
  predicate EndsOperand(k: Toks) { k.Nil? || k.head !in {SColons, SLp, SDot, SAssign} }

  /** What may follow a predicate. */
  predicate EndsTest(k: Toks) { k.Nil? || k.head in {SRp, SAnd, SOr} }

  predicate EndsArgument(k: Toks) { k.Tok? && k.head in {SRp, SComma} }

  /** The adapter's geometry expression reads as one argument wherever an argument may stand. */
  ghost predicate GeometrySqlOk(t: Target) {
    t.geometrySql != [] ==> forall k :: EndsArgument(k) ==> ReadArg(Strip(t.geometrySql, k)) == Got(GeometryTree(t), k)
  }

  lemma {:induction false} ScalarReadsBack(t: Target, s: Scalar, n: nat, k: Toks)
    requires ValidScalar(t.opt, s) && EndsOperand(k)
    ensures ReadPrimary(ToksScalar(t, s, n, k)) == Got(TreeScalar(t, s, n), k)
    decreases s
  {
    hide ReadPrimary, ReadExpr, Climb, ReadArgs, ReadTest, LooksLikeDate, OpTok, Fixed, ToksCast, Postfix;
    match s {
      case Group(inner) =>
        ScalarReadsBack(t, inner, n, Tok(SRp, k));
        OperandParen(ToksScalar(t, inner, n, Tok(SRp, k)), TreeScalar(t, inner, n), k);
      case Arith(l, op, r) =>
        var m := n + |ArgsScalar(t.opt, l)|;
        var right := ToksScalar(t, r, m, Tok(SRp, k));
        ArithOp(op);
        ScalarReadsBack(t, l, n, Tok(OpTok(Fixed(op).raw), right));
        ScalarReadsBack(t, r, m, Tok(SRp, k));
        ArithReads(Fixed(op).raw, ToksScalar(t, l, n, Tok(OpTok(Fixed(op).raw), right)), right, k,
                   TreeScalar(t, l, n), TreeScalar(t, r, m));
      case _ => LeafReadsBack(t, s, n, k);
    }
  }

  lemma {:induction false} ArithOp(op: Typ)
    requires IsArith(op)
    ensures Fixed(op).raw in {"+", "-", "*", "/"} && OpTok(Fixed(op).raw) !in {SColons, SLp, SDot, SAssign}
  {
  }

  lemma {:induction false} LeafReadsBack(t: Target, s: Scalar, n: nat, k: Toks)
    requires ValidScalar(t.opt, s) && !s.Group? && !s.Arith? && EndsOperand(k)
    ensures ReadPrimary(ToksScalar(t, s, n, k)) == Got(TreeScalar(t, s, n), k)
  {
    if s.Instant? {
      if t.dialect.PostGIS? {
        CastSuffixReads(n, InstantType(PostGIS, s.raw), k);
      } else {
        CastReads(n, InstantType(DuckDB, s.raw), k);
      }
    } else {
      hide ReadExpr, Climb, LooksLikeDate, PostgisZoned, DuckdbZoned;
    }
  }

  lemma {:induction false} OperandParen(ts: Toks, e: Sql, k: Toks)
    requires ReadPrimary(ts) == Got(e, Tok(SRp, k)) && EndsOperand(k)
    ensures ReadPrimary(Tok(SLp, ts)) == Got(e, k)
  {
    hide ReadPrimary, ReadTest;
    PrimaryStarts(ts);
    ParenReads(ts, k, e);
  }

  lemma {:induction false} CastSuffixReads(n: nat, typ: string, k: Toks)
    requires EndsOperand(k)
    ensures ReadPrimary(Tok(SParam(n), Tok(SColons, Tok(SName(typ), k)))) == Got(QCast(QBind(n), typ), k)
  {
    assert Postfix(QCast(QBind(n), typ), k) == Got(QCast(QBind(n), typ), k);
  }

  lemma {:induction false} CastReads(n: nat, typ: string, k: Toks)
    requires EndsOperand(k)
    ensures ReadPrimary(ToksCast(n, typ, k)) == Got(QCast(QBind(n), typ), k)
  {
    var tail := Tok(SAs, Tok(SName(typ), Tok(SRp, k)));
    assert ReadPrimary(Tok(SParam(n), tail)) == Got(QBind(n), tail);
    assert ReadExpr(1, Tok(SParam(n), tail)) == Got(QBind(n), tail);
  }

  /** ( l op r ) reads as one arithmetic node when both operands read as primaries. */
  lemma {:induction false} ArithReads(op: string, ts: Toks, right: Toks, k: Toks, l: Sql, r: Sql)
    requires op in {"+", "-", "*", "/"} && EndsOperand(k)
    requires ReadPrimary(ts) == Got(l, Tok(OpTok(op), right))
    requires ReadPrimary(right) == Got(r, Tok(SRp, k))
    ensures ReadPrimary(Tok(SLp, ts)) == Got(QArith(op, l, r), k)
  {
    hide ReadPrimary, ReadArgs, ReadTest;
    PrimaryStarts(ts);
    PrimaryStarts(right);
    assert ReadExpr(8, right) == Got(r, Tok(SRp, k)) && ReadExpr(9, right) == Got(r, Tok(SRp, k));
    assert Climb(1, QArith(op, l, r), Tok(SRp, k)) == Got(QArith(op, l, r), Tok(SRp, k));
    assert Climb(1, l, Tok(OpTok(op), right)) == Got(QArith(op, l, r), Tok(SRp, k)) by {
      assert OpTok(op) == SAdd(op) || OpTok(op) == SMul(op);
    }
    ParenReads(ts, k, QArith(op, l, r));
  }

  lemma {:induction false} PrimaryStarts(ts: Toks)
    requires ReadPrimary(ts).Got?
    ensures ts.Tok? && ts.head != SNot
    ensures forall min :: ReadExpr(min, ts) == Climb(min, ReadPrimary(ts).val, ReadPrimary(ts).rest)
  {
    hide ReadArgs, ReadTest, Climb;
  }

  lemma {:induction false} ParenReads(ts: Toks, k: Toks, e: Sql)
    requires ReadExpr(1, ts) == Got(e, Tok(SRp, k)) && EndsOperand(k)
    ensures ReadPrimary(Tok(SLp, ts)) == Got(e, k)
  {
    hide ReadExpr, ReadArgs;
  }

  // ---------------------------------------------------------------- arguments and geometries

  /** A primary that is no named argument reads as an argument. */
  lemma {:induction false} PrimaryArgument(ts: Toks, e: Sql, k: Toks)
    requires ReadPrimary(ts) == Got(e, k) && EndsArgument(k)
    requires !(ts.Tok? && ts.head.SName? && ts.tail.Tok? && ts.tail.head == SAssign)
    ensures ReadArg(ts) == Got(e, k)
  {
    hide ReadPrimary, ReadTest, ReadArgs;
    PrimaryStarts(ts);
  }

  lemma {:induction false} LastArgument(ts: Toks, e: Sql, k: Toks)
    requires ReadArg(ts) == Got(e, Tok(SRp, k)) && ts.Tok? && ts.head != SRp
    ensures ReadArgs(ts) == Got(SqlCons(e, SqlNil), k)
  {
    hide ReadArg, ReadExpr;
  }

  lemma {:induction false} MoreArguments(ts: Toks, e: Sql, more: Toks, es: SqlList, k: Toks)
    requires ReadArg(ts) == Got(e, Tok(SComma, more)) && ts.Tok? && ts.head != SRp
    requires ReadArgs(more) == Got(es, k) && es.SqlCons?
    ensures ReadArgs(ts) == Got(SqlCons(e, es), k)
  {
    hide ReadArg, ReadExpr;
  }

  lemma {:induction false} CallReads(fn: string, ts: Toks, es: SqlList, k: Toks)
    requires ReadArgs(ts) == Got(es, k) && EndsOperand(k)
    ensures ReadPrimary(Tok(SName(fn), Tok(SLp, ts))) == Got(QCall(fn, es), k)
  {
    hide ReadArgs, ReadExpr;
  }

  /** ST_Transform($n::geometry, srid) */
  lemma {:induction false} PgMovedReads(n: nat, sourceSRID: nat, k: Toks)
    requires EndsArgument(k)
    ensures var cast := QCast(QBind(n), "geometry");
            ReadPrimary(Tok(SName("ST_Transform"),
              Tok(SLp, ToksPgGeom(n, Tok(SComma, Tok(SInt(sourceSRID), Tok(SRp, k))))))) ==
            Got(QCall("ST_Transform", SqlCons(cast, SqlCons(QInt(sourceSRID), SqlNil))), k)
  {
    var srid := Tok(SInt(sourceSRID), Tok(SRp, k));
    var cast, last := QCast(QBind(n), "geometry"), SqlCons(QInt(sourceSRID), SqlNil);
    CastSuffixReads(n, "geometry", Tok(SComma, srid));
    PrimaryArgument(ToksPgGeom(n, Tok(SComma, srid)), cast, Tok(SComma, srid));
    assert ReadPrimary(srid) == Got(QInt(sourceSRID), Tok(SRp, k));
    PrimaryArgument(srid, QInt(sourceSRID), Tok(SRp, k));
    hide ReadPrimary, ReadArgs, ReadArg;
    LastArgument(srid, QInt(sourceSRID), k);
    MoreArguments(ToksPgGeom(n, Tok(SComma, srid)), cast, srid, last, k);
    CallReads("ST_Transform", ToksPgGeom(n, Tok(SComma, srid)), SqlCons(cast, last), k);
  }

  lemma {:induction false} GeomLiteralReads(t: Target, n: nat, k: Toks)
    requires EndsArgument(k)
    ensures ReadArg(ToksGeomLiteral(t, n, k)) == Got(TreeGeom(t, Wkt(TPoint, End), n), k)
    ensures ToksGeomLiteral(t, n, k).Tok? && ToksGeomLiteral(t, n, k).head != SRp
  {
    hide ReadArg, ReadArgs, ReadPrimary, Itoa;
    var tree := TreeGeom(t, Wkt(TPoint, End), n);
    if t.dialect.PostGIS? {
      if Reprojects(t.opt) {
        PgMovedReads(n, t.opt.sourceSRID, k);
      } else {
        CastSuffixReads(n, "geometry", k);
      }
    } else if Reprojects(t.opt) {
      DuckGeomReads(n, ToksReproject(t.opt.filterSRID, t.opt.sourceSRID, k));
      ReprojectReads(t.opt.filterSRID, t.opt.sourceSRID, k);
      var tail := ToksReproject(t.opt.filterSRID, t.opt.sourceSRID, k);
      MoreArguments(ToksDuckGeom(n, tail), tree.items.head, tail.tail, tree.items.tail, k);
      CallReads("ST_Transform", ToksDuckGeom(n, ToksReproject(t.opt.filterSRID, t.opt.sourceSRID, k)), tree.items, k);
    } else {
      DuckGeomReads(n, k);
    }
    PrimaryArgument(ToksGeomLiteral(t, n, k), tree, k);
  }

  lemma {:induction false} DuckGeomReads(n: nat, k: Toks)
    requires EndsArgument(k)
    ensures var e := QCall("ST_GeomFromText", SqlCons(QCast(QBind(n), "VARCHAR"), SqlNil));
            ReadPrimary(ToksDuckGeom(n, k)) == Got(e, k) && ReadArg(ToksDuckGeom(n, k)) == Got(e, k)
  {
    var cast := ToksCast(n, "VARCHAR", Tok(SRp, k));
    CastReads(n, "VARCHAR", Tok(SRp, k));
    PrimaryArgument(cast, QCast(QBind(n), "VARCHAR"), Tok(SRp, k));
    LastArgument(cast, QCast(QBind(n), "VARCHAR"), k);
    CallReads("ST_GeomFromText", cast, SqlCons(QCast(QBind(n), "VARCHAR"), SqlNil), k);
    PrimaryArgument(ToksDuckGeom(n, k), QCall("ST_GeomFromText", SqlCons(QCast(QBind(n), "VARCHAR"), SqlNil)), k);
  }

  lemma {:induction false} ReprojectReads(from: nat, to: nat, k: Toks)
    requires EndsArgument(k)
    ensures ReadArgs(ToksReproject(from, to, k).tail) == Got(ReprojectTree(from, to), k)
  {
    var axis := Tok(SName("always_xy"), Tok(SAssign, Tok(SName("true"), Tok(SRp, k))));
    AxisReads(k);
    LastArgument(axis, QNamed("always_xy", QBool(true)), k);
    var axisTree := SqlCons(QNamed("always_xy", QBool(true)), SqlNil);
    var last := StrArgument("EPSG:" + Itoa(to), axis, axisTree, k);
    var first := StrArgument("EPSG:" + Itoa(from), last, SqlCons(QStr("EPSG:" + Itoa(to)), axisTree), k);
    assert ToksReproject(from, to, k).tail == first;
  }

  lemma {:induction false} AxisReads(k: Toks)
    ensures ReadArg(Tok(SName("always_xy"), Tok(SAssign, Tok(SName("true"), Tok(SRp, k))))) ==
            Got(QNamed("always_xy", QBool(true)), Tok(SRp, k))
  {
    assert ReadPrimary(Tok(SName("true"), Tok(SRp, k))) == Got(QBool(true), Tok(SRp, k));
    PrimaryStarts(Tok(SName("true"), Tok(SRp, k)));
  }

  lemma {:induction false} StrArgument(text: string, more: Toks, es: SqlList, k: Toks) returns (ts: Toks)
    requires ReadArgs(more) == Got(es, k) && es.SqlCons?
    ensures ts == Tok(SStr(text), Tok(SComma, more))
    ensures ReadArgs(ts) == Got(SqlCons(QStr(text), es), k)
  {
    ts := Tok(SStr(text), Tok(SComma, more));
    assert ReadPrimary(ts) == Got(QStr(text), Tok(SComma, more));
    PrimaryArgument(ts, QStr(text), Tok(SComma, more));
    MoreArguments(ts, QStr(text), more, es, k);
  }

  lemma {:induction false} GeomReads(t: Target, g: Geom, n: nat, k: Toks)
    requires GeometrySqlOk(t) && EndsArgument(k)
    ensures ReadArg(ToksGeom(t, g, n, k)) == Got(TreeGeom(t, g, n), k)
    ensures ToksGeom(t, g, n, k).Tok? && ToksGeom(t, g, n, k).head != SRp
  {
    var ts := ToksGeom(t, g, n, k);
    if !g.GeomProp? {
      GeomLiteralReads(t, n, k);
    } else if t.dialect.DuckDB? && t.geometrySql != [] {
      ArgumentStarts(ts);
    } else {
      assert ReadPrimary(ts) == Got(QCol("", g.name), k);
      PrimaryArgument(ts, QCol("", g.name), k);
    }
  }

  lemma {:induction false} ArgumentStarts(ts: Toks)
    requires ReadArg(ts).Got?
    ensures ts.Tok? && ts.head != SRp
  {
    hide Climb, ReadTest, ReadArgs;
    assert ts.Nil? || ts.head == SRp ==> ReadPrimary(ts).Bad?;
  }

  // ---------------------------------------------------------------- predicates

  /** Reading at any level that admits a whole test, ts is the operand e followed by k. */
  ghost predicate Reads(ts: Toks, e: Sql, k: Toks) {
    forall min :: min <= 3 ==> ReadExpr(min, ts) == Climb(min, e, k)
  }

  lemma {:induction false} SpatialReads(t: Target, p: Pred, n: nat, k: Toks)
    requires GeometrySqlOk(t) && EndsTest(k) && p.Spatial?
    ensures Reads(ToksPred(t, p, n, k), TreePred(t, p, n), k)
  {
    hide ReadPrimary, ReadArg, ReadArgs, ReadExpr, Climb, ToksGeom, TreeGeom, StFunction, GeometrySqlOk;
    var m := n + |ArgsGeom(t, p.g1)|;
    var second := ToksGeom(t, p.g2, m, Tok(SRp, k));
    GeomReads(t, p.g2, m, Tok(SRp, k));
    LastArgument(second, TreeGeom(t, p.g2, m), k);
    CallOfTwo(t, p.g1, n, second, TreePred(t, p, n).items, StFunction(p.fn), k);
    PrimaryStarts(ToksPred(t, p, n, k));
  }

  lemma {:induction false} DWithinReads(t: Target, p: Pred, n: nat, k: Toks)
    requires GeometrySqlOk(t) && EndsTest(k) && p.DWithin?
    ensures Reads(ToksPred(t, p, n, k), TreePred(t, p, n), k)
  {
    hide ReadPrimary, ReadArg, ReadArgs, ReadExpr, Climb, ToksGeom, TreeGeom, GeometrySqlOk;
    var m := n + |ArgsGeom(t, p.d1)|;
    var d := m + |ArgsGeom(t, p.d2)|;
    var distance := Tok(SParam(d), Tok(SRp, k));
    var second := ToksGeom(t, p.d2, m, Tok(SComma, distance));
    DistanceReads(d, k);
    GeomReads(t, p.d2, m, Tok(SComma, distance));
    MoreArguments(second, TreeGeom(t, p.d2, m), distance, SqlCons(QBind(d), SqlNil), k);
    CallOfTwo(t, p.d1, n, second, TreePred(t, p, n).items, "ST_DWithin", k);
    PrimaryStarts(ToksPred(t, p, n, k));
  }

  lemma {:induction false} DistanceReads(d: nat, k: Toks)
    ensures ReadArgs(Tok(SParam(d), Tok(SRp, k))) == Got(SqlCons(QBind(d), SqlNil), k)
  {
    var distance := Tok(SParam(d), Tok(SRp, k));
    assert ReadPrimary(distance) == Got(QBind(d), Tok(SRp, k));
    PrimaryArgument(distance, QBind(d), Tok(SRp, k));
    LastArgument(distance, QBind(d), k);
  }

  lemma {:induction false} CallOfTwo(t: Target, g1: Geom, n: nat, more: Toks, es: SqlList, fn: string, k: Toks)
    requires GeometrySqlOk(t) && EndsTest(k)
    requires es.SqlCons? && es.head == TreeGeom(t, g1, n) && es.tail.SqlCons? && ReadArgs(more) == Got(es.tail, k)
    ensures ReadPrimary(Tok(SName(fn), Tok(SLp, ToksGeom(t, g1, n, Tok(SComma, more))))) == Got(QCall(fn, es), k)
  {
    GeomReads(t, g1, n, Tok(SComma, more));
    MoreArguments(ToksGeom(t, g1, n, Tok(SComma, more)), es.head, more, es.tail, k);
    CallReads(fn, ToksGeom(t, g1, n, Tok(SComma, more)), es, k);
  }

  lemma {:induction false} ItemsRead(items: Stream, n: nat, k: Toks)
    requires items.Cons?
    ensures ReadArgs(ToksItems(items, n, Tok(SRp, k))) == Got(TreeItems(items, n), k)
    decreases items
  {
    var ts := ToksItems(items, n, Tok(SRp, k));
    assert ReadPrimary(ts) == Got(QBind(n), ts.tail);
    PrimaryArgument(ts, QBind(n), ts.tail);
    if items.tail.Cons? {
      ItemsRead(items.tail, n + 1, k);
      MoreArguments(ts, QBind(n), ts.tail.tail, TreeItems(items.tail, n + 1), k);
    } else {
      LastArgument(ts, QBind(n), k);
    }
  }

  /** A property followed by the tokens of a test on it. */
  lemma {:induction false} ColumnReads(name: string, test: Toks, e: Sql, k: Toks)
    requires EndsOperand(test)
    requires forall min :: min <= 3 ==> Climb(min, QCol("", name), test) == Climb(min, e, k)
    ensures Reads(Tok(SIdent(name), test), e, k)
  {
    hide Climb;
    assert ReadPrimary(Tok(SIdent(name), test)) == Got(QCol("", name), test);
    PrimaryStarts(Tok(SIdent(name), test));
  }

  lemma {:induction false} LikeReads(t: Target, p: Pred, n: nat, k: Toks)
    requires EndsTest(k) && p.Like?
    ensures Reads(ToksPred(t, p, n, k), TreePred(t, p, n), k)
  {
    var pattern := Tok(SParam(n), k);
    assert ReadPrimary(pattern) == Got(QBind(n), k);
    PrimaryStarts(pattern);
    assert ReadExpr(7, pattern) == Got(QBind(n), k);
    var kw := Tok(if p.ci then SILike else SLike, pattern);
    assert ReadTest(p.neg.Some?, QCol("", p.prop), kw) == Got(TreePred(t, p, n), k);
    ColumnReads(p.prop, ToksNot(p.neg, kw), TreePred(t, p, n), k);
  }

  lemma {:induction false} InListReads(t: Target, p: Pred, n: nat, k: Toks)
    requires EndsTest(k) && p.InList? && p.items.Cons?
    ensures Reads(ToksPred(t, p, n, k), TreePred(t, p, n), k)
  {
    ItemsRead(p.items, n, k);
    hide ReadArgs;
    var kw := Tok(SIn, Tok(SLp, ToksItems(p.items, n, Tok(SRp, k))));
    assert ReadTest(p.neg.Some?, QCol("", p.prop), kw) == Got(TreePred(t, p, n), k);
    ColumnReads(p.prop, ToksNot(p.neg, kw), TreePred(t, p, n), k);
  }

  lemma {:induction false} IsNullReads(t: Target, p: Pred, n: nat, k: Toks)
    requires EndsTest(k) && p.IsNull?
    ensures Reads(ToksPred(t, p, n, k), TreePred(t, p, n), k)
  {
    ColumnReads(p.prop, Tok(SIs, ToksNot(p.neg, Tok(SNull, k))), TreePred(t, p, n), k);
  }

  /** A scalar in front of k is read whole by any operator that binds tighter than what k starts with. */
  lemma {:induction false} OperandReads(t: Target, s: Scalar, n: nat, k: Toks)
    requires ValidScalar(t.opt, s) && EndsTest(k)
    ensures ReadExpr(6, ToksScalar(t, s, n, k)) == Got(TreeScalar(t, s, n), k)
    ensures ReadExpr(7, ToksScalar(t, s, n, k)) == Got(TreeScalar(t, s, n), k)
  {
    hide ReadPrimary, ReadTest, ToksScalar, TreeScalar;
    ScalarReadsBack(t, s, n, k);
    PrimaryStarts(ToksScalar(t, s, n, k));
  }

  lemma {:induction false} CompareReads(t: Target, p: Pred, n: nat, k: Toks)
    requires EndsTest(k) && p.Compare? && ValidPred(t.opt, p)
    ensures Reads(ToksPred(t, p, n, k), TreePred(t, p, n), k)
  {
    hide ReadPrimary, ReadTest, ToksScalar, TreeScalar, ValidScalar;
    var m := n + |ArgsScalar(t.opt, p.left)|;
    OperandReads(t, p.right, m, k);
    var op := Fixed(p.op).raw;
    var right := ToksScalar(t, p.right, m, k);
    var tail := Tok(OpTok(op), right);
    ComparisonToken(p.op);
    ScalarReadsBack(t, p.left, n, tail);
    PrimaryStarts(ToksScalar(t, p.left, n, tail));
    CompareClimbs(op, TreeScalar(t, p.left, n), right, TreeScalar(t, p.right, m), k);
  }

  lemma {:induction false} ComparisonToken(op: Typ)
    requires IsComparison(op)
    ensures OpTok(Fixed(op).raw) == SCmp(Fixed(op).raw)
  {
  }

  lemma {:induction false} CompareClimbs(op: string, l: Sql, right: Toks, r: Sql, k: Toks)
    requires ReadExpr(6, right) == Got(r, k)
    ensures forall min :: min <= 3 ==> Climb(min, l, Tok(SCmp(op), right)) == Climb(min, QCmp(op, l, r), k)
  {
    hide ReadExpr, ReadTest;
  }

  lemma {:induction false} BetweenReads(t: Target, p: Pred, n: nat, k: Toks)
    requires EndsTest(k) && p.Between? && ValidPred(t.opt, p)
    ensures Reads(ToksPred(t, p, n, k), TreePred(t, p, n), k)
  {
    hide ReadPrimary, ToksScalar, TreeScalar, ValidScalar, ReadExpr, ReadTest, Climb;
    var m := n + |ArgsScalar(t.opt, p.left)|;
    var h := m + |ArgsScalar(t.opt, p.low)|;
    OperandReads(t, p.high, h, k);
    var high := Tok(SAnd, ToksScalar(t, p.high, h, k));
    OperandReads(t, p.low, m, high);
    var test := Tok(SBetween, ToksScalar(t, p.low, m, high));
    var l := TreeScalar(t, p.left, n);
    BetweenClimbs(p.neg, l, test, TreeScalar(t, p.low, m), ToksScalar(t, p.high, h, k), TreeScalar(t, p.high, h), k);
    ScalarReadsBack(t, p.left, n, ToksNot(p.neg, test));
    PrimaryStarts(ToksScalar(t, p.left, n, ToksNot(p.neg, test)));
  }

  lemma {:induction false} BetweenClimbs(neg: Option<string>, l: Sql, test: Toks, a: Sql, high: Toks, b: Sql, k: Toks)
    requires test.Tok? && test.head == SBetween
    requires ReadExpr(7, test.tail) == Got(a, Tok(SAnd, high)) && ReadExpr(7, high) == Got(b, k)
    ensures forall min :: min <= 3 ==> Climb(min, l, ToksNot(neg, test)) == Climb(min, QBetween(neg.Some?, l, a, b), k)
  {
    hide ReadExpr;
    assert ReadTest(neg.Some?, l, test) == Got(QBetween(neg.Some?, l, a, b), k);
  }

  lemma {:induction false} PredReads(t: Target, p: Pred, n: nat, k: Toks)
    requires GeometrySqlOk(t) && EndsTest(k) && ValidPred(t.opt, p)
    ensures Reads(ToksPred(t, p, n, k), TreePred(t, p, n), k)
  {
    match p {
      case Spatial(_, _, _) => SpatialReads(t, p, n, k);
      case DWithin(_, _, _) => DWithinReads(t, p, n, k);
      case Like(_, _, _, _, _) => LikeReads(t, p, n, k);
      case IsNull(_, _, _, _) => IsNullReads(t, p, n, k);
      case InList(_, _, _, _) => InListReads(t, p, n, k);
      case Compare(_, _, _) => CompareReads(t, p, n, k);
      case Between(_, _, _, _, _, _) => BetweenReads(t, p, n, k);
    }
  }

  // ---------------------------------------------------------------- boolean expressions

  lemma {:induction false} ExprReads(t: Target, e: Expr, n: nat, k: Toks)
    requires GeometrySqlOk(t) && EndsTest(k) && ValidExpr(t.opt, e)
    ensures Reads(ToksExpr(t, e, n, k), Tree(t, e, n), k)
    decreases e
  {
    hide ReadPrimary, ReadTest, ValidPred, ToksPred, TreePred, GeometrySqlOk, Reads, ReadExpr, Climb;
    match e {
      case Atom(p) => PredReads(t, p, n, k);
      case Paren(inner) =>
        ExprReads(t, inner, n, Tok(SRp, k));
        GroupReads(ToksExpr(t, inner, n, Tok(SRp, k)), Tree(t, inner, n), k);
      case Not(_, arg) =>
        ExprReads(t, arg, n, Tok(SRp, k));
        NotReads(ToksExpr(t, arg, n, Tok(SRp, k)), Tree(t, arg, n), k);
      case And(l, _, r) =>
        var m := n + |Args(t, l)|;
        var right := ToksExpr(t, r, m, Tok(SRp, k));
        ExprReads(t, l, n, Tok(SAnd, right));
        ExprReads(t, r, m, Tok(SRp, k));
        JunctionReads(SAnd, ToksExpr(t, l, n, Tok(SAnd, right)), Tree(t, l, n), right, Tree(t, r, m), k);
      case Or(l, _, r) =>
        var m := n + |Args(t, l)|;
        var right := ToksExpr(t, r, m, Tok(SRp, k));
        ExprReads(t, l, n, Tok(SOr, right));
        ExprReads(t, r, m, Tok(SRp, k));
        JunctionReads(SOr, ToksExpr(t, l, n, Tok(SOr, right)), Tree(t, l, n), right, Tree(t, r, m), k);
    }
  }

  lemma {:induction false} GroupReads(ts: Toks, e: Sql, k: Toks)
    requires Reads(ts, e, Tok(SRp, k)) && EndsTest(k)
    ensures Reads(Tok(SLp, ts), e, k)
  {
    hide ReadPrimary, ReadTest;
    assert ReadExpr(1, ts) == Got(e, Tok(SRp, k));
    ParenReads(ts, k, e);
    PrimaryStarts(Tok(SLp, ts));
  }

  lemma {:induction false} NotReads(ts: Toks, e: Sql, k: Toks)
    requires Reads(ts, e, Tok(SRp, k)) && EndsTest(k)
    ensures Reads(Tok(SLp, Tok(SNot, ts)), QNot(e), k)
  {
    hide ReadPrimary, ReadTest;
    assert ReadExpr(3, ts) == Got(e, Tok(SRp, k));
    assert ReadExpr(1, Tok(SNot, ts)) == Got(QNot(e), Tok(SRp, k));
    ParenReads(Tok(SNot, ts), k, QNot(e));
    PrimaryStarts(Tok(SLp, Tok(SNot, ts)));
  }

  lemma {:induction false} JunctionReads(kw: SqlTok, ts: Toks, l: Sql, right: Toks, r: Sql, k: Toks)
    requires kw == SAnd || kw == SOr
    requires Reads(ts, l, Tok(kw, right)) && Reads(right, r, Tok(SRp, k)) && EndsTest(k)
    ensures Reads(Tok(SLp, ts), if kw == SAnd then QAnd(l, r) else QOr(l, r), k)
  {
    hide ReadPrimary, ReadTest;
    var e := if kw == SAnd then QAnd(l, r) else QOr(l, r);
    assert ReadExpr(2, right) == Got(r, Tok(SRp, k)) && ReadExpr(3, right) == Got(r, Tok(SRp, k));
    assert Climb(1, e, Tok(SRp, k)) == Got(e, Tok(SRp, k));
    assert ReadExpr(1, ts) == Climb(1, l, Tok(kw, right));
    ParenReads(ts, k, e);
    PrimaryStarts(Tok(SLp, ts));
  }
}
