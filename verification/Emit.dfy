/** SQL text as lexemes: the byte string that goes to the database is `Text(ls)`. */
module SqlText {
  import opened Base

  datatype Lexeme =
    | Sp                      // one space
    | LP | RP | Comma
    | Op(op: string)          // = <> < > <= >= + - * / :: :=
    | Word(word: string)      // bare keyword or function name
    | Quoted(name: string)    // "identifier"
    | Str(text: string)       // 'literal'
    | Int(value: nat)
    | Param(index: nat)       // $n

  /** Doubles every q in s: strings.ReplaceAll(s, q, qq). */
  function Doubled(s: string, q: char): string {
    if s == "" then ""
    else (if s[0] == q then [q, q] else [s[0]]) + Doubled(s[1..], q)
  }

  /** sqlutil.QuoteIdent and QuoteLiteral. */
  function Quote(s: string, q: char): string { [q] + Doubled(s, q) + [q] }

  function LexemeText(l: Lexeme): string {
    match l
    case Sp => " "
    case LP => "("
    case RP => ")"
    case Comma => ","
    case Op(op) => op
    case Word(word) => word
    case Quoted(name) => Quote(name, '"')
    case Str(text) => Quote(text, '\'')
    case Int(value) => Itoa(value)
    case Param(index) => "$" + Itoa(index)
  }

  function Text(ls: seq<Lexeme>): string {
    if |ls| == 0 then "" else LexemeText(ls[0]) + Text(ls[1..])
  }

  lemma {:induction false} TextConcat(a: seq<Lexeme>, b: seq<Lexeme>)
    ensures Text(a + b) == Text(a) + Text(b)
  {
    if |a| == 0 {
      assert a + b == b;
    } else {
      assert (a + b)[1..] == a[1..] + b;
      TextConcat(a[1..], b);
    }
  }
}

/** What each dialect's compiler writes for a filter tree: the SQL lexemes and the bound arguments.
    `n` is the index of the next placeholder. */
module Emission {
  import opened Base
  import opened Tokens
  import opened Cql2Grammar
  import opened SqlText

  datatype Dialect = PostGIS | DuckDB

  datatype Arg = TextArg(text: string) | NumArg(num: real)

  /** A compilation target. `geometrySql` is the adapter's trusted geometry expression, [] when absent;
      only the DuckDB compiler looks at it. */
  datatype Target = Target(dialect: Dialect, opt: Options, geometrySql: seq<Lexeme>)

  function Sep(d: Dialect): seq<Lexeme> { if d.PostGIS? then [Comma] else [Comma, Sp] }

  function Keyword(neg: Option<string>): seq<Lexeme> { if neg.Some? then [Word("NOT"), Sp] else [] }

  function NumberArg(o: Options, raw: string): Arg {
    match o.parseFloat(raw) case Some(v) => NumArg(v) case None => NumArg(0.0)
  }

  // ---------------------------------------------------------------- temporal literals

  predicate Has(s: string, c: char) { c in s }

  /** compiler.go: a zone is present when the text has Z or +, or a time of day and any of Z + -. */
  predicate PostgisZoned(raw: string) {
    || Has(raw, 'Z') || Has(raw, '+')
    || (Has(raw, 'T') && Has(raw, ':') && (Has(raw, 'Z') || Has(raw, '+') || Has(raw, '-')))
  }

  /** duckdb.go: a zone is present when the text has Z or +, or a time of day. */
  predicate DuckdbZoned(raw: string) {
    || Has(raw, 'Z') || Has(raw, '+')
    || (Has(raw, 'T') && Has(raw, ':'))
  }

  function EmitInstant(d: Dialect, raw: string, n: nat): seq<Lexeme> {
    if d.PostGIS? then
      [Param(n), Op("::"), Word(if PostgisZoned(raw) then "timestamptz" else "timestamp")]
    else
      [Word("CAST"), LP, Param(n), Sp, Word("AS"), Sp,
       Word(if DuckdbZoned(raw) then "TIMESTAMPTZ" else "TIMESTAMP"), RP]
  }

  // ---------------------------------------------------------------- scalars

  function ArgsScalar(o: Options, s: Scalar): seq<Arg> {
    match s
    case Text(text) => [TextArg(text)]
    case Number(raw) => [NumberArg(o, raw)]
    case Instant(raw) => [TextArg(raw)]
    case Group(inner) => ArgsScalar(o, inner)
    case Arith(l, _, r) => ArgsScalar(o, l) + ArgsScalar(o, r)
    case _ => []
  }

  function EmitScalar(t: Target, s: Scalar, n: nat): seq<Lexeme> {
    match s
    case Prop(name) => [Quoted(name)]
    case Text(_) => [Param(n)]
    case Number(_) => [Param(n)]
    case Boolean(raw) => [Word(raw)]
    case Instant(raw) => EmitInstant(t.dialect, raw, n)
    case Now => [Word("NOW"), LP, RP]
    case Group(inner) => [LP] + EmitScalar(t, inner, n) + [RP]
    case Arith(l, op, r) =>
      [LP] + EmitScalar(t, l, n) + [Sp, Op(Fixed(op).raw), Sp] + EmitScalar(t, r, n + |ArgsScalar(t.opt, l)|) + [RP]
  }

  // ---------------------------------------------------------------- geometries

  function WktBody(body: Stream, afterNumber: bool): string {
    match body
    case End => ""
    case Cons(tok, tail) =>
      (if afterNumber && tok.typ == TNumber then " " else "") + tok.raw + WktBody(tail, tok.typ == TNumber)
  }

  /** envelopeWKT: an ordinary envelope is one polygon; west > east crosses the antimeridian
      and becomes two. */
  function EnvelopeWkt(o: Options, x0: string, y0: string, x1: string, y1: string): string {
    var west := if o.parseFloat(x0).Some? then o.parseFloat(x0).value else 0.0;
    var east := if o.parseFloat(x1).Some? then o.parseFloat(x1).value else 0.0;
    if west <= east then
      "POLYGON((" + x0 + " " + y0 + "," + x1 + " " + y0 + "," + x1 + " " + y1 + "," +
      x0 + " " + y1 + "," + x0 + " " + y0 + "))"
    else
      "MULTIPOLYGON(((" + x0 + " " + y0 + ",180 " + y0 + ",180 " + y1 + "," + x0 + " " + y1 + "," + x0 + " " + y0 +
      ")),((-180 " + y0 + "," + x1 + " " + y0 + "," + x1 + " " + y1 + ",-180 " + y1 + ",-180 " + y0 + ")))"
  }

  function WktText(o: Options, g: Geom): string {
    match g
    case GeomProp(_) => ""
    case Envelope(x0, y0, x1, y1) => EnvelopeWkt(o, x0, y0, x1, y1)
    case Wkt(kind, body) => Fixed(kind).raw + WktBody(body, false)
  }

  /** The PostGIS argument carries the filter's SRID in front of the WKT. */
  function GeomArg(t: Target, wkt: string): Arg {
    if t.dialect.PostGIS? then TextArg("SRID=" + Itoa(t.opt.filterSRID) + ";" + wkt) else TextArg(wkt)
  }

  predicate Reprojects(o: Options) { o.sourceSRID != 0 && o.sourceSRID != o.filterSRID }

  /** The rest of a DuckDB ST_Transform call after the geometry. */
  function ReprojectTail(from: nat, to: nat): seq<Lexeme> {
    [Comma, Sp, Str("EPSG:" + Itoa(from)), Comma, Sp, Str("EPSG:" + Itoa(to)),
     Comma, Sp, Word("always_xy"), Sp, Op(":="), Sp, Word("true"), RP]
  }

  function EmitGeomLiteral(t: Target, n: nat): seq<Lexeme> {
    var o := t.opt;
    if t.dialect.PostGIS? then
      var lit := [Param(n), Op("::"), Word("geometry")];
      if Reprojects(o) then [Word("ST_Transform"), LP] + lit + [Comma, Int(o.sourceSRID), RP] else lit
    else
      var lit := [Word("ST_GeomFromText"), LP, Word("CAST"), LP, Param(n), Sp, Word("AS"), Sp, Word("VARCHAR"), RP, RP];
      if Reprojects(o) then
        [Word("ST_Transform"), LP] + lit + ReprojectTail(o.filterSRID, o.sourceSRID)
      else lit
  }

  function ArgsGeom(t: Target, g: Geom): seq<Arg> {
    if g.GeomProp? then [] else [GeomArg(t, WktText(t.opt, g))]
  }

  function EmitGeom(t: Target, g: Geom, n: nat): seq<Lexeme> {
    if g.GeomProp? then
      if t.dialect.DuckDB? && t.geometrySql != [] then t.geometrySql else [Quoted(g.name)]
    else EmitGeomLiteral(t, n)
  }

  // ---------------------------------------------------------------- predicates

  /** pgFunctionForCql and duckdbFunctionForCql, which hold the same entries. */
  function StFunction(name: string): string {
    if name == "crosses" then "ST_Crosses"
    else if name == "contains" then "ST_Contains"
    else if name == "disjoint" then "ST_Disjoint"
    else if name == "equals" then "ST_Equals"
    else if name == "intersects" || name == "s_intersects" then "ST_Intersects"
    else if name == "overlaps" then "ST_Overlaps"
    else if name == "touches" then "ST_Touches"
    else if name == "within" then "ST_Within"
    else if name == "dwithin" then "ST_DWithin"
    else "UNKNOWN_" + name
  }

  function ItemArg(o: Options, t: Token): Arg {
    if t.typ == TString then TextArg(t.raw) else NumberArg(o, t.raw)
  }

  function ArgsItems(o: Options, items: Stream): seq<Arg> {
    match items case End => [] case Cons(t, more) => [ItemArg(o, t)] + ArgsItems(o, more)
  }

  /** strings.Join of the placeholders n, n+1, ... of the items. */
  function EmitItems(d: Dialect, items: Stream, n: nat): seq<Lexeme> {
    match items
    case End => []
    case Cons(_, more) => [Param(n)] + (if more.End? then [] else Sep(d) + EmitItems(d, more, n + 1))
  }

  function ArgsPred(t: Target, p: Pred): seq<Arg> {
    match p
    case Spatial(_, g1, g2) => ArgsGeom(t, g1) + ArgsGeom(t, g2)
    case DWithin(g1, g2, d) => ArgsGeom(t, g1) + ArgsGeom(t, g2) + [NumberArg(t.opt, d)]
    case Like(_, _, _, _, pattern) => [TextArg(pattern)]
    case IsNull(_, _, _, _) => []
    case InList(_, _, _, items) => ArgsItems(t.opt, items)
    case Compare(l, _, r) => ArgsScalar(t.opt, l) + ArgsScalar(t.opt, r)
    case Between(l, _, _, a, _, b) => ArgsScalar(t.opt, l) + ArgsScalar(t.opt, a) + ArgsScalar(t.opt, b)
  }

  function EmitPred(t: Target, p: Pred, n: nat): seq<Lexeme> {
    match p
    case Spatial(op, g1, g2) =>
      [Word(StFunction(op)), LP] + EmitGeom(t, g1, n) + Sep(t.dialect) +
      EmitGeom(t, g2, n + |ArgsGeom(t, g1)|) + [RP]
    case DWithin(g1, g2, _) =>
      [Word("ST_DWithin"), LP] + EmitGeom(t, g1, n) + Sep(t.dialect) +
      EmitGeom(t, g2, n + |ArgsGeom(t, g1)|) + Sep(t.dialect) +
      [Param(n + |ArgsGeom(t, g1)| + |ArgsGeom(t, g2)|), RP]
    case Like(prop, neg, ci, _, _) =>
      [Quoted(prop), Sp] + Keyword(neg) + [Word(if ci then "ILIKE" else "LIKE"), Sp, Param(n)]
    case IsNull(prop, _, neg, _) =>
      [Quoted(prop), Sp, Word("IS"), Sp] + Keyword(neg) + [Word("NULL")]
    case InList(prop, neg, _, items) =>
      [Quoted(prop), Sp] + Keyword(neg) + [Word("IN"), Sp, LP] + EmitItems(t.dialect, items, n) + [RP]
    case Compare(l, op, r) =>
      EmitScalar(t, l, n) + [Sp, Op(Fixed(op).raw), Sp] + EmitScalar(t, r, n + |ArgsScalar(t.opt, l)|)
    case Between(l, neg, _, a, _, b) =>
      EmitScalar(t, l, n) + [Sp] + Keyword(neg) + [Word("BETWEEN"), Sp] +
      EmitScalar(t, a, n + |ArgsScalar(t.opt, l)|) + [Sp, Word("AND"), Sp] +
      EmitScalar(t, b, n + |ArgsScalar(t.opt, l)| + |ArgsScalar(t.opt, a)|)
  }

  // ---------------------------------------------------------------- boolean expressions

  function Args(t: Target, e: Expr): seq<Arg> {
    match e
    case Atom(p) => ArgsPred(t, p)
    case Paren(inner) => Args(t, inner)
    case Not(_, arg) => Args(t, arg)
    case And(l, _, r) => Args(t, l) + Args(t, r)
    case Or(l, _, r) => Args(t, l) + Args(t, r)
  }

  function Emit(t: Target, e: Expr, n: nat): seq<Lexeme> {
    match e
    case Atom(p) => EmitPred(t, p, n)
    case Paren(inner) => [LP] + Emit(t, inner, n) + [RP]
    case Not(_, arg) => [LP, Word("NOT"), Sp] + Emit(t, arg, n) + [RP]
    case And(l, _, r) => [LP] + Emit(t, l, n) + [Sp, Word("AND"), Sp] + Emit(t, r, n + |Args(t, l)|) + [RP]
    case Or(l, _, r) => [LP] + Emit(t, l, n) + [Sp, Word("OR"), Sp] + Emit(t, r, n + |Args(t, l)|) + [RP]
  }

  // ---------------------------------------------------------------- a whole compilation

  datatype Compiled = Rejected | Accepted(sql: seq<Lexeme>, args: seq<Arg>, next: nat)

  /** The options of newParser and newDuckDBParser before defaults are filled in. */
  datatype RawOptions = RawOptions(
    start: int, filterSRID: nat, sourceSRID: nat, allowed: set<string>, geometry: string,
    geometrySql: seq<Lexeme>, parseFloat: string -> Option<real>)

  function StartIndex(r: RawOptions): nat { if r.start <= 0 then 1 else r.start }

  function TargetOf(d: Dialect, r: RawOptions): Target {
    Target(d,
      Options(if r.filterSRID == 0 then 4326 else r.filterSRID, r.sourceSRID, r.allowed,
              if r.geometry == "" then "geom" else r.geometry, r.parseFloat),
      r.geometrySql)
  }
}
