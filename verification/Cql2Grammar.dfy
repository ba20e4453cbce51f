/** The CQL2 text grammar the filter package accepts, as concrete syntax trees:
    `Valid*` says which trees exist under given options, `Yield*` lists the tokens a tree spans.
    Together they define the language; nothing here mentions parsing. */
module Cql2Grammar {
  import opened Base
  import opened Tokens
  import opened Lexing

  // ---------------------------------------------------------------- options

  /** The options of one compilation after newParser filled in the defaults.
      `parseFloat` stands for strconv.ParseFloat, None being its error result. */
  datatype Options = Options(
    filterSRID: nat,
    sourceSRID: nat,
    allowed: set<string>,
    geometry: string,
    parseFloat: string -> Option<real>)

  // ---------------------------------------------------------------- trees

  datatype Scalar =
    | Prop(name: string)
    | Text(text: string)
    | Number(raw: string)
    | Boolean(raw: string)
    | Instant(raw: string)
    | Now
    | Group(inner: Scalar)
    | Arith(left: Scalar, op: Typ, right: Scalar)

  datatype Geom =
    | GeomProp(name: string)
    | Envelope(xmin: string, ymin: string, xmax: string, ymax: string)
    | Wkt(kind: Typ, body: Stream)

  datatype Pred =
    | Spatial(fn: string, g1: Geom, g2: Geom)
    | DWithin(d1: Geom, d2: Geom, distance: string)
    | Like(prop: string, neg: Option<string>, ci: bool, kw: string, pattern: string)
    | IsNull(prop: string, isKw: string, neg: Option<string>, nullKw: string)
    | InList(prop: string, neg: Option<string>, kw: string, items: Stream)
    | Compare(left: Scalar, op: Typ, right: Scalar)
    | Between(left: Scalar, neg: Option<string>, kw: string, low: Scalar, andKw: string, high: Scalar)

  /** Keyword spellings are kept (`kw`) so that a tree determines its tokens exactly. */
  datatype Expr =
    | Atom(pred: Pred)
    | Paren(inner: Expr)
    | Not(kw: string, arg: Expr)
    | And(left: Expr, kw: string, right: Expr)
    | Or(left: Expr, kw: string, right: Expr)

  // ---------------------------------------------------------------- token classes

  predicate IsArith(t: Typ) { t in {TPlus, TMinus, TMul, TDiv} }

  predicate IsComparison(t: Typ) { t in {TEq, TNeq, TLt, TGt, TLte, TGte} }

  predicate IsWktKind(t: Typ) {
    t in {TPoint, TLineString, TPolygon, TMultiPoint, TMultiLineString, TMultiPolygon, TGeometryCollection}
  }

  /** scalarPrec: products bind tighter than sums. */
  function Precedence(t: Typ): nat
    requires IsArith(t)
  {
    if t == TMul || t == TDiv then 20 else 10
  }

  /** The only spelling the lexer gives to a token of this type, where there is just one. */
  function Spelling(t: Typ): Option<string> {
    match t
    case TLParen => Some("(") case TRParen => Some(")") case TComma => Some(",")
    case TEq => Some("=") case TNeq => Some("<>") case TLt => Some("<")
    case TGt => Some(">") case TLte => Some("<=") case TGte => Some(">=")
    case TPlus => Some("+") case TMinus => Some("-") case TMul => Some("*") case TDiv => Some("/")
    case TDWithin => Some("dwithin") case TEnvelope => Some("ENVELOPE")
    case TPoint => Some("POINT") case TLineString => Some("LINESTRING") case TPolygon => Some("POLYGON")
    case TMultiPoint => Some("MULTIPOINT") case TMultiLineString => Some("MULTILINESTRING")
    case TMultiPolygon => Some("MULTIPOLYGON") case TGeometryCollection => Some("GEOMETRYCOLLECTION")
    case _ => None
  }

  const SpatialNames: set<string> :=
    {"equals", "disjoint", "touches", "within", "overlaps", "crosses", "intersects", "contains", "s_intersects"}

  /** strings.EqualFold(raw, "NOW"). */
  predicate IsNow(raw: string) {
    |raw| == 3 && LowerChar(raw[0]) == 'n' && LowerChar(raw[1]) == 'o' && LowerChar(raw[2]) == 'w'
  }

  /** Tokens the lexer can produce. */
  predicate Canonical(t: Token) {
    && t.typ != TEof
    && (Spelling(t.typ).Some? ==> t.raw == Spelling(t.typ).value)
    && (t.typ == TBool ==> t.raw == "true" || t.raw == "false")
    && (t.typ == TSpatialOp ==> t.raw in SpatialNames)
    && (t.typ == TTemporal ==> t.raw == "NOW" || LooksLikeDate(t.raw))
  }

  predicate AllCanonical(ts: Stream) {
    ts.Cons? ==> Canonical(ts.head) && AllCanonical(ts.tail)
  }

  /** The token of a type that has one spelling. */
  function Fixed(t: Typ): Token {
    Token(t, if Spelling(t).Some? then Spelling(t).value else "")
  }

  const LPAREN := Token(TLParen, "(")
  const RPAREN := Token(TRParen, ")")
  const COMMA := Token(TComma, ",")

  // ---------------------------------------------------------------- which trees are in the grammar

  predicate ValidNumber(o: Options, raw: string) { o.parseFloat(raw).Some? }

  /** How tightly a scalar binds: what it may be an operand of. */
  function ScalarLevel(s: Scalar): nat {
    if s.Arith? && IsArith(s.op) then Precedence(s.op) else 30
  }

  predicate ValidScalar(o: Options, s: Scalar) {
    match s
    case Prop(name) => name in o.allowed
    case Text(_) => true
    case Number(raw) => ValidNumber(o, raw)
    case Boolean(raw) => raw == "true" || raw == "false"
    case Instant(raw) => raw == "NOW" || LooksLikeDate(raw)
    case Now => true
    case Group(inner) => ValidScalar(o, inner)
    case Arith(l, op, r) =>
      && IsArith(op)
      && ValidScalar(o, l) && ValidScalar(o, r)
      && ScalarLevel(l) >= Precedence(op) && ScalarLevel(r) > Precedence(op)
  }

  /** A geometry body runs from an opening parenthesis to its match; `depth` are open already. */
  predicate Balanced(depth: int, body: Stream)
    decreases body
  {
    && body.Cons?
    && Canonical(body.head)
    && var d := depth + Nesting(body.head.typ);
       if d == 0 then body.tail == End else Balanced(d, body.tail)
  }

  function Nesting(t: Typ): int {
    if t == TLParen then 1 else if t == TRParen then -1 else 0
  }

  predicate ValidGeom(o: Options, g: Geom) {
    match g
    case GeomProp(name) => name == o.geometry
    case Envelope(xmin, _, xmax, _) => ValidNumber(o, xmin) && ValidNumber(o, xmax)
    case Wkt(kind, body) => IsWktKind(kind) && Head(body).typ == TLParen && Balanced(0, body)
  }

  predicate ValidItem(o: Options, t: Token) {
    t.typ == TString || (t.typ == TNumber && ValidNumber(o, t.raw))
  }

  predicate ValidItems(o: Options, items: Stream) {
    items.Cons? && ValidItem(o, items.head) && (items.tail.Cons? ==> ValidItems(o, items.tail))
  }

  /** The left side of a comparison: a lone property, or a scalar that starts with a literal.
      A parenthesis opens a boolean expression, and arithmetic may not start with a property. */
  predicate ValidLeft(o: Options, s: Scalar) {
    && ValidScalar(o, s)
    && (s.Prop? || !(Leftmost(s).Prop? || Leftmost(s).Group?))
  }

  function Leftmost(s: Scalar): Scalar {
    if s.Arith? then Leftmost(s.left) else s
  }

  predicate ValidPred(o: Options, p: Pred) {
    match p
    case Spatial(op, g1, g2) => op in SpatialNames && ValidGeom(o, g1) && ValidGeom(o, g2)
    case DWithin(g1, g2, d) => ValidGeom(o, g1) && ValidGeom(o, g2) && ValidNumber(o, d)
    case Like(prop, _, _, _, _) => prop in o.allowed
    case IsNull(prop, _, _, _) => prop in o.allowed
    case InList(prop, _, _, items) =>
      prop in o.allowed && ValidItems(o, items)
    case Compare(l, op, r) => ValidLeft(o, l) && IsComparison(op) && ValidScalar(o, r)
    case Between(l, _, _, a, _, b) => ValidLeft(o, l) && ValidScalar(o, a) && ValidScalar(o, b)
  }

  function Level(e: Expr): nat {
    match e
    case Or(_, _, _) => 0
    case And(_, _, _) => 1
    case Not(_, _) => 2
    case _ => 3
  }

  predicate ValidExpr(o: Options, e: Expr) {
    match e
    case Atom(p) => ValidPred(o, p)
    case Paren(inner) => ValidExpr(o, inner)
    case Not(_, arg) => ValidExpr(o, arg) && Level(arg) >= 2
    case And(l, _, r) => ValidExpr(o, l) && ValidExpr(o, r) && Level(l) >= 1 && Level(r) >= 2
    case Or(l, _, r) => ValidExpr(o, l) && ValidExpr(o, r) && Level(r) >= 1
  }

  // ---------------------------------------------------------------- the tokens of a tree

  // Each function puts the tokens of a tree in front of the tokens that follow it.

  function YieldScalar(s: Scalar, rest: Stream): Stream {
    match s
    case Prop(name) => Cons(Token(TIdent, name), rest)
    case Text(text) => Cons(Token(TString, text), rest)
    case Number(raw) => Cons(Token(TNumber, raw), rest)
    case Boolean(raw) => Cons(Token(TBool, raw), rest)
    case Instant(raw) => Cons(Token(TTemporal, raw), rest)
    case Now => Cons(Token(TTemporal, "NOW"), Cons(LPAREN, Cons(RPAREN, rest)))
    case Group(inner) => Cons(LPAREN, YieldScalar(inner, Cons(RPAREN, rest)))
    case Arith(l, op, r) => YieldScalar(l, Cons(Fixed(op), YieldScalar(r, rest)))
  }

  function YieldGeom(g: Geom, rest: Stream): Stream {
    match g
    case GeomProp(name) => Cons(Token(TIdent, name), rest)
    case Envelope(a, b, c, d) =>
      var r1 := YieldNumber(c, COMMA, YieldNumber(d, RPAREN, rest));
      var r2 := YieldNumber(a, COMMA, YieldNumber(b, COMMA, r1));
      Cons(Fixed(TEnvelope), Cons(LPAREN, r2))
    case Wkt(kind, body) => Cons(Fixed(kind), Append(body, rest))
  }

  function YieldNumber(raw: string, punct: Token, rest: Stream): Stream {
    Cons(Token(TNumber, raw), Cons(punct, rest))
  }

  function YieldItems(items: Stream, rest: Stream): Stream {
    match items
    case End => rest
    case Cons(t, End) => Cons(t, rest)
    case Cons(t, more) => Cons(t, Cons(COMMA, YieldItems(more, rest)))
  }

  function YieldKeyword(t: Typ, kw: Option<string>, rest: Stream): Stream {
    match kw case None => rest case Some(raw) => Cons(Token(t, raw), rest)
  }

  function YieldArgs(g1: Geom, g2: Geom, rest: Stream): Stream {
    Cons(LPAREN, YieldGeom(g1, Cons(COMMA, YieldGeom(g2, rest))))
  }

  function YieldPred(p: Pred, rest: Stream): Stream {
    match p
    case Spatial(op, g1, g2) =>
      Cons(Token(TSpatialOp, op), YieldArgs(g1, g2, Cons(RPAREN, rest)))
    case DWithin(g1, g2, d) =>
      Cons(Fixed(TDWithin), YieldArgs(g1, g2, Cons(COMMA, YieldNumber(d, RPAREN, rest))))
    case Like(prop, neg, ci, kw, pattern) =>
      var r1 := Cons(Token(TString, pattern), rest);
      var r2 := Cons(Token(if ci then TILike else TLike, kw), r1);
      Cons(Token(TIdent, prop), YieldKeyword(TNot, neg, r2))
    case IsNull(prop, isKw, neg, nullKw) =>
      var r1 := Cons(Token(TNull, nullKw), rest);
      var r2 := YieldKeyword(TNot, neg, r1);
      Cons(Token(TIdent, prop), Cons(Token(TIs, isKw), r2))
    case InList(prop, neg, kw, items) =>
      var r1 := YieldItems(items, Cons(RPAREN, rest));
      var r2 := Cons(Token(TIn, kw), Cons(LPAREN, r1));
      Cons(Token(TIdent, prop), YieldKeyword(TNot, neg, r2))
    case Compare(l, op, r) => YieldScalar(l, Cons(Fixed(op), YieldScalar(r, rest)))
    case Between(l, neg, kw, a, andKw, b) => YieldScalar(l, YieldBetween(neg, kw, a, andKw, b, rest))
  }

  function YieldBetween(neg: Option<string>, kw: string, a: Scalar, andKw: string, b: Scalar, rest: Stream): Stream {
    var r1 := YieldScalar(a, Cons(Token(TAnd, andKw), YieldScalar(b, rest)));
    YieldKeyword(TNot, neg, Cons(Token(TBetween, kw), r1))
  }

  function YieldExpr(e: Expr, rest: Stream): Stream {
    match e
    case Atom(p) => YieldPred(p, rest)
    case Paren(inner) => Cons(LPAREN, YieldExpr(inner, Cons(RPAREN, rest)))
    case Not(kw, arg) => Cons(Token(TNot, kw), YieldExpr(arg, rest))
    case And(l, kw, r) => YieldExpr(l, Cons(Token(TAnd, kw), YieldExpr(r, rest)))
    case Or(l, kw, r) => YieldExpr(l, Cons(Token(TOr, kw), YieldExpr(r, rest)))
  }

  /** All the tokens of a filter. */
  function Yield(e: Expr): Stream { YieldExpr(e, End) }
}
