/** Placeholders of emitted SQL: their order, their values, and moving them to another start index. */
module Placeholders {
  import opened Base
  import opened Tokens
  import opened Cql2Grammar
  import opened SqlText
  import opened Emission

  // ---------------------------------------------------------------- order

  /** The placeholders of a text, left to right. */
  function Holes(ls: seq<Lexeme>): seq<nat> {
    if |ls| == 0 then []
    else (if ls[0].Param? then [ls[0].index] else []) + Holes(ls[1..])
  }

  function Range(n: nat, k: nat): (r: seq<nat>)
    ensures |r| == k && forall i :: 0 <= i < k ==> r[i] == n + i
  {
    if k == 0 then [] else Range(n, k - 1) + [n + k - 1]
  }

  /** ls uses exactly the placeholders n, ..., n+k-1, once each and in that order,
      and quotes no identifier outside `names`. */
  predicate Numbered(ls: seq<Lexeme>, n: nat, k: nat, names: set<string>) {
    && Holes(ls) == Range(n, k)
    && forall i :: 0 <= i < |ls| && ls[i].Quoted? ==> ls[i].name in names
  }

  lemma {:induction false} HolesConcat(a: seq<Lexeme>, b: seq<Lexeme>)
    ensures Holes(a + b) == Holes(a) + Holes(b)
  {
    if |a| == 0 {
      assert a + b == b;
    } else {
      assert (a + b)[1..] == a[1..] + b;
      HolesConcat(a[1..], b);
    }
  }

  lemma {:induction false} NoHoles(ls: seq<Lexeme>)
    requires forall i :: 0 <= i < |ls| ==> !ls[i].Param?
    ensures Holes(ls) == []
  {
    if |ls| > 0 {
      NoHoles(ls[1..]);
    }
  }

  lemma {:induction false} Join(a: seq<Lexeme>, b: seq<Lexeme>, n: nat, j: nat, k: nat, names: set<string>)
    requires Numbered(a, n, j, names) && Numbered(b, n + j, k, names)
    ensures Numbered(a + b, n, j + k, names)
  {
    HolesConcat(a, b);
    assert Range(n, j) + Range(n + j, k) == Range(n, j + k);
  }

  /** Punctuation, keywords and spaces neither bind nor name anything. */
  predicate Plain(ls: seq<Lexeme>) { forall i :: 0 <= i < |ls| ==> !ls[i].Param? && !ls[i].Quoted? }

  lemma {:induction false} Around(pre: seq<Lexeme>, a: seq<Lexeme>, post: seq<Lexeme>,
      n: nat, k: nat, names: set<string>)
    requires Plain(pre) && Plain(post) && Numbered(a, n, k, names)
    ensures Numbered(pre + a + post, n, k, names)
  {
    NoHoles(pre);
    NoHoles(post);
    HolesConcat(pre, a);
    HolesConcat(pre + a, post);
  }

  lemma {:induction false} Between2(a: seq<Lexeme>, mid: seq<Lexeme>, b: seq<Lexeme>, n: nat,
      j: nat, k: nat, names: set<string>)
    requires Plain(mid) && Numbered(a, n, j, names) && Numbered(b, n + j, k, names)
    ensures Numbered(a + mid + b, n, j + k, names)
  {
    NoHoles(mid);
    HolesConcat(a, mid);
    Join(a + mid, b, n, j, k, names);
  }

  lemma {:induction false} ParenJoin(a: seq<Lexeme>, op: Lexeme, b: seq<Lexeme>, n: nat,
      j: nat, k: nat, names: set<string>)
    requires (op.Word? || op.Op?) && Numbered(a, n, j, names) && Numbered(b, n + j, k, names)
    ensures Numbered([LP] + a + [Sp, op, Sp] + b + [RP], n, j + k, names)
  {
    hide Numbered;
    var mid := [Sp, op, Sp];
    Between2(a, mid, b, n, j, k, names);
    Around([LP], a + mid + b, [RP], n, j + k, names);
    assert [LP] + (a + mid + b) + [RP] == [LP] + a + mid + b + [RP];
  }

  /** pre a mid b post */
  lemma {:induction false} CallJoin(pre: seq<Lexeme>, a: seq<Lexeme>, mid: seq<Lexeme>,
                                    b: seq<Lexeme>, post: seq<Lexeme>, n: nat, j: nat, k: nat, names: set<string>)
    requires Plain(pre) && Plain(mid) && Plain(post) && Numbered(a, n, j, names) && Numbered(b, n + j, k, names)
    ensures Numbered(pre + a + mid + b + post, n, j + k, names)
  {
    hide Numbered, Plain;
    Between2(a, mid, b, n, j, k, names);
    Around(pre, a + mid + b, post, n, j + k, names);
    assert pre + (a + mid + b) + post == pre + a + mid + b + post;
  }

  /** pre a, nothing after */
  lemma {:induction false} Before(pre: seq<Lexeme>, a: seq<Lexeme>, n: nat, k: nat, names: set<string>)
    requires Numbered(pre, n, 0, names) && Numbered(a, n, k, names)
    ensures Numbered(pre + a, n, k, names)
  {
    hide Numbered;
    Join(pre, a, n, 0, k, names);
  }

  lemma {:induction false} After(a: seq<Lexeme>, post: seq<Lexeme>, n: nat, k: nat, names: set<string>)
    requires Plain(post) && Numbered(a, n, k, names)
    ensures Numbered(a + post, n, k, names)
  {
    NoHoles(post);
    HolesConcat(a, post);
  }

  /** One placeholder among plain lexemes. */
  lemma {:induction false} HoleAt(ls: seq<Lexeme>, at: nat, n: nat, names: set<string>)
    requires at < |ls| && ls[at] == Param(n) && Plain(ls[..at]) && Plain(ls[at + 1..])
    ensures Numbered(ls, n, 1, names)
  {
    hide Numbered, Plain;
    OneHole(n, names);
    Around(ls[..at], [Param(n)], ls[at + 1..], n, 1, names);
    assert ls[..at] + [Param(n)] + ls[at + 1..] == ls;
  }

  lemma {:induction false} OneHole(n: nat, names: set<string>)
    ensures Numbered([Param(n)], n, 1, names)
  {
    assert [Param(n)][1..] == [];
    assert Range(n, 1) == [n];
  }

  function Names(t: Target): set<string> { t.opt.allowed + {t.opt.geometry} }

  lemma {:induction false} LeafNumbered(t: Target, s: Scalar, n: nat)
    requires ValidScalar(t.opt, s) && !s.Group? && !s.Arith?
    ensures Numbered(EmitScalar(t, s, n), n, |ArgsScalar(t.opt, s)|, Names(t))
  {
    hide Numbered, EmitInstant;
    match s {
      case Instant(raw) => InstantNumbered(t.dialect, raw, n, Names(t));
      case Text(_) => OneHole(n, Names(t));
      case Number(_) => OneHole(n, Names(t));
      case _ => NoHole(EmitScalar(t, s, n), n, Names(t));
    }
  }

  lemma {:induction false} ScalarNumbered(t: Target, s: Scalar, n: nat)
    requires ValidScalar(t.opt, s)
    ensures Numbered(EmitScalar(t, s, n), n, |ArgsScalar(t.opt, s)|, Names(t))
    decreases s
  {
    hide Numbered, EmitScalar, ArgsScalar, Names, Fixed;
    match s {
      case Group(inner) =>
        ScalarNumbered(t, inner, n);
        GroupIs(t, inner, n);
        Around([LP], EmitScalar(t, inner, n), [RP], n, |ArgsScalar(t.opt, inner)|, Names(t));
      case Arith(l, op, r) =>
        var j := |ArgsScalar(t.opt, l)|;
        ScalarNumbered(t, l, n);
        ScalarNumbered(t, r, n + j);
        ArithIs(t, l, op, r, n);
        ParenJoin(EmitScalar(t, l, n), Op(Fixed(op).raw), EmitScalar(t, r, n + j), n, j,
          |ArgsScalar(t.opt, r)|, Names(t));
      case _ => LeafNumbered(t, s, n);
    }
  }

  lemma {:induction false} GroupIs(t: Target, inner: Scalar, n: nat)
    ensures EmitScalar(t, Group(inner), n) == [LP] + EmitScalar(t, inner, n) + [RP]
    ensures ArgsScalar(t.opt, Group(inner)) == ArgsScalar(t.opt, inner)
  {
  }

  lemma {:induction false} ArithIs(t: Target, l: Scalar, op: Typ, r: Scalar, n: nat)
    ensures ArgsScalar(t.opt, Arith(l, op, r)) == ArgsScalar(t.opt, l) + ArgsScalar(t.opt, r)
    ensures var m := n + |ArgsScalar(t.opt, l)|;
            EmitScalar(t, Arith(l, op, r), n) ==
            [LP] + EmitScalar(t, l, n) + [Sp, Op(Fixed(op).raw), Sp] + EmitScalar(t, r, m) + [RP]
  {
    hide Fixed;
  }

  lemma {:induction false} NoHole(ls: seq<Lexeme>, n: nat, names: set<string>)
    requires forall i :: 0 <= i < |ls| ==> !ls[i].Param? && (ls[i].Quoted? ==> ls[i].name in names)
    ensures Numbered(ls, n, 0, names)
  {
    NoHoles(ls);
  }

  lemma {:induction false} InstantNumbered(d: Dialect, raw: string, n: nat, names: set<string>)
    ensures Numbered(EmitInstant(d, raw, n), n, 1, names)
  {
    hide PostgisZoned, DuckdbZoned, Numbered;
    HoleAt(EmitInstant(d, raw, n), if d.PostGIS? then 0 else 2, n, names);
  }

  lemma {:induction false} LiteralNumbered(t: Target, n: nat, names: set<string>)
    ensures Numbered(EmitGeomLiteral(t, n), n, 1, names)
  {
    hide Numbered, Itoa, Reprojects, ReprojectTail, Plain;
    var pg := [Param(n), Op("::"), Word("geometry")];
    var duck := [Word("ST_GeomFromText"), LP, Word("CAST"), LP, Param(n), Sp, Word("AS"), Sp, Word("VARCHAR"), RP, RP];
    FixedPlain(t.opt);
    LiteralHoles(pg, duck, n, names);
    if Reprojects(t.opt) {
      var move := [Word("ST_Transform"), LP];
      Around(move, pg, [Comma, Int(t.opt.sourceSRID), RP], n, 1, names);
      Around(move, duck, ReprojectTail(t.opt.filterSRID, t.opt.sourceSRID), n, 1, names);
    }
  }

  lemma {:induction false} FixedPlain(o: Options)
    ensures Plain([Word("ST_Transform"), LP]) && Plain([Comma, Int(o.sourceSRID), RP])
    ensures Plain(ReprojectTail(o.filterSRID, o.sourceSRID))
  {
    hide Itoa;
  }

  lemma {:induction false} LiteralHoles(pg: seq<Lexeme>, duck: seq<Lexeme>, n: nat, names: set<string>)
    requires pg == [Param(n), Op("::"), Word("geometry")]
    requires duck ==
             [Word("ST_GeomFromText"), LP, Word("CAST"), LP, Param(n), Sp, Word("AS"), Sp, Word("VARCHAR"), RP, RP]
    ensures Numbered(pg, n, 1, names) && Numbered(duck, n, 1, names)
  {
    hide Numbered;
    HoleAt(pg, 0, n, names);
    HoleAt(duck, 4, n, names);
  }

  lemma {:induction false} GeomNumbered(t: Target, g: Geom, n: nat)
    requires ValidGeom(t.opt, g) && PlainGeometry(t)
    ensures Numbered(EmitGeom(t, g, n), n, |ArgsGeom(t, g)|, Names(t))
  {
    hide Numbered, EmitGeomLiteral, Balanced;
    if g.GeomProp? {
      NoHole(EmitGeom(t, g, n), n, Names(t));
    } else {
      LiteralNumbered(t, n, Names(t));
    }
  }

  /** The adapter's geometry expression binds nothing and names only the geometry column. */
  predicate PlainGeometry(t: Target) {
    forall i :: 0 <= i < |t.geometrySql| ==>
      !t.geometrySql[i].Param? && (t.geometrySql[i].Quoted? ==> t.geometrySql[i].name in Names(t))
  }

  lemma {:induction false} ItemsNumbered(d: Dialect, o: Options, items: Stream, n: nat, names: set<string>)
    ensures Numbered(EmitItems(d, items, n), n, |ArgsItems(o, items)|, names)
    decreases items
  {
    hide Numbered;
    if items.Cons? {
      OneHole(n, names);
      ItemsNumbered(d, o, items.tail, n + 1, names);
      if items.tail.End? {
        assert [Param(n)] + [] == [Param(n)];
      } else {
        var rest := EmitItems(d, items.tail, n + 1);
        Between2([Param(n)], Sep(d), rest, n, 1, |ArgsItems(o, items.tail)|, names);
        assert [Param(n)] + Sep(d) + rest == [Param(n)] + (Sep(d) + rest);
      }
    } else {
      NoHole([], n, names);
    }
  }

  lemma {:induction false} PredNumbered(t: Target, p: Pred, n: nat)
    requires ValidPred(t.opt, p) && PlainGeometry(t)
    ensures Numbered(EmitPred(t, p, n), n, |ArgsPred(t, p)|, Names(t))
  {
    var names, o := Names(t), t.opt;
    match p {
      case Spatial(op, g1, g2) => SpatialNumbered(t, p, n);
      case DWithin(_, _, _) => DWithinNumbered(t, p, n);
      case Like(prop, neg, ci, _, _) => PropNumbered(t, p, n);
      case IsNull(_, _, _, _) => NoHole(EmitPred(t, p, n), n, names);
      case InList(_, _, _, _) => PropNumbered(t, p, n);
      case Compare(_, _, _) => ComparisonNumbered(t, p, n);
      case Between(_, _, _, _, _, _) => ComparisonNumbered(t, p, n);
    }
  }

  lemma {:induction false} SpatialNumbered(t: Target, p: Pred, n: nat)
    requires p.Spatial? && ValidPred(t.opt, p) && PlainGeometry(t)
    ensures Numbered(EmitPred(t, p, n), n, |ArgsPred(t, p)|, Names(t))
  {
    hide Numbered, EmitGeom, ArgsGeom, StFunction, PlainGeometry, ValidGeom;
    var j := |ArgsGeom(t, p.g1)|;
    GeomNumbered(t, p.g1, n);
    GeomNumbered(t, p.g2, n + j);
    CallJoin([Word(StFunction(p.fn)), LP], EmitGeom(t, p.g1, n), Sep(t.dialect), EmitGeom(t, p.g2, n + j), [RP],
             n, j, |ArgsGeom(t, p.g2)|, Names(t));
  }

  lemma {:induction false} DWithinNumbered(t: Target, p: Pred, n: nat)
    requires p.DWithin? && ValidPred(t.opt, p) && PlainGeometry(t)
    ensures Numbered(EmitPred(t, p, n), n, |ArgsPred(t, p)|, Names(t))
  {
    hide Numbered, EmitGeom, ArgsGeom, PlainGeometry, ValidGeom;
    var j, k, sep := |ArgsGeom(t, p.d1)|, |ArgsGeom(t, p.d2)|, Sep(t.dialect);
    var a, b := EmitGeom(t, p.d1, n), EmitGeom(t, p.d2, n + j);
    GeomNumbered(t, p.d1, n);
    GeomNumbered(t, p.d2, n + j);
    CallJoin([Word("ST_DWithin"), LP], a, sep, b, sep, n, j, k, Names(t));
    HoleAt([Param(n + j + k), RP], 0, n + j + k, Names(t));
    Join([Word("ST_DWithin"), LP] + a + sep + b + sep, [Param(n + j + k), RP], n, j + k, 1, Names(t));
  }

  lemma {:induction false} PropNumbered(t: Target, p: Pred, n: nat)
    requires (p.Like? || p.InList?) && ValidPred(t.opt, p)
    ensures Numbered(EmitPred(t, p, n), n, |ArgsPred(t, p)|, Names(t))
  {
    hide EmitItems, ArgsItems, Numbered, ValidItems;
    var names := Names(t);
    var start := [Quoted(p.prop), Sp] + Keyword(p.neg);
    NoHole(start, n, names);
    if p.Like? {
      var rest := [Word(if p.ci then "ILIKE" else "LIKE"), Sp, Param(n)];
      HoleAt(rest, 2, n, names);
      Before(start, rest, n, 1, names);
    } else {
      var k := |ArgsItems(t.opt, p.items)|;
      ItemsNumbered(t.dialect, t.opt, p.items, n, names);
      NoHole(start + [Word("IN"), Sp, LP], n, names);
      Before(start + [Word("IN"), Sp, LP], EmitItems(t.dialect, p.items, n), n, k, names);
      After(start + [Word("IN"), Sp, LP] + EmitItems(t.dialect, p.items, n), [RP], n, k, names);
    }
  }

  lemma {:induction false} ComparisonNumbered(t: Target, p: Pred, n: nat)
    requires (p.Compare? || p.Between?) && ValidPred(t.opt, p)
    ensures Numbered(EmitPred(t, p, n), n, |ArgsPred(t, p)|, Names(t))
  {
    hide Numbered, EmitScalar, ArgsScalar, ValidScalar;
    var names, o := Names(t), t.opt;
    var j := |ArgsScalar(o, p.left)|;
    var l := EmitScalar(t, p.left, n);
    ScalarNumbered(t, p.left, n);
    if p.Compare? {
      ScalarNumbered(t, p.right, n + j);
      Between2(l, [Sp, Op(Fixed(p.op).raw), Sp], EmitScalar(t, p.right, n + j), n, j, |ArgsScalar(o, p.right)|, names);
    } else {
      var k := |ArgsScalar(o, p.low)|;
      var a, b := EmitScalar(t, p.low, n + j), EmitScalar(t, p.high, n + j + k);
      ScalarNumbered(t, p.low, n + j);
      ScalarNumbered(t, p.high, n + j + k);
      var kw := [Sp] + Keyword(p.neg) + [Word("BETWEEN"), Sp];
      Between2(l, kw, a, n, j, k, names);
      Between2(l + kw + a, [Sp, Word("AND"), Sp], b, n, j + k, |ArgsScalar(o, p.high)|, names);
      assert l + kw + a + [Sp, Word("AND"), Sp] + b == EmitPred(t, p, n);
    }
  }

  /** For every valid filter the placeholders read left to right are exactly n, ..., n+|args|-1,
      and every quoted identifier is an allowed property or the geometry property. */
  lemma {:induction false} PlaceholdersInOrder(t: Target, e: Expr, n: nat)
    requires ValidExpr(t.opt, e) && PlainGeometry(t)
    ensures Numbered(Emit(t, e, n), n, |Args(t, e)|, Names(t))
    decreases e
  {
    hide Numbered, EmitPred, ArgsPred, ValidPred;
    var names := Names(t);
    match e {
      case Atom(p) => PredNumbered(t, p, n);
      case Paren(inner) =>
        PlaceholdersInOrder(t, inner, n);
        Around([LP], Emit(t, inner, n), [RP], n, |Args(t, inner)|, names);
      case Not(_, arg) =>
        PlaceholdersInOrder(t, arg, n);
        Around([LP, Word("NOT"), Sp], Emit(t, arg, n), [RP], n, |Args(t, arg)|, names);
      case And(l, _, r) =>
        PlaceholdersInOrder(t, l, n);
        PlaceholdersInOrder(t, r, n + |Args(t, l)|);
        ParenJoin(Emit(t, l, n), Word("AND"), Emit(t, r, n + |Args(t, l)|), n, |Args(t, l)|, |Args(t, r)|, names);
      case Or(l, _, r) =>
        PlaceholdersInOrder(t, l, n);
        PlaceholdersInOrder(t, r, n + |Args(t, l)|);
        ParenJoin(Emit(t, l, n), Word("OR"), Emit(t, r, n + |Args(t, l)|), n, |Args(t, l)|, |Args(t, r)|, names);
    }
  }
}
