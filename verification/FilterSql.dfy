/** The SQL text of a filter, as the database reads it. */
module FilterSql {
  import opened Base
  import opened Tokens
  import opened Lexing
  import opened Cql2Grammar
  import opened SqlText
  import opened Emission
  import opened SqlReading
  import opened SqlFidelity
  import opened SqlLexing

  /** ls is clean, not empty, and spans the tokens ts in front of k. */
  predicate Writes(ls: seq<Lexeme>, ts: Toks, k: Toks) {
    |ls| > 0 && Clean(ls) && Strip(ls, k) == ts
  }

  // ---------------------------------------------------------------- gluing pieces

  lemma {:induction false} Wrapped(a: seq<Lexeme>, ts: Toks, k: Toks)
    requires Writes(a, ts, Tok(SRp, k))
    ensures Writes([LP] + a + [RP], Tok(SLp, ts), k)
  {
    CleanConcat([LP], a);
    CleanConcat([LP] + a, [RP]);
    StripConcat([LP] + a, [RP], k);
    StripConcat([LP], a, Tok(SRp, k));
    Strip1(LP, ts);
    Strip1(RP, k);
  }

  lemma {:induction false} Infixed(a: seq<Lexeme>, op: Lexeme, b: seq<Lexeme>, ta: Toks, tb: Toks, k: Toks)
    requires WellFormed(op) && !op.Sp?
    requires Writes(b, tb, k) && Writes(a, ta, Tok(TokOf(op), tb))
    ensures Writes(a + [Sp, op, Sp] + b, ta, k)
  {
    var mid := [Sp, op, Sp];
    assert Clean(mid);
    CleanConcat(a, mid);
    CleanConcat(a + mid, b);
    StripConcat(a + mid, b, k);
    StripConcat(a, mid, tb);
    Strip3(Sp, op, Sp, tb);
  }

  lemma {:induction false} ParenInfixed(a: seq<Lexeme>, op: Lexeme, b: seq<Lexeme>, ta: Toks, tb: Toks, k: Toks)
    requires WellFormed(op) && !op.Sp?
    requires Writes(b, tb, Tok(SRp, k)) && Writes(a, ta, Tok(TokOf(op), tb))
    ensures Writes([LP] + a + [Sp, op, Sp] + b + [RP], Tok(SLp, ta), k)
  {
    hide Clean, Strip;
    Infixed(a, op, b, ta, tb, Tok(SRp, k));
    Wrapped(a + [Sp, op, Sp] + b, ta, k);
    assert [LP] + (a + [Sp, op, Sp] + b) + [RP] == [LP] + a + [Sp, op, Sp] + b + [RP];
  }

  lemma {:induction false} Prefixed(a: seq<Lexeme>, b: seq<Lexeme>, ta: Toks, tb: Toks, k: Toks)
    requires Writes(b, tb, k) && Writes(a, ta, tb) && Open(a[|a| - 1])
    ensures Writes(a + b, ta, k)
  {
    CleanConcat(a, b);
    StripConcat(a, b, k);
  }

  lemma {:induction false} Suffixed(a: seq<Lexeme>, b: seq<Lexeme>, ta: Toks, tb: Toks, k: Toks)
    requires Writes(b, tb, k) && Writes(a, ta, tb) && Open(b[0])
    ensures Writes(a + b, ta, k)
  {
    CleanConcat(a, b);
    StripConcat(a, b, k);
  }

  lemma {:induction false} One(l: Lexeme, k: Toks)
    requires WellFormed(l)
    ensures Writes([l], Put(l, k), k)
  {
    Strip1(l, k);
  }

  lemma {:induction false} Front(l: Lexeme, ls: seq<Lexeme>, ts: Toks, k: Toks)
    requires WellFormed(l) && Writes(ls, ts, k) && Apart(l, ls[0])
    ensures Writes([l] + ls, Put(l, ts), k)
  {
    StripConcat([l], ls, k);
    Strip1(l, ts);
  }

  lemma {:induction false} Front2(a: Lexeme, b: Lexeme, ls: seq<Lexeme>, ts: Toks, k: Toks)
    requires WellFormed(a) && WellFormed(b) && Writes(ls, ts, k) && Apart(a, b) && Apart(b, ls[0])
    ensures Writes([a, b] + ls, Put(a, Put(b, ts)), k)
  {
    Front(b, ls, ts, k);
    Front(a, [b] + ls, Put(b, ts), k);
    assert [a, b] + ls == [a] + ([b] + ls);
  }

  lemma {:induction false} Front4(a: Lexeme, b: Lexeme, c: Lexeme, d: Lexeme, ls: seq<Lexeme>, ts: Toks, k: Toks)
    requires WellFormed(a) && WellFormed(b) && WellFormed(c) && WellFormed(d) && Writes(ls, ts, k)
    requires Apart(a, b) && Apart(b, c) && Apart(c, d) && Apart(d, ls[0])
    ensures Writes([a, b, c, d] + ls, Put(a, Put(b, Put(c, Put(d, ts)))), k)
  {
    Front2(c, d, ls, ts, k);
    Front2(a, b, [c, d] + ls, Put(c, Put(d, ts)), k);
    assert [a, b, c, d] + ls == [a, b] + ([c, d] + ls);
  }

  // ---------------------------------------------------------------- scalars

  lemma {:induction false} ScalarWrites(t: Target, s: Scalar, n: nat, k: Toks)
    requires ValidScalar(t.opt, s)
    ensures Writes(EmitScalar(t, s, n), ToksScalar(t, s, n, k), k)
    decreases s
  {
    hide Writes, OpTok, EmitInstant, ToksCast, Fixed, LooksLikeDate;
    match s {
      case Group(inner) =>
        ScalarWrites(t, inner, n, Tok(SRp, k));
        Wrapped(EmitScalar(t, inner, n), ToksScalar(t, inner, n, Tok(SRp, k)), k);
      case Arith(l, op, r) =>
        var m := n + |ArgsScalar(t.opt, l)|;
        var o := Op(Fixed(op).raw);
        var right := ToksScalar(t, r, m, Tok(SRp, k));
        ArithOp(op);
        ScalarWrites(t, r, m, Tok(SRp, k));
        ScalarWrites(t, l, n, Tok(TokOf(o), right));
        ParenInfixed(EmitScalar(t, l, n), o, EmitScalar(t, r, m), ToksScalar(t, l, n, Tok(TokOf(o), right)), right, k);
      case _ => LeafWrites(t, s, n, k);
    }
  }

  lemma {:induction false} LeafWrites(t: Target, s: Scalar, n: nat, k: Toks)
    requires ValidScalar(t.opt, s) && !s.Group? && !s.Arith?
    ensures Writes(EmitScalar(t, s, n), ToksScalar(t, s, n, k), k)
  {
    hide Writes;
    match s {
      case Prop(name) => One(Quoted(name), k);
      case Boolean(raw) => One(Word(raw), k);
      case Instant(raw) => InstantWrites(t, raw, n, k);
      case Now =>
        One(RP, k);
        Front2(Word("NOW"), LP, [RP], Tok(SRp, k), k);
        assert [Word("NOW"), LP] + [RP] == EmitScalar(t, s, n);
      case _ => One(Param(n), k);
    }
  }

  lemma {:induction false} InstantWrites(t: Target, raw: string, n: nat, k: Toks)
    ensures Writes(EmitInstant(t.dialect, raw, n), ToksScalar(t, Instant(raw), n, k), k)
  {
    hide PostgisZoned, DuckdbZoned;
    var typ := InstantType(t.dialect, raw);
    assert IsWord(typ) && WordTok(typ) == SName(typ);
    if t.dialect.PostGIS? {
      PgCastWrites(n, typ, k);
    } else {
      CastWrites(n, typ, k);
    }
  }

  /** $n::typ */
  lemma {:induction false} PgCastWrites(n: nat, typ: string, k: Toks)
    requires IsWord(typ) && WordTok(typ) == SName(typ)
    ensures Writes([Param(n), Op("::"), Word(typ)], Tok(SParam(n), Tok(SColons, Tok(SName(typ), k))), k)
  {
    One(Word(typ), k);
    Front2(Param(n), Op("::"), [Word(typ)], Tok(SName(typ), k), k);
    assert [Param(n), Op("::")] + [Word(typ)] == [Param(n), Op("::"), Word(typ)];
  }

  /** CAST($n AS typ) */
  lemma {:induction false} CastWrites(n: nat, typ: string, k: Toks)
    requires IsWord(typ) && WordTok(typ) == SName(typ)
    ensures Writes([Word("CAST"), LP, Param(n), Sp, Word("AS"), Sp, Word(typ), RP], ToksCast(n, typ, k), k)
  {
    hide Clean, Strip;
    One(RP, k);
    Front(Word(typ), [RP], Tok(SRp, k), k);
    var tail := [Word(typ)] + [RP];
    Front4(Param(n), Sp, Word("AS"), Sp, tail, Tok(SName(typ), Tok(SRp, k)), k);
    var mid := [Param(n), Sp, Word("AS"), Sp] + tail;
    Front2(Word("CAST"), LP, mid, Tok(SParam(n), Tok(SAs, Tok(SName(typ), Tok(SRp, k)))), k);
    assert [Word("CAST"), LP] + mid == [Word("CAST"), LP, Param(n), Sp, Word("AS"), Sp, Word(typ), RP];
  }

  // ---------------------------------------------------------------- geometries

  lemma {:induction false} GeomWrites(t: Target, g: Geom, n: nat, k: Toks)
    requires t.geometrySql != [] ==> Clean(t.geometrySql)
    ensures Writes(EmitGeom(t, g, n), ToksGeom(t, g, n, k), k)
  {
    if g.GeomProp? {
      Strip1(Quoted(g.name), k);
    } else if t.dialect.PostGIS? {
      PgGeomWrites(t, n, k);
    } else {
      DuckGeomWrites(t, n, k);
    }
  }

  lemma {:induction false} PgGeomWrites(t: Target, n: nat, k: Toks)
    requires t.dialect.PostGIS?
    ensures Writes(EmitGeomLiteral(t, n), ToksGeomLiteral(t, n, k), k)
  {
    hide Clean, Strip, Writes, IsWord, WordTok, OpTok;
    var lit := [Param(n), Op("::"), Word("geometry")];
    FixedWords();
    if Reprojects(t.opt) {
      var srid := Int(t.opt.sourceSRID);
      var kt := Tok(SComma, Tok(SInt(t.opt.sourceSRID), Tok(SRp, k)));
      One(RP, k);
      Front2(Comma, srid, [RP], Tok(SRp, k), k);
      var tail := [Comma, srid] + [RP];
      PgCastWrites(n, "geometry", kt);
      Suffixed(lit, tail, ToksPgGeom(n, kt), kt, k);
      Front2(Word("ST_Transform"), LP, lit + tail, ToksPgGeom(n, kt), k);
      assert [Word("ST_Transform"), LP] + (lit + tail) == EmitGeomLiteral(t, n);
    } else {
      PgCastWrites(n, "geometry", k);
    }
  }

  /** ST_GeomFromText(CAST($n AS VARCHAR)) */
  lemma {:induction false} FromTextWrites(n: nat, k: Toks)
    ensures Writes([Word("ST_GeomFromText"), LP, Word("CAST"), LP, Param(n), Sp, Word("AS"),
            Sp, Word("VARCHAR"), RP, RP],
                   ToksDuckGeom(n, k), k)
  {
    hide Clean, Strip;
    var cast := [Word("CAST"), LP, Param(n), Sp, Word("AS"), Sp, Word("VARCHAR"), RP];
    CastWrites(n, "VARCHAR", Tok(SRp, k));
    One(RP, k);
    Suffixed(cast, [RP], ToksCast(n, "VARCHAR", Tok(SRp, k)), Tok(SRp, k), k);
    Front2(Word("ST_GeomFromText"), LP, cast + [RP], ToksCast(n, "VARCHAR", Tok(SRp, k)), k);
    assert [Word("ST_GeomFromText"), LP] + (cast + [RP]) ==
      [Word("ST_GeomFromText"), LP, Word("CAST"), LP, Param(n), Sp, Word("AS"), Sp, Word("VARCHAR"), RP, RP];
  }

  lemma {:induction false} ReprojectWrites(from: nat, to: nat, k: Toks)
    ensures Writes(ReprojectTail(from, to), ToksReproject(from, to, k), k)
  {
    hide Clean, Strip, WordTok, Itoa;
    var a, b := Str("EPSG:" + Itoa(from)), Str("EPSG:" + Itoa(to));
    var axis := Tok(SName("always_xy"), Tok(SAssign, Tok(SName("true"), Tok(SRp, k))));
    var c := AxisWrites(k);
    Front4(Sp, b, Comma, Sp, c, axis, k);
    Front4(Comma, Sp, a, Comma, [Sp, b, Comma, Sp] + c, Tok(TokOf(b), Tok(SComma, axis)), k);
    ReprojectSplit(from, to, a, b);
  }

  lemma {:induction false} FixedWords()
    ensures IsWord("geometry") && WordTok("geometry") == SName("geometry")
    ensures IsWord("ST_Transform") && WordTok("ST_Transform") == SName("ST_Transform")
    ensures IsWord("always_xy") && WordTok("always_xy") == SName("always_xy")
    ensures IsWord("true") && WordTok("true") == SName("true")
    ensures OpTok("::") == SColons && OpTok(":=") == SAssign
  {
    hide WordTok, IsWord;
    WordsAre();
    NameWord("geometry");
    NameWord("ST_Transform");
    NameWord("always_xy");
    NameWord("true");
  }

  lemma {:induction false} WordsAre()
    ensures IsWord("geometry") && IsWord("ST_Transform") && IsWord("always_xy") && IsWord("true")
  {
  }

  lemma {:induction false} AxisWrites(k: Toks) returns (ls: seq<Lexeme>)
    ensures ls == [Word("always_xy"), Sp, Op(":="), Sp] + ([Word("true")] + [RP])
    ensures Writes(ls, Tok(SName("always_xy"), Tok(SAssign, Tok(SName("true"), Tok(SRp, k)))), k)
  {
    hide Clean, Strip, IsWord, WordTok, OpTok;
    FixedWords();
    One(RP, k);
    Front(Word("true"), [RP], Tok(SRp, k), k);
    var d := [Word("true")] + [RP];
    Front4(Word("always_xy"), Sp, Op(":="), Sp, d, Tok(SName("true"), Tok(SRp, k)), k);
    ls := [Word("always_xy"), Sp, Op(":="), Sp] + d;
  }

  lemma {:induction false} ReprojectSplit(from: nat, to: nat, a: Lexeme, b: Lexeme)
    requires a == Str("EPSG:" + Itoa(from)) && b == Str("EPSG:" + Itoa(to))
    ensures ReprojectTail(from, to) ==
      [Comma, Sp, a, Comma] + ([Sp, b, Comma, Sp] + ([Word("always_xy"), Sp, Op(":="), Sp] + ([Word("true")] + [RP])))
  {
  }

  lemma {:induction false} DuckGeomWrites(t: Target, n: nat, k: Toks)
    requires t.dialect.DuckDB?
    ensures Writes(EmitGeomLiteral(t, n), ToksGeomLiteral(t, n, k), k)
  {
    if Reprojects(t.opt) {
      var tail := ReprojectTail(t.opt.filterSRID, t.opt.sourceSRID);
      var kt := ToksReproject(t.opt.filterSRID, t.opt.sourceSRID, k);
      ReprojectWrites(t.opt.filterSRID, t.opt.sourceSRID, k);
      FromTextWrites(n, kt);
      var lit := [Word("ST_GeomFromText"), LP, Word("CAST"), LP, Param(n), Sp, Word("AS"), Sp, Word("VARCHAR"), RP, RP];
      Prefixed(lit, tail, ToksDuckGeom(n, kt), kt, k);
      Strip2(Word("ST_Transform"), LP, ToksDuckGeom(n, kt));
      Prefixed([Word("ST_Transform"), LP], lit + tail, ToksGeomLiteral(t, n, k), ToksDuckGeom(n, kt), k);
      assert [Word("ST_Transform"), LP] + (lit + tail) == EmitGeomLiteral(t, n);
    } else {
      FromTextWrites(n, k);
    }
  }

  // ---------------------------------------------------------------- predicates

  lemma {:induction false} StFunctionName(op: string)
    requires op in SpatialNames
    ensures IsWord(StFunction(op)) && WordTok(StFunction(op)) == SName(StFunction(op))
  {
    if op in {"crosses", "contains", "disjoint", "equals"} {
      StFirstNames(StFunction(op));
    } else {
      StOtherNames(StFunction(op));
    }
    NameWord(StFunction(op));
  }

  lemma {:induction false} StFirstNames(w: string)
    requires w in {"ST_Crosses", "ST_Contains", "ST_Disjoint", "ST_Equals"}
    ensures IsWord(w) && w[0] == 'S'
  {
  }

  lemma {:induction false} StOtherNames(w: string)
    requires w in {"ST_Intersects", "ST_Overlaps", "ST_Touches", "ST_Within"}
    ensures IsWord(w) && w[0] == 'S'
  {
  }

  /** No keyword starts with one of these letters. */
  lemma {:induction false} NameWord(w: string)
    requires |w| > 0 && w[0] in {'g', 'S', 'a', 't', 'V'}
    ensures WordTok(w) == SName(w)
  {
  }

  lemma {:induction false} SepWrites(d: Dialect, ls: seq<Lexeme>, ts: Toks, k: Toks)
    requires Writes(ls, ts, k)
    ensures Writes(Sep(d) + ls, Tok(SComma, ts), k) && Open((Sep(d) + ls)[0])
  {
    hide Clean, Strip;
    if d.PostGIS? {
      Front(Comma, ls, ts, k);
    } else {
      Front2(Comma, Sp, ls, ts, k);
    }
  }

  /** fn(g1<sep>more, where `more` is the rest of the argument list and its closing parenthesis. */
  lemma {:induction false} CallWrites(t: Target, fn: string, g1: Geom, n: nat, more: seq<Lexeme>, ts: Toks, k: Toks)
    requires t.geometrySql != [] ==> Clean(t.geometrySql)
    requires IsWord(fn) && WordTok(fn) == SName(fn) && Writes(more, ts, k)
    ensures Writes([Word(fn), LP] + EmitGeom(t, g1, n) + Sep(t.dialect) + more,
                   Tok(SName(fn), Tok(SLp, ToksGeom(t, g1, n, Tok(SComma, ts)))), k)
  {
    hide Clean, Strip, EmitGeom, ToksGeom;
    SepWrites(t.dialect, more, ts, k);
    GeomWrites(t, g1, n, Tok(SComma, ts));
    var rest := EmitGeom(t, g1, n) + (Sep(t.dialect) + more);
    Suffixed(EmitGeom(t, g1, n), Sep(t.dialect) + more, ToksGeom(t, g1, n, Tok(SComma, ts)), Tok(SComma, ts), k);
    Front2(Word(fn), LP, rest, ToksGeom(t, g1, n, Tok(SComma, ts)), k);
    assert [Word(fn), LP] + rest == [Word(fn), LP] + EmitGeom(t, g1, n) + Sep(t.dialect) + more;
  }

  lemma {:induction false} SpatialWrites(t: Target, p: Pred, n: nat, k: Toks)
    requires t.geometrySql != [] ==> Clean(t.geometrySql)
    requires p.Spatial? && p.fn in SpatialNames
    ensures Writes(EmitPred(t, p, n), ToksPred(t, p, n, k), k)
  {
    hide Clean, Strip, EmitGeom, ToksGeom, StFunction, WordTok, IsWord;
    var m := n + |ArgsGeom(t, p.g1)|;
    var second := EmitGeom(t, p.g2, m);
    GeomWrites(t, p.g2, m, Tok(SRp, k));
    One(RP, k);
    Suffixed(second, [RP], ToksGeom(t, p.g2, m, Tok(SRp, k)), Tok(SRp, k), k);
    StFunctionName(p.fn);
    CallWrites(t, StFunction(p.fn), p.g1, n, second + [RP], ToksGeom(t, p.g2, m, Tok(SRp, k)), k);
    var head := [Word(StFunction(p.fn)), LP] + EmitGeom(t, p.g1, n) + Sep(t.dialect);
    assert head + (second + [RP]) == head + second + [RP];
  }

  lemma {:induction false} DWithinWord()
    ensures IsWord("ST_DWithin") && WordTok("ST_DWithin") == SName("ST_DWithin")
  {
    NameWord("ST_DWithin");
  }

  lemma {:induction false} DWithinWrites(t: Target, p: Pred, n: nat, k: Toks)
    requires t.geometrySql != [] ==> Clean(t.geometrySql)
    requires p.DWithin?
    ensures Writes(EmitPred(t, p, n), ToksPred(t, p, n, k), k)
  {
    hide Clean, Strip, EmitGeom, ToksGeom, ArgsGeom, Writes, IsWord;
    DWithinWord();
    var m := n + |ArgsGeom(t, p.d1)|;
    var d := Param(m + |ArgsGeom(t, p.d2)|);
    var second := EmitGeom(t, p.d2, m);
    One(RP, k);
    Front(d, [RP], Tok(SRp, k), k);
    var distance := Tok(TokOf(d), Tok(SRp, k));
    SepWrites(t.dialect, [d] + [RP], distance, k);
    GeomWrites(t, p.d2, m, Tok(SComma, distance));
    var tail := Sep(t.dialect) + ([d] + [RP]);
    var second2 := ToksGeom(t, p.d2, m, Tok(SComma, distance));
    Suffixed(second, tail, second2, Tok(SComma, distance), k);
    CallWrites(t, "ST_DWithin", p.d1, n, second + tail, second2, k);
    var head := [Word("ST_DWithin"), LP] + EmitGeom(t, p.d1, n) + Sep(t.dialect);
    assert head + (second + tail) == head + second + Sep(t.dialect) + [d, RP];
  }

  lemma {:induction false} NotWrites(neg: Option<string>, ls: seq<Lexeme>, ts: Toks, k: Toks)
    requires Writes(ls, ts, k)
    ensures Writes(Keyword(neg) + ls, ToksNot(neg, ts), k)
  {
    hide Clean, Strip;
    if neg.Some? {
      Front2(Word("NOT"), Sp, ls, ts, k);
    } else {
      assert [] + ls == ls;
    }
  }

  lemma {:induction false} LikeWrites(t: Target, p: Pred, n: nat, k: Toks)
    requires p.Like?
    ensures Writes(EmitPred(t, p, n), ToksPred(t, p, n, k), k)
  {
    hide Clean, Strip;
    var kw := Word(if p.ci then "ILIKE" else "LIKE");
    One(Param(n), k);
    Front2(kw, Sp, [Param(n)], Tok(SParam(n), k), k);
    var test := [kw, Sp] + [Param(n)];
    NotWrites(p.neg, test, Tok(TokOf(kw), Tok(SParam(n), k)), k);
    Front2(Quoted(p.prop), Sp, Keyword(p.neg) + test, ToksNot(p.neg, Tok(TokOf(kw), Tok(SParam(n), k))), k);
    assert [Quoted(p.prop), Sp] + (Keyword(p.neg) + test) == EmitPred(t, p, n);
  }

  lemma {:induction false} IsNullWrites(t: Target, p: Pred, n: nat, k: Toks)
    requires p.IsNull?
    ensures Writes(EmitPred(t, p, n), ToksPred(t, p, n, k), k)
  {
    hide Clean, Strip;
    One(Word("NULL"), k);
    NotWrites(p.neg, [Word("NULL")], Tok(SNull, k), k);
    Front4(Quoted(p.prop), Sp, Word("IS"), Sp, Keyword(p.neg) + [Word("NULL")], ToksNot(p.neg, Tok(SNull, k)), k);
    assert [Quoted(p.prop), Sp, Word("IS"), Sp] + (Keyword(p.neg) + [Word("NULL")]) == EmitPred(t, p, n);
  }

  lemma {:induction false} ItemsWrite(d: Dialect, items: Stream, n: nat, k: Toks)
    requires items.Cons?
    ensures Writes(EmitItems(d, items, n) + [RP], ToksItems(items, n, Tok(SRp, k)), k)
    decreases items
  {
    hide Clean, Strip;
    One(RP, k);
    if items.tail.End? {
      Front(Param(n), [RP], Tok(SRp, k), k);
      assert [Param(n)] + [] + [RP] == [Param(n)] + [RP];
    } else {
      ItemsWrite(d, items.tail, n + 1, k);
      var more := EmitItems(d, items.tail, n + 1) + [RP];
      var ts := ToksItems(items.tail, n + 1, Tok(SRp, k));
      SepWrites(d, more, ts, k);
      Front(Param(n), Sep(d) + more, Tok(SComma, ts), k);
      assert [Param(n)] + (Sep(d) + more) == EmitItems(d, items, n) + [RP];
    }
  }

  lemma {:induction false} InListWrites(t: Target, p: Pred, n: nat, k: Toks)
    requires p.InList? && p.items.Cons?
    ensures Writes(EmitPred(t, p, n), ToksPred(t, p, n, k), k)
  {
    hide Clean, Strip, EmitItems, ToksItems;
    var list := EmitItems(t.dialect, p.items, n) + [RP];
    var ts := ToksItems(p.items, n, Tok(SRp, k));
    ItemsWrite(t.dialect, p.items, n, k);
    Front(LP, list, ts, k);
    Front2(Word("IN"), Sp, [LP] + list, Tok(SLp, ts), k);
    var test := [Word("IN"), Sp] + ([LP] + list);
    NotWrites(p.neg, test, Tok(SIn, Tok(SLp, ts)), k);
    Front2(Quoted(p.prop), Sp, Keyword(p.neg) + test, ToksNot(p.neg, Tok(SIn, Tok(SLp, ts))), k);
    assert [Quoted(p.prop), Sp] + (Keyword(p.neg) + test) == EmitPred(t, p, n);
  }

  lemma {:induction false} CompareWrites(t: Target, p: Pred, n: nat, k: Toks)
    requires p.Compare? && ValidPred(t.opt, p)
    ensures Writes(EmitPred(t, p, n), ToksPred(t, p, n, k), k)
  {
    hide Clean, Strip, EmitScalar, ToksScalar, ValidScalar;
    var m := n + |ArgsScalar(t.opt, p.left)|;
    var o := Op(Fixed(p.op).raw);
    var right := ToksScalar(t, p.right, m, k);
    ScalarWrites(t, p.right, m, k);
    ScalarWrites(t, p.left, n, Tok(TokOf(o), right));
    Infixed(EmitScalar(t, p.left, n), o, EmitScalar(t, p.right, m),
      ToksScalar(t, p.left, n, Tok(TokOf(o), right)), right, k);
  }

  lemma {:induction false} BetweenWrites(t: Target, p: Pred, n: nat, k: Toks)
    requires p.Between? && ValidPred(t.opt, p)
    ensures Writes(EmitPred(t, p, n), ToksPred(t, p, n, k), k)
  {
    hide Clean, Strip, EmitScalar, ToksScalar, ValidScalar;
    var m := n + |ArgsScalar(t.opt, p.left)|;
    var h := m + |ArgsScalar(t.opt, p.low)|;
    var l, a, b := EmitScalar(t, p.left, n), EmitScalar(t, p.low, m), EmitScalar(t, p.high, h);
    var high := Tok(SAnd, ToksScalar(t, p.high, h, k));
    ScalarWrites(t, p.high, h, k);
    ScalarWrites(t, p.low, m, high);
    var low := ToksScalar(t, p.low, m, high);
    Infixed(a, Word("AND"), b, low, high.tail, k);
    var range := a + [Sp, Word("AND"), Sp] + b;
    Front2(Word("BETWEEN"), Sp, range, low, k);
    var test := [Word("BETWEEN"), Sp] + range;
    NotWrites(p.neg, test, Tok(SBetween, low), k);
    Front(Sp, Keyword(p.neg) + test, ToksNot(p.neg, Tok(SBetween, low)), k);
    ScalarWrites(t, p.left, n, ToksNot(p.neg, Tok(SBetween, low)));
    Suffixed(l, [Sp] + (Keyword(p.neg) + test), ToksScalar(t, p.left, n, ToksNot(p.neg, Tok(SBetween, low))),
             ToksNot(p.neg, Tok(SBetween, low)), k);
    assert l + ([Sp] + (Keyword(p.neg) + test)) ==
      l + [Sp] + Keyword(p.neg) + [Word("BETWEEN"), Sp] + a + [Sp, Word("AND"), Sp] + b;
  }

  lemma {:induction false} PredWrites(t: Target, p: Pred, n: nat, k: Toks)
    requires t.geometrySql != [] ==> Clean(t.geometrySql)
    requires ValidPred(t.opt, p)
    ensures Writes(EmitPred(t, p, n), ToksPred(t, p, n, k), k)
  {
    hide Writes, EmitPred, ToksPred;
    match p {
      case Spatial(_, _, _) => SpatialWrites(t, p, n, k);
      case DWithin(_, _, _) => DWithinWrites(t, p, n, k);
      case Like(_, _, _, _, _) => LikeWrites(t, p, n, k);
      case IsNull(_, _, _, _) => IsNullWrites(t, p, n, k);
      case InList(_, _, _, _) => InListWrites(t, p, n, k);
      case Compare(_, _, _) => CompareWrites(t, p, n, k);
      case Between(_, _, _, _, _, _) => BetweenWrites(t, p, n, k);
    }
  }

  // ---------------------------------------------------------------- whole filters

  lemma {:induction false} ExprWrites(t: Target, e: Expr, n: nat, k: Toks)
    requires t.geometrySql != [] ==> Clean(t.geometrySql)
    requires ValidExpr(t.opt, e)
    ensures Writes(Emit(t, e, n), ToksExpr(t, e, n, k), k)
    decreases e
  {
    hide Writes, EmitPred, ToksPred, ValidPred;
    match e {
      case Atom(p) => PredWrites(t, p, n, k);
      case Paren(inner) =>
        ExprWrites(t, inner, n, Tok(SRp, k));
        Wrapped(Emit(t, inner, n), ToksExpr(t, inner, n, Tok(SRp, k)), k);
      case Not(_, arg) =>
        ExprWrites(t, arg, n, Tok(SRp, k));
        NegationWrites(Emit(t, arg, n), ToksExpr(t, arg, n, Tok(SRp, k)), k);
      case And(l, _, r) =>
        var m := n + |Args(t, l)|;
        ExprWrites(t, r, m, Tok(SRp, k));
        ExprWrites(t, l, n, Tok(SAnd, ToksExpr(t, r, m, Tok(SRp, k))));
        ParenInfixed(Emit(t, l, n), Word("AND"), Emit(t, r, m),
                     ToksExpr(t, l, n, Tok(SAnd, ToksExpr(t, r, m, Tok(SRp, k)))), ToksExpr(t, r, m, Tok(SRp, k)), k);
      case Or(l, _, r) =>
        var m := n + |Args(t, l)|;
        ExprWrites(t, r, m, Tok(SRp, k));
        ExprWrites(t, l, n, Tok(SOr, ToksExpr(t, r, m, Tok(SRp, k))));
        ParenInfixed(Emit(t, l, n), Word("OR"), Emit(t, r, m),
                     ToksExpr(t, l, n, Tok(SOr, ToksExpr(t, r, m, Tok(SRp, k)))), ToksExpr(t, r, m, Tok(SRp, k)), k);
    }
  }

  lemma {:induction false} NegationWrites(a: seq<Lexeme>, ts: Toks, k: Toks)
    requires Writes(a, ts, Tok(SRp, k))
    ensures Writes([LP, Word("NOT"), Sp] + a + [RP], Tok(SLp, Tok(SNot, ts)), k)
  {
    hide Clean, Strip;
    Front2(Word("NOT"), Sp, a, ts, Tok(SRp, k));
    Wrapped([Word("NOT"), Sp] + a, Tok(SNot, ts), k);
    assert [LP] + ([Word("NOT"), Sp] + a) + [RP] == [LP, Word("NOT"), Sp] + a + [RP];
  }

  /** How the database reads a piece of SQL text as one expression. */
  function ReadSql(s: string): Option<Sql> {
    match ReadExpr(1, LexSql(s))
    case Got(e, rest) => if rest.Nil? then Some(e) else None
    case Bad => None
  }

  /** The adapter's trusted geometry expression, when there is one, is clean SQL for one argument. */
  ghost predicate TrustedGeometry(t: Target) {
    (t.geometrySql != [] ==> Clean(t.geometrySql)) && GeometrySqlOk(t)
  }

  function Column(alias: string, column: string): seq<Lexeme> { [Word(alias), Op("."), Quoted(column)] }

  /** alias."column" reads as a column reference in front of anything that cannot extend it. */
  lemma {:induction false} ColumnReadsBack(alias: string, column: string, k: Toks)
    requires alias in {"t", "v"} && EndsOperand(k)
    ensures var ts := Tok(SName(alias), Tok(SDot, Tok(SIdent(column), k)));
            Strip(Column(alias, column), k) == ts && ReadPrimary(ts) == Got(QCol(alias, column), k)
    ensures Clean(Column(alias, column))
  {
    hide ReadTest, ReadArgs;
    Strip3(Word(alias), Op("."), Quoted(column), k);
  }

  /** The column reference the adapters pass, alias."column", is such an expression. */
  lemma {:induction false} ColumnIsTrusted(t: Target, alias: string, column: string)
    requires alias in {"t", "v"} && t.geometrySql == Column(alias, column)
    ensures TrustedGeometry(t) && GeometryTree(t) == QCol(alias, column)
  {
    hide ReadPrimary, ReadArg, Strip, Column;
    forall k | EndsArgument(k) ensures ReadArg(Strip(t.geometrySql, k)) == Got(QCol(alias, column), k) {
      ColumnReadsBack(alias, column, k);
      PrimaryArgument(Strip(t.geometrySql, k), QCol(alias, column), k);
    }
    ColumnReadsBack(alias, column, Nil);
    assert EndsArgument(Tok(SRp, Nil));
  }

  function WkbColumn(alias: string, column: string): seq<Lexeme> {
    [Word("ST_GeomFromWKB"), LP] + Column(alias, column) + [RP]
  }

  lemma {:induction false} WkbColumnReads(alias: string, column: string, k: Toks)
    requires alias in {"t", "v"} && EndsArgument(k)
    ensures ReadArg(Strip(WkbColumn(alias, column), k)) ==
            Got(QCall("ST_GeomFromWKB", SqlCons(QCol(alias, column), SqlNil)), k)
    ensures Clean(WkbColumn(alias, column))
  {
    hide ReadPrimary, ReadArg, ReadArgs, Strip, Column, Clean, WordTok, IsWord;
    WkbWord();
    var inner := Strip(Column(alias, column), Tok(SRp, k));
    ColumnReadsBack(alias, column, Tok(SRp, k));
    PrimaryArgument(inner, QCol(alias, column), Tok(SRp, k));
    LastArgument(inner, QCol(alias, column), k);
    CallReads("ST_GeomFromWKB", inner, SqlCons(QCol(alias, column), SqlNil), k);
    StripConcat([Word("ST_GeomFromWKB"), LP] + Column(alias, column), [RP], k);
    StripConcat([Word("ST_GeomFromWKB"), LP], Column(alias, column), Tok(SRp, k));
    Strip1(RP, k);
    Strip2(Word("ST_GeomFromWKB"), LP, inner);
    var ts := Tok(SName("ST_GeomFromWKB"), Tok(SLp, inner));
    assert Strip(WkbColumn(alias, column), k) == ts;
    PrimaryArgument(ts, QCall("ST_GeomFromWKB", SqlCons(QCol(alias, column), SqlNil)), k);
    CleanConcat([Word("ST_GeomFromWKB"), LP], Column(alias, column));
    CleanConcat([Word("ST_GeomFromWKB"), LP] + Column(alias, column), [RP]);
  }

  lemma {:induction false} WkbWord()
    ensures WordTok("ST_GeomFromWKB") == SName("ST_GeomFromWKB") && Clean([Word("ST_GeomFromWKB"), LP]) && Clean([RP])
  {
    NameWord("ST_GeomFromWKB");
  }

  /** So is the decoding of a WKB column, ST_GeomFromWKB(alias."column"). */
  lemma {:induction false} WkbColumnIsTrusted(t: Target, alias: string, column: string)
    requires alias in {"t", "v"} && t.geometrySql == WkbColumn(alias, column)
    ensures TrustedGeometry(t) && GeometryTree(t) == QCall("ST_GeomFromWKB", SqlCons(QCol(alias, column), SqlNil))
  {
    hide ReadArg, Strip, WkbColumn, Clean;
    forall k | EndsArgument(k)
      ensures ReadArg(Strip(t.geometrySql, k)) == Got(QCall("ST_GeomFromWKB", SqlCons(QCol(alias, column), SqlNil)), k)
    {
      WkbColumnReads(alias, column, k);
    }
    assert EndsArgument(Tok(SRp, Nil));
    WkbColumnReads(alias, column, Tok(SRp, Nil));
  }

  /** Main result: for every valid filter, the emitted bytes are read, under SQL's own lexical and
      precedence rules, as the filter's own expression tree. */
  lemma {:induction false} EmittedSqlReadsAsTree(t: Target, e: Expr, n: nat)
    requires TrustedGeometry(t) && ValidExpr(t.opt, e)
    ensures ReadSql(SqlText.Text(Emit(t, e, n))) == Some(Tree(t, e, n))
  {
    ExprWrites(t, e, n, Nil);
    TextReads(Emit(t, e, n));
    ExprReads(t, e, n, Nil);
    hide ToksExpr, Tree, Emit, ReadPrimary, ReadTest, LexSql;
    assert ReadExpr(1, ToksExpr(t, e, n, Nil)) == Climb(1, Tree(t, e, n), Nil);
  }
}
