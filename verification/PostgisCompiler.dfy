/** internal/filter/compiler.go: the one-pass compiler, with its two-token window and argument list. */
module PostgisCompiler {
  import opened Base
  import opened Tokens
  import opened Lexing
  import opened Cql2Grammar
  import opened Cql2Parser
  import opened SqlText
  import opened Emission
  import opened Refinement
  import opened LexerFacts

  class Parser {
    const l: Lexer
    const t: Target
    var cur: Token
    var peek: Token
    var args: seq<Arg>
    var next: nat
    ghost var rest: Stream   // every token from `cur` on

    ghost predicate Valid()
      reads this, l
    {
      && l.Valid()
      && t.dialect.PostGIS?
      && cur == Head(rest) && peek == Peek(rest)
      && Lex(l.s, l.i) == Tail(Tail(rest))
      && AllCanonical(rest)
    }

    ghost function At(): Cursor
      reads this
    {
      Cursor(rest, args, next)
    }

    constructor (input: string, options: RawOptions)
      ensures Valid() && fresh(l)
      ensures l.s == input && t == TargetOf(PostGIS, options)
      ensures At() == Cursor(Lex(input, 0), [], StartIndex(options))
    {
      l := new Lexer(input);
      t := TargetOf(PostGIS, options);
      args := [];
      next := StartIndex(options);
      rest := Lex(input, 0);
      new;
      LexCanonical(input, 0);
      cur := l.Next();
      peek := l.Next();
    }

    method Bump()
      requires Valid()
      modifies this, l
      ensures Valid()
      ensures At() == Cursor(Tail(old(rest)), old(args), old(next))
    {
      cur := peek;
      peek := l.Next();
      rest := Tail(rest);
    }

    method Accept(typ: Typ) returns (ok: bool)
      requires Valid() && typ != TEof
      modifies this, l
      ensures Valid()
      ensures ok == Expect(typ, old(rest)).Done?
      ensures ok ==> At() == Cursor(Expect(typ, old(rest)).rest, old(args), old(next))
    {
      ok := cur.typ == typ;
      if ok {
        Bump();
      }
    }

    method AddArg(v: Arg) returns (ph: seq<Lexeme>)
      requires Valid()
      modifies this
      ensures Valid()
      ensures ph == [Param(old(next))]
      ensures At() == Cursor(old(rest), old(args) + [v], old(next) + 1)
    {
      ph := [Param(next)];
      next := next + 1;
      args := args + [v];
    }

    // -------------------------------------------------------------- boolean expressions

    method ParseOrExpr() returns (ok: bool, out: seq<Lexeme>)
      requires Valid()
      modifies this, l
      ensures Valid()
      ensures ExprStep(t, ParseOr(t.opt, old(rest)), old(At()), At(), ok, out)
      decreases Size(rest), 9
    {
      hide Lex, Canonical, AllCanonical, ParsePred, EmitPred, ArgsPred, ParseAnd, AndTail, ParseNot, ParsePrimary;
      ok, out := ParseAndExpr();
      if !ok { return; }
      ghost var left := ParseAnd(t.opt, old(rest)).val;
      while cur.typ == TOr
        invariant Valid()
        invariant ParseOr(t.opt, old(rest)) == OrTail(t.opt, left, rest)
        invariant out == Emit(t, left, old(next)) && Advanced(old(At()), At(), rest, Args(t, left))
        invariant Size(rest) < Size(old(rest))
        decreases Size(rest)
      {
        ghost var here := At();
        Bump();
        var ok', right := ParseAndExpr();
        if !ok' { return false, []; }
        ghost var r := ParseAnd(t.opt, here.rest.tail).val;
        TwoAdvances(old(At()), here, At(), Args(t, left), Args(t, r));
        left := Or(left, here.rest.head.raw, r);
        out := [LP] + out + [Sp, Word("OR"), Sp] + right + [RP];
      }
    }

    method ParseAndExpr() returns (ok: bool, out: seq<Lexeme>)
      requires Valid()
      modifies this, l
      ensures Valid()
      ensures ExprStep(t, ParseAnd(t.opt, old(rest)), old(At()), At(), ok, out)
      decreases Size(rest), 8
    {
      hide Lex, Canonical, AllCanonical, ParsePred, EmitPred, ArgsPred, ParseOr, OrTail, ParseNot, ParsePrimary;
      ok, out := ParseNotExpr();
      if !ok { return; }
      ghost var left := ParseNot(t.opt, old(rest)).val;
      while cur.typ == TAnd
        invariant Valid()
        invariant ParseAnd(t.opt, old(rest)) == AndTail(t.opt, left, rest)
        invariant out == Emit(t, left, old(next)) && Advanced(old(At()), At(), rest, Args(t, left))
        invariant Size(rest) < Size(old(rest))
        decreases Size(rest)
      {
        ghost var here := At();
        Bump();
        var ok', right := ParseNotExpr();
        if !ok' { return false, []; }
        ghost var r := ParseNot(t.opt, here.rest.tail).val;
        TwoAdvances(old(At()), here, At(), Args(t, left), Args(t, r));
        left := And(left, here.rest.head.raw, r);
        out := [LP] + out + [Sp, Word("AND"), Sp] + right + [RP];
      }
    }

    method ParseNotExpr() returns (ok: bool, out: seq<Lexeme>)
      requires Valid()
      modifies this, l
      ensures Valid()
      ensures ExprStep(t, ParseNot(t.opt, old(rest)), old(At()), At(), ok, out)
      decreases Size(rest), 7
    {
      hide Lex, Canonical, AllCanonical, ParsePred, EmitPred, ArgsPred, ParseOr, OrTail, ParseAnd, AndTail,
        ParsePrimary;
      if cur.typ == TNot {
        Bump();
        ok, out := ParseNotExpr();
        if !ok { return; }
        out := [LP, Word("NOT"), Sp] + out + [RP];
      } else {
        ok, out := ParsePrimaryExpr();
      }
    }

    method ParsePrimaryExpr() returns (ok: bool, out: seq<Lexeme>)
      requires Valid()
      modifies this, l
      ensures Valid()
      ensures ExprStep(t, ParsePrimary(t.opt, old(rest)), old(At()), At(), ok, out)
      decreases Size(rest), 6
    {
      hide Lex, Canonical, AllCanonical, ParsePred, EmitPred, ArgsPred, ParseOr, OrTail, ParseAnd, AndTail,
        ParseNot;
      if cur.typ == TLParen {
        Bump();
        ok, out := ParseOrExpr();
        if !ok { return; }
        ok := Accept(TRParen);
        out := [LP] + out + [RP];
      } else {
        ok, out := ParsePredicate();
      }
    }

    // -------------------------------------------------------------- predicates

    method ParsePredicate() returns (ok: bool, out: seq<Lexeme>)
      requires Valid()
      modifies this, l
      ensures Valid()
      ensures PredStep(t, ParsePred(t.opt, old(rest)), old(At()), At(), ok, out)
      decreases Size(rest), 5
    {
      hide Lex, Canonical, AllCanonical, ParseScalar, ScalarTail, ParseScalarPrimary, EmitScalar, ArgsScalar,
        ParseGeom, EmitGeom, ArgsGeom, ParseComparison, EmitPred, ArgsPred;
      if cur.typ == TSpatialOp {
        ok, out := ParseSpatial();
      } else if cur.typ == TDWithin {
        ok, out := ParseDWithin();
      } else {
        ok, out := ParseComparisonPred();
      }
    }

    /** `( geom , geom` of a spatial or distance predicate. */
    method ParseTwoGeoms() returns (ok: bool, g1: seq<Lexeme>, g2: seq<Lexeme>, ghost t1: Geom, ghost t2: Geom)
      requires Valid()
      modifies this, l
      ensures Valid()
      ensures ok == TwoGeoms(t.opt, old(rest)).Done?
      ensures ok ==> TwoGeoms(t.opt, old(rest)) == Done((t1, t2), rest)
      ensures ok ==> g1 == EmitGeom(t, t1, old(next)) && g2 == EmitGeom(t, t2, old(next) + |ArgsGeom(t, t1)|)
      ensures ok ==> Advanced(old(At()), At(), rest, ArgsGeom(t, t1) + ArgsGeom(t, t2))
    {
      hide Valid, ParseGeom, EmitGeom, ArgsGeom, Expect, Size;
      g1, g2, t1, t2 := [], [], GeomProp(""), GeomProp("");
      ok := Accept(TLParen);
      if !ok { return; }
      ghost var c0 := At();
      ok, g1 := ParseGeomExpr();
      if !ok { return; }
      t1 := ParseGeom(t.opt, c0.rest).val;
      ghost var c1 := At();
      ok := Accept(TComma);
      if !ok { return; }
      ghost var c2 := At();
      ok, g2 := ParseGeomExpr();
      if !ok { return; }
      t2 := ParseGeom(t.opt, c2.rest).val;
      TwoAdvances(old(At()), c2, At(), ArgsGeom(t, t1), ArgsGeom(t, t2));
    }

    method ParseSpatial() returns (ok: bool, out: seq<Lexeme>)
      requires Valid() && cur.typ == TSpatialOp
      modifies this, l
      ensures Valid()
      ensures PredStep(t, ParsePred(t.opt, old(rest)), old(At()), At(), ok, out)
    {
      hide Lex, Canonical, AllCanonical, TwoGeoms, ParseGeom, EmitGeom, ArgsGeom, StFunction, ParseComparison;
      var op := cur.raw;
      Bump();
      var g1, g2;
      ghost var t1, t2;
      ok, g1, g2, t1, t2 := ParseTwoGeoms();
      out := [];
      if !ok { return; }
      ok := Accept(TRParen);
      out := [Word(StFunction(op)), LP] + g1 + [Comma] + g2 + [RP];
    }

    method ParseDWithin() returns (ok: bool, out: seq<Lexeme>)
      requires Valid() && cur.typ == TDWithin
      modifies this, l
      ensures Valid()
      ensures PredStep(t, ParsePred(t.opt, old(rest)), old(At()), At(), ok, out)
    {
      hide Lex, Canonical, AllCanonical, TwoGeoms, ParseGeom, EmitGeom, ArgsGeom, ParseComparison, Size;
      Bump();
      var g1, g2;
      ghost var t1, t2;
      ok, g1, g2, t1, t2 := ParseTwoGeoms();
      out := [];
      if !ok { return; }
      ok := Accept(TComma);
      if !ok { return; }
      ghost var c1 := At();
      var ph;
      ok, ph := ParseDistance();
      if !ok { return; }
      DWithinStep(t, old(rest), t1, t2, old(At()), c1, At());
      out := [Word("ST_DWithin"), LP] + g1 + [Comma] + g2 + [Comma] + (ph + [RP]);
    }

    /** `number )` at the end of a distance predicate. */
    method ParseDistance() returns (ok: bool, ph: seq<Lexeme>)
      requires Valid()
      modifies this, l
      ensures Valid()
      ensures ok == (Expect(TNumber, old(rest)).Done? && ValidNumber(t.opt, old(rest).head.raw) &&
                     Expect(TRParen, old(rest).tail).Done?)
      ensures ok ==> ph == [Param(old(next))]
      ensures ok ==> Advanced(old(At()), At(), old(rest).tail.tail, [NumberArg(t.opt, old(rest).head.raw)])
    {
      hide Lex, Canonical, AllCanonical;
      if cur.typ != TNumber || t.opt.parseFloat(cur.raw).None? { return false, []; }
      ph := AddArg(NumArg(t.opt.parseFloat(cur.raw).value));
      Bump();
      ok := Accept(TRParen);
    }

    method ParseComparisonPred() returns (ok: bool, out: seq<Lexeme>)
      requires Valid() && cur.typ != TSpatialOp && cur.typ != TDWithin
      modifies this, l
      ensures Valid()
      ensures PredStep(t, ParseComparison(t.opt, old(rest)), old(At()), At(), ok, out)
      decreases Size(rest), 4
    {
      hide Lex, Canonical, AllCanonical, ParseScalar, ScalarTail, ParseScalarPrimary, EmitScalar, ArgsScalar,
        ComparisonTail, EmitPred, ArgsPred;
      if cur.typ == TIdent {
        ok, out := ParsePropertyLed();
        return;
      }
      var left;
      ok, left := ParseScalarExpr(0);
      out := [];
      if !ok { return; }
      ghost var s := ParseScalar(t.opt, 0, old(rest)).val;
      ok, out := ParseComparisonTail(old(At()), s, left);
    }

    /** A predicate that starts with a property name. */
    method ParsePropertyLed() returns (ok: bool, out: seq<Lexeme>)
      requires Valid() && cur.typ == TIdent
      modifies this, l
      ensures Valid()
      ensures PredStep(t, ParseComparison(t.opt, old(rest)), old(At()), At(), ok, out)
      decreases Size(rest), 3
    {
      hide Lex, Canonical, AllCanonical, ComparisonTail, KeywordTail, IsNullTail, EmitPred, ArgsPred, ParseScalar;
      var prop := cur.raw;
      out := [];
      if prop !in t.opt.allowed { return false, []; }
      Bump();
      var negated := false;
      ghost var neg: Option<string> := None;
      if cur.typ == TNot && (peek.typ == TLike || peek.typ == TILike || peek.typ == TIn) {
        negated := true;
        neg := Some(cur.raw);
        Bump();
      }
      if cur.typ == TLike || cur.typ == TILike {
        ok, out := ParseLike(prop, negated, neg);
      } else if cur.typ == TIs {
        ok, out := ParseIsNull(prop);
      } else if cur.typ == TIn {
        ok, out := ParseIn(prop, negated, neg);
      } else {
        assert Advanced(old(At()), At(), rest, []) by { assert old(args) + [] == old(args); }
        ok, out := ParseComparisonTail(old(At()), Prop(prop), [Quoted(prop)]);
      }
    }

    method ParseLike(prop: string, negated: bool, ghost neg: Option<string>) returns (ok: bool, out: seq<Lexeme>)
      requires Valid() && cur.typ in {TLike, TILike} && negated == neg.Some?
      modifies this, l
      ensures Valid()
      ensures PredStep(t, KeywordTail(t.opt, prop, neg, old(rest)), old(At()), At(), ok, out)
    {
      hide Lex, Canonical, AllCanonical, ParseItems, ParseScalar, ScalarTail, ParseScalarPrimary, EmitScalar,
        ArgsScalar;
      var insensitive := cur.typ == TILike;
      Bump();
      if cur.typ != TString { return false, []; }
      var ph := AddArg(TextArg(cur.raw));
      Bump();
      ok := true;
      var op := if insensitive then "ILIKE" else "LIKE";
      if negated {
        out := [Quoted(prop), Sp, Word("NOT"), Sp, Word(op), Sp] + ph;
      } else {
        out := [Quoted(prop), Sp, Word(op), Sp] + ph;
      }
    }

    method ParseIsNull(prop: string) returns (ok: bool, out: seq<Lexeme>)
      requires Valid() && cur.typ == TIs
      modifies this, l
      ensures Valid()
      ensures PredStep(t, IsNullTail(prop, old(rest)), old(At()), At(), ok, out)
    {
      hide Lex, Canonical, AllCanonical, ParseScalar, ScalarTail, ParseScalarPrimary, EmitScalar, ArgsScalar;
      assert args + [] == args;
      Bump();
      var negated := false;
      if cur.typ == TNot {
        negated := true;
        Bump();
      }
      if cur.typ != TNull { return false, []; }
      Bump();
      ok := true;
      if negated {
        out := [Quoted(prop), Sp, Word("IS"), Sp, Word("NOT"), Sp, Word("NULL")];
      } else {
        out := [Quoted(prop), Sp, Word("IS"), Sp, Word("NULL")];
      }
    }

    method ParseIn(prop: string, negated: bool, ghost neg: Option<string>) returns (ok: bool, out: seq<Lexeme>)
      requires Valid() && cur.typ == TIn && negated == neg.Some?
      modifies this, l
      ensures Valid()
      ensures PredStep(t, KeywordTail(t.opt, prop, neg, old(rest)), old(At()), At(), ok, out)
    {
      hide Lex, Canonical, AllCanonical, ParseItems, EmitItems, ArgsItems, ParseScalar, ScalarTail,
        ParseScalarPrimary, EmitScalar, ArgsScalar, Size;
      Bump();
      out := [];
      ok := Accept(TLParen);
      if !ok { return; }
      var list;
      ok, list := ParseInItems();
      if !ok { return; }
      ok := Accept(TRParen);
      if negated {
        out := [Quoted(prop), Sp] + [Word("NOT"), Sp] + [Word("IN"), Sp, LP] + list + [RP];
      } else {
        out := [Quoted(prop), Sp] + [] + [Word("IN"), Sp, LP] + list + [RP];
      }
    }

    /** The literals of an IN list, joined as they are read. */
    method ParseInItems() returns (ok: bool, list: seq<Lexeme>)
      requires Valid()
      modifies this, l
      ensures Valid()
      ensures ok == ParseItems(t.opt, old(rest)).Done?
      ensures ok ==> list == EmitItems(t.dialect, ParseItems(t.opt, old(rest)).val, old(next))
      ensures ok ==> Advanced(old(At()), At(), ParseItems(t.opt, old(rest)).rest,
                              ArgsItems(t.opt, ParseItems(t.opt, old(rest)).val))
    {
      hide Lex, Canonical, AllCanonical, ParseItems, EmitItems, ArgsItems, Append, ItemArg;
      list := [];
      ghost var read := End;
      NoItems(t, old(next), ParseItems(t.opt, rest));
      assert args + [] == args;
      var more := true;
      while more
        invariant Valid()
        invariant list == EmitItems(t.dialect, read, old(next)) && (read.End? <==> list == [])
        invariant Advanced(old(At()), At(), rest, ArgsItems(t.opt, read))
        invariant more ==> ParseItems(t.opt, old(rest)) == Continued(read, ParseItems(t.opt, rest))
        invariant !more ==> ParseItems(t.opt, old(rest)) == Done(read, rest)
        decreases Size(rest)
      {
        ghost var here := At();
        var ok', ph := ParseItem();
        if !ok' {
          BadItem(t.opt, here.rest);
          return false, [];
        }
        ghost var tok := here.rest.head;
        assert Size(rest) < Size(here.rest);
        list := if list == [] then ph else list + [Comma] + ph;
        ItemsSnoc'(t, read, tok, old(next));
        TwoAdvances(old(At()), here, At(), ArgsItems(t.opt, read), [ItemArg(t.opt, tok)]);
        ItemsAfterSnoc(t.opt, read, here.rest);
        read := Append(read, Cons(tok, End));
        more := cur.typ == TComma;
        if more {
          Bump();
        }
      }
      return true, list;
    }

    /** One literal of an IN list. */
    method ParseItem() returns (ok: bool, ph: seq<Lexeme>)
      requires Valid()
      modifies this, l
      ensures Valid()
      ensures ok == (old(rest).Cons? && ValidItem(t.opt, old(rest).head))
      ensures ok ==> ph == [Param(old(next))]
      ensures ok ==> Advanced(old(At()), At(), old(rest).tail, [ItemArg(t.opt, old(rest).head)])
    {
      hide Lex, Canonical, AllCanonical;
      if cur.typ == TString {
        ph := AddArg(TextArg(cur.raw));
      } else if cur.typ == TNumber {
        if t.opt.parseFloat(cur.raw).None? { return false, []; }
        ph := AddArg(NumArg(t.opt.parseFloat(cur.raw).value));
      } else {
        return false, [];
      }
      Bump();
      ok := true;
    }

    /** [NOT] BETWEEN or a comparison after the left side `s`, already written as `left`. */
    method ParseComparisonTail(ghost start: Cursor, ghost s: Scalar, left: seq<Lexeme>)
        returns (ok: bool, out: seq<Lexeme>)
      requires Valid()
      requires left == EmitScalar(t, s, start.next) && Advanced(start, At(), rest, ArgsScalar(t.opt, s))
      modifies this, l
      ensures Valid()
      ensures PredStep(t, ComparisonTail(t.opt, s, old(rest)), start, At(), ok, out)
      decreases Size(rest), 1
    {
      hide Lex, AllCanonical, BetweenTail, ParseScalar, ScalarTail, ParseScalarPrimary,
        EmitScalar, ArgsScalar, EmitPred, ArgsPred, Canonical, Fixed;
      ghost var ts := rest;
      if cur.typ == TNot && peek.typ == TBetween {
        ghost var neg := Some(cur.raw);
        Bump();
        ok, out := ParseBetween(start, s, left, true, neg);
      } else if cur.typ == TBetween {
        ok, out := ParseBetween(start, s, left, false, None);
      } else if IsComparison(cur.typ) {
        var op := cur.raw;
        HeadSpelling(rest);
        Bump();
        ghost var c1 := At();
        var right;
        ok, right := ParseScalarExpr(0);
        CompareStep(t, s, ts, start, c1, At(), ok, left, right);
        out := if ok then left + [Sp, Op(op), Sp] + right else [];
      } else {
        return false, [];
      }
    }

    method ParseBetween(ghost start: Cursor, ghost s: Scalar, left: seq<Lexeme>, negated: bool,
        ghost neg: Option<string>)
      returns (ok: bool, out: seq<Lexeme>)
      requires Valid() && cur.typ == TBetween && negated == neg.Some?
      requires left == EmitScalar(t, s, start.next) && Advanced(start, At(), rest, ArgsScalar(t.opt, s))
      modifies this, l
      ensures Valid()
      ensures PredStep(t, BetweenTail(t.opt, s, neg, old(rest)), start, At(), ok, out)
      decreases Size(rest), 0
    {
      hide Lex, Canonical, AllCanonical, ParseScalar, ScalarTail, ParseScalarPrimary,
        EmitScalar, ArgsScalar, EmitPred, ArgsPred, Size;
      out := [];
      ghost var ts := rest;
      Bump();
      ghost var c1 := At();
      var a, b;
      ok, a := ParseScalarExpr(0);
      if !ok { return; }
      ghost var d1 := At();
      if cur.typ != TAnd { return false, []; }
      Bump();
      ghost var c2 := At();
      ok, b := ParseScalarExpr(0);
      BetweenStep(t, s, neg, ts, start, c1, d1, c2, At(), ok, left, a, b);
      if !ok { return; }
      if negated {
        out := left + [Sp] + [Word("NOT"), Sp] + [Word("BETWEEN"), Sp] + a + [Sp, Word("AND"), Sp] + b;
      } else {
        out := left + [Sp] + [] + [Word("BETWEEN"), Sp] + a + [Sp, Word("AND"), Sp] + b;
      }
    }

    // -------------------------------------------------------------- scalars

    method ParseScalarExpr(min: nat) returns (ok: bool, out: seq<Lexeme>)
      requires Valid()
      modifies this, l
      ensures Valid()
      ensures ScalarStep(t, ParseScalar(t.opt, min, old(rest)), old(At()), At(), ok, out)
      decreases Size(rest), 2
    {
      hide Lex, Canonical, AllCanonical, ParseScalar, ScalarTail, ParseScalarPrimary, EmitScalar, ArgsScalar, Fixed;
      ScalarStart(t.opt, min, rest);
      ok, out := ParseScalarAtom();
      if !ok { return; }
      ghost var left := ParseScalarPrimary(t.opt, old(rest)).val;
      while IsArith(cur.typ) && Precedence(cur.typ) >= min
        invariant Valid()
        invariant ParseScalar(t.opt, min, old(rest)) == ScalarTail(t.opt, min, left, rest)
        invariant out == EmitScalar(t, left, old(next)) && Advanced(old(At()), At(), rest, ArgsScalar(t.opt, left))
        invariant Size(rest) < Size(old(rest))
        decreases Size(rest)
      {
        ghost var here := At();
        ScalarTailStep(t.opt, min, left, rest);
        var op, prec := cur.raw, Precedence(cur.typ);
        HeadSpelling(rest);
        Bump();
        var ok', right := ParseScalarExpr(prec + 1);
        if !ok' { return false, []; }
        ghost var r := ParseScalar(t.opt, prec + 1, here.rest.tail).val;
        ArithStep(t, left, here.rest.head.typ, r, old(At()), here.(rest := here.rest.tail), At(), out, right);
        left := Arith(left, here.rest.head.typ, r);
        out := [LP] + out + [Sp, Op(op), Sp] + right + [RP];
      }
      ScalarTailStep(t.opt, min, left, rest);
    }

    method ParseGroup() returns (ok: bool, out: seq<Lexeme>)
      requires Valid() && cur.typ == TLParen
      modifies this, l
      ensures Valid()
      ensures ScalarStep(t, ParseScalarPrimary(t.opt, old(rest)), old(At()), At(), ok, out)
      decreases Size(rest), 0
    {
      hide Lex, Canonical, AllCanonical, ScalarTail, ParseScalar, EmitInstant;
      Bump();
      ok, out := ParseScalarExpr(0);
      if !ok { return; }
      ok := Accept(TRParen);
      out := [LP] + out + [RP];
    }

    method ParseScalarAtom() returns (ok: bool, out: seq<Lexeme>)
      requires Valid()
      modifies this, l
      ensures Valid()
      ensures ScalarStep(t, ParseScalarPrimary(t.opt, old(rest)), old(At()), At(), ok, out)
      decreases Size(rest), 1
    {
      hide Lex, Canonical, AllCanonical, ScalarTail, ParseScalar, EmitInstant, Size;
      assert args + [] == args;
      match cur.typ {
        case TLParen =>
          ok, out := ParseGroup();
        case TIdent =>
          if cur.raw !in t.opt.allowed { return false, []; }
          out := [Quoted(cur.raw)];
          Bump();
          ok := true;
        case TString =>
          out := AddArg(TextArg(cur.raw));
          Bump();
          ok := true;
        case TNumber =>
          if t.opt.parseFloat(cur.raw).None? { return false, []; }
          out := AddArg(NumArg(t.opt.parseFloat(cur.raw).value));
          Bump();
          ok := true;
        case TBool =>
          out := [Word(cur.raw)];
          Bump();
          ok := true;
        case TTemporal =>
          ok, out := ParseTemporal();
        case _ =>
          return false, [];
      }
    }

    /** NOW() */
    method ParseNow() returns (ok: bool, out: seq<Lexeme>)
      requires Valid() && cur.typ == TTemporal && IsNow(cur.raw) && peek.typ == TLParen
      modifies this, l
      ensures Valid()
      ensures ScalarStep(t, ParseScalarPrimary(t.opt, old(rest)), old(At()), At(), ok, out)
    {
      hide Lex, Canonical, AllCanonical, ScalarTail, ParseScalar, IsNow, Size, EmitInstant;
      assert args + [] == args;
      Bump();
      Bump();
      ok := Accept(TRParen);
      out := [Word("NOW"), LP, RP];
    }

    method ParseTemporal() returns (ok: bool, out: seq<Lexeme>)
      requires Valid() && cur.typ == TTemporal
      modifies this, l
      ensures Valid()
      ensures ScalarStep(t, ParseScalarPrimary(t.opt, old(rest)), old(At()), At(), ok, out)
    {
      hide Lex, Canonical, AllCanonical, ScalarTail, ParseScalar, LooksLikeDate, IsNow, Has, Size;
      var val := cur.raw;
      if IsNow(val) && peek.typ == TLParen {
        ok, out := ParseNow();
        return;
      }
      var ph := AddArg(TextArg(val));
      Bump();
      ok := true;
      if (Has(val, 'Z') || Has(val, '+'))
        || (Has(val, 'T') && Has(val, ':') && (Has(val, 'Z') || Has(val, '+') || Has(val, '-'))) {
        out := ph + [Op("::"), Word("timestamptz")];
      } else {
        out := ph + [Op("::"), Word("timestamp")];
      }
    }

    // -------------------------------------------------------------- geometries

    method ParseGeomProperty() returns (ok: bool, out: seq<Lexeme>)
      requires Valid() && cur.typ == TIdent
      modifies this, l
      ensures Valid()
      ensures GeomStep(t, ParseGeom(t.opt, old(rest)), old(At()), At(), ok, out)
    {
      hide Lex, Canonical, AllCanonical, ParseEnvelope, ScanBody, Size;
      assert args + [] == args;
      out := [Quoted(cur.raw)];
      ok := cur.raw == t.opt.geometry;
      if ok {
        Bump();
      }
    }

    method ParseGeomExpr() returns (ok: bool, out: seq<Lexeme>)
      requires Valid()
      modifies this, l
      ensures Valid()
      ensures GeomStep(t, ParseGeom(t.opt, old(rest)), old(At()), At(), ok, out)
    {
      hide Lex, Canonical, AllCanonical, EmitGeom, ArgsGeom, WktText, Itoa, ParseEnvelope, ScanBody, Size;
      if cur.typ == TIdent {
        ok, out := ParseGeomProperty();
        return;
      }
      var wkt;
      ok, wkt := ParseGeomLiteral();
      out := [];
      if !ok { return; }
      ghost var c1 := At();
      var ph := AddArg(TextArg("SRID=" + Itoa(t.opt.filterSRID) + ";" + wkt));
      LiteralStep(t, ParseGeom(t.opt, old(rest)), old(At()), c1, At(), wkt);
      out := ph + [Op("::"), Word("geometry")];
      if t.opt.sourceSRID != 0 && t.opt.sourceSRID != t.opt.filterSRID {
        out := [Word("ST_Transform"), LP] + out + [Comma, Int(t.opt.sourceSRID), RP];
      }
    }

    method ParseGeomLiteral() returns (ok: bool, wkt: string)
      requires Valid() && cur.typ != TIdent
      modifies this, l
      ensures Valid()
      ensures WktStep(t.opt, ParseGeom(t.opt, old(rest)), old(At()), At(), ok, wkt)
    {
      hide Lex, Canonical, AllCanonical, ParseEnvelope, ScanBody, EnvelopeWkt, WktBody;
      if cur.typ == TEnvelope {
        ok, wkt := ParseEnvelopeLiteral();
      } else if IsWktKind(cur.typ) {
        var kw := cur.raw;
        HeadSpelling(rest);
        Bump();
        if cur.typ != TLParen { return false, ""; }
        var body;
        ok, body := ParseWktBody();
        wkt := kw + body;
      } else {
        return false, "";
      }
    }

    /** The tokens from '(' to its match, joined; a space separates adjacent numbers. */
    method ParseWktBody() returns (ok: bool, text: string)
      requires Valid() && cur.typ == TLParen
      modifies this, l
      ensures Valid()
      ensures ok == ScanBody(0, old(rest)).Done?
      ensures ok ==> text == WktBody(ScanBody(0, old(rest)).val, false)
      ensures ok ==> At() == Cursor(ScanBody(0, old(rest)).rest, old(args), old(next))
    {
      hide Lex, Canonical, AllCanonical, ScanBody, WktBody, Append;
      text := "";
      var depth := 0;
      var prevNum := false;
      ghost var read := End;
      NothingRead(ScanBody(0, rest));
      while true
        invariant Valid() && rest.Cons?
        invariant At() == Cursor(rest, old(args), old(next))
        invariant text == WktBody(read, false) && prevNum == LastIsNumber(read)
        invariant ScanBody(0, old(rest)) == Continued(read, ScanBody(depth, rest))
        decreases Size(rest)
      {
        ghost var here := rest;
        if cur.typ == TLParen {
          depth := depth + 1;
        } else if cur.typ == TRParen {
          depth := depth - 1;
        }
        if prevNum && cur.typ == TNumber {
          text := text + " ";
        }
        text := text + cur.raw;
        prevNum := cur.typ == TNumber;
        WktSnoc(read, cur);
        BodyAfterSnoc(read, here, depth);
        read := Append(read, Cons(cur, End));
        assert text == WktBody(read, false);
        Bump();
        if depth == 0 {
          return true, text;
        }
        HeadEof(rest);
        if cur.typ == TEof {
          return false, "";
        }
      }
    }

    /** ENVELOPE(xmin,ymin,xmax,ymax); the source's loop of four is written out. */
    method ParseEnvelopeLiteral() returns (ok: bool, wkt: string)
      requires Valid() && cur.typ == TEnvelope
      modifies this, l
      ensures Valid()
      ensures WktStep(t.opt, ParseGeom(t.opt, old(rest)), old(At()), At(), ok, wkt)
    {
      hide Lex, Canonical, AllCanonical, ScanBody, EnvelopeWkt, Size;
      wkt := "";
      Bump();
      ok := Accept(TLParen);
      if !ok { return; }
      var a, b, c, d;
      ok, a := ParseCoordinate(TComma);
      if !ok { return; }
      ok, b := ParseCoordinate(TComma);
      if !ok { return; }
      ok, c := ParseCoordinate(TComma);
      if !ok { return; }
      ok, d := ParseCoordinate(TRParen);
      if !ok { return; }
      if t.opt.parseFloat(a).None? || t.opt.parseFloat(c).None? { return false, ""; }
      wkt := EnvelopeWkt(t.opt, a, b, c, d);
    }

    method ParseCoordinate(punct: Typ) returns (ok: bool, raw: string)
      requires Valid() && punct != TEof
      modifies this, l
      ensures Valid()
      ensures ok == (Expect(TNumber, old(rest)).Done? && Expect(punct, Expect(TNumber, old(rest)).rest).Done?)
      ensures ok ==> raw == Expect(TNumber, old(rest)).val
      ensures ok ==> At() == Cursor(Expect(punct, Expect(TNumber, old(rest)).rest).rest, old(args), old(next))
    {
      hide Lex, Canonical, AllCanonical;
      raw := cur.raw;
      if cur.typ != TNumber { return false, ""; }
      Bump();
      ok := Accept(punct);
    }
  }

  /** Compile: the whole filter, or a rejection. */
  method Compile(cql: string, options: RawOptions) returns (r: Compiled)
    ensures r == CompileFilter(TargetOf(PostGIS, options), StartIndex(options), cql)
  {
    hide Lex, IsBlank, ParseOr, Emit, Args, AllCanonical, Size;
    var p := new Parser(cql, options);
    if IsBlank(cql) {
      return Accepted([], [], p.next);
    }
    var ok, sql := p.ParseOrExpr();
    HeadEof(p.rest);
    if !ok || p.cur.typ != TEof {
      return Rejected;
    }
    assert [] + p.args == p.args;
    return Accepted(sql, p.args, p.next);
  }
}
