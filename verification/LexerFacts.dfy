/** Facts about every token stream the lexer produces. */
module LexerFacts {
  import opened Base
  import opened Tokens
  import opened Lexing
  import opened Cql2Grammar

  /** Every token of the lexer is one the grammar knows how to spell. */
  lemma {:induction false} LexCanonical(s: string, i: nat)
    requires i <= |s|
    ensures AllCanonical(Lex(s, i))
    decreases |s| - i
  {
    var j := RunEnd(s, i, IsSpace);
    if j < |s| {
      TokenCanonical(s, j);
      LexCanonical(s, TokenAt(s, j).end);
    }
  }

  lemma {:induction false} TokenCanonical(s: string, i: nat)
    requires i < |s|
    ensures Canonical(TokenAt(s, i).tok)
  {
    if Operator(s, i).None? && IsAlpha(s[i]) {
      WordCanonical(s[i..RunEnd(s, i + 1, IsWordChar)]);
    }
  }

  lemma HeadSpelling(ts: Stream)
    requires AllCanonical(ts) && ts.Cons? && Spelling(ts.head.typ).Some?
    ensures ts.head == Fixed(ts.head.typ)
  {
  }

  lemma HeadEof(ts: Stream)
    requires AllCanonical(ts)
    ensures Head(ts).typ == TEof <==> ts.End?
  {
  }

  lemma {:induction false} WordCanonical(raw: string)
    ensures Canonical(WordToken(raw))
  {
    hide LooksLikeDate, LogicWord, GeometryWord, Upper, Lower, SpatialWords, Canonical;
    var up := Upper(raw);
    GeometrySpelling(up);
    OtherLower();
    if LogicWord(up).Some? {
      PlainCanonical(LogicWord(up).value, raw);
    } else if up == "TRUE" || up == "FALSE" || up == "NOW" {
      WordedCanonical();
    } else if up in SpatialWords {
      SpatialLower(up);
      SpatialCanonical(Lower(up));
    } else if up == "DWITHIN" || GeometryWord(up).Some? || up == "ENVELOPE" || up == "BBOX" {
      FixedCanonical(WordToken(raw));
    } else if LooksLikeDate(raw) {
      DateCanonical(raw);
    } else {
      PlainCanonical(TIdent, raw);
    }
  }

  lemma {:induction false} PlainCanonical(t: Typ, raw: string)
    requires t in {TAnd, TOr, TNot, TLike, TILike, TBetween, TIn, TIs, TNull, TIdent}
    ensures Canonical(Token(t, raw))
  {
  }

  lemma {:induction false} WordedCanonical()
    ensures Canonical(Token(TBool, "true")) && Canonical(Token(TBool, "false")) && Canonical(Token(TTemporal, "NOW"))
  {
  }

  lemma {:induction false} SpatialCanonical(raw: string)
    requires raw in SpatialNames
    ensures Canonical(Token(TSpatialOp, raw))
  {
  }

  lemma {:induction false} FixedCanonical(t: Token)
    requires Spelling(t.typ) == Some(t.raw)
    ensures Canonical(t)
  {
    hide LooksLikeDate;
  }

  lemma {:induction false} DateCanonical(raw: string)
    requires LooksLikeDate(raw)
    ensures Canonical(Token(TTemporal, raw))
  {
    hide LooksLikeDate;
  }

  lemma {:induction false} OtherLower()
    ensures Lower("TRUE") == "true" && Lower("FALSE") == "false" && Lower("DWITHIN") == "dwithin"
  {
  }

  lemma GeometrySpelling(up: string)
    ensures GeometryWord(up).Some? ==> Spelling(GeometryWord(up).value) == Some(up)
  {
  }

  lemma SpatialLower(up: string)
    requires up in SpatialWords
    ensures Lower(up) in SpatialNames
  {
    assert Lower("EQUALS") == "equals" && Lower("DISJOINT") == "disjoint" && Lower("TOUCHES") == "touches";
    assert Lower("WITHIN") == "within" && Lower("OVERLAPS") == "overlaps" && Lower("CROSSES") == "crosses";
    assert Lower("INTERSECTS") == "intersects" && Lower("CONTAINS") == "contains";
    assert Lower("S_INTERSECTS") == "s_intersects";
  }

  // ---------------------------------------------------------------- the tokens cover the input

  datatype Span = Span(start: nat, end: nat)

  /** Where each token of Lex(s, i) stands. */
  function Spans(s: string, i: nat): seq<Span>
    requires i <= |s|
    decreases |s| - i
  {
    var j := RunEnd(s, i, IsSpace);
    if j == |s| then [] else [Span(j, TokenAt(s, j).end)] + Spans(s, TokenAt(s, j).end)
  }

  /** Position p is inside the token of one of the spans. */
  predicate Covered(spans: seq<Span>, p: int) { exists k :: 0 <= k < |spans| && spans[k].start <= p < spans[k].end }

  /** Spans that are not empty, stand in order without overlap, and lie between two positions. */
  predicate Ordered(spans: seq<Span>, from: nat, to: nat) {
    && (forall k :: 0 <= k < |spans| ==> from <= spans[k].start < spans[k].end <= to)
    && (forall k, l :: 0 <= k < l < |spans| ==> spans[k].end <= spans[l].start)
  }

  lemma {:induction false} OneMoreSpan(first: Span, more: seq<Span>, from: nat, to: nat)
    requires from <= first.start < first.end <= to && Ordered(more, first.end, to)
    ensures Ordered([first] + more, from, to)
    ensures forall p :: Covered([first] + more, p) <==> first.start <= p < first.end || Covered(more, p)
  {
    var all := [first] + more;
    forall p ensures Covered(all, p) <==> first.start <= p < first.end || Covered(more, p) {
      if first.start <= p < first.end {
        assert all[0].start <= p < all[0].end;
      } else if Covered(more, p) {
        var k :| 0 <= k < |more| && more[k].start <= p < more[k].end;
        assert all[k + 1] == more[k];
      }
    }
  }

  /** The tokens' spans stand in order and leave out nothing but spaces. */
  lemma {:induction false} SpansPartition(s: string, i: nat)
    requires i <= |s|
    ensures |Spans(s, i)| == Size(Lex(s, i)) && Ordered(Spans(s, i), i, |s|)
    ensures forall p :: i <= p < |s| ==> IsSpace(s[p]) || Covered(Spans(s, i), p)
    decreases |s| - i
  {
    hide TokenAt, IsSpace, Ordered, Covered;
    var j := RunEnd(s, i, IsSpace);
    if j < |s| {
      var e := TokenAt(s, j).end;
      SpansPartition(s, e);
      OneMoreSpan(Span(j, e), Spans(s, e), i, |s|);
    } else {
      NoSpans(i, |s|);
    }
  }

  lemma {:induction false} NoSpans(from: nat, to: nat)
    ensures Ordered([], from, to)
  {
  }
}
