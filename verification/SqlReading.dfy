/** How a database reads SQL text: lexical analysis of a byte string and a precedence grammar,
    OR < AND < NOT < IS < comparison < BETWEEN, IN, LIKE < + - < * / < casts. */
module SqlReading {

  // ---------------------------------------------------------------- tokens

  datatype SqlTok =
    | SLp | SRp | SComma
    | SOr | SAnd | SNot | SIs | SNull | SBetween | SIn | SLike | SILike | SAs | SCast
    | SCmp(op: string) | SAdd(op: string) | SMul(op: string) | SColons | SAssign | SDot
    | SName(word: string) | SIdent(name: string) | SStr(text: string) | SInt(value: nat) | SParam(index: nat)
    | SBad

  datatype Toks = Nil | Tok(head: SqlTok, tail: Toks)

  function Len(ts: Toks): nat { if ts.Tok? then 1 + Len(ts.tail) else 0 }

  function WordTok(w: string): SqlTok {
    if w == "OR" then SOr else if w == "AND" then SAnd else if w == "NOT" then SNot
    else if w == "IS" then SIs else if w == "NULL" then SNull else if w == "BETWEEN" then SBetween
    else if w == "IN" then SIn else if w == "LIKE" then SLike else if w == "ILIKE" then SILike
    else if w == "AS" then SAs else if w == "CAST" then SCast else SName(w)
  }

  function OpTok(op: string): SqlTok {
    if op == "=" || op == "<>" || op == "<" || op == ">" || op == "<=" || op == ">=" then SCmp(op)
    else if op == "+" || op == "-" then SAdd(op)
    else if op == "*" || op == "/" then SMul(op)
    else if op == "::" then SColons else if op == ":=" then SAssign else if op == "." then SDot
    else SBad
  }

  // ---------------------------------------------------------------- expressions

  datatype Sql =
    | QOr(l: Sql, r: Sql) | QAnd(l: Sql, r: Sql) | QNot(e: Sql)
    | QCmp(op: string, l: Sql, r: Sql)
    | QArith(op: string, l: Sql, r: Sql)
    | QBetween(neg: bool, e: Sql, low: Sql, high: Sql)
    | QIn(neg: bool, e: Sql, items: SqlList)
    | QLike(neg: bool, ci: bool, e: Sql, pattern: Sql)
    | QIsNull(neg: bool, e: Sql)
    | QCol(qualifier: string, name: string)
    | QBind(index: nat) | QBool(b: bool) | QStr(text: string) | QInt(value: nat)
    | QCast(e: Sql, typ: string)
    | QCall(fn: string, items: SqlList)
    | QNamed(param: string, e: Sql)

  datatype SqlList = SqlNil | SqlCons(head: Sql, tail: SqlList)

  datatype Read<+T> = Bad | Got(val: T, rest: Toks) {
    predicate IsFailure() { Bad? }
    function PropagateFailure<U>(): Read<U> requires Bad? { Bad }
    function Extract(): (T, Toks) requires Got? { (val, rest) }
  }

  function Take(t: SqlTok, ts: Toks): (r: Read<SqlTok>)
    ensures r.Got? ==> ts == Tok(t, r.rest) && Len(r.rest) < Len(ts)
  {
    if ts.Tok? && ts.head == t then Got(t, ts.tail) else Bad
  }

  // ---------------------------------------------------------------- the precedence grammar

  function ReadExpr(min: nat, ts: Toks): (r: Read<Sql>)
    ensures r.Got? ==> Len(r.rest) < Len(ts)
    decreases Len(ts), 4
  {
    if ts.Tok? && ts.head == SNot && min <= 3 then
      var (e, rest) :- ReadExpr(3, ts.tail);
      Climb(min, QNot(e), rest)
    else
      var (e, rest) :- ReadPrimary(ts);
      Climb(min, e, rest)
  }

  /** Extends the operand l with the operators that follow it and bind at least as tightly as min. */
  function Climb(min: nat, l: Sql, ts: Toks): (r: Read<Sql>)
    ensures r.Got? ==> Len(r.rest) <= Len(ts)
    decreases Len(ts), 3
  {
    if ts.Nil? then Got(l, ts)
    else match ts.head
      case SOr =>
        if min > 1 then Got(l, ts) else
        var (r, rest) :- ReadExpr(2, ts.tail);
        Climb(min, QOr(l, r), rest)
      case SAnd =>
        if min > 2 then Got(l, ts) else
        var (r, rest) :- ReadExpr(3, ts.tail);
        Climb(min, QAnd(l, r), rest)
      case SIs =>
        if min > 4 then Got(l, ts) else
        assert Len(ts.tail) < Len(ts);
        var neg := ts.tail.Tok? && ts.tail.head == SNot;
        var (_, rest) :- Take(SNull, if neg then ts.tail.tail else ts.tail);
        Climb(min, QIsNull(neg, l), rest)
      case SCmp(op) =>
        if min > 5 then Got(l, ts) else
        var (r, rest) :- ReadExpr(6, ts.tail);
        Climb(min, QCmp(op, l, r), rest)
      case SNot =>
        if min > 6 then Got(l, ts) else
        var (e, rest) :- ReadTest(true, l, ts.tail);
        Climb(min, e, rest)
      case SBetween => if min > 6 then Got(l, ts) else var (e, rest) :- ReadTest(false, l, ts); Climb(min, e, rest)
      case SIn => if min > 6 then Got(l, ts) else var (e, rest) :- ReadTest(false, l, ts); Climb(min, e, rest)
      case SLike => if min > 6 then Got(l, ts) else var (e, rest) :- ReadTest(false, l, ts); Climb(min, e, rest)
      case SILike => if min > 6 then Got(l, ts) else var (e, rest) :- ReadTest(false, l, ts); Climb(min, e, rest)
      case SAdd(op) =>
        if min > 7 then Got(l, ts) else
        var (r, rest) :- ReadExpr(8, ts.tail);
        Climb(min, QArith(op, l, r), rest)
      case SMul(op) =>
        if min > 8 then Got(l, ts) else
        var (r, rest) :- ReadExpr(9, ts.tail);
        Climb(min, QArith(op, l, r), rest)
      case _ => Got(l, ts)
  }

  /** BETWEEN a AND b, IN (...), LIKE p or ILIKE p after the operand l. */
  function ReadTest(neg: bool, l: Sql, ts: Toks): (r: Read<Sql>)
    ensures r.Got? ==> Len(r.rest) < Len(ts)
    decreases Len(ts), 2
  {
    if ts.Nil? then Bad
    else match ts.head
      case SBetween =>
        var (a, r1) :- ReadExpr(7, ts.tail);
        var (_, r2) :- Take(SAnd, r1);
        var (b, r3) :- ReadExpr(7, r2);
        Got(QBetween(neg, l, a, b), r3)
      case SIn =>
        var (_, r1) :- Take(SLp, ts.tail);
        var (items, r2) :- ReadArgs(r1);
        Got(QIn(neg, l, items), r2)
      case SLike =>
        var (p, r1) :- ReadExpr(7, ts.tail);
        Got(QLike(neg, false, l, p), r1)
      case SILike =>
        var (p, r1) :- ReadExpr(7, ts.tail);
        Got(QLike(neg, true, l, p), r1)
      case _ => Bad
  }

  function ReadPrimary(ts: Toks): (r: Read<Sql>)
    ensures r.Got? ==> Len(r.rest) < Len(ts)
    decreases Len(ts), 1
  {
    if ts.Nil? then Bad
    else match ts.head
      case SLp =>
        var (e, r1) :- ReadExpr(1, ts.tail);
        var (_, r2) :- Take(SRp, r1);
        Postfix(e, r2)
      case SParam(n) => Postfix(QBind(n), ts.tail)
      case SIdent(name) => Postfix(QCol("", name), ts.tail)
      case SStr(text) => Postfix(QStr(text), ts.tail)
      case SInt(value) => Postfix(QInt(value), ts.tail)
      case SCast =>
        var (_, r1) :- Take(SLp, ts.tail);
        var (e, r2) :- ReadExpr(1, r1);
        var (_, r3) :- Take(SAs, r2);
        if r3.Tok? && r3.head.SName? then
          assert Len(r3.tail) < Len(r3);
          var (_, r4) :- Take(SRp, r3.tail);
          Postfix(QCast(e, r3.head.word), r4)
        else Bad
      case SName(w) =>
        if ts.tail.Tok? && ts.tail.head == SLp then
          var (items, r1) :- ReadArgs(ts.tail.tail);
          Postfix(QCall(w, items), r1)
        else if ts.tail.Tok? && ts.tail.head == SDot && ts.tail.tail.Tok? && ts.tail.tail.head.SIdent? then
          assert Len(ts.tail.tail) < Len(ts.tail) < Len(ts);
          Postfix(QCol(w, ts.tail.tail.head.name), ts.tail.tail.tail)
        else if w == "true" || w == "false" then Postfix(QBool(w == "true"), ts.tail)
        else Bad
      case _ => Bad
  }

  function Postfix(e: Sql, ts: Toks): (r: Read<Sql>)
    ensures r.Got? ==> Len(r.rest) <= Len(ts)
    decreases Len(ts), 0
  {
    if ts.Tok? && ts.head == SColons then
      assert Len(ts.tail) < Len(ts);
      if ts.tail.Tok? && ts.tail.head.SName? then Postfix(QCast(e, ts.tail.head.word), ts.tail.tail) else Bad
    else Got(e, ts)
  }

  /** Arguments up to and including the closing parenthesis. */
  function ReadArgs(ts: Toks): (r: Read<SqlList>)
    ensures r.Got? ==> Len(r.rest) < Len(ts)
    decreases Len(ts), 6
  {
    if ts.Tok? && ts.head == SRp then Got(SqlNil, ts.tail)
    else
      var (e, r1) :- ReadArg(ts);
      if r1.Tok? && r1.head == SComma then
        var (more, r2) :- ReadArgs(r1.tail);
        if more.SqlNil? then Bad else Got(SqlCons(e, more), r2)
      else
        var (_, r2) :- Take(SRp, r1);
        Got(SqlCons(e, SqlNil), r2)
  }

  function ReadArg(ts: Toks): (r: Read<Sql>)
    ensures r.Got? ==> Len(r.rest) < Len(ts)
    decreases Len(ts), 5
  {
    if ts.Tok? && ts.head.SName? && ts.tail.Tok? && ts.tail.head == SAssign then
      assert Len(ts.tail) < Len(ts);
      var (e, rest) :- ReadExpr(1, ts.tail.tail);
      Got(QNamed(ts.head.word, e), rest)
    else ReadExpr(1, ts)
  }
}
