/** Runs of characters and quoted texts, as the lexers of both languages scan them. */
module Scanning {
  import opened Lexing
  import opened SqlText

  /** A run of p-characters that the following text does not continue ends where it was written. */
  lemma {:induction false} RunStops(s: string, i: nat, j: nat, p: char -> bool)
    requires i <= j <= |s|
    requires forall k :: i <= k < j ==> p(s[k])
    requires j == |s| || !p(s[j])
    ensures RunEnd(s, i, p) == j
    decreases j - i
  {
    if i < j {
      RunStops(s, i + 1, j, p);
    }
  }

  /** Quoting by doubling is undone by the lexer, wherever the quoted text stands. */
  lemma {:induction false} QuotedBodyReads(all: string, i: nat, s: string, q: char, rest: string)
    requires i <= |all| && all[i..] == Doubled(s, q) + [q] + rest
    requires rest == "" || rest[0] != q
    ensures QuotedBody(all, i, q) == Closed(s, i + |Doubled(s, q)| + 1)
    decreases |s|
  {
    if s == "" {
      assert all[i] == all[i..][0] == q;
      assert i + 1 < |all| ==> all[i + 1] == all[i..][1] == rest[0];
    } else {
      var step := if s[0] == q then 2 else 1;
      assert all[i + step..] == all[i..][step..] == Doubled(s[1..], q) + [q] + rest;
      QuotedBodyReads(all, i + step, s[1..], q, rest);
      assert all[i] == all[i..][0] == s[0];
      assert s[0] == q ==> all[i + 1] == all[i..][1] == q;
      assert s == [s[0]] + s[1..];
    }
  }

  lemma {:induction false} QuotedFirst(s: string, q: char, rest: string)
    requires rest == "" || rest[0] != q
    ensures QuotedBody(Quote(s, q) + rest, 1, q) == Closed(s, |Quote(s, q)|)
  {
    var all := Quote(s, q) + rest;
    assert all[1..] == Doubled(s, q) + [q] + rest;
    QuotedBodyReads(all, 1, s, q, rest);
  }
}
