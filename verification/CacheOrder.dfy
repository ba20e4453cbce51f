/** What becomes of freshness when fills need not take their token before they read: the protocol of
    `CacheEpochs` with unrestricted direct fills, and exactly when it hands out a stale entry. */
module CacheOrder {
  import opened Base
  import opened CacheEpochs

  // ---------------------------------------------------------------- unrestricted fills

  /** A direct fill with a token taken at any time, before or after the read. */
  ghost predicate AnySet(s: State, s': State, kind: Kind, key: string, val: Val, token: Token) {
    token in s.tokens && 0 <= val.readAt <= s.now && Sets(s, s', kind, key, val, token)
  }

  ghost predicate AnyNext(s: State, s': State) {
    Next(s, s') || exists kind, key, val, token :: AnySet(s, s', kind, key, val, token)
  }

  ghost predicate AnyRun(tr: seq<State>) {
    |tr| > 0 && Init(tr[0]) && forall i :: 0 <= i < |tr| - 1 ==> AnyNext(tr[i], tr[i + 1])
  }

  // ---------------------------------------------------------------- what still holds

  /** An entry was stored under a token of its own tag, whenever it was read. */
  ghost predicate Placed(s: State, e: Entry) {
    Token(TagOf(e.kind, e.key), e.epoch, e.issuedAt) in s.tokens && e.val.readAt >= 0
  }

  ghost predicate CallPlaced(s: State, call: Call) {
    match call.phase
    case Tokened(token) => token in s.tokens && token.tag == TagOf(call.kind, call.key)
    case Seen(token, _) => token in s.tokens && token.tag == TagOf(call.kind, call.key)
    case Missed(token) => token in s.tokens && token.tag == TagOf(call.kind, call.key)
    case _ => true
  }

  ghost predicate FlightPlaced(s: State, f: Flight) {
    && f.token in s.tokens && f.token.tag == TagOf(f.kind, f.key)
    && (f.stage.Loading? ==> f.stage.since >= 0) && (f.stage.Loaded? ==> f.stage.val.readAt >= 0)
  }

  ghost predicate Book(s: State) {
    EpochsOk(s) && EpochsFresh(s) && TokensOk(s) && s.now >= 0 && forall t :: t in s.tokens ==> t.issuedAt >= 0
  }

  ghost predicate Holds(s: State) {
    && Book(s)
    && (forall e :: e in s.store ==> Placed(s, e))
    && (forall c :: c in s.calls ==> CallPlaced(s, s.calls[c]))
    && (forall f :: f in s.flights ==> FlightPlaced(s, s.flights[f]))
  }

  /** The epochs' own book is untouched. */
  lemma {:induction false} SameBook(s: State, s': State)
    requires Book(s) && s.now <= s'.now && s.generation <= s'.generation
    requires s'.epochs == s.epochs && s'.live == s.live && s'.lastDone == s.lastDone && s'.tokens == s.tokens
    ensures Book(s')
  {
    SameEpochs(s, s');
  }

  /** Tokens only grow, and nothing else but the book changes. */
  lemma {:induction false} BookHolds(s: State, s': State)
    requires Holds(s) && Book(s') && s.tokens <= s'.tokens
    requires s'.store == s.store && s'.calls == s.calls && s'.flights == s.flights
    ensures Holds(s')
  {
    hide TagOf, Book;
  }

  lemma {:induction false} LocksHold(s: State, s': State)
    requires Holds(s) && Locks(s, s')
    ensures Holds(s')
  {
    hide TagOf, Book, Invalidate, Release;
    if tag :| Invalidate(s, s', tag) {
      InvalidateBook(s, s', tag);
    } else if Release(s, s') {
      ReleaseBook(s, s');
    } else {
      SameBook(s, s');
    }
    BookHolds(s, s');
  }

  lemma {:induction false} InvalidateBook(s: State, s': State, tag: Tag)
    requires Book(s) && Invalidate(s, s', tag)
    ensures Book(s') && s'.tokens == s.tokens && s'.store == s.store && s'.calls == s.calls && s'.flights == s.flights
  {
  }

  lemma {:induction false} ReleaseBook(s: State, s': State)
    requires Book(s) && Release(s, s')
    ensures Book(s') && s'.tokens == s.tokens && s'.store == s.store && s'.calls == s.calls && s'.flights == s.flights
  {
  }

  lemma {:induction false} BeginsHold(s: State, s': State, tag: Tag, token: Token)
    requires Holds(s) && Begins(s, s', tag, token)
    ensures Holds(s') && token in s'.tokens
  {
    hide TagOf;
    if tag !in s.live {
      NewEpoch(s, s', tag);
    }
  }

  /** Calls and flights depend on the tokens alone. */
  lemma {:induction false} SameTokens(s: State, s': State)
    requires s'.tokens == s.tokens && s'.calls == s.calls && s'.flights == s.flights && Holds(s)
    ensures forall c :: c in s'.calls ==> CallPlaced(s', s'.calls[c])
    ensures forall f :: f in s'.flights ==> FlightPlaced(s', s'.flights[f])
  {
    hide TagOf, Book;
  }

  lemma {:induction false} SetsHold(s: State, s': State, kind: Kind, key: string, val: Val, token: Token)
    requires Holds(s) && Sets(s, s', kind, key, val, token) && token in s.tokens && val.readAt >= 0
    ensures Holds(s')
  {
    hide TagOf, Book, CallPlaced, FlightPlaced;
    SameBook(s, s');
    SameTokens(s, s');
    assert Token(token.tag, token.epoch, token.issuedAt) == token;
    forall e | e in s'.store ensures Placed(s', e) {
      assert e in s.store || e == Entry(kind, key, token.epoch, token.issuedAt, val);
    }
  }

  lemma {:induction false} CallHolds(s: State, s': State, c: nat, call: Call)
    requires Holds(s) && s' == s.(now := s'.now, calls := s.calls[c := call]) && s.now <= s'.now && CallPlaced(s, call)
    ensures Holds(s')
  {
    hide TagOf, Book;
    SameBook(s, s');
  }

  lemma {:induction false} TakeTokenHolds(s: State, s': State, c: nat, mid: State, token: Token)
    requires Holds(s) && TakeToken(s, s', c, mid, token)
    ensures Holds(s')
  {
    hide TagOf, Book, Begins;
    var tag := TagOf(s.calls[c].kind, s.calls[c].key);
    BeginsHold(s, mid, tag, token);
    BeginsKeepsCalls(s, mid, tag, token);
    CallHolds(mid, s', c, s.calls[c].(phase := Tokened(token)));
  }

  lemma {:induction false} FlyHolds(s: State, s': State, c: nat, f: nat, coalescing: bool)
    requires Holds(s) && Fly(s, s', c, f, coalescing)
    ensures Holds(s')
  {
    hide TagOf, CoalescingKey, Book;
    assert CallPlaced(s, s.calls[c]);
    var mid := s.(now := s'.now, flights := s'.flights, registry := s'.registry);
    SameBook(s, mid);
    assert Holds(mid);
    CallHolds(mid, s', c, s'.calls[c]);
  }

  lemma {:induction false} PhaseHolds(s: State, s': State, c: nat)
    requires Holds(s)
    requires Judge(s, s', c) || Land(s, s', c) || GiveUp(s, s', c) || exists found :: Look(s, s', c, found)
    ensures Holds(s')
  {
    hide TagOf, Book, Surfaces, Current;
    assert CallPlaced(s, s.calls[c]);
    CallHolds(s, s', c, s'.calls[c]);
  }

  lemma {:induction false} CallsHold(s: State, s': State)
    requires Holds(s) && Calls(s, s')
    ensures Holds(s')
  {
    hide TagOf, Holds, TakeToken, Look, Judge, Fly, Land, GiveUp;
    if c, mid, token :| TakeToken(s, s', c, mid, token) { TakeTokenHolds(s, s', c, mid, token); }
    else if c, f, coalescing :| Fly(s, s', c, f, coalescing) { FlyHolds(s, s', c, f, coalescing); }
    else if c, kind, key :| Start(s, s', c, kind, key) { CallHolds(s, s', c, s'.calls[c]); }
    else if c, found :| Look(s, s', c, found) { PhaseHolds(s, s', c); }
    else if c :| Judge(s, s', c) || Land(s, s', c) || GiveUp(s, s', c) { PhaseHolds(s, s', c); }
  }

  lemma {:induction false} StageHolds(s: State, s': State, f: nat, stage: Stage)
    requires Holds(s) && InStage(s, s', f, stage)
    requires (stage.Loading? ==> stage.since >= 0) && (stage.Loaded? ==> stage.val.readAt >= 0)
    ensures Holds(s')
  {
    hide TagOf, Book;
    SameBook(s, s');
  }

  lemma {:induction false} FlightSetHolds(s: State, s': State, f: nat, mid: State)
    requires Holds(s) && FlightSet(s, s', f, mid)
    ensures Holds(s')
  {
    hide TagOf, Sets, Book, InStage;
    var flight := s.flights[f];
    assert FlightPlaced(s, flight);
    if mid != s {
      SetsHold(s, mid, flight.kind, flight.key, flight.stage.val, flight.token);
    }
    StageHolds(mid, s', f, Ended(Some(flight.stage.val)));
  }

  lemma {:induction false} FlightsHold(s: State, s': State)
    requires Holds(s) && Flights(s, s')
    ensures Holds(s')
  {
    hide TagOf, FlightSet, EpochsOk, EpochsFresh, TokensOk, InStage, Surfaces, Current;
    if f, mid :| FlightSet(s, s', f, mid) {
      FlightSetHolds(s, s', f, mid);
    } else {
      var f, stage :| f in s.flights && FlightPlaced(s, s.flights[f]) && InStage(s, s', f, stage)
        && (stage.Loading? ==> stage.since == s.now)
        && (stage.Loaded? ==> s.flights[f].stage.Loading? && stage.val.readAt == s.flights[f].stage.since);
      StageHolds(s, s', f, stage);
    }
  }

  lemma {:induction false} AnyNextHolds(s: State, s': State)
    requires Holds(s) && AnyNext(s, s')
    ensures Holds(s')
  {
    hide TagOf, Locks, Begins, Sets, Calls, Flights, Holds;
    if Locks(s, s') { LocksHold(s, s'); }
    else if Calls(s, s') { CallsHold(s, s'); }
    else if Flights(s, s') { FlightsHold(s, s'); }
    else if tag, token :| Begins(s, s', tag, token) { BeginsHold(s, s', tag, token); }
    else {
      var kind, key, val, token :| AnySet(s, s', kind, key, val, token) || DirectSet(s, s', kind, key, val, token);
      FillHolds(s, s', kind, key, val, token);
    }
  }

  lemma {:induction false} FillHolds(s: State, s': State, kind: Kind, key: string, val: Val, token: Token)
    requires Holds(s) && (AnySet(s, s', kind, key, val, token) || DirectSet(s, s', kind, key, val, token))
    ensures Holds(s')
  {
    hide TagOf, Sets;
    assert token.issuedAt >= 0;
    SetsHold(s, s', kind, key, val, token);
  }

  // ---------------------------------------------------------------- completed invalidations

  /** Step i of a run ends an invalidation of the tag. */
  ghost predicate Completes(tr: seq<State>, i: nat, tag: Tag) {
    i + 1 < |tr| && Release(tr[i], tr[i + 1]) && tag in tr[i].held.value
  }

  lemma {:induction false} RunHolds(tr: seq<State>, i: nat)
    requires AnyRun(tr) && i < |tr|
    ensures Holds(tr[i])
    decreases i
  {
    hide AnyNext, Holds;
    if i == 0 {
      StartHolds(tr[0]);
    } else {
      RunHolds(tr, i - 1);
      AnyNextHolds(tr[i - 1], tr[i]);
    }
  }

  lemma {:induction false} StartHolds(s: State)
    requires Init(s)
    ensures Holds(s)
  {
  }

  /** Only a release changes what is recorded as completed. */
  lemma {:induction false} DoneMoves(s: State, s': State, tag: Tag)
    requires AnyNext(s, s')
    ensures s.now < s'.now
    ensures s'.lastDone(tag) == s.lastDone(tag) || (Release(s, s') && tag in s.held.value && s'.lastDone(tag) == s.now)
  {
    hide TagOf, CoalescingKey, Begins, Sets, Release, InStage, Fly, TakeToken;
    if Release(s, s') {
      ReleaseDone(s, s', tag);
    } else if Fills(s, s') || exists kind, key, val, token :: AnySet(s, s', kind, key, val, token) {
      FillDone(s, s');
    } else if Calls(s, s') {
      CallsDone(s, s');
    } else if Flights(s, s') {
      FlightsDone(s, s');
    }
  }

  lemma {:induction false} ReleaseDone(s: State, s': State, tag: Tag)
    requires Release(s, s')
    ensures s'.now == s.now + 1 && s'.lastDone(tag) == if tag in s.held.value then s.now else s.lastDone(tag)
  {
  }

  lemma {:induction false} FillDone(s: State, s': State)
    requires Fills(s, s') || exists kind, key, val, token :: AnySet(s, s', kind, key, val, token)
    ensures s'.lastDone == s.lastDone && s.now < s'.now
  {
    hide TagOf, Begins, Sets;
    if tag, token :| Begins(s, s', tag, token) {
      BeginsDone(s, s', tag, token);
    } else {
      var kind, key, val, token :| Sets(s, s', kind, key, val, token);
      SetsDone(s, s', kind, key, val, token);
    }
  }

  lemma {:induction false} BeginsDone(s: State, s': State, tag: Tag, token: Token)
    requires Begins(s, s', tag, token)
    ensures s'.lastDone == s.lastDone && s.now < s'.now
  {
  }

  lemma {:induction false} SetsDone(s: State, s': State, kind: Kind, key: string, val: Val, token: Token)
    requires Sets(s, s', kind, key, val, token)
    ensures s'.lastDone == s.lastDone && s.now < s'.now
  {
    hide TagOf;
  }

  lemma {:induction false} CallsDone(s: State, s': State)
    requires Calls(s, s')
    ensures s'.lastDone == s.lastDone && s.now < s'.now
  {
    hide TagOf, CoalescingKey, InPhase, Fly, TakeToken, Start;
    if c, mid, token :| TakeToken(s, s', c, mid, token) { TakeTokenDone(s, s', c, mid, token); }
    else if c, f, coalescing :| Fly(s, s', c, f, coalescing) { FlyDone(s, s', c, f, coalescing); }
    else if c, kind, key :| Start(s, s', c, kind, key) { StartDone(s, s', c, kind, key); }
    else {
      var c, phase :| InPhase(s, s', c, phase);
      PhaseDone(s, s', c, phase);
    }
  }

  lemma {:induction false} TakeTokenDone(s: State, s': State, c: nat, mid: State, token: Token)
    requires TakeToken(s, s', c, mid, token)
    ensures s'.lastDone == s.lastDone && s.now < s'.now
  {
    hide TagOf, Begins;
    BeginsDone(s, mid, TagOf(s.calls[c].kind, s.calls[c].key), token);
  }

  lemma {:induction false} FlyDone(s: State, s': State, c: nat, f: nat, coalescing: bool)
    requires Fly(s, s', c, f, coalescing)
    ensures s'.lastDone == s.lastDone && s.now < s'.now
  {
    hide CoalescingKey;
  }

  lemma {:induction false} StartDone(s: State, s': State, c: nat, kind: Kind, key: string)
    requires Start(s, s', c, kind, key)
    ensures s'.lastDone == s.lastDone && s.now < s'.now
  {
    hide TagOf;
  }

  lemma {:induction false} PhaseDone(s: State, s': State, c: nat, phase: Phase)
    requires InPhase(s, s', c, phase)
    ensures s'.lastDone == s.lastDone && s.now < s'.now
  {
  }

  lemma {:induction false} FlightsDone(s: State, s': State)
    requires Flights(s, s')
    ensures s'.lastDone == s.lastDone && s.now < s'.now
  {
    hide InStage, Sets;
    if f, mid :| FlightSet(s, s', f, mid) {
      var flight := s.flights[f];
      if mid != s {
        SetsDone(s, mid, flight.kind, flight.key, flight.stage.val, flight.token);
      }
      StageDone(mid, s', f, Ended(Some(flight.stage.val)));
    } else {
      var f, stage :| InStage(s, s', f, stage);
      StageDone(s, s', f, stage);
    }
  }

  lemma {:induction false} StageDone(s: State, s': State, f: nat, stage: Stage)
    requires InStage(s, s', f, stage)
    ensures s'.lastDone == s.lastDone && s.now < s'.now
  {
  }

  /** The last completion recorded for a tag is a step of the run, and no step comes after it. */
  lemma {:induction false} LastDone(tr: seq<State>, k: nat, tag: Tag)
    requires AnyRun(tr) && k < |tr|
    ensures || tr[k].lastDone(tag) == -1
            || exists i :: 0 <= i < k && Completes(tr, i, tag) && tr[i].now == tr[k].lastDone(tag)
    ensures forall i :: 0 <= i < k && Completes(tr, i, tag) ==> tr[i].now <= tr[k].lastDone(tag)
    decreases k
  {
    hide AnyNext, Release, Holds;
    if k > 0 {
      LastDone(tr, k - 1, tag);
      DoneMoves(tr[k - 1], tr[k], tag);
      RunHolds(tr, k - 1);
      DoneBefore(tr[k - 1], tag);
      if Completes(tr, k - 1, tag) {
        ReleaseDone(tr[k - 1], tr[k], tag);
      }
    }
  }

  lemma {:induction false} DoneBefore(s: State, tag: Tag)
    requires Holds(s)
    ensures s.lastDone(tag) < s.now
  {
  }

  // ---------------------------------------------------------------- stale entries

  /** The source was read no later than an invalidation of the entry's tag that has completed. */
  ghost predicate Stale(s: State, entry: Entry) { entry.val.readAt <= s.lastDone(TagOf(entry.kind, entry.key)) }

  /** Main result. Among entries that a Get would return, the stale ones are exactly those whose tag was
      invalidated after the read and before the token was taken. */
  lemma {:induction false} StaleIff(tr: seq<State>, k: nat, entry: Entry)
    requires AnyRun(tr) && k < |tr| && entry in tr[k].store && Current(tr[k], entry)
    ensures Stale(tr[k], entry) <==>
            exists i :: 0 <= i < k && Completes(tr, i, TagOf(entry.kind, entry.key))
                        && entry.val.readAt <= tr[i].now < entry.issuedAt
  {
    hide TagOf, AnyNext, Completes;
    var tag := TagOf(entry.kind, entry.key);
    RunHolds(tr, k);
    LastDone(tr, k, tag);
    IssuedAfter(tr[k], entry);
  }

  /** A current entry's token is younger than every completed invalidation of its tag. */
  lemma {:induction false} IssuedAfter(s: State, entry: Entry)
    requires Holds(s) && entry in s.store && Current(s, entry)
    ensures entry.issuedAt > s.lastDone(TagOf(entry.kind, entry.key)) && entry.val.readAt >= 0
  {
    hide TagOf;
    assert Placed(s, entry);
    assert TokenOk(s, Token(TagOf(entry.kind, entry.key), entry.epoch, entry.issuedAt));
  }

  /** There are such runs: a value read before an invalidation, stored under a token taken after it, is
      handed out as current. */
  lemma {:induction false} TokenAfterReadIsStale(kind: Kind, key: string) returns (tr: seq<State>, entry: Entry)
    ensures AnyRun(tr) && |tr| == 5 && TagOf(kind, key) == TagOf(entry.kind, entry.key)
    ensures entry in tr[4].store && Current(tr[4], entry) && Stale(tr[4], entry)
  {
    hide TagOf, Calls, Flights;
    var tag := TagOf(kind, key);
    var s0 := State(0, 0, map[], map[], None, t => -1, {}, {}, map[], map[], map[]);
    var s1 := s0.(now := 1, held := Some(iset{tag}));
    var s2 := s1.(now := 2, held := None, lastDone := t => if t == tag then 1 else -1);
    var token := Token(tag, 1, 2);
    var epochs := map[1 := Epoch(tag, 2, false)];
    var s3 := s2.(now := 3, tokens := {token}, generation := 1, epochs := epochs, live := map[tag := 1]);
    entry := Entry(kind, key, 1, 2, Val(0, 0));
    var s4 := s3.(now := 4, generation := 2, store := {entry});
    tr := [s0, s1, s2, s3, s4];
    assert Acquire(s0, s1, iset{tag});
    assert {} + {token} == {token} && {} + {entry} == {entry};
    assert Begins(s2, s3, tag, token);
    assert AnySet(s3, s4, kind, key, entry.val, token);
  }
}
