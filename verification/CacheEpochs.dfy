/** The cache's fill protocol as a state machine: epochs, fill tokens, invalidations in progress,
    entries that may still surface, and coalesced loads. Every interleaving of the steps is a run. */
module CacheEpochs {
  import opened Base
  import opened CacheKeys

  // ---------------------------------------------------------------- coalescing keys

  datatype Kind = Capabilities | Collections | Features | Tiles | Counts {
    function Name(): string {
      match this
      case Capabilities => "capabilities"
      case Collections => "collections"
      case Features => "features"
      case Tiles => "tiles"
      case Counts => "counts"
    }
  }

  /** FillToken.CoalescingKey(kind + ":" + key). */
  function CoalescingKey(kind: Kind, key: string, epoch: nat): string {
    kind.Name() + ":" + key + ":epoch=" + Itoa(epoch)
  }

  lemma {:induction false} NotAfter(a: string, d: string, b: string, e: string)
    requires a + "=" + d == b + "=" + e && AllDigits(d)
    ensures |b| <= |a|
  {
    var s := a + "=" + d;
    assert forall i :: |a| < i < |s| ==> s[i] == d[i - |a| - 1];
    assert s[|b|] == (b + "=" + e)[|b|] == '=';
  }

  lemma {:induction false} AfterLastEquals(a: string, m: nat, b: string, n: nat)
    requires a + "=" + Itoa(m) == b + "=" + Itoa(n)
    ensures a == b && m == n
  {
    var s, d, e := a + "=" + Itoa(m), Itoa(m), Itoa(n);
    NotAfter(a, d, b, e);
    NotAfter(b, e, a, d);
    assert s[..|a|] == a && (b + "=" + e)[..|b|] == b;
    assert s[|a| + 1..] == d && (b + "=" + e)[|b| + 1..] == e;
    ItoaInjective(m, n);
  }

  lemma KindNames(k: Kind, l: Kind)
    ensures NoColon(k.Name()) && (k.Name() == l.Name() ==> k == l)
  {
    assert |k.Name()| == |l.Name()| ==> k == l;
  }

  /** Two loads coalesce only when kind, cache key and epoch are all the same. */
  lemma {:induction false} CoalescingKeyInjective(k: Kind, key: string, e: nat, l: Kind, other: string, f: nat)
    requires CoalescingKey(k, key, e) == CoalescingKey(l, other, f)
    ensures k == l && key == other && e == f
  {
    hide Itoa, Kind.Name;
    var a, b := k.Name() + ":" + key + ":epoch", l.Name() + ":" + other + ":epoch";
    assert CoalescingKey(k, key, e) == a + "=" + Itoa(e);
    assert CoalescingKey(l, other, f) == b + "=" + Itoa(f);
    AfterLastEquals(a, e, b, f);
    KindNames(k, l);
    KindNames(l, k);
    assert a == k.Name() + ":" + (key + ":epoch") && b == l.Name() + ":" + (other + ":epoch");
    SplitFirst(k.Name(), key + ":epoch");
    SplitFirst(l.Name(), other + ":epoch");
    assert Split(a)[0] == k.Name() && Split(b)[0] == l.Name();
    assert a[|k.Name()| + 1..] == key + ":epoch" && b[|l.Name()| + 1..] == other + ":epoch";
    assert (key + ":epoch")[..|key|] == key && (other + ":epoch")[..|other|] == other;
  }

  // ---------------------------------------------------------------- states

  type Time = int

  /** What an epoch guards and an invalidation hits. */
  datatype Tag = Tag(kind: Kind, scope: string)

  function TagOf(kind: Kind, key: string): Tag { Tag(kind, CacheScope(key)) }

  /** A value and the moment its read of the source started. */
  datatype Val = Val(data: int, readAt: Time)

  datatype Epoch = Epoch(tag: Tag, created: Time, invalidated: bool)
  datatype Token = Token(tag: Tag, epoch: nat, issuedAt: Time)
  datatype Entry = Entry(kind: Kind, key: string, epoch: nat, issuedAt: Time, val: Val)

  /** One load function: shared by all the calls that wait for it. */
  datatype Flight = Flight(kind: Kind, key: string, token: Token, stage: Stage)
  datatype Stage = Looking | Found(entry: Entry) | Loading(since: Time) | Loaded(val: Val) | Ended(result: Option<Val>)

  /** One call of LoadBytes or LoadCount; `floor` is when the last invalidation of its tag before it completed. */
  datatype Call = Call(kind: Kind, key: string, floor: Time, phase: Phase)
  datatype Phase =
    | Begun | Tokened(token: Token) | Seen(token: Token, entry: Entry) | Missed(token: Token)
    | Waiting(token: Token, flight: nat) | Returned(result: Option<Val>)

  /** `held` is the invalidation that has epochMu; `store` holds every entry ever handed to the
      cache, any of which a Get may still return. */
  datatype State = State(
    now: Time, generation: nat,
    epochs: map<nat, Epoch>, live: map<Tag, nat>, held: Option<iset<Tag>>, lastDone: Tag -> Time,
    tokens: set<Token>, store: set<Entry>,
    flights: map<nat, Flight>, registry: map<string, nat>, calls: map<nat, Call>)

  ghost predicate Init(s: State) {
    && s.now == 0 && s.generation == 0 && s.held == None
    && s.epochs == map[] && s.live == map[] && s.tokens == {} && s.store == {}
    && s.flights == map[] && s.registry == map[] && s.calls == map[]
    && forall t :: s.lastDone(t) == -1
  }

  // ---------------------------------------------------------------- steps

  /** invalidateScope, ClearByType and ClearAll take the lock for one tag, one kind or every tag. */
  ghost predicate Acquire(s: State, s': State, targets: iset<Tag>) {
    s.held.None? && s' == s.(now := s.now + 1, held := Some(targets))
  }

  ghost predicate Invalidate(s: State, s': State, tag: Tag) {
    && s.held.Some? && tag in s.held.value && tag in s.live && s.live[tag] in s.epochs
    && var e := s.live[tag];
       s' == s.(now := s.now + 1, epochs := s.epochs[e := s.epochs[e].(invalidated := true)], live := s.live - {tag})
  }

  ghost predicate Release(s: State, s': State) {
    && s.held.Some? && (forall t :: t in s.live ==> t !in s.held.value)
    && s' == s.(now := s.now + 1, held := None, lastDone := s'.lastDone)
    && forall t :: s'.lastDone(t) == if t in s.held.value then s.now else s.lastDone(t)
  }

  /** BeginFill: the live epoch of the tag, or a new one. */
  ghost predicate Begins(s: State, s': State, tag: Tag, token: Token) {
    && s.held.None?
    && token.tag == tag && token.issuedAt == s.now
    && if tag in s.live then
         token.epoch == s.live[tag] && s' == s.(now := s.now + 1, tokens := s.tokens + {token})
       else
         && token.epoch == s.generation + 1
         && s' == s.(now := s.now + 1, tokens := s.tokens + {token}, generation := s.generation + 1,
                     epochs := s.epochs[s.generation + 1 := Epoch(tag, s.now, false)],
                     live := s.live[tag := s.generation + 1])
  }

  /** set: refused once the token's epoch is invalidated, otherwise submitted; the cache may drop it. */
  ghost predicate Sets(s: State, s': State, kind: Kind, key: string, val: Val, token: Token) {
    && s.held.None?
    && if token.tag == TagOf(kind, key) && token.epoch in s.epochs && !s.epochs[token.epoch].invalidated then
         || s' == s.(now := s.now + 1)
         || s' == s.(now := s.now + 1, generation := s.generation + 1,
                     store := s.store + {Entry(kind, key, token.epoch, token.issuedAt, val)})
       else s' == s.(now := s.now + 1)
  }

  /** A direct fill: the token was taken before the source was read. */
  ghost predicate DirectSet(s: State, s': State, kind: Kind, key: string, val: Val, token: Token) {
    token in s.tokens && token.issuedAt <= val.readAt <= s.now && Sets(s, s', kind, key, val, token)
  }

  /** currentEntry: the second half of a Get, after the entry was read from the cache. */
  ghost predicate Current(s: State, entry: Entry) { entry.epoch in s.epochs && !s.epochs[entry.epoch].invalidated }

  ghost predicate Surfaces(s: State, kind: Kind, key: string, entry: Entry) {
    entry in s.store && entry.kind == kind && entry.key == key
  }

  // Steps of a load call c.

  ghost predicate Start(s: State, s': State, c: nat, kind: Kind, key: string) {
    && c !in s.calls
    && s' == s.(now := s.now + 1, calls := s.calls[c := Call(kind, key, s.lastDone(TagOf(kind, key)), Begun)])
  }

  ghost predicate InPhase(s: State, s': State, c: nat, phase: Phase) {
    c in s.calls && s' == s.(now := s.now + 1, calls := s.calls[c := s.calls[c].(phase := phase)])
  }

  ghost predicate TakeToken(s: State, s': State, c: nat, mid: State, token: Token) {
    && c in s.calls && s.calls[c].phase == Begun
    && Begins(s, mid, TagOf(s.calls[c].kind, s.calls[c].key), token)
    && s' == mid.(calls := s.calls[c := s.calls[c].(phase := Tokened(token))])
  }

  /** The first Get finds an entry, or none. */
  ghost predicate Look(s: State, s': State, c: nat, found: Option<Entry>) {
    && c in s.calls && s.calls[c].phase.Tokened?
    && (found.Some? ==> Surfaces(s, s.calls[c].kind, s.calls[c].key, found.value))
    && var token := s.calls[c].phase.token;
       InPhase(s, s', c, if found.Some? then Seen(token, found.value) else Missed(token))
  }

  ghost predicate Judge(s: State, s': State, c: nat) {
    && c in s.calls && s.calls[c].phase.Seen?
    && var p := s.calls[c].phase;
       InPhase(s, s', c, if Current(s, p.entry) then Returned(Some(p.entry.val)) else Missed(p.token))
  }

  /** DoChan: joins the flight under the coalescing key or starts one; without coalescing every
      call starts its own. */
  ghost predicate Fly(s: State, s': State, c: nat, f: nat, coalescing: bool) {
    && c in s.calls && s.calls[c].phase.Missed?
    && var call := s.calls[c];
       var key := CoalescingKey(call.kind, call.key, call.phase.token.epoch);
       var waiting := s.calls[c := call.(phase := Waiting(call.phase.token, f))];
       if coalescing && key in s.registry then
         f == s.registry[key] && s' == s.(now := s.now + 1, calls := waiting)
       else
         && f !in s.flights
         && s' == s.(now := s.now + 1, calls := waiting,
                     flights := s.flights[f := Flight(call.kind, call.key, call.phase.token, Looking)],
                     registry := if coalescing then s.registry[key := f] else s.registry)
  }

  ghost predicate Land(s: State, s': State, c: nat) {
    && c in s.calls && s.calls[c].phase.Waiting?
    && var f := s.calls[c].phase.flight;
       f in s.flights && s.flights[f].stage.Ended? && InPhase(s, s', c, Returned(s.flights[f].stage.result))
  }

  ghost predicate GiveUp(s: State, s': State, c: nat) {
    c in s.calls && s.calls[c].phase.Waiting? && InPhase(s, s', c, Returned(None))
  }

  // Steps of a flight f. When it ends its key leaves the registry.

  function Without(registry: map<string, nat>, f: nat): map<string, nat> {
    map k | k in registry && registry[k] != f :: registry[k]
  }

  ghost predicate InStage(s: State, s': State, f: nat, stage: Stage) {
    && f in s.flights
    && s' == s.(now := s.now + 1, flights := s.flights[f := s.flights[f].(stage := stage)],
                registry := if stage.Ended? then Without(s.registry, f) else s.registry)
  }

  ghost predicate FlightLook(s: State, s': State, f: nat, found: Option<Entry>) {
    && f in s.flights && s.flights[f].stage == Looking
    && (found.Some? ==> Surfaces(s, s.flights[f].kind, s.flights[f].key, found.value))
    && InStage(s, s', f, if found.Some? then Found(found.value) else Loading(s.now))
  }

  ghost predicate FlightJudge(s: State, s': State, f: nat) {
    && f in s.flights && s.flights[f].stage.Found?
    && var entry := s.flights[f].stage.entry;
       InStage(s, s', f, if Current(s, entry) then Ended(Some(entry.val)) else Loading(s.now))
  }

  /** The loader returns a value read since it started, or fails. */
  ghost predicate FlightLoad(s: State, s': State, f: nat, data: Option<int>) {
    && f in s.flights && s.flights[f].stage.Loading?
    && InStage(s, s', f, if data.Some? then Loaded(Val(data.value, s.flights[f].stage.since)) else Ended(None))
  }

  /** The flight's own Set, then its end. */
  ghost predicate FlightSet(s: State, s': State, f: nat, mid: State) {
    && f in s.flights && s.flights[f].stage.Loaded?
    && var flight := s.flights[f];
       && (mid == s || Sets(s, mid, flight.kind, flight.key, flight.stage.val, flight.token))
       && InStage(mid, s', f, Ended(Some(flight.stage.val)))
  }

  ghost predicate Locks(s: State, s': State) {
    || (exists targets :: Acquire(s, s', targets))
    || (exists tag :: Invalidate(s, s', tag))
    || Release(s, s')
  }

  ghost predicate Fills(s: State, s': State) {
    || (exists tag, token :: Begins(s, s', tag, token))
    || (exists kind, key, val, token :: DirectSet(s, s', kind, key, val, token))
  }

  ghost predicate Calls(s: State, s': State) {
    || (exists c, kind, key :: Start(s, s', c, kind, key))
    || (exists c, mid, token :: TakeToken(s, s', c, mid, token))
    || (exists c, found :: Look(s, s', c, found))
    || (exists c :: Judge(s, s', c))
    || (exists c, f, coalescing :: Fly(s, s', c, f, coalescing))
    || (exists c :: Land(s, s', c))
    || (exists c :: GiveUp(s, s', c))
  }

  ghost predicate Flights(s: State, s': State) {
    || (exists f, found :: FlightLook(s, s', f, found))
    || (exists f :: FlightJudge(s, s', f))
    || (exists f, data :: FlightLoad(s, s', f, data))
    || (exists f, mid :: FlightSet(s, s', f, mid))
  }

  ghost predicate Next(s: State, s': State) { Locks(s, s') || Fills(s, s') || Calls(s, s') || Flights(s, s') }

  // ---------------------------------------------------------------- the invariant

  /** A tag has at most one epoch that is not invalidated: the live one. */
  ghost predicate EpochsOk(s: State) {
    && (forall e :: e in s.epochs ==> e <= s.generation && s.epochs[e].created < s.now)
    && (forall t :: t in s.live ==>
        s.live[t] in s.epochs && s.epochs[s.live[t]].tag == t && !s.epochs[s.live[t]].invalidated)
    && (forall e :: e in s.epochs && !s.epochs[e].invalidated ==>
        s.epochs[e].tag in s.live && s.live[s.epochs[e].tag] == e)
  }

  /** An epoch that is not invalidated is younger than every completed invalidation of its tag. */
  ghost predicate EpochsFresh(s: State) {
    && (forall e :: e in s.epochs && !s.epochs[e].invalidated ==> s.epochs[e].created > s.lastDone(s.epochs[e].tag))
    && (forall t :: s.lastDone(t) < s.now)
  }

  ghost predicate TokenOk(s: State, token: Token) {
    token.epoch in s.epochs && s.epochs[token.epoch].tag == token.tag
      && s.epochs[token.epoch].created <= token.issuedAt < s.now
  }

  ghost predicate TokensOk(s: State) { forall t :: t in s.tokens ==> TokenOk(s, t) }

  /** Every entry was read under its token, and the token under its epoch. */
  ghost predicate EntryOk(s: State, e: Entry) {
    && e.epoch in s.epochs && s.epochs[e.epoch].tag == TagOf(e.kind, e.key)
    && s.epochs[e.epoch].created <= e.issuedAt <= e.val.readAt
  }

  ghost predicate StoreOk(s: State) { forall e :: e in s.store ==> EntryOk(s, e) }

  /** A flight's own reads are younger than its epoch. */
  ghost predicate FlightOk(s: State, f: Flight) {
    && TokenOk(s, f.token) && f.token.tag == TagOf(f.kind, f.key)
    && match f.stage
       case Found(entry) => EntryOk(s, entry) && TagOf(entry.kind, entry.key) == f.token.tag
       case Loading(since) => since >= f.token.issuedAt
       case Loaded(val) => val.readAt >= f.token.issuedAt
       case _ => true
  }

  ghost predicate FlightsOk(s: State) { forall f :: f in s.flights ==> FlightOk(s, s.flights[f]) }

  ghost predicate RegistryOk(s: State) {
    forall k :: k in s.registry ==>
      && s.registry[k] in s.flights
      && var f := s.flights[s.registry[k]]; !f.stage.Ended? && k == CoalescingKey(f.kind, f.key, f.token.epoch)
  }

  /** A call's token, and with it any flight it joins, is younger than the call's floor. */
  ghost predicate Young(s: State, call: Call, token: Token) {
    TokenOk(s, token) && token.tag == TagOf(call.kind, call.key) && s.epochs[token.epoch].created > call.floor
  }

  ghost predicate CallOk(s: State, call: Call) {
    && call.floor <= s.lastDone(TagOf(call.kind, call.key))
    && match call.phase
       case Begun => true
       case Tokened(token) => Young(s, call, token)
       case Seen(token, entry) =>
         Young(s, call, token) && EntryOk(s, entry) && entry.kind == call.kind && entry.key == call.key
       case Missed(token) => Young(s, call, token)
       case Waiting(token, f) =>
         && Young(s, call, token)
         && f in s.flights && s.flights[f].token.epoch == token.epoch
         && (s.flights[f].stage.Ended? && s.flights[f].stage.result.Some? ==>
             s.flights[f].stage.result.value.readAt > call.floor)
       case Returned(result) => result.Some? ==> result.value.readAt > call.floor
  }

  ghost predicate CallsOk(s: State) { forall c :: c in s.calls ==> CallOk(s, s.calls[c]) }

  ghost predicate Inv(s: State) {
    EpochsOk(s) && EpochsFresh(s) && TokensOk(s) && StoreOk(s) && FlightsOk(s) && RegistryOk(s) && CallsOk(s)
  }

  // ---------------------------------------------------------------- what only grows

  /** Epochs are never forgotten or revived, and completed invalidations stay completed. */
  ghost predicate Evolves(s: State, s': State) {
    && s.now <= s'.now
    && (forall e :: e in s.epochs ==>
        e in s'.epochs && s'.epochs[e].tag == s.epochs[e].tag && s'.epochs[e].created == s.epochs[e].created)
    && (forall t :: s.lastDone(t) <= s'.lastDone(t))
  }

  lemma {:induction false} FlightKept(s: State, s': State, f: Flight)
    requires Evolves(s, s') && FlightOk(s, f)
    ensures FlightOk(s', f)
  {
    hide TagOf, CoalescingKey;
  }

  lemma {:induction false} CallKept(s: State, s': State, call: Call)
    requires Evolves(s, s') && CallOk(s, call)
    requires call.phase.Waiting? ==>
               call.phase.flight in s'.flights && s'.flights[call.phase.flight] == s.flights[call.phase.flight]
    ensures CallOk(s', call)
  {
    hide TagOf, CoalescingKey;
  }

  /** A step that leaves calls and flights alone. */
  lemma {:induction false} Quiet(s: State, s': State)
    requires Inv(s) && Evolves(s, s') && s'.flights == s.flights && s'.registry == s.registry && s'.calls == s.calls
    requires EpochsOk(s') && EpochsFresh(s') && TokensOk(s') && StoreOk(s')
    ensures Inv(s')
  {
    hide TagOf, CoalescingKey, FlightOk, CallOk, EpochsOk, EpochsFresh, TokensOk, StoreOk, Evolves;
    forall f | f in s'.flights ensures FlightOk(s', s'.flights[f]) {
      FlightKept(s, s', s.flights[f]);
    }
    forall c | c in s'.calls ensures CallOk(s', s'.calls[c]) {
      WaitsInFlight(s, s.calls[c]);
      CallKept(s, s', s.calls[c]);
    }
  }

  lemma {:induction false} WaitsInFlight(s: State, call: Call)
    requires CallOk(s, call)
    ensures call.phase.Waiting? ==> call.phase.flight in s.flights
  {
    hide TagOf, CoalescingKey;
  }

  // ---------------------------------------------------------------- every step keeps the invariant

  lemma {:induction false} InvalidateKeeps(s: State, s': State, tag: Tag)
    requires Inv(s) && Invalidate(s, s', tag)
    ensures Inv(s')
  {
    hide TagOf, CoalescingKey, FlightsOk, CallsOk, RegistryOk;
    Quiet(s, s');
  }

  lemma {:induction false} ReleaseKeeps(s: State, s': State)
    requires Inv(s) && Release(s, s')
    ensures Inv(s')
  {
    hide TagOf, CoalescingKey, FlightsOk, CallsOk, RegistryOk;
    Quiet(s, s');
  }

  lemma {:induction false} BeginsKeeps(s: State, s': State, tag: Tag, token: Token)
    requires Inv(s) && Begins(s, s', tag, token)
    ensures Inv(s') && TokenOk(s', token) && s'.epochs[token.epoch].created > s.lastDone(tag)
  {
    hide TagOf, CoalescingKey, FlightsOk, CallsOk, RegistryOk;
    if tag !in s.live {
      NewEpoch(s, s', tag);
    }
    Quiet(s, s');
  }

  lemma {:induction false} NewEpoch(s: State, s': State, tag: Tag)
    requires EpochsOk(s) && EpochsFresh(s) && tag !in s.live && s'.lastDone == s.lastDone && s'.now == s.now + 1
    requires s'.generation == s.generation + 1 && s'.live == s.live[tag := s.generation + 1]
    requires s'.epochs == s.epochs[s.generation + 1 := Epoch(tag, s.now, false)]
    ensures EpochsOk(s') && EpochsFresh(s')
  {
  }

  lemma {:induction false} SameEpochs(s: State, s': State)
    requires EpochsOk(s) && EpochsFresh(s) && TokensOk(s) && s.now <= s'.now && s.generation <= s'.generation
    requires s'.epochs == s.epochs && s'.live == s.live && s'.lastDone == s.lastDone && s'.tokens == s.tokens
    ensures EpochsOk(s') && EpochsFresh(s') && TokensOk(s') && Evolves(s, s')
  {
  }

  lemma {:induction false} NewEntry(s: State, s': State, entry: Entry)
    requires StoreOk(s) && s'.epochs == s.epochs
    requires s'.store == s.store || (s'.store == s.store + {entry} && EntryOk(s, entry))
    ensures StoreOk(s')
  {
    hide TagOf;
  }

  lemma {:induction false} SetsKeeps(s: State, s': State, kind: Kind, key: string, val: Val, token: Token)
    requires Inv(s) && Sets(s, s', kind, key, val, token) && TokenOk(s, token) && token.issuedAt <= val.readAt
    ensures Inv(s')
  {
    hide TagOf, CoalescingKey, FlightsOk, CallsOk, RegistryOk, StoreOk, EpochsOk, EpochsFresh, TokensOk, Evolves;
    SameEpochs(s, s');
    assert StoreOk(s') by { NewEntry(s, s', Entry(kind, key, token.epoch, token.issuedAt, val)); }
    Quiet(s, s');
  }

  /** A step of one call. */
  lemma {:induction false} CallStep(s: State, s': State, c: nat, call: Call)
    requires Inv(s) && s.now <= s'.now && s' == s.(now := s'.now, calls := s.calls[c := call]) && CallOk(s, call)
    ensures Inv(s')
  {
    hide TagOf, CoalescingKey, CallOk;
    var mid := s.(now := s'.now);
    Quiet(s, mid);
    forall d | d in s'.calls ensures CallOk(s', s'.calls[d]) {
      var other := if d == c then call else s.calls[d];
      WaitsInFlight(s, other);
      CallKept(s, s', other);
    }
  }

  /** An entry that is current now is younger than every completed invalidation of its tag. */
  lemma {:induction false} CurrentIsFresh(s: State, entry: Entry)
    requires Inv(s) && EntryOk(s, entry) && Current(s, entry)
    ensures entry.val.readAt >= entry.issuedAt > s.lastDone(TagOf(entry.kind, entry.key))
  {
    hide TagOf, CoalescingKey;
  }

  lemma {:induction false} JudgeKeeps(s: State, s': State, c: nat)
    requires Inv(s) && Judge(s, s', c)
    ensures Inv(s')
  {
    hide TagOf, CoalescingKey;
    var call := s.calls[c];
    assert CallOk(s, call);
    if Current(s, call.phase.entry) {
      CurrentIsFresh(s, call.phase.entry);
    }
    CallStep(s, s', c, s'.calls[c]);
  }

  lemma {:induction false} TakeTokenKeeps(s: State, s': State, c: nat, mid: State, token: Token)
    requires Inv(s) && TakeToken(s, s', c, mid, token)
    ensures Inv(s')
  {
    hide TagOf, CoalescingKey, Begins;
    var call := s.calls[c];
    BeginsKeeps(s, mid, TagOf(call.kind, call.key), token);
    BeginsKeepsCalls(s, mid, TagOf(call.kind, call.key), token);
    assert CallOk(s, call);
    assert CallOk(mid, s'.calls[c]);
    hide CallOk;
    forall d | d in s'.calls ensures CallOk(s', s'.calls[d]) {
      var other := if d == c then s'.calls[c] else mid.calls[d];
      WaitsInFlight(mid, other);
      CallKept(mid, s', other);
    }
  }

  lemma {:induction false} BeginsKeepsCalls(s: State, s': State, tag: Tag, token: Token)
    requires Begins(s, s', tag, token)
    ensures s'.calls == s.calls && s'.lastDone == s.lastDone && token.tag == tag
  {
    hide TagOf, CoalescingKey;
  }

  lemma {:induction false} JoinKeeps(s: State, s': State, c: nat, f: nat)
    requires Inv(s) && Fly(s, s', c, f, true)
    requires CoalescingKey(s.calls[c].kind, s.calls[c].key, s.calls[c].phase.token.epoch) in s.registry
    ensures Inv(s')
  {
    hide TagOf, CoalescingKey;
    var call := s.calls[c];
    var token := call.phase.token;
    assert CallOk(s, call);
    var flight := s.flights[s.registry[CoalescingKey(call.kind, call.key, token.epoch)]];
    CoalescingKeyInjective(call.kind, call.key, token.epoch, flight.kind, flight.key, flight.token.epoch);
    CallStep(s, s', c, s'.calls[c]);
  }

  lemma {:induction false} FlyKeeps(s: State, s': State, c: nat, f: nat, coalescing: bool)
    requires Inv(s) && Fly(s, s', c, f, coalescing)
    ensures Inv(s')
  {
    hide TagOf, CoalescingKey, EpochsOk, EpochsFresh, StoreOk, TokensOk, FlightsOk, RegistryOk;
    var call := s.calls[c];
    var token := call.phase.token;
    var key := CoalescingKey(call.kind, call.key, token.epoch);
    if coalescing && key in s.registry {
      JoinKeeps(s, s', c, f);
    } else {
      assert CallOk(s, call);
      var flight := Flight(call.kind, call.key, token, Looking);
      var mid := s.(now := s.now + 1, flights := s.flights[f := flight], registry := s'.registry);
      NewFlight(s, mid, f, flight, key);
      assert CallOk(mid, s'.calls[c]);
      CallStep(mid, s', c, s'.calls[c]);
    }
  }

  lemma {:induction false} NewFlight(s: State, s': State, f: nat, flight: Flight, key: string)
    requires Inv(s) && f !in s.flights && FlightOk(s, flight) && flight.stage == Looking
    requires key == CoalescingKey(flight.kind, flight.key, flight.token.epoch)
    requires s' == s.(now := s.now + 1, flights := s.flights[f := flight], registry := s'.registry)
    requires s'.registry == s.registry || s'.registry == s.registry[key := f]
    ensures Inv(s')
  {
    hide TagOf, CoalescingKey, CallOk, FlightOk;
    forall g | g in s'.flights ensures FlightOk(s', s'.flights[g]) {
      FlightKept(s, s', s'.flights[g]);
    }
    forall d | d in s'.calls ensures CallOk(s', s'.calls[d]) {
      WaitsInFlight(s, s.calls[d]);
      CallKept(s, s', s.calls[d]);
    }
  }

  /** A step of one flight; when it ends with a value, the value is young enough for all who wait. */
  lemma {:induction false} FlightStep(s: State, s': State, f: nat, stage: Stage)
    requires Inv(s) && InStage(s, s', f, stage) && !s.flights[f].stage.Ended?
             && FlightOk(s, s.flights[f].(stage := stage))
    requires stage.Ended? && stage.result.Some? ==>
               || stage.result.value.readAt >= s.epochs[s.flights[f].token.epoch].created
               || stage.result.value.readAt > s.lastDone(s.flights[f].token.tag)
    ensures Inv(s')
  {
    hide TagOf, CoalescingKey;
    forall g | g in s'.flights ensures FlightOk(s', s'.flights[g]) {
      FlightKept(s, s', s'.flights[g]);
    }
    forall d | d in s'.calls ensures CallOk(s', s'.calls[d]) {
      var call := s.calls[d];
      assert CallOk(s, call);
      if call.phase.Waiting? && call.phase.flight == f {
        assert s.epochs[call.phase.token.epoch].tag == s.flights[f].token.tag;
      } else {
        CallKept(s, s', call);
      }
    }
    assert RegistryOk(s') by { RegistryStep(s, s', f, stage); }
  }

  lemma {:induction false} RegistryStep(s: State, s': State, f: nat, stage: Stage)
    requires RegistryOk(s) && InStage(s, s', f, stage)
    ensures RegistryOk(s')
  {
    hide TagOf, CoalescingKey;
  }

  lemma {:induction false} FlightJudgeKeeps(s: State, s': State, f: nat)
    requires Inv(s) && FlightJudge(s, s', f)
    ensures Inv(s')
  {
    hide TagOf, CoalescingKey;
    var flight := s.flights[f];
    assert FlightOk(s, flight);
    if Current(s, flight.stage.entry) {
      CurrentIsFresh(s, flight.stage.entry);
    }
    FlightStep(s, s', f, s'.flights[f].stage);
  }

  lemma {:induction false} FlightLookKeeps(s: State, s': State, f: nat, found: Option<Entry>)
    requires Inv(s) && FlightLook(s, s', f, found)
    ensures Inv(s')
  {
    hide TagOf, CoalescingKey;
    assert FlightOk(s, s.flights[f]);
    if found.Some? {
      assert EntryOk(s, found.value);
    }
    FlightStep(s, s', f, s'.flights[f].stage);
  }

  lemma {:induction false} FlightLoadKeeps(s: State, s': State, f: nat, data: Option<int>)
    requires Inv(s) && FlightLoad(s, s', f, data)
    ensures Inv(s')
  {
    hide TagOf, CoalescingKey;
    assert FlightOk(s, s.flights[f]);
    FlightStep(s, s', f, s'.flights[f].stage);
  }

  lemma {:induction false} FlightSetKeeps(s: State, s': State, f: nat, mid: State)
    requires Inv(s) && FlightSet(s, s', f, mid)
    ensures Inv(s')
  {
    hide TagOf, CoalescingKey;
    var flight := s.flights[f];
    assert FlightOk(s, flight);
    if mid != s {
      SetsKeeps(s, mid, flight.kind, flight.key, flight.stage.val, flight.token);
    }
    assert mid.flights == s.flights && mid.epochs == s.epochs;
    FlightStep(mid, s', f, s'.flights[f].stage);
  }

  lemma {:induction false} CallsOnly(s: State, s': State, c: nat)
    requires Inv(s) && (Land(s, s', c) || GiveUp(s, s', c) || exists found :: Look(s, s', c, found))
    ensures Inv(s')
  {
    hide TagOf, CoalescingKey;
    assert CallOk(s, s.calls[c]);
    CallStep(s, s', c, s'.calls[c]);
  }

  lemma {:induction false} NextKeeps(s: State, s': State)
    requires Inv(s) && Next(s, s')
    ensures Inv(s')
  {
    hide TagOf, CoalescingKey, Inv, Acquire, Invalidate, Release, Begins, DirectSet, Start,
      TakeToken, Look, Judge, Fly, Land, GiveUp, FlightLook, FlightJudge, FlightLoad, FlightSet;
    if targets :| Acquire(s, s', targets) { AcquireKeeps(s, s', targets); }
    else if tag :| Invalidate(s, s', tag) { InvalidateKeeps(s, s', tag); }
    else if Release(s, s') { ReleaseKeeps(s, s'); }
    else if tag, token :| Begins(s, s', tag, token) { BeginsKeeps(s, s', tag, token); }
    else if kind, key, val, token :| DirectSet(s, s', kind, key, val, token) {
      DirectSetKeeps(s, s', kind, key, val, token);
    }
    else if c, kind, key :| Start(s, s', c, kind, key) { StartKeeps(s, s', c, kind, key); }
    else if c, mid, token :| TakeToken(s, s', c, mid, token) { TakeTokenKeeps(s, s', c, mid, token); }
    else if c, found :| Look(s, s', c, found) { CallsOnly(s, s', c); }
    else if c :| Judge(s, s', c) { JudgeKeeps(s, s', c); }
    else if c, f, coalescing :| Fly(s, s', c, f, coalescing) { FlyKeeps(s, s', c, f, coalescing); }
    else if c :| Land(s, s', c) { CallsOnly(s, s', c); }
    else if c :| GiveUp(s, s', c) { CallsOnly(s, s', c); }
    else if f, found :| FlightLook(s, s', f, found) { FlightLookKeeps(s, s', f, found); }
    else if f :| FlightJudge(s, s', f) { FlightJudgeKeeps(s, s', f); }
    else if f, data :| FlightLoad(s, s', f, data) { FlightLoadKeeps(s, s', f, data); }
    else {
      var f, mid :| FlightSet(s, s', f, mid);
      FlightSetKeeps(s, s', f, mid);
    }
  }

  lemma {:induction false} AcquireKeeps(s: State, s': State, targets: iset<Tag>)
    requires Inv(s) && Acquire(s, s', targets)
    ensures Inv(s')
  {
    hide TagOf, CoalescingKey, FlightsOk, CallsOk, RegistryOk;
    Quiet(s, s');
  }

  lemma {:induction false} DirectSetKeeps(s: State, s': State, kind: Kind, key: string, val: Val, token: Token)
    requires Inv(s) && DirectSet(s, s', kind, key, val, token)
    ensures Inv(s')
  {
    hide TagOf, CoalescingKey;
    SetsKeeps(s, s', kind, key, val, token);
  }

  lemma {:induction false} StartKeeps(s: State, s': State, c: nat, kind: Kind, key: string)
    requires Inv(s) && Start(s, s', c, kind, key)
    ensures Inv(s')
  {
    hide TagOf, CoalescingKey;
    CallStep(s, s', c, s'.calls[c]);
  }

  // ---------------------------------------------------------------- whole runs

  ghost predicate Run(tr: seq<State>) {
    |tr| > 0 && Init(tr[0]) && forall i :: 0 <= i < |tr| - 1 ==> Next(tr[i], tr[i + 1])
  }

  lemma {:induction false} RunInv(tr: seq<State>, i: nat)
    requires Run(tr) && i < |tr|
    ensures Inv(tr[i])
    decreases i
  {
    hide Next, Inv;
    if i == 0 {
      InitInv(tr[0]);
    } else {
      RunInv(tr, i - 1);
      NextKeeps(tr[i - 1], tr[i]);
    }
  }

  lemma {:induction false} InitInv(s: State)
    requires Init(s)
    ensures Inv(s)
  {
  }

  /** In every reachable state a tag has at most one epoch in use. */
  lemma {:induction false} OneLiveEpoch(tr: seq<State>, i: nat, e: nat, f: nat)
    requires Run(tr) && i < |tr| && e in tr[i].epochs && f in tr[i].epochs
    requires !tr[i].epochs[e].invalidated && !tr[i].epochs[f].invalidated && tr[i].epochs[e].tag == tr[i].epochs[f].tag
    ensures e == f
  {
    RunInv(tr, i);
  }

  /** Time and completed invalidations only grow, entries stay, and a call keeps its kind, key and floor. */
  ghost predicate Grows(s: State, s': State) {
    && s.now < s'.now && s.store <= s'.store && (forall t :: s.lastDone(t) <= s'.lastDone(t))
    && forall c :: c in s.calls ==> c in s'.calls && SameCall(s.calls[c], s'.calls[c])
  }

  predicate SameCall(a: Call, b: Call) { a.kind == b.kind && a.key == b.key && a.floor == b.floor }

  lemma {:induction false} LocksGrow(s: State, s': State)
    requires Inv(s) && Locks(s, s')
    ensures Grows(s, s')
  {
    hide Inv, Release;
    if Release(s, s') {
      ReleaseGrows(s, s');
    }
  }

  lemma {:induction false} ReleaseGrows(s: State, s': State)
    requires Inv(s) && Release(s, s')
    ensures Grows(s, s')
  {
    hide CallsOk, FlightsOk, RegistryOk, StoreOk, TokensOk, EpochsOk;
  }

  lemma {:induction false} FillsGrow(s: State, s': State)
    requires Fills(s, s')
    ensures Grows(s, s')
  {
    hide Begins, Sets, Grows;
    if tag, token :| Begins(s, s', tag, token) {
      BeginsGrows(s, s', tag, token);
    } else {
      var kind, key, val, token :| DirectSet(s, s', kind, key, val, token);
      SetsGrows(s, s', kind, key, val, token);
    }
  }

  lemma {:induction false} CallsGrow(s: State, s': State)
    requires Calls(s, s')
    ensures Grows(s, s')
  {
    hide TagOf, CoalescingKey, InPhase, Fly, TakeToken, Start, Grows;
    if c, mid, token :| TakeToken(s, s', c, mid, token) { TakeTokenGrows(s, s', c, mid, token); }
    else if c, f, coalescing :| Fly(s, s', c, f, coalescing) { FlyGrows(s, s', c, f, coalescing); }
    else if c, kind, key :| Start(s, s', c, kind, key) { StartGrows(s, s', c, kind, key); }
    else {
      var c, phase :| InPhase(s, s', c, phase);
      PhaseGrows(s, s', c, phase);
    }
  }

  lemma {:induction false} TakeTokenGrows(s: State, s': State, c: nat, mid: State, token: Token)
    requires TakeToken(s, s', c, mid, token)
    ensures Grows(s, s')
  {
    hide TagOf, Begins;
    BeginsGrows(s, mid, TagOf(s.calls[c].kind, s.calls[c].key), token);
  }

  lemma {:induction false} FlyGrows(s: State, s': State, c: nat, f: nat, coalescing: bool)
    requires Fly(s, s', c, f, coalescing)
    ensures Grows(s, s')
  {
    hide CoalescingKey;
  }

  lemma {:induction false} StartGrows(s: State, s': State, c: nat, kind: Kind, key: string)
    requires Start(s, s', c, kind, key)
    ensures Grows(s, s')
  {
    hide TagOf;
  }

  lemma {:induction false} PhaseGrows(s: State, s': State, c: nat, phase: Phase)
    requires InPhase(s, s', c, phase)
    ensures Grows(s, s')
  {
  }

  lemma {:induction false} BeginsGrows(s: State, s': State, tag: Tag, token: Token)
    requires Begins(s, s', tag, token)
    ensures Grows(s, s') && s'.calls == s.calls
  {
  }

  lemma {:induction false} StageGrows(s: State, s': State, f: nat, stage: Stage)
    requires InStage(s, s', f, stage)
    ensures Grows(s, s') && s'.now == s.now + 1
  {
  }

  lemma {:induction false} FlightsGrow(s: State, s': State)
    requires Flights(s, s')
    ensures Grows(s, s')
  {
    hide InStage, Sets;
    if f, mid :| FlightSet(s, s', f, mid) {
      var flight := s.flights[f];
      if mid != s {
        SetsGrows(s, mid, flight.kind, flight.key, flight.stage.val, flight.token);
      }
      StageGrows(mid, s', f, Ended(Some(flight.stage.val)));
    } else {
      var f, stage :| InStage(s, s', f, stage);
      StageGrows(s, s', f, stage);
    }
  }

  lemma {:induction false} SetsGrows(s: State, s': State, kind: Kind, key: string, val: Val, token: Token)
    requires Sets(s, s', kind, key, val, token)
    ensures Grows(s, s')
  {
    hide TagOf;
  }

  lemma {:induction false} NextGrows(s: State, s': State)
    requires Inv(s) && Next(s, s')
    ensures Grows(s, s')
  {
    hide Locks, Fills, Calls, Flights, Inv, Grows;
    if Locks(s, s') { LocksGrow(s, s'); }
    else if Fills(s, s') { FillsGrow(s, s'); }
    else if Calls(s, s') { CallsGrow(s, s'); }
    else { FlightsGrow(s, s'); }
  }

  lemma {:induction false} RunGrows(tr: seq<State>, i: nat, j: nat)
    requires Run(tr) && i <= j < |tr|
    ensures tr[i].now <= tr[j].now && (i < j ==> tr[i].now < tr[j].now)
    ensures tr[i].store <= tr[j].store && forall t :: tr[i].lastDone(t) <= tr[j].lastDone(t)
    decreases j
  {
    hide Next, Inv;
    if i < j {
      RunGrows(tr, i, j - 1);
      RunInv(tr, j - 1);
      NextGrows(tr[j - 1], tr[j]);
    }
  }

  /** Main result on hits. A Get reads an entry at i and finds it current at j. Whatever invalidation
      of its tag completed at some step r before j, the entry's token was issued after r, and its
      source read started after r. */
  lemma {:induction false} HitsAreFresh(tr: seq<State>, r: nat, i: nat, j: nat, entry: Entry)
    requires Run(tr) && i <= j < |tr| && r < j && Release(tr[r], tr[r + 1])
    requires TagOf(entry.kind, entry.key) in tr[r].held.value
    requires entry in tr[i].store && Current(tr[j], entry)
    ensures entry.issuedAt > tr[r].now && entry.val.readAt > tr[r].now
  {
    hide Next, TagOf;
    RunInv(tr, j);
    RunGrows(tr, i, j);
    RunGrows(tr, r + 1, j);
    assert EntryOk(tr[j], entry);
    CurrentIsFresh(tr[j], entry);
  }

  lemma {:induction false} RunCall(tr: seq<State>, i: nat, j: nat, c: nat)
    requires Run(tr) && i <= j < |tr| && c in tr[i].calls
    ensures c in tr[j].calls && SameCall(tr[i].calls[c], tr[j].calls[c])
    decreases j
  {
    hide Next, Inv;
    if i < j {
      RunCall(tr, i, j - 1, c);
      RunInv(tr, j - 1);
      NextGrows(tr[j - 1], tr[j]);
    }
  }

  /** Main result on loads. An invalidation completed at step r; a load of its tag started later, at
      step i. Whatever it returns, from the cache, from its own load or from a load another call
      started, was read from the source after r. */
  lemma {:induction false} LoadsAreFresh(tr: seq<State>, r: nat, i: nat, j: nat, c: nat, kind: Kind, key: string)
    requires Run(tr) && r < i < j < |tr| && Release(tr[r], tr[r + 1]) && TagOf(kind, key) in tr[r].held.value
    requires Start(tr[i], tr[i + 1], c, kind, key)
    requires c in tr[j].calls && tr[j].calls[c].phase.Returned? && tr[j].calls[c].phase.result.Some?
    ensures tr[j].calls[c].phase.result.value.readAt > tr[r].now
  {
    hide Next, TagOf;
    RunInv(tr, j);
    RunGrows(tr, r + 1, i);
    RunCall(tr, i + 1, j, c);
    assert CallOk(tr[j], tr[j].calls[c]);
    assert tr[i + 1].calls[c].floor == tr[i].lastDone(TagOf(kind, key)) >= tr[r].now;
  }
}
