/** The manager's epoch bookkeeping as the object that does it. Every method runs under epochMu. */
module CacheManager {
  import opened Base
  import opened CacheEpochs

  class CacheEpoch {
    const id: nat
    ghost const tag: Tag
    var invalidated: bool

    constructor (id: nat, ghost tag: Tag)
      ensures this.id == id && this.tag == tag && !invalidated
    {
      this.id := id;
      this.tag := tag;
      invalidated := false;
    }
  }

  datatype FillToken = FillToken(tag: Tag, epoch: CacheEpoch)

  datatype CacheEntry = CacheEntry(epoch: CacheEpoch, value: string, kind: Kind, key: string, generation: nat)

  class Manager {
    var epochs: map<Tag, CacheEpoch>
    var generation: nat
    var entries: map<(Kind, string), CacheEntry>
    ghost var all: set<CacheEpoch>   // every epoch ever made

    ghost predicate Valid()
      reads this, all
    {
      && (forall t :: t in epochs ==> epochs[t] in all && epochs[t].tag == t && !epochs[t].invalidated)
      && (forall e :: e in all && !e.invalidated ==> e.tag in epochs && epochs[e.tag] == e)
      && (forall e :: e in all ==> e.id <= generation)
      && (forall e, f :: e in all && f in all && e.id == f.id ==> e == f)
      && (forall k :: k in entries ==> entries[k].epoch in all && entries[k].epoch.tag == TagOf(k.0, k.1))
    }

    /** Exactly the epochs of the tags in `hit` are invalidated, and no other. */
    twostate predicate Invalidated(hit: iset<Tag>)
      reads this, all
    {
      && all == old(all) && generation == old(generation) && entries == old(entries)
      && (forall e :: e in all ==> e.invalidated == (old(e.invalidated) || e.tag in hit))
      && epochs == map t | t in old(epochs) && t !in hit :: old(epochs)[t]
    }

    constructor ()
      ensures Valid() && epochs == map[] && entries == map[] && all == {}
    {
      epochs, generation, entries, all := map[], 0, map[], {};
    }

    /** A token holds the tag's one live epoch, made here when there is none. */
    method BeginFill(kind: Kind, key: string) returns (token: FillToken)
      requires Valid()
      modifies this
      ensures Valid() && entries == old(entries)
      ensures token.tag == TagOf(kind, key) && token.tag in epochs && token.epoch == epochs[token.tag]
      ensures TagOf(kind, key) in old(epochs) ==>
                epochs == old(epochs) && all == old(all) && generation == old(generation)
      ensures TagOf(kind, key) !in old(epochs) ==>
                (&& fresh(token.epoch) && token.epoch.id == generation == old(generation) + 1
                 && epochs == old(epochs)[token.tag := token.epoch] && all == old(all) + {token.epoch})
    {
      var tag := TagOf(kind, key);
      if tag !in epochs {
        generation := generation + 1;
        var epoch := new CacheEpoch(generation, tag);
        epochs := epochs[tag := epoch];
        all := all + {epoch};
      }
      return FillToken(tag, epochs[tag]);
    }

    /** set: an entry is only ever stored under a live epoch of its own tag. `accepted` is the cache's answer. */
    method Set(kind: Kind, key: string, value: string, token: FillToken, accepted: bool) returns (stored: bool)
      requires Valid() && token.epoch in all && token.epoch.tag == token.tag
      modifies this
      ensures Valid() && epochs == old(epochs) && all == old(all)
      ensures stored ==
              (accepted && token.tag == TagOf(kind, key) && TagOf(kind, key) in epochs
                && epochs[TagOf(kind, key)] == token.epoch)
      ensures entries ==
              if stored then old(entries)[(kind, key) := CacheEntry(token.epoch, value, kind, key, generation)]
              else old(entries)
    {
      if token.tag != TagOf(kind, key) || token.epoch.invalidated {
        return false;
      }
      generation := generation + 1;
      if accepted {
        entries := entries[(kind, key) := CacheEntry(token.epoch, value, kind, key, generation)];
      }
      return accepted;
    }

    /** A Get: hits exactly when an entry is there and its epoch is the live one of the key's tag. */
    method Get(kind: Kind, key: string) returns (value: Option<string>)
      requires Valid()
      ensures value.Some? <==>
                (kind, key) in entries && TagOf(kind, key) in epochs
                  && epochs[TagOf(kind, key)] == entries[(kind, key)].epoch
      ensures value.Some? ==> value.value == entries[(kind, key)].value
    {
      if (kind, key) !in entries || entries[(kind, key)].epoch.invalidated {
        return None;
      }
      return Some(entries[(kind, key)].value);
    }

    method InvalidateEpoch(tag: Tag)
      requires Valid()
      modifies this`epochs, all
      ensures Valid() && Invalidated(iset{tag})
    {
      if tag in epochs {
        var epoch := epochs[tag];
        epoch.invalidated := true;
        epochs := epochs - {tag};
      }
    }

    /** The loop of ClearByType and ClearAll over the live epochs of some kinds. */
    method InvalidateKinds(kinds: set<Kind>)
      requires Valid()
      modifies this`epochs, all
      ensures Valid() && Invalidated(iset t: Tag | t.kind in kinds)
    {
      hide TagOf;
      var todo := set t | t in epochs && t.kind in kinds;
      while todo != {}
        invariant Valid() && all == old(all)
        invariant todo <= epochs.Keys && forall t :: t in todo ==> t.kind in kinds
        invariant forall e :: e in all ==>
                  e.invalidated == (old(e.invalidated) || (e.tag.kind in kinds && e.tag !in todo))
        invariant forall t :: t in epochs ==> t in old(epochs) && epochs[t] == old(epochs)[t]
        invariant forall t :: t in old(epochs) && (t.kind !in kinds || t in todo) ==> t in epochs
        invariant forall t :: t in epochs && t.kind in kinds ==> t in todo
        decreases todo
      {
        var tag :| tag in todo;
        InvalidateEpoch(tag);
        todo := todo - {tag};
      }
    }

    /** ClearByType, and ClearAll for all kinds at once: no entry and no epoch of these kinds survives. */
    method Clear(kinds: set<Kind>)
      requires Valid()
      modifies this`epochs, this`entries, all
      ensures Valid() && all == old(all) && generation == old(generation)
      ensures forall e :: e in all ==> e.invalidated == (old(e.invalidated) || e.tag.kind in kinds)
      ensures epochs == map t | t in old(epochs) && t.kind !in kinds :: old(epochs)[t]
      ensures entries == map k | k in old(entries) && k.0 !in kinds :: old(entries)[k]
    {
      hide TagOf;
      InvalidateKinds(kinds);
      entries := map k | k in entries && k.0 !in kinds :: entries[k];
    }
  }
}
