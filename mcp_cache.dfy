/** `MCPCache`: an in-memory map from cache keys to data with an expiry
    time. The clock is an explicit argument `now` (whole seconds), and
    Python's `None` as cached data is the JSON `Null`. */
module McpCache {
  import opened Wrappers
  import opened OrderedMap
  import opened JsonValue

  /** One hour, the default time-to-live of the constructor and `get_cache`. */
  const DefaultTtl := 3600

  /** The record stored under a key. */
  datatype Entry = Entry(data: Value, expiresAt: int, createdAt: int)

  /** `get_stats` result. */
  datatype Stats = Stats(totalKeys: nat, activeKeys: nat, expiredKeys: nat, keys: seq<string>)

  type Store = Dict<string, Entry>

  /** Expiry is strict: an entry is still live at its own `expires_at`. */
  predicate Expired(e: Entry, now: int) {
    now > e.expiresAt
  }

  /** `ttl or self._default_ttl`: both `None` and `0` fall back to the default. */
  function EffectiveTtl(ttl: Option<int>, default: int): (r: int)
    ensures ttl.Some? && ttl.value != 0 ==> r == ttl.value
    ensures ttl.None? || ttl.value == 0 ==> r == default
  {
    if ttl.Some? && ttl.value != 0 then ttl.value else default
  }

  /** The record `set` stores at time `now`. */
  function Stamp(data: Value, ttl: Option<int>, default: int, now: int): (e: Entry)
    ensures e.data == data && e.createdAt == now
    ensures !Expired(e, now) <==> EffectiveTtl(ttl, default) >= 0
  {
    Entry(data, now + EffectiveTtl(ttl, default), now)
  }

  /** What `get` returns: the data of a present, unexpired key, else `None`. */
  function Read(d: Store, key: string, now: int): Value {
    match Get(d, key)
    case None => Null
    case Some(e) => if Expired(e, now) then Null else e.data
  }

  /** The store after `get`: an expired entry that was read is deleted. */
  function AfterRead(d: Store, key: string, now: int): Store {
    match Get(d, key)
    case None => d
    case Some(e) => if Expired(e, now) then Remove(d, key) else d
  }

  /** The unexpired pairs, in insertion order. */
  function Live(d: Store, now: int): (r: Store)
    ensures |r| <= |d|
  {
    if d == [] then []
    else
      var last := d[|d| - 1];
      Live(d[..|d| - 1], now) + (if Expired(last.1, now) then [] else [last])
  }

  /** The keys of the expired pairs, in insertion order. */
  function ExpiredKeys(d: Store, now: int): (r: seq<string>)
    ensures |r| <= |d|
  {
    if d == [] then []
    else
      var last := d[|d| - 1];
      ExpiredKeys(d[..|d| - 1], now) + (if Expired(last.1, now) then [last.0] else [])
  }

  /** Every pair is either live or has its key among the expired ones. */
  lemma {:induction false} Partition(d: Store, now: int)
    ensures |Live(d, now)| + |ExpiredKeys(d, now)| == |d|
  {
    if d != [] {
      Partition(d[..|d| - 1], now);
    }
  }

  /** The live pairs are exactly the pairs of the store that have not expired. */
  lemma {:induction false} LiveMembers(d: Store, now: int, p: (string, Entry))
    ensures p in Live(d, now) <==> p in d && !Expired(p.1, now)
  {
    if d != [] {
      var init := d[..|d| - 1];
      LiveMembers(init, now, p);
      InInit(d, p);
    }
  }

  /** The expired keys are exactly the keys of the pairs that have expired. */
  lemma {:induction false} ExpiredMembers(d: Store, now: int, k: string)
    ensures k in ExpiredKeys(d, now) <==> exists i :: 0 <= i < |d| && d[i].0 == k && Expired(d[i].1, now)
  {
    if d != [] {
      var init := d[..|d| - 1];
      ExpiredMembers(init, now, k);
      if k in ExpiredKeys(init, now) {
        var i :| 0 <= i < |init| && init[i].0 == k && Expired(init[i].1, now);
        assert d[i] == init[i];
      }
      if exists i :: 0 <= i < |d| && d[i].0 == k && Expired(d[i].1, now) {
        var i :| 0 <= i < |d| && d[i].0 == k && Expired(d[i].1, now);
        if i < |d| - 1 {
          assert init[i] == d[i];
        }
      }
    }
  }

  /** A store with distinct keys keeps them distinct among its live pairs. */
  lemma LiveUnique(d: Store, now: int)
    requires UniqueKeys(d)
    ensures UniqueKeys(Live(d, now))
  {
    var r := Live(d, now);
    forall a, b | 0 <= a < b < |r| ensures r[a].0 != r[b].0 {
      LiveMembers(d, now, r[a]);
      LiveMembers(d, now, r[b]);
      LiveOrder(d, now, a, b);
    }
  }

  /** Two different positions of the live pairs come from two different
      positions of the store. */
  lemma {:induction false} LiveOrder(d: Store, now: int, a: int, b: int)
    requires 0 <= a < b < |Live(d, now)|
    ensures exists i, j :: 0 <= i < j < |d| && d[i] == Live(d, now)[a] && d[j] == Live(d, now)[b]
  {
    var init := d[..|d| - 1];
    var li := Live(init, now);
    var r := Live(d, now);
    assert r == li + (if Expired(d[|d| - 1].1, now) then [] else [d[|d| - 1]]);
    if b < |li| {
      LiveOrder(init, now, a, b);
      var i, j :| 0 <= i < j < |init| && init[i] == li[a] && init[j] == li[b];
      assert d[i] == init[i] && d[j] == init[j];
    } else {
      assert r[b] == d[|d| - 1];
      LiveMembers(init, now, li[a]);
      var i :| 0 <= i < |init| && init[i] == li[a];
      assert d[i] == init[i];
    }
  }

  /** Under distinct keys, a key is live exactly when `get` would find it
      present and unexpired. */
  lemma LiveKeys(d: Store, now: int, k: string)
    requires UniqueKeys(d)
    ensures k in Keys(Live(d, now)) <==> Get(d, k).Some? && !Expired(Get(d, k).value, now)
  {
    var r := Live(d, now);
    if k in Keys(r) {
      var a :| 0 <= a < |r| && Keys(r)[a] == k;
      LiveMembers(d, now, r[a]);
      var i :| 0 <= i < |d| && d[i] == r[a];
      GetAt(d, i, k);
    }
    if Get(d, k).Some? && !Expired(Get(d, k).value, now) {
      var i :| 0 <= i < |d| && d[i] == (k, Get(d, k).value);
      LiveMembers(d, now, d[i]);
      var a :| 0 <= a < |r| && r[a] == d[i];
      assert Keys(r)[a] == k;
    }
  }

  /** Dropping the expired keys leaves exactly the live pairs. */
  lemma {:induction false} DropExpired(d: Store, now: int)
    requires UniqueKeys(d)
    ensures Drop(d, ExpiredKeys(d, now)) == Live(d, now)
  {
    if d != [] {
      var init := d[..|d| - 1];
      var last := d[|d| - 1];
      var ek := ExpiredKeys(init, now);
      var more := if Expired(last.1, now) then [last.0] else [];
      assert ExpiredKeys(d, now) == ek + more;
      UniqueInit(d);
      DropExpired(init, now);
      LastNotExpiredBefore(d, now);
      assert d == init + [last];
      DropSnoc(init, last, ek, more);
    }
  }

  /** The last key of a store with distinct keys is not among the keys
      that expired before it. */
  lemma LastNotExpiredBefore(d: Store, now: int)
    requires d != [] && UniqueKeys(d)
    ensures d[|d| - 1].0 !in ExpiredKeys(d[..|d| - 1], now)
  {
    UniqueInit(d);
    ExpiredMembers(d[..|d| - 1], now, d[|d| - 1].0);
  }

  /** Cleaning up changes nothing `get` can see. */
  lemma CleanupInvisible(d: Store, now: int, k: string)
    requires UniqueKeys(d)
    ensures Read(Live(d, now), k, now) == Read(d, k, now)
  {
    var r := Live(d, now);
    LiveUnique(d, now);
    LiveKeys(d, now, k);
    if Get(r, k).Some? {
      var a :| 0 <= a < |r| && r[a] == (k, Get(r, k).value);
      LiveMembers(d, now, r[a]);
      var i :| 0 <= i < |d| && d[i] == r[a];
      GetAt(d, i, k);
    }
  }

  /** Stored data reads back until the effective TTL has run out. */
  lemma SetThenGet(d: Store, key: string, data: Value, ttl: Option<int>, default: int, t: int, now: int)
    requires now <= t + EffectiveTtl(ttl, default)
    ensures Read(Put(d, key, Stamp(data, ttl, default, t)), key, now) == data
  {
  }

  /** After the effective TTL the key reads as absent and a read deletes it. */
  lemma SetThenExpire(d: Store, key: string, data: Value, ttl: Option<int>, default: int, t: int, now: int)
    requires now > t + EffectiveTtl(ttl, default)
    ensures var s := Put(d, key, Stamp(data, ttl, default, t));
            Read(s, key, now) == Null && key !in Keys(AfterRead(s, key, now))
  {
  }

  /** Storing one key leaves every other key reading as before. */
  lemma SetOthers(d: Store, key: string, e: Entry, other: string, now: int)
    requires other != key
    ensures Read(Put(d, key, e), other, now) == Read(d, other, now)
  {
    PutOther(d, key, e, other);
  }

  /** A read deletes nothing but an expired entry for its own key, so every
      other key reads as before. */
  lemma ReadOthers(d: Store, key: string, other: string, now: int)
    requires other != key
    ensures Read(AfterRead(d, key, now), other, now) == Read(d, other, now)
  {
    RemoveOther(d, key, other);
  }

  /** Reading twice gives the same answer: a read only removes what reads as absent. */
  lemma ReadTwice(d: Store, key: string, now: int)
    ensures Read(AfterRead(d, key, now), key, now) == Read(d, key, now)
    ensures AfterRead(AfterRead(d, key, now), key, now) == AfterRead(d, key, now)
  {
  }

  /** Deleting a key leaves every other key reading as before. */
  lemma DeleteOthers(d: Store, key: string, other: string, now: int)
    requires other != key
    ensures Read(Remove(d, key), other, now) == Read(d, other, now)
  {
    RemoveOther(d, key, other);
  }

  /** `MCPCache` */
  class Cache {
    var entries: Store
    const defaultTtl: int

    ghost predicate Valid()
      reads this`entries
    {
      UniqueKeys(entries)
    }

    constructor (defaultTtl: int)
      ensures Valid() && entries == [] && this.defaultTtl == defaultTtl
    {
      entries := [];
      this.defaultTtl := defaultTtl;
    }

    /** `set`: the key's record is replaced (or added last); its data stays
        readable up to `now` plus the effective TTL. */
    method Set(key: string, data: Value, ttl: Option<int>, now: int)
      requires Valid()
      modifies this`entries
      ensures Valid()
      ensures entries == Put(old(entries), key, Stamp(data, ttl, defaultTtl, now))
    {
      entries := Put(entries, key, Stamp(data, ttl, defaultTtl, now));
    }

    /** `get`: the data of a live key; an expired key is deleted and reads
        as `None`. */
    method Get(key: string, now: int) returns (r: Value)
      requires Valid()
      modifies this`entries
      ensures Valid()
      ensures r == Read(old(entries), key, now)
      ensures entries == AfterRead(old(entries), key, now)
      ensures r != Null ==> key in Keys(old(entries)) && key in Keys(entries)
      ensures key !in Keys(old(entries)) ==> r == Null
    {
      match OrderedMap.Get(entries, key)
      case None =>
        r := Null;
      case Some(e) =>
        if now > e.expiresAt {
          entries := Remove(entries, key);
          r := Null;
        } else {
          r := e.data;
        }
    }

    /** `has`: whether `get` returns something other than `None`; like
        `get`, it deletes an expired key. */
    method Has(key: string, now: int) returns (b: bool)
      requires Valid()
      modifies this`entries
      ensures Valid()
      ensures b <==> Read(old(entries), key, now) != Null
      ensures entries == AfterRead(old(entries), key, now)
    {
      var r := Get(key, now);
      b := r != Null;
    }

    /** `delete`: true exactly when the key was present; afterwards it is gone. */
    method Delete(key: string) returns (b: bool)
      requires Valid()
      modifies this`entries
      ensures Valid()
      ensures b <==> key in Keys(old(entries))
      ensures entries == Remove(old(entries), key)
      ensures key !in Keys(entries)
    {
      if key in Keys(entries) {
        entries := Remove(entries, key);
        b := true;
      } else {
        RemoveAbsent(entries, key);
        b := false;
      }
    }

    /** `clear` */
    method Clear()
      requires Valid()
      modifies this`entries
      ensures Valid() && entries == []
    {
      entries := [];
    }

    /** `get_stats`: counts every pair once, as active or expired, and lists
        the active keys in insertion order; nothing is removed. */
    method GetStats(now: int) returns (s: Stats)
      requires Valid()
      ensures s.totalKeys == |entries| == s.activeKeys + s.expiredKeys
      ensures s.keys == Keys(Live(entries, now))
      ensures s.activeKeys == |Live(entries, now)|
      ensures s.expiredKeys == |ExpiredKeys(entries, now)|
    {
      var expired: seq<string> := [];
      var active: seq<string> := [];
      var i := 0;
      while i < |entries|
        invariant 0 <= i <= |entries|
        invariant expired == ExpiredKeys(entries[..i], now)
        invariant active == Keys(Live(entries[..i], now))
      {
        var key := entries[i].0;
        assert entries[..i + 1][..i] == entries[..i];
        ghost var lv := Live(entries[..i], now);
        if now > entries[i].1.expiresAt {
          expired := expired + [key];
        } else {
          KeysSnoc(lv, entries[i]);
          active := active + [key];
        }
        i := i + 1;
      }
      assert entries[..i] == entries;
      Partition(entries, now);
      s := Stats(|entries|, |active|, |expired|, active);
    }

    /** `cleanup_expired`: deletes the expired keys one by one, leaving the
        live pairs in their order, and returns how many it deleted. */
    method CleanupExpired(now: int) returns (count: int)
      requires Valid()
      modifies this`entries
      ensures Valid()
      ensures entries == Live(old(entries), now)
      ensures count == |ExpiredKeys(old(entries), now)| == |old(entries)| - |entries|
    {
      var expired := ExpiredKeys(entries, now);
      ghost var d := entries;
      DropEmpty(d);
      var i := 0;
      while i < |expired|
        invariant 0 <= i <= |expired|
        invariant entries == Drop(d, expired[..i])
      {
        RemoveAfterDrop(d, expired[..i], expired[i]);
        TakeSnoc(expired, i);
        entries := Remove(entries, expired[i]);
        i := i + 1;
      }
      assert expired[..i] == expired;
      DropExpired(d, now);
      Partition(d, now);
      LiveUnique(d, now);
      count := |expired|;
    }
  }

  /** The keys of a dict with one more pair. */
  lemma KeysSnoc(d: Store, p: (string, Entry))
    ensures Keys(d + [p]) == Keys(d) + [p.0]
  {
    KeysInit(d + [p]);
    assert (d + [p])[..|d|] == d;
  }
}
