/**
 * The time-to-live cache of normalised forecasts: a key-to-entry map with
 * lazy expiry. An entry is live while at most `CACHE_TTL` milliseconds have
 * passed since it was stored; reading an expired entry deletes it. The
 * clock is a parameter of every operation.
 */
module Cache {
  import opened Optional
  import opened Normalizer

  /** Ten minutes, in milliseconds. */
  const CACHE_TTL: nat := 10 * 60 * 1000

  datatype Entry = Entry(data: Forecast, timestamp: nat)

  /** The expiry test is strict, so an entry exactly `CACHE_TTL` old is live. */
  predicate IsLive(e: Entry, now: nat) {
    !(now - e.timestamp > CACHE_TTL)
  }

  /** What a read of `key` at time `now` returns. */
  function Read(entries: map<string, Entry>, key: string, now: nat): Option<Forecast> {
    if key in entries && IsLive(entries[key], now) then Some(entries[key].data) else None
  }

  /** The map after a read of `key` at time `now`: an expired entry is gone. */
  function AfterRead(entries: map<string, Entry>, key: string, now: nat): map<string, Entry> {
    if key in entries && !IsLive(entries[key], now) then entries - {key} else entries
  }

  /** The map after storing `data` under `key` at time `now`. */
  function Write(entries: map<string, Entry>, key: string, data: Forecast, now: nat): map<string, Entry> {
    entries[key := Entry(data, now)]
  }

  /** The process-wide cache object, updated in place. */
  class WeatherCache {
    var entries: map<string, Entry>

    constructor ()
      ensures entries == map[]
    {
      entries := map[];
    }

    /** Returns the live entry's data, or None; deletes the entry if it has expired. */
    method Get(key: string, now: nat) returns (r: Option<Forecast>)
      modifies this
      ensures r == Read(old(entries), key, now)
      ensures entries == AfterRead(old(entries), key, now)
    {
      if key !in entries {
        return None;
      }
      var cached := entries[key];
      if now - cached.timestamp > CACHE_TTL {
        entries := entries - {key};
        return None;
      }
      return Some(cached.data);
    }

    /** Stores `data` under `key`, stamped with `now`, replacing any earlier entry. */
    method Set(key: string, data: Forecast, now: nat)
      modifies this
      ensures entries == Write(old(entries), key, data, now)
    {
      entries := entries[key := Entry(data, now)];
    }
  }

  // ---------------------------------------------------------------------
  // Properties of one read

  /** A read returns stored data exactly when the entry exists and is at most `CACHE_TTL` old. */
  lemma ReadHitIff(entries: map<string, Entry>, key: string, now: nat)
    ensures Read(entries, key, now).Some? <==>
              key in entries && now - entries[key].timestamp <= CACHE_TTL
    ensures Read(entries, key, now).Some? ==> Read(entries, key, now).value == entries[key].data
  {
  }

  /** The boundary: still a hit after exactly `CACHE_TTL` ms, a miss one ms later. */
  lemma ExpiryBoundary(entries: map<string, Entry>, key: string, data: Forecast, t: nat)
    ensures Read(Write(entries, key, data, t), key, t + 600000) == Some(data)
    ensures Read(Write(entries, key, data, t), key, t + 600001) == None
    ensures AfterRead(Write(entries, key, data, t), key, t + 600001) == entries - {key}
  {
  }

  /** An expired read removes that key only and keeps every other entry as it was. */
  lemma ExpiredReadEvictsOnlyThatKey(entries: map<string, Entry>, key: string, now: nat)
    requires key in entries && now - entries[key].timestamp > CACHE_TTL
    ensures Read(entries, key, now) == None
    ensures key !in AfterRead(entries, key, now)
    ensures forall k :: k != key ==>
              (k in AfterRead(entries, key, now) <==> k in entries) &&
              (k in entries ==> AfterRead(entries, key, now)[k] == entries[k])
  {
  }

  /** A read of a live or absent key changes nothing. */
  lemma ReadWithoutExpiryChangesNothing(entries: map<string, Entry>, key: string, now: nat)
    requires key !in entries || now - entries[key].timestamp <= CACHE_TTL
    ensures AfterRead(entries, key, now) == entries
  {
  }

  /** Once evicted, a key reads as a miss at any later time until it is written again. */
  lemma EvictedStaysMissing(entries: map<string, Entry>, key: string, now: nat, later: nat)
    requires key in entries && !IsLive(entries[key], now)
    ensures Read(AfterRead(entries, key, now), key, later) == None
  {
  }

  // ---------------------------------------------------------------------
  // Properties of writes

  /** After storing `data` at `t`, a read of that key returns it exactly while `now <= t + CACHE_TTL`. */
  lemma WriteThenRead(entries: map<string, Entry>, key: string, data: Forecast, t: nat, now: nat)
    ensures Read(Write(entries, key, data, t), key, now) ==
              if now <= t + CACHE_TTL then Some(data) else None
  {
  }

  /** A write replaces any earlier entry for its key and leaves every other key as it was. */
  lemma WriteTouchesOnlyItsKey(entries: map<string, Entry>, key: string, data: Forecast, t: nat)
    ensures key in Write(entries, key, data, t) && Write(entries, key, data, t)[key] == Entry(data, t)
    ensures forall k :: k != key ==>
              (k in Write(entries, key, data, t) <==> k in entries) &&
              (k in entries ==> Write(entries, key, data, t)[k] == entries[k])
  {
  }

  /** A read of another key is not affected by a write. */
  lemma WriteIsolation(entries: map<string, Entry>, key: string, other: string, data: Forecast, t: nat, now: nat)
    requires other != key
    ensures Read(Write(entries, key, data, t), other, now) == Read(entries, other, now)
  {
  }

  /** The last of two writes to one key wins. */
  lemma LastWriteWins(entries: map<string, Entry>, key: string, d1: Forecast, t1: nat, d2: Forecast, t2: nat)
    ensures Write(Write(entries, key, d1, t1), key, d2, t2) == Write(entries, key, d2, t2)
  {
  }

  /** The class's methods: what `Set` then `Get` on one cache object observe. */
  method SetThenGet(c: WeatherCache, key: string, data: Forecast, t: nat, now: nat) returns (r: Option<Forecast>)
    requires now <= t + CACHE_TTL
    modifies c
    ensures r == Some(data)
    ensures c.entries == Write(old(c.entries), key, data, t)
  {
    c.Set(key, data, t);
    r := c.Get(key, now);
  }
}
