// The in-memory rate limiter of internal/security/firewall/rate_limiter_impl.go:
// one entry per key counting the requests of the current interval, a burst
// allowance above the limit, eviction of the least recently used key when
// the table is full, and removal of keys idle for three intervals. Times
// and durations are integers in nanoseconds, passed in by the caller.
module RateLimiting {
  import opened Seqs


  /** A positive number as a fraction: the burst factor. */
  datatype Factor = Factor(num: int, den: nat)

  /** The configuration; a factor with `num <= 0` is a non-positive factor. */
  datatype RateLimiterConfig = RateLimiterConfig(
    defaultLimit: int,
    defaultInterval: int,
    cleanupInterval: int,
    maxEntries: int,
    burstFactor: Factor)

  const Minute := 60_000_000_000

  /** `DefaultRateLimiterConfig`: 100 requests a minute, cleanup every ten
    * minutes, at most 10000 keys, bursts to 1.5 times the limit. */
  function DefaultRateLimiterConfig(): (c: RateLimiterConfig)
    ensures c.defaultLimit > 0 && c.defaultInterval > 0 && c.cleanupInterval > 0 && c.maxEntries > 0
    ensures c.burstFactor.den > 0 && c.burstFactor.num > 0
  {
    RateLimiterConfig(100, Minute, 10 * Minute, 10000, Factor(3, 2))
  }

  /** `NewRateLimiter`'s defaulting: every non-positive setting but the
    * table size is replaced by the default one. */
  function WithDefaults(config: RateLimiterConfig): (c: RateLimiterConfig)
    ensures c.defaultLimit > 0 && c.defaultInterval > 0 && c.cleanupInterval > 0
    ensures c.burstFactor.den > 0 && c.burstFactor.num > 0
    ensures c.maxEntries == config.maxEntries
    ensures config.defaultLimit > 0 ==> c.defaultLimit == config.defaultLimit
    ensures config.defaultInterval > 0 ==> c.defaultInterval == config.defaultInterval
    ensures config.cleanupInterval > 0 ==> c.cleanupInterval == config.cleanupInterval
    ensures config.burstFactor.num > 0 && config.burstFactor.den > 0 ==> c.burstFactor == config.burstFactor
  {
    var d := DefaultRateLimiterConfig();
    config.(defaultLimit := if config.defaultLimit <= 0 then d.defaultLimit else config.defaultLimit,
            defaultInterval := if config.defaultInterval <= 0 then d.defaultInterval else config.defaultInterval,
            cleanupInterval := if config.cleanupInterval <= 0 then d.cleanupInterval else config.cleanupInterval,
            burstFactor := if config.burstFactor.num <= 0 || config.burstFactor.den == 0 then d.burstFactor else config.burstFactor)
  }

  /** One key's usage: requests counted in the interval that began at or
    * before `lastRequest`, and the limit and interval that apply. */
  datatype Entry = Entry(count: int, lastRequest: int, limit: int, interval: int)

  /** A float-to-int conversion: rounds toward zero. */
  function TruncDiv(a: int, b: int): (q: int)
    requires b > 0
    ensures a >= 0 ==> 0 <= q * b <= a < q * b + b
    ensures a < 0 ==> q * b - b < a <= q * b <= 0
  {
    DivBounds(if a >= 0 then a else -a, b);
    if a >= 0 then a / b else -((-a) / b)
  }

  lemma DivBounds(a: nat, b: int)
    requires b > 0
    ensures 0 <= (a / b) * b <= a < (a / b) * b + b
  {
    assert a == (a / b) * b + a % b;
  }

  /** `int(float64(limit) * BurstFactor)`. */
  function BurstLimit(limit: int, f: Factor): (r: int)
    requires f.den > 0
    ensures limit * f.num >= 0 ==> 0 <= r * f.den <= limit * f.num < r * f.den + f.den
    ensures limit * f.num < 0 ==> r * f.den - f.den < limit * f.num <= r * f.den <= 0
  {
    TruncDiv(limit * f.num, f.den)
  }

  /** A factor of at least one never lowers a non-negative limit. */
  lemma BurstNotBelowLimit(limit: nat, f: Factor)
    requires 0 < f.den <= f.num
    ensures BurstLimit(limit, f) >= limit
  {
    var q := BurstLimit(limit, f);
    MulLe(f.den, f.num, limit);
    assert limit * f.num >= 0 by { MulLe(0, f.num, limit); }
    if q < limit {
      MulLe(q + 1, limit, f.den);
      assert false;
    }
  }

  lemma MulLe(x: int, y: int, z: nat)
    requires x <= y
    ensures x * z <= y * z && z * x <= z * y
  {
    assert y * z - x * z == (y - x) * z;
  }

  function Max(a: int, b: int): int
  {
    if a >= b then a else b
  }

  /** The most requests an interval admits for an entry with this limit. */
  function Cap(limit: int, f: Factor): int
    requires f.den > 0
  {
    Max(limit, BurstLimit(limit, f))
  }

  function EffectiveLimit(config: RateLimiterConfig, limit: int): int
  {
    if limit <= 0 then config.defaultLimit else limit
  }

  function EffectivePeriod(config: RateLimiterConfig, period: int): int
  {
    if period <= 0 then config.defaultInterval else period
  }

  /** `Allow` on a key that has an entry: a new interval starts once the old
    * one has passed; otherwise the request is counted while the count is
    * under the limit or under the burst limit, and refused after that. */
  function Admit(e: Entry, limit: int, period: int, now: int, f: Factor): (r: (Entry, bool))
    requires f.den > 0
    ensures now - e.lastRequest > e.interval ==> r == (Entry(1, now, limit, period), true)
    ensures now - e.lastRequest <= e.interval ==> (r.1 <==> e.count < Cap(e.limit, f))
    ensures now - e.lastRequest <= e.interval && r.1 ==>
      r.0 == e.(count := e.count + 1, lastRequest := now)
    ensures !r.1 ==> r.0 == e
  {
    if now - e.lastRequest > e.interval then (Entry(1, now, limit, period), true)
    else if e.count < e.limit then (e.(count := e.count + 1, lastRequest := now), true)
    else if e.count < BurstLimit(e.limit, f) then (e.(count := e.count + 1, lastRequest := now), true)
    else (e, false)
  }

  /** The key's entry has the earliest last request of the table. */
  ghost predicate Oldest(entries: map<string, Entry>, k: string)
  {
    k in entries && forall j :: j in entries ==> entries[k].lastRequest <= entries[j].lastRequest
  }

  /** An entry unused for more than three of its intervals. */
  predicate Stale(e: Entry, now: int)
  {
    now - e.lastRequest > e.interval * 3
  }

  /** `GetStats`, without the rendering of durations and the factor as text. */
  datatype Stats = Stats(totalEntries: nat, config: RateLimiterConfig)

  class MemoryRateLimiter {
    var entries: map<string, Entry>
    var config: RateLimiterConfig

    ghost predicate Valid()
      reads this
    {
      config.defaultLimit > 0 && config.defaultInterval > 0 && config.burstFactor.den > 0
    }

    /** The table holds no more keys than configured. */
    ghost predicate Bounded()
      reads this
    {
      config.maxEntries > 0 ==> |entries| <= config.maxEntries
    }

    /** `NewRateLimiter`: an empty table under the defaulted configuration. */
    constructor (c: RateLimiterConfig)
      ensures Valid() && Bounded()
      ensures entries == map[] && config == WithDefaults(c)
    {
      entries := map[];
      config := WithDefaults(c);
    }

    /** `Allow(key, limit, period)` at time `now`. */
    method Allow(key: string, limit: int, period: int, now: int) returns (allowed: bool)
      requires Valid()
      modifies this
      ensures Valid() && config == old(config)
      ensures old(Bounded()) ==> Bounded()
      ensures var l := EffectiveLimit(config, limit); var p := EffectivePeriod(config, period);
        key !in old(entries) ==>
          && allowed
          && (config.maxEntries > 0 && |old(entries)| >= config.maxEntries ==>
               exists victim :: Oldest(old(entries), victim) && entries == (old(entries) - {victim})[key := Entry(1, now, l, p)])
          && (!(config.maxEntries > 0 && |old(entries)| >= config.maxEntries) ==>
               entries == old(entries)[key := Entry(1, now, l, p)])
      ensures var l := EffectiveLimit(config, limit); var p := EffectivePeriod(config, period);
        key in old(entries) ==>
          var r := Admit(old(entries)[key], l, p, now, config.burstFactor);
          allowed == r.1 && entries == old(entries)[key := r.0]
    {
      var l := EffectiveLimit(config, limit);
      var p := EffectivePeriod(config, period);
      if key !in entries {
        if config.maxEntries > 0 && |entries| >= config.maxEntries {
          var victim := OldestKey();
          entries := entries - {victim};
          assert |entries| == |old(entries)| - 1;
        }
        entries := entries[key := Entry(1, now, l, p)];
        return true;
      }
      var r := Admit(entries[key], l, p, now, config.burstFactor);
      entries := entries[key := r.0];
      allowed := r.1;
    }

    /** The eviction scan: the key with the earliest last request. */
    method OldestKey() returns (k: string)
      requires entries != map[]
      ensures Oldest(entries, k)
    {
      var left := entries.Keys;
      var first := true;
      var oldestTime := 0;
      k := "";
      while left != {}
        invariant left <= entries.Keys
        invariant first ==> left == entries.Keys
        invariant !first ==> k in entries && entries[k].lastRequest == oldestTime
        invariant !first ==> forall j :: j in entries && j !in left ==> oldestTime <= entries[j].lastRequest
        decreases |left|
      {
        var j :| j in left;
        if first || entries[j].lastRequest < oldestTime {
          k := j;
          oldestTime := entries[j].lastRequest;
          first := false;
        }
        left := left - {j};
      }
    }

    /** `Reset`: a known key starts an empty interval now. */
    method Reset(key: string, now: int)
      modifies this
      ensures config == old(config)
      ensures key in old(entries) ==> entries == old(entries)[key := old(entries)[key].(count := 0, lastRequest := now)]
      ensures key !in old(entries) ==> entries == old(entries)
    {
      if key in entries {
        entries := entries[key := entries[key].(count := 0, lastRequest := now)];
      }
    }

    /** `GetRemaining`: requests left in the interval and the time until it
      * ends; an unknown key has the default limit and no wait. */
    function GetRemaining(key: string, now: int): (r: (int, int))
      reads this
      ensures key !in entries ==> r == (config.defaultLimit, 0)
      ensures key in entries && now - entries[key].lastRequest > entries[key].interval ==> r == (entries[key].limit, 0)
      ensures key in entries && now - entries[key].lastRequest <= entries[key].interval ==>
        && r.0 == Max(0, entries[key].limit - entries[key].count)
        && r.1 == entries[key].interval - (now - entries[key].lastRequest) && r.1 >= 0
    {
      if key !in entries then (config.defaultLimit, 0)
      else
        var e := entries[key];
        var elapsed := now - e.lastRequest;
        if elapsed > e.interval then (e.limit, 0)
        else
          var remaining := e.limit - e.count;
          (if remaining < 0 then 0 else remaining, e.interval - elapsed)
    }

    /** `SetLimit`: a known key keeps its count; a new one starts empty now.
      * No key is evicted for it. */
    method SetLimit(key: string, limit: int, period: int, now: int)
      modifies this
      ensures config == old(config)
      ensures key !in old(entries) ==> entries == old(entries)[key := Entry(0, now, limit, period)]
      ensures key in old(entries) ==> entries == old(entries)[key := old(entries)[key].(limit := limit, interval := period)]
    {
      if key !in entries {
        entries := entries[key := Entry(0, now, limit, period)];
      } else {
        entries := entries[key := entries[key].(limit := limit, interval := period)];
      }
    }

    method RemoveKey(key: string)
      modifies this
      ensures config == old(config)
      ensures entries == old(entries) - {key}
      ensures old(Bounded()) ==> Bounded()
    {
      entries := entries - {key};
    }

    /** `cleanup`: collect the stale keys, then delete them. */
    method Cleanup(now: int)
      modifies this
      ensures config == old(config)
      ensures forall k :: k in entries <==> k in old(entries) && !Stale(old(entries)[k], now)
      ensures forall k :: k in entries ==> entries[k] == old(entries)[k]
      ensures old(Bounded()) ==> Bounded()
    {
      var stale := StaleKeys(now);
      var i := 0;
      while i < |stale|
        invariant 0 <= i <= |stale| && config == old(config)
        invariant forall k :: k in entries <==> k in old(entries) && k !in stale[..i]
        invariant forall k :: k in entries ==> entries[k] == old(entries)[k]
      {
        assert stale[..i + 1] == stale[..i] + [stale[i]];
        entries := entries - {stale[i]};
        i := i + 1;
      }
      assert stale[..i] == stale;
      assert entries.Keys <= old(entries).Keys;
      SubsetCard(entries.Keys, old(entries).Keys);
    }

    /** The first loop of `cleanup`: the keys idle for over three intervals. */
    method StaleKeys(now: int) returns (stale: seq<string>)
      ensures forall k :: k in stale <==> k in entries && Stale(entries[k], now)
    {
      var left := entries.Keys;
      stale := [];
      while left != {}
        invariant left <= entries.Keys
        invariant forall k :: k in stale <==> k in entries && k !in left && Stale(entries[k], now)
        decreases |left|
      {
        var k :| k in left;
        if Stale(entries[k], now) {
          stale := stale + [k];
        }
        left := left - {k};
      }
    }

    function GetStats(): (s: Stats)
      reads this
      ensures s.totalEntries == |entries| && s.config == config
    {
      Stats(|entries|, config)
    }
  }

  // ---- several calls ----

  /** `k` calls for one key at the same instant: the entry afterwards and
    * how many were allowed. */
  function Burst(e: Entry, k: nat, limit: int, period: int, now: int, f: Factor): (Entry, nat)
    requires f.den > 0
    decreases k
  {
    if k == 0 then (e, 0)
    else
      var (e1, ok) := Admit(e, limit, period, now, f);
      var (e2, m) := Burst(e1, k - 1, limit, period, now, f);
      (e2, m + if ok then 1 else 0)
  }

  function Min(a: int, b: int): int
  {
    if a <= b then a else b
  }

  /** Within an interval, requests for a key are allowed until the count
    * reaches the larger of the limit and the burst limit, and none after. */
  lemma {:induction false} BurstAllowsUpToCap(e: Entry, k: nat, limit: int, period: int, now: int, f: Factor)
    requires f.den > 0
    requires 0 <= now - e.lastRequest <= e.interval
    requires 0 <= e.count <= Cap(e.limit, f)
    ensures Burst(e, k, limit, period, now, f).1 == Min(k, Cap(e.limit, f) - e.count)
    decreases k
  {
    if k > 0 {
      var (e1, ok) := Admit(e, limit, period, now, f);
      BurstAllowsUpToCap(e1, k - 1, limit, period, now, f);
    }
  }

  /** A new key under the default configuration: of `k` calls in the same
    * instant, the first creates the entry and at most 150 are allowed. */
  lemma DefaultKeyAllows150(k: nat, now: int)
    ensures var c := WithDefaults(DefaultRateLimiterConfig());
      var e := Entry(1, now, EffectiveLimit(c, 0), EffectivePeriod(c, 0));
      1 + Burst(e, k, EffectiveLimit(c, 0), EffectivePeriod(c, 0), now, c.burstFactor).1 == Min(k + 1, 150)
  {
    var c := WithDefaults(DefaultRateLimiterConfig());
    assert BurstLimit(100, Factor(3, 2)) == 150;
    BurstAllowsUpToCap(Entry(1, now, 100, Minute), k, 100, Minute, now, c.burstFactor);
  }

  /** An allowed request within the interval leaves one fewer remaining
    * under the limit. */
  lemma AdmitCountsDown(e: Entry, limit: int, period: int, now: int, f: Factor)
    requires f.den > 0 && 0 <= now - e.lastRequest <= e.interval && e.count < e.limit
    ensures var r := Admit(e, limit, period, now, f);
      r.1 && r.0.limit - r.0.count == e.limit - e.count - 1 && r.0.interval == e.interval
  {
  }
}
