/** The scan-context cache: entries of the browser's key-value storage, keyed by
    the trimmed scan code, each holding a scan response and its expiry time.
    The clock is a parameter (`now`, in milliseconds); a stored text that does
    not parse to an object is the value `Unparseable`. */
module ScanCache {
  import opened Types
  import opened Text

  const CachePrefix := "hotel_ui_scan_"

  /** 15 minutes, in milliseconds. */
  const DefaultTtlMs := 15 * 60 * 1000

  /** A stored entry as it parses back: `expiresAt` is 0 both for a zero and
      for a missing expiry, which the lookup treats alike (both are falsy). */
  datatype StoredValue = Unparseable | Entry(data: Option<QRContextResponse>, expiresAt: int)

  type Storage = map<string, StoredValue>

  /** `cacheKey`: the prefix followed by the trimmed code. */
  function CacheKey(code: string): (k: string)
    ensures |k| == |CachePrefix| + |Trim(code)|
    ensures k[..|CachePrefix|] == CachePrefix && k[|CachePrefix|..] == Trim(code)
  {
    CachePrefix + Trim(code)
  }

  /** Two codes share a storage key exactly when they trim to the same text. */
  lemma CacheKeySameIffSameTrim(a: string, b: string)
    ensures CacheKey(a) == CacheKey(b) <==> Trim(a) == Trim(b)
  {
    if CacheKey(a) == CacheKey(b) {
      assert Trim(a) == CacheKey(a)[|CachePrefix|..];
    }
  }

  /** Codes that differ only by surrounding whitespace share one entry. */
  lemma PaddedCodesShareKey(p: string, code: string, q: string)
    requires Blank(p) && Blank(q)
    ensures CacheKey(p + code + q) == CacheKey(code)
  {
    TrimPadding(p, code, q);
  }

  /** An entry the lookup can serve once its time has not yet come: it parsed,
      its data has a session context, and its expiry is non-zero. */
  predicate Servable(v: StoredValue) {
    v.Entry? && v.data.Some? && v.data.value.qrContext.Some? && v.expiresAt != 0
  }

  /** The value `getCachedContext(code)` returns at time `now`. */
  function CachedContext(storage: Storage, code: string, now: int): (r: Option<QRContextResponse>)
    ensures r.Some? ==> r.value.qrContext.Some?
    ensures r.Some? <==> CacheKey(code) in storage && Servable(storage[CacheKey(code)]) && now < storage[CacheKey(code)].expiresAt
  {
    var key := CacheKey(code);
    if key in storage && Servable(storage[key]) && now < storage[key].expiresAt then storage[key].data else None
  }

  /** The storage after `getCachedContext(code)` at time `now`: a servable entry
      whose time has come is removed, and nothing else changes. */
  function StorageAfterGet(storage: Storage, code: string, now: int): (r: Storage)
    ensures r == storage || r == storage - {CacheKey(code)}
    ensures CacheKey(code) in r ==> r[CacheKey(code)] == storage[CacheKey(code)]
  {
    var key := CacheKey(code);
    if key in storage && Servable(storage[key]) && now >= storage[key].expiresAt then storage - {key} else storage
  }

  /** The storage after `setCachedContext(code, data, ttl)` at time `now`; a write
      that throws (quota exceeded, private mode) leaves the storage as it was. */
  function StorageAfterSet(storage: Storage, code: string, data: QRContextResponse, ttl: int, now: int, writeFails: bool): (r: Storage)
    ensures writeFails ==> r == storage
    ensures !writeFails ==> CacheKey(code) in r && r[CacheKey(code)] == Entry(Some(data), now + ttl)
    ensures r.Keys <= storage.Keys + {CacheKey(code)}
  {
    if writeFails then storage else storage[CacheKey(code) := Entry(Some(data), now + ttl)]
  }

  /** After a set at time `t`, a get with any code trimming to the same text at
      a time before the expiry returns the stored data and removes nothing. */
  lemma SetThenGetHit(s: Storage, code: string, code': string, d: QRContextResponse, ttl: int, t: int, t': int)
    requires Trim(code') == Trim(code)
    requires d.qrContext.Some? && t + ttl != 0 && t' < t + ttl
    ensures var s' := StorageAfterSet(s, code, d, ttl, t, false);
      CachedContext(s', code', t') == Some(d) && StorageAfterGet(s', code', t') == s'
  {
    CacheKeySameIffSameTrim(code, code');
  }

  /** After a set at time `t`, a get at or after the expiry returns nothing and
      removes the entry. */
  lemma SetThenGetExpired(s: Storage, code: string, d: QRContextResponse, ttl: int, t: int, t': int)
    requires d.qrContext.Some? && t + ttl != 0 && t' >= t + ttl
    ensures var s' := StorageAfterSet(s, code, d, ttl, t, false);
      CachedContext(s', code, t') == None
      && StorageAfterGet(s', code, t') == s' - {CacheKey(code)}
      && CacheKey(code) !in StorageAfterGet(s', code, t')
  {
  }

  /** A missing entry, an unparseable one, one without data or without a
      session context, or one with a zero expiry, yields nothing and leaves
      the storage unchanged, whatever the time. */
  lemma UnservableEntryMisses(s: Storage, code: string, now: int)
    requires var key := CacheKey(code);
      || key !in s
      || s[key].Unparseable?
      || s[key].data.None?
      || s[key].data.value.qrContext.None?
      || s[key].expiresAt == 0
    ensures CachedContext(s, code, now) == None && StorageAfterGet(s, code, now) == s
  {
  }

  /** Get and set touch only their own key. */
  lemma OtherKeysUntouched(s: Storage, code: string, d: QRContextResponse, ttl: int, now: int, writeFails: bool, k: string)
    requires k != CacheKey(code)
    ensures var g := StorageAfterGet(s, code, now);
      (k in g <==> k in s) && (k in s ==> g[k] == s[k])
    ensures var w := StorageAfterSet(s, code, d, ttl, now, writeFails);
      (k in w <==> k in s) && (k in s ==> w[k] == s[k])
  {
    var key := CacheKey(code);
    var g := StorageAfterGet(s, code, now);
    assert g == s || g == s - {key};
    if !writeFails {
      assert StorageAfterSet(s, code, d, ttl, now, writeFails) == s[key := Entry(Some(d), now + ttl)];
    }
  }

  /** In particular, keys that do not start with the prefix, such as the
      storage's other users' keys, are never touched. */
  lemma ForeignKeysUntouched(s: Storage, code: string, d: QRContextResponse, ttl: int, now: int, writeFails: bool, k: string)
    requires |k| < |CachePrefix| || k[..|CachePrefix|] != CachePrefix
    ensures var g := StorageAfterGet(s, code, now);
      (k in g <==> k in s) && (k in s ==> g[k] == s[k])
    ensures var w := StorageAfterSet(s, code, d, ttl, now, writeFails);
      (k in w <==> k in s) && (k in s ==> w[k] == s[k])
  {
    OtherKeysUntouched(s, code, d, ttl, now, writeFails, k);
  }

  /** A miss stays a miss, at any later (or earlier) time, when nothing is
      written in between: an entry the lookup found expired is removed, so the
      lookup's own removal never turns a miss into a hit. */
  lemma MissStaysMiss(s: Storage, code: string, t: int, t': int)
    requires CachedContext(s, code, t) == None
    ensures CachedContext(StorageAfterGet(s, code, t), code, t') == None
  {
  }

  /** The storage as the page sees it: `localStorage`, absent when the page runs
      without one. */
  class ScanCache {
    var storage: Storage
    const available: bool

    constructor (available: bool, storage: Storage)
      ensures this.available == available && this.storage == storage
    {
      this.available := available;
      this.storage := storage;
    }

    /** `getCachedContext(code)` at time `now`. */
    method Get(code: string, now: int) returns (r: Option<QRContextResponse>)
      modifies this
      ensures r == (if available then CachedContext(old(storage), code, now) else None)
      ensures storage == (if available then StorageAfterGet(old(storage), code, now) else old(storage))
    {
      if !available {
        return None;
      }
      var key := CacheKey(code);
      if key !in storage {
        return None;
      }
      var entry := storage[key];
      if !Servable(entry) {
        return None;
      }
      if now >= entry.expiresAt {
        storage := storage - {key};
        return None;
      }
      r := entry.data;
    }

    /** `setCachedContext(code, data, ttl)` at time `now`; `writeFails` says
        whether the storage refuses the write. */
    method Set(code: string, data: QRContextResponse, ttl: int, now: int, writeFails: bool)
      modifies this
      ensures storage == (if available then StorageAfterSet(old(storage), code, data, ttl, now, writeFails) else old(storage))
    {
      if !available {
        return;
      }
      if !writeFails {
        storage := storage[CacheKey(code) := Entry(Some(data), now + ttl)];
      }
    }

    /** `setCachedContext(code, data)` with the default time to live. */
    method SetWithDefaultTtl(code: string, data: QRContextResponse, now: int, writeFails: bool)
      modifies this
      ensures storage == (if available then StorageAfterSet(old(storage), code, data, DefaultTtlMs, now, writeFails) else old(storage))
      ensures available && !writeFails ==> storage[CacheKey(code)].expiresAt == now + 900000
    {
      Set(code, data, DefaultTtlMs, now, writeFails);
    }
  }
}
