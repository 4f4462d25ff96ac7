/** Resolving a table or outlet code into a session: the trimmed code is looked
    up in the scan cache first, then sent to the scan API; a success is cached
    and installed with SET_QR. A code that arrives in the URL is resolved with
    up to two attempts, a fixed delay between them, and a cancellation flag
    that the page sets when it goes away. */
module ResolveCode {
  import opened Types
  import opened Text
  import opened AppContext
  import opened ScanCache

  const MaxAttempts := 2
  const RetryDelayMs := 1500
  const DefaultErrorMessage := "Something went wrong"

  /** What one attempt meets from the outside world: the clock when the cache
      is read, the scan API's outcome, the clock when the cache is written, and
      whether the storage refuses that write. */
  datatype AttemptEnv = AttemptEnv(readAt: int, remote: Remote<QRContextResponse>, writtenAt: int, writeFails: bool)

  /** When the page's cleanup sets the cancellation flag: never, while attempt
      `attempt` is awaited, or during the delay that follows attempt `attempt`.
      These are the only points where the cleanup can run. */
  datatype Cancel = NotCancelled | DuringAttempt(attempt: nat) | DuringDelay(attempt: nat)

  /** Everything one resolution can change: the cache storage, the session
      state, the hook's `error` and `loading`, and the codes sent to the scan API. */
  datatype World = World(storage: Storage, state: AppState, error: Option<string>, loading: bool, scans: seq<string>)

  datatype Resolved = Resolved(world: World, ok: bool)

  /** `resolveCode(code)`. A blank code changes nothing, not even `loading`.
      Otherwise the call ends with `loading` false; it succeeds exactly when the
      cache serves the trimmed code or the scan API answers; a failure
      dispatches nothing and sets the error. */
  function Resolve(available: bool, w: World, code: string, env: AttemptEnv, errorMessage: string): (r: Resolved)
    ensures Trim(code) == [] ==> r == Resolved(w, false)
    ensures Trim(code) != [] ==> !r.world.loading
    ensures r.ok <==> Trim(code) != [] && (CacheServes(available, w.storage, code, env.readAt) || env.remote.Ok?)
    ensures !r.ok ==> r.world.state == w.state
    ensures r.ok ==> r.world.error == None && r.world.state.qrContext.Some?
  {
    var t := Trim(code);
    if t == [] then Resolved(w, false)
    else Lookup(available, w.(error := None, loading := true), t, env, errorMessage)
  }

  /** The `try` block on the non-blank trimmed code `t`, with its `finally`:
      a cache hit installs the cached response; otherwise the scan API is
      called. */
  function Lookup(available: bool, w: World, t: string, env: AttemptEnv, errorMessage: string): (r: Resolved)
    ensures !r.world.loading && r.world.error.Some? == !r.ok
  {
    var hit := if available then CachedContext(w.storage, t, env.readAt) else None;
    var s1 := if available then StorageAfterGet(w.storage, t, env.readAt) else w.storage;
    if hit.Some? && hit.value.qrContext.Some? then
      Resolved(w.(storage := s1, state := ApplySetQr(w.state, hit.value), error := None, loading := false), true)
    else Scan(available, w.(storage := s1), t, env, errorMessage)
  }

  /** The scan API call on a miss: an answer is cached with the default time
      to live and installed; a failure sets the error to the thrown message,
      or to the fallback text. Either way the code is sent once. */
  function Scan(available: bool, w: World, t: string, env: AttemptEnv, errorMessage: string): (r: Resolved)
    ensures r.world.scans == w.scans + [t] && !r.world.loading
    ensures r.ok <==> env.remote.Ok?
    ensures r.ok ==> r.world.state == ApplySetQr(w.state, env.remote.value) && r.world.error.None?
    ensures !r.ok ==> r.world == w.(error := Some(env.remote.message.GetOr(errorMessage)), loading := false, scans := w.scans + [t])
  {
    match env.remote
    case Ok(d) =>
      var s2 := if available then StorageAfterSet(w.storage, t, d, DefaultTtlMs, env.writtenAt, env.writeFails) else w.storage;
      Resolved(World(s2, ApplySetQr(w.state, d), None, false, w.scans + [t]), true)
    case Thrown(m) =>
      Resolved(World(w.storage, w.state, Some(m.GetOr(errorMessage)), false, w.scans + [t]), false)
  }

  /** The cache holds a servable, unexpired entry for the trimmed code. */
  predicate CacheServes(available: bool, storage: Storage, code: string, now: int) {
    available && CachedContext(storage, Trim(code), now).Some?
  }

  /** A cache hit installs the cached response without calling the scan API
      and without touching the storage. */
  lemma ResolveCacheHit(available: bool, w: World, code: string, env: AttemptEnv, em: string)
    requires Trim(code) != [] && CacheServes(available, w.storage, code, env.readAt)
    ensures var d := CachedContext(w.storage, Trim(code), env.readAt).value;
      Resolve(available, w, code, env, em)
        == Resolved(w.(state := ApplySetQr(w.state, d), error := None, loading := false), true)
  {
  }

  /** On a miss, a scan API success is cached under the trimmed code with the
      default time to live, installed with SET_QR, and the call succeeds. */
  lemma ResolveRemoteSuccess(available: bool, w: World, code: string, env: AttemptEnv, em: string)
    requires Trim(code) != [] && !CacheServes(available, w.storage, code, env.readAt) && env.remote.Ok?
    ensures var t := Trim(code);
      var r := Resolve(available, w, code, env, em);
      var s1 := if available then StorageAfterGet(w.storage, t, env.readAt) else w.storage;
      && r.ok
      && r.world.scans == w.scans + [t]
      && r.world.state == ApplySetQr(w.state, env.remote.value)
      && r.world.storage == (if available then StorageAfterSet(s1, t, env.remote.value, DefaultTtlMs, env.writtenAt, env.writeFails) else s1)
  {
  }

  /** On a miss, a scan API failure sets the error to the thrown message, or to
      the fallback text when what was thrown carries none; nothing is cached
      and nothing is dispatched. */
  lemma ResolveRemoteFailure(available: bool, w: World, code: string, env: AttemptEnv, em: string)
    requires Trim(code) != [] && !CacheServes(available, w.storage, code, env.readAt) && env.remote.Thrown?
    ensures var t := Trim(code);
      var r := Resolve(available, w, code, env, em);
      && !r.ok
      && r.world.error == Some(env.remote.message.GetOr(em))
      && r.world.state == w.state
      && r.world.scans == w.scans + [t]
      && r.world.storage == (if available then StorageAfterGet(w.storage, t, env.readAt) else w.storage)
      && (available ==> CacheKey(t) !in r.world.storage || r.world.storage[CacheKey(t)] == w.storage[CacheKey(t)])
  {
  }

  /** A failed resolution leaves a storage that cannot serve the code, so a
      retry of the same code always goes to the scan API, and succeeds exactly
      when the API answers. */
  lemma RetryNeverHitsCache(available: bool, w: World, code: string, env1: AttemptEnv, env2: AttemptEnv, em: string)
    requires Trim(code) != [] && !Resolve(available, w, code, env1, em).ok
    ensures var w1 := Resolve(available, w, code, env1, em).world;
      && !CacheServes(available, w1.storage, code, env2.readAt)
      && Resolve(available, w1, code, env2, em).ok == env2.remote.Ok?
      && Resolve(available, w1, code, env2, em).world.scans == w1.scans + [Trim(code)]
  {
    var t := Trim(code);
    ResolveFailed(available, w, code, env1, em);
    var w1 := Resolve(available, w, code, env1, em).world;
    if available {
      MissStaysMiss(w.storage, t, env1.readAt, env2.readAt);
    }
    assert !CacheServes(available, w1.storage, code, env2.readAt);
    ResolveMiss(available, w1, code, env2, em);
  }

  /** The world a failed resolution of a non-blank code leaves. */
  lemma ResolveFailed(available: bool, w: World, code: string, env: AttemptEnv, em: string)
    requires Trim(code) != [] && !Resolve(available, w, code, env, em).ok
    ensures env.remote.Thrown? && !CacheServes(available, w.storage, code, env.readAt)
    ensures Resolve(available, w, code, env, em).world
         == World(if available then StorageAfterGet(w.storage, Trim(code), env.readAt) else w.storage,
                  w.state, Some(env.remote.message.GetOr(em)), false, w.scans + [Trim(code)])
  {
  }

  /** A resolution the cache cannot serve calls the scan API once and succeeds
      exactly when the API answers. */
  lemma ResolveMiss(available: bool, w: World, code: string, env: AttemptEnv, em: string)
    requires Trim(code) != [] && !CacheServes(available, w.storage, code, env.readAt)
    ensures Resolve(available, w, code, env, em).ok == env.remote.Ok?
    ensures Resolve(available, w, code, env, em).world.scans == w.scans + [Trim(code)]
  {
  }

  /** A resolution calls the scan API once, unless the code is blank or the
      cache serves it. */
  lemma ResolveScans(available: bool, w: World, code: string, env: AttemptEnv, em: string)
    ensures |Resolve(available, w, code, env, em).world.scans|
         == |w.scans| + (if Trim(code) == [] || CacheServes(available, w.storage, code, env.readAt) then 0 else 1)
  {
  }

  /** After a successful scan API call whose cache write went through, the same
      code resolved again before the entry expires is served by the cache,
      with no second call to the API. */
  lemma SecondResolveServedByCache(w: World, code: string, code': string, env1: AttemptEnv, env2: AttemptEnv, em: string)
    requires Trim(code) != [] && Trim(code') == Trim(code)
    requires !CacheServes(true, w.storage, code, env1.readAt)
    requires env1.remote.Ok? && env1.remote.value.qrContext.Some? && !env1.writeFails
    requires env1.writtenAt + DefaultTtlMs != 0 && env2.readAt < env1.writtenAt + DefaultTtlMs
    ensures var w1 := Resolve(true, w, code, env1, em).world;
      var r2 := Resolve(true, w1, code', env2, em);
      r2.ok && r2.world.scans == w1.scans && r2.world.storage == w1.storage
      && r2.world.state == ApplySetQr(w1.state, env1.remote.value)
  {
    var t := Trim(code);
    var s1 := StorageAfterGet(w.storage, t, env1.readAt);
    TrimIdempotent(code);
    TrimIdempotent(code');
    SetThenGetHit(s1, t, Trim(code'), env1.remote.value, DefaultTtlMs, env1.writtenAt, env2.readAt);
  }

  /** What the URL loop has done when it stops: the world it leaves, the
      number of attempts it made, and whether it reported failure. */
  datatype RunResult = RunResult(world: World, attempts: nat, failed: bool)

  /** One turn of the URL loop: the world it leaves and whether it returns
      from `run()`. */
  datatype Turn = Turn(world: World, returned: bool)

  /** Turn `n` (counted from 1): attempt `n`; a return when the flag was set
      during the attempt or the attempt succeeded; otherwise, unless it was
      the last attempt, the delay, a return when the flag was set during it,
      and the error cleared and `loading` set again for the next attempt. */
  function TurnAt(available: bool, w: World, code: string, env: AttemptEnv, cancel: Cancel, em: string, n: nat): (r: Turn)
    ensures var res := Resolve(available, w, code, env, em);
      r.returned <==> cancel == DuringAttempt(n) || res.ok || (n < MaxAttempts && cancel == DuringDelay(n))
    ensures var res := Resolve(available, w, code, env, em);
      r.world == if r.returned || n >= MaxAttempts then res.world else res.world.(error := None, loading := true)
  {
    var res := Resolve(available, w, code, env, em);
    if cancel == DuringAttempt(n) || res.ok then Turn(res.world, true)
    else if n < MaxAttempts then
      if cancel == DuringDelay(n) then Turn(res.world, true)
      else Turn(res.world.(error := None, loading := true), false)
    else Turn(res.world, false)
  }

  /** The URL loop from the head of the `while`, with `attempt` attempts made
      and the flag still clear: it ends by a return, with no failure, or by
      running out of attempts, with the failure reported. */
  function RunFrom(available: bool, w: World, code: string, envs: seq<AttemptEnv>, cancel: Cancel, em: string, attempt: nat): (r: RunResult)
    requires |envs| == MaxAttempts
    ensures attempt >= MaxAttempts ==> r == RunResult(w, attempt, true)
    ensures attempt < MaxAttempts ==> attempt < r.attempts <= MaxAttempts
    ensures attempt < MaxAttempts && Trim(code) != [] ==> !r.world.loading
    ensures r.failed ==> r.attempts >= MaxAttempts
    decreases MaxAttempts - attempt
  {
    if attempt >= MaxAttempts then RunResult(w, attempt, true)
    else
      var turn := TurnAt(available, w, code, envs[attempt], cancel, em, attempt + 1);
      if turn.returned then RunResult(turn.world, attempt + 1, false)
      else RunFrom(available, turn.world, code, envs, cancel, em, attempt + 1)
  }

  /** The loop stops at the first success: when the first attempt succeeds it
      is the only one and no failure is reported. */
  lemma RunStopsAtFirstSuccess(available: bool, w: World, code: string, envs: seq<AttemptEnv>, cancel: Cancel, em: string)
    requires |envs| == MaxAttempts
    requires Resolve(available, w, code, envs[0], em).ok
    ensures var r := RunFrom(available, w, code, envs, cancel, em, 0);
      r == RunResult(Resolve(available, w, code, envs[0], em).world, 1, false)
  {
  }

  /** Failure is reported exactly when both attempts failed, the second one
      being decided by the scan API alone, and the cleanup did not run while
      the loop was still going. */
  lemma RunFailsIffEveryAttemptFails(available: bool, w: World, code: string, envs: seq<AttemptEnv>, cancel: Cancel, em: string)
    requires |envs| == MaxAttempts && Trim(code) != []
    ensures var r := RunFrom(available, w, code, envs, cancel, em, 0);
      r.failed <==>
        && !Resolve(available, w, code, envs[0], em).ok
        && !envs[1].remote.Ok?
        && cancel != DuringAttempt(1) && cancel != DuringDelay(1) && cancel != DuringAttempt(2)
  {
    var r1 := Resolve(available, w, code, envs[0], em);
    if !r1.ok {
      RetryNeverHitsCache(available, w, code, envs[0], envs[1], em);
      var w1 := r1.world.(error := None, loading := true);
      assert w1.storage == r1.world.storage && w1.scans == r1.world.scans;
      assert Resolve(available, w1, code, envs[1], em).ok == envs[1].remote.Ok?;
    }
  }

  /** Once the flag is set no further attempt is made and neither the error,
      `loading` nor the failure flag changes: cancelled during the first
      attempt or the delay after it, the loop ends with the first attempt's
      outcome untouched. */
  lemma RunCancelledEarly(available: bool, w: World, code: string, envs: seq<AttemptEnv>, em: string, cancel: Cancel)
    requires |envs| == MaxAttempts
    requires cancel == DuringAttempt(1) || cancel == DuringDelay(1)
    ensures RunFrom(available, w, code, envs, cancel, em, 0)
         == RunResult(Resolve(available, w, code, envs[0], em).world, 1, false)
  {
  }

  /** Cancelled during the second attempt, the loop makes two attempts and
      reports nothing, whatever the second attempt's outcome. */
  lemma RunCancelledLate(available: bool, w: World, code: string, envs: seq<AttemptEnv>, em: string)
    requires |envs| == MaxAttempts
    ensures var r := RunFrom(available, w, code, envs, DuringAttempt(2), em, 0);
      !r.failed && (r.attempts == 2 <==> !Resolve(available, w, code, envs[0], em).ok)
  {
  }

  /** Each attempt calls the scan API once, except a first attempt that the
      cache serves. */
  lemma RunScanCount(available: bool, w: World, code: string, envs: seq<AttemptEnv>, cancel: Cancel, em: string)
    requires |envs| == MaxAttempts && Trim(code) != []
    ensures var r := RunFrom(available, w, code, envs, cancel, em, 0);
      |r.world.scans| == |w.scans| + r.attempts - (if CacheServes(available, w.storage, code, envs[0].readAt) then 1 else 0)
  {
    var r1 := Resolve(available, w, code, envs[0], em);
    ResolveScans(available, w, code, envs[0], em);
    var t1 := TurnAt(available, w, code, envs[0], cancel, em, 1);
    if !t1.returned {
      ResolveFailed(available, w, code, envs[0], em);
      RetryNeverHitsCache(available, w, code, envs[0], envs[1], em);
      var w1 := t1.world;
      assert w1.storage == r1.world.storage;
      ResolveMiss(available, w1, code, envs[1], em);
      var t2 := TurnAt(available, w1, code, envs[1], cancel, em, 2);
      assert t2.world.scans == Resolve(available, w1, code, envs[1], em).world.scans;
      assert RunFrom(available, w1, code, envs, cancel, em, 1)
          == if t2.returned then RunResult(t2.world, 2, false) else RunFrom(available, t2.world, code, envs, cancel, em, 2);
    }
  }

  /** The hook's state: the session store, the scan cache, and its own cells.
      `failReports` lists the codes handed to the failure callback. */
  class CodeResolver {
    const store: Store
    const cache: ScanCache
    const errorMessage: string
    var loading: bool
    var error: Option<string>
    var urlResolveFailed: bool
    var failReports: seq<string>
    var scanRequests: seq<string>

    /** The part of the world one resolution can change. */
    function Current(): World
      reads this, store, cache
    {
      World(cache.storage, store.state, error, loading, scanRequests)
    }

    /** The hook's first render: `loading` starts true for any non-empty URL
        code, before it is trimmed. */
    constructor (store: Store, cache: ScanCache, initialCode: Option<string>, errorMessage: Option<string>)
      ensures this.store == store && this.cache == cache
      ensures this.errorMessage == errorMessage.GetOr(DefaultErrorMessage)
      ensures loading == Truthy(initialCode) && error == None && !urlResolveFailed
      ensures failReports == [] && scanRequests == []
    {
      this.store := store;
      this.cache := cache;
      this.errorMessage := errorMessage.GetOr(DefaultErrorMessage);
      loading := Truthy(initialCode);
      error := None;
      urlResolveFailed := false;
      failReports := [];
      scanRequests := [];
    }

    method SetError(msg: Option<string>)
      modifies this
      ensures error == msg && loading == old(loading) && urlResolveFailed == old(urlResolveFailed)
      ensures failReports == old(failReports) && scanRequests == old(scanRequests)
    {
      error := msg;
    }

    /** `resolveCode(code)`, with the cache read, the scan API call and the
        cache write meeting `env`. */
    method ResolveCode(code: string, env: AttemptEnv) returns (ok: bool)
      modifies this, store, cache
      ensures Resolve(cache.available, old(Current()), code, env, errorMessage) == Resolved(Current(), ok)
      ensures urlResolveFailed == old(urlResolveFailed) && failReports == old(failReports)
    {
      var trimmed := Trim(code);
      if trimmed == [] {
        return false;
      }
      error := None;
      loading := true;
      ok := LookupCode(trimmed, env);
    }

    /** The `try` block of `resolveCode` on the trimmed code `t`. */
    method LookupCode(t: string, env: AttemptEnv) returns (ok: bool)
      modifies this, store, cache
      ensures Lookup(cache.available, old(Current()), t, env, errorMessage) == Resolved(Current(), ok)
      ensures urlResolveFailed == old(urlResolveFailed) && failReports == old(failReports)
    {
      ghost var w := Current();
      var cached := cache.Get(t, env.readAt);
      if cached.Some? && cached.value.qrContext.Some? {
        store.DispatchSetQr(cached.value);
        error := None;
        loading := false;
        return true;
      }
      assert Current() == w.(storage := cache.storage);
      ok := ScanCode(t, env);
    }

    /** The scan API call of `resolveCode` on a cache miss. */
    method ScanCode(t: string, env: AttemptEnv) returns (ok: bool)
      modifies this, store, cache
      ensures Scan(cache.available, old(Current()), t, env, errorMessage) == Resolved(Current(), ok)
      ensures urlResolveFailed == old(urlResolveFailed) && failReports == old(failReports)
    {
      scanRequests := scanRequests + [t];
      match env.remote {
        case Ok(data) =>
          cache.SetWithDefaultTtl(t, data, env.writtenAt, env.writeFails);
          store.DispatchSetQr(data);
          error := None;
          ok := true;
        case Thrown(message) =>
          error := Some(message.GetOr(errorMessage));
          ok := false;
      }
      loading := false;
    }

    /** The effect that resolves the URL code: a blank code only clears
        `loading`; otherwise the retry loop runs on the trimmed code. */
    method ResolveUrlCode(initialCode: Option<string>, envs: seq<AttemptEnv>, cancel: Cancel) returns (attempts: nat)
      requires |envs| == MaxAttempts
      modifies this, store, cache
      ensures var code := Trim(initialCode.GetOr(""));
        code == [] ==>
          && attempts == 0
          && Current() == old(Current()).(loading := false)
          && urlResolveFailed == old(urlResolveFailed) && failReports == old(failReports)
      ensures var code := Trim(initialCode.GetOr(""));
        var r := RunFrom(cache.available, old(Current()), code, envs, cancel, errorMessage, 0);
        code != [] ==>
          && Current() == r.world && attempts == r.attempts
          && urlResolveFailed == (old(urlResolveFailed) || r.failed)
          && failReports == old(failReports) + (if r.failed then [code] else [])
    {
      var code := Trim(initialCode.GetOr(""));
      if code == [] {
        loading := false;
        return 0;
      }
      attempts := Run(code, envs, cancel);
    }

    /** One turn of `run()`'s loop, attempt `n` meeting `env`. */
    method Attempt(code: string, env: AttemptEnv, cancel: Cancel, n: nat) returns (returned: bool)
      modifies this, store, cache
      ensures var turn := TurnAt(cache.available, old(Current()), code, env, cancel, errorMessage, n);
        Current() == turn.world && returned == turn.returned
      ensures urlResolveFailed == old(urlResolveFailed) && failReports == old(failReports)
    {
      var ok := ResolveCode(code, env);
      if cancel == DuringAttempt(n) || ok {
        return true;
      }
      if n < MaxAttempts {
        if cancel == DuringDelay(n) {
          return true;
        }
        error := None;
        loading := true;
      }
      return false;
    }

    /** `run()`: up to `MaxAttempts` attempts on the non-blank trimmed code, the
        `i`-th meeting `envs[i]`, with the flag set as `cancel` says. The flag is
        only ever found set right after an await, where the turn returns, so
        the loop guard and the final check always read it clear. */
    method Run(code: string, envs: seq<AttemptEnv>, cancel: Cancel) returns (attempts: nat)
      requires |envs| == MaxAttempts
      modifies this, store, cache
      ensures var r := RunFrom(cache.available, old(Current()), code, envs, cancel, errorMessage, 0);
        && Current() == r.world && attempts == r.attempts
        && urlResolveFailed == (old(urlResolveFailed) || r.failed)
        && failReports == old(failReports) + (if r.failed then [code] else [])
    {
      attempts := 0;
      while attempts < MaxAttempts
        invariant 0 <= attempts <= MaxAttempts
        invariant RunFrom(cache.available, Current(), code, envs, cancel, errorMessage, attempts)
               == RunFrom(cache.available, old(Current()), code, envs, cancel, errorMessage, 0)
        invariant urlResolveFailed == old(urlResolveFailed) && failReports == old(failReports)
        decreases MaxAttempts - attempts
      {
        ghost var before := Current();
        ghost var turn := TurnAt(cache.available, before, code, envs[attempts], cancel, errorMessage, attempts + 1);
        var returned := Attempt(code, envs[attempts], cancel, attempts + 1);
        assert Current() == turn.world && returned == turn.returned;
        attempts := attempts + 1;
        if returned {
          return;
        }
      }
      urlResolveFailed := true;
      failReports := failReports + [code];
    }
  }
}
