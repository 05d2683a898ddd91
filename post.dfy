/**
 * src/post.ts: after the build, store the cache under a time-stamped key, retrying
 * failed uploads, and then remove the entries of the same key family that the new
 * entry supersedes. The clock, the cache service and the REST calls that list and
 * delete cache entries are oracles passed in as functions.
 */
module Post {
  import opened Wrappers
  import opened JsString
  import Utils

  /** MAX_UPLOAD_RETRIES */
  const MaxUploadRetries: nat := 10

  // ---------------------------------------------------------------- time-stamped keys

  /** The key of one upload attempt: the primary key, `_`, and `Date.now()` in decimal */
  function AttemptKey(primary: string, now: nat): string {
    primary + "_" + NatToString(now)
  }

  /** The key family: `key.slice(0, key.lastIndexOf('_'))` */
  function KeyPrefix(key: string): string {
    Slice(key, 0, LastIndexOf(key, '_'))
  }

  /** What follows the last `_` of a key: `key.slice(key.lastIndexOf('_') + 1)` */
  function TimestampText(key: string): string {
    Slice(key, LastIndexOf(key, '_') + 1, |key|)
  }

  /** getTimestamp: the text after the last `_` read as a decimal integer, NaN as None */
  function Timestamp(key: string): Option<int> {
    ParseInt(TimestampText(key), 10)
  }

  /**
   * An attempt key gives back its primary key and its time, even when the primary key
   * itself holds `_`: the last `_` is the one the attempt added.
   */
  lemma AttemptKeyRoundTrip(primary: string, now: nat)
    ensures KeyPrefix(AttemptKey(primary, now)) == primary
    ensures Timestamp(AttemptKey(primary, now)) == Some(now)
  {
    var digits := NatToString(now);
    var key := AttemptKey(primary, now);
    assert key[|primary|] == '_';
    assert forall i :: |primary| < i < |key| ==> key[i] == digits[i - |primary| - 1];
    var last := LastIndexOf(key, '_');
    assert last == |primary|;
    assert Slice(key, 0, last) == primary;
    assert TimestampText(key) == digits;
    ParseNatToString(now);
  }

  /** Without any `_`, `slice(0, -1)` drops the last character, and the whole key is read as the time */
  lemma KeyWithoutDelimiter(key: string)
    requires key != [] && '_' !in key
    ensures KeyPrefix(key) == key[..|key| - 1]
    ensures Timestamp(key) == ParseInt(key, 10)
  {
    assert LastIndexOf(key, '_') == -1;
    assert TimestampText(key) == key;
  }

  // ---------------------------------------------------------------- saveCache

  /** How one `Cache.saveCache` call ends */
  datatype UploadOutcome =
    | Uploaded            // resolved
    | ReserveCacheError   // rejected with Cache.ReserveCacheError
    | OtherError          // rejected with any other Error
    | NonError            // rejected with a value that is not an Error

  /** The rejections the loop catches and retries: every `Error` */
  predicate IsRetried(outcome: UploadOutcome) {
    outcome == ReserveCacheError || outcome == OtherError
  }

  /** What saveCache settles to: a boolean, or the non-Error it rethrows */
  datatype SaveResult = Returned(success: bool) | Rethrown

  /** The result, the key it stored (None: `storedCacheKey` untouched) and how many uploads it tried */
  datatype SaveRun = SaveRun(result: SaveResult, stored: Option<string>, attempts: nat)

  /** The outcome of attempt i, which uploads under the key built from the clock's reading for it */
  function Attempt(primary: string, clock: nat -> nat, upload: (nat, string) -> UploadOutcome, i: nat): UploadOutcome {
    upload(i, AttemptKey(primary, clock(i)))
  }

  /** The retry loop from attempt i on */
  function SaveFrom(primary: string, clock: nat -> nat, upload: (nat, string) -> UploadOutcome, i: nat): SaveRun
    decreases MaxUploadRetries - i
  {
    if i >= MaxUploadRetries then SaveRun(Returned(false), None, MaxUploadRetries)
    else
      match Attempt(primary, clock, upload, i)
      case Uploaded => SaveRun(Returned(true), Some(AttemptKey(primary, clock(i))), i + 1)
      case NonError => SaveRun(Rethrown, None, i + 1)
      case _ => SaveFrom(primary, clock, upload, i + 1)
  }

  /** The first attempt at or after i that ends the loop, or MaxUploadRetries if none does */
  function FirstDecisive(primary: string, clock: nat -> nat, upload: (nat, string) -> UploadOutcome, i: nat): (k: nat)
    requires i <= MaxUploadRetries
    ensures i <= k <= MaxUploadRetries
    ensures forall j :: i <= j < k ==> IsRetried(Attempt(primary, clock, upload, j))
    ensures k < MaxUploadRetries ==> !IsRetried(Attempt(primary, clock, upload, k))
    decreases MaxUploadRetries - i
  {
    if i == MaxUploadRetries || !IsRetried(Attempt(primary, clock, upload, i)) then i
    else FirstDecisive(primary, clock, upload, i + 1)
  }

  /**
   * The loop ends at the first attempt that is not an Error: success stores that attempt's
   * key, a non-Error is rethrown; ten Errors in a row give false and store nothing.
   */
  lemma {:induction false} SaveFromOutcome(primary: string, clock: nat -> nat, upload: (nat, string) -> UploadOutcome, i: nat)
    requires i <= MaxUploadRetries
    ensures var k := FirstDecisive(primary, clock, upload, i);
      SaveFrom(primary, clock, upload, i) ==
        if k == MaxUploadRetries then SaveRun(Returned(false), None, MaxUploadRetries)
        else if Attempt(primary, clock, upload, k) == Uploaded
        then SaveRun(Returned(true), Some(AttemptKey(primary, clock(k))), k + 1)
        else SaveRun(Rethrown, None, k + 1)
    decreases MaxUploadRetries - i
  {
    if i < MaxUploadRetries && IsRetried(Attempt(primary, clock, upload, i)) {
      SaveFromOutcome(primary, clock, upload, i + 1);
    }
  }

  /**
   * A successful save stores the key of the first successful attempt, from which the
   * reaper recovers the primary key and that attempt's time.
   */
  lemma SavedKeyRoundTrip(primary: string, clock: nat -> nat, upload: (nat, string) -> UploadOutcome)
    requires SaveFrom(primary, clock, upload, 0).result == Returned(true)
    ensures var run := SaveFrom(primary, clock, upload, 0);
      && 1 <= run.attempts <= MaxUploadRetries
      && run.stored == Some(AttemptKey(primary, clock(run.attempts - 1)))
      && Attempt(primary, clock, upload, run.attempts - 1) == Uploaded
      && KeyPrefix(run.stored.value) == primary
      && Timestamp(run.stored.value) == Some(clock(run.attempts - 1))
  {
    SaveFromOutcome(primary, clock, upload, 0);
    var k := FirstDecisive(primary, clock, upload, 0);
    AttemptKeyRoundTrip(primary, clock(k));
  }

  /** A key is stored exactly when the save returns true, and it is never empty */
  lemma {:induction false} SaveStoresOnSuccess(primary: string, clock: nat -> nat, upload: (nat, string) -> UploadOutcome, i: nat)
    requires i <= MaxUploadRetries
    ensures var run := SaveFrom(primary, clock, upload, i);
      && (run.stored.Some? <==> run.result == Returned(true))
      && (run.stored.Some? ==> |run.stored.value| > |primary| + 1)
    decreases MaxUploadRetries - i
  {
    if i < MaxUploadRetries && IsRetried(Attempt(primary, clock, upload, i)) {
      SaveStoresOnSuccess(primary, clock, upload, i + 1);
    }
  }

  /** A store that rejects the first n < 10 uploads with Errors and then accepts one: saved on attempt n + 1 */
  lemma RetriesThenSucceeds(primary: string, clock: nat -> nat, upload: (nat, string) -> UploadOutcome, n: nat)
    requires n < MaxUploadRetries
    requires forall j :: 0 <= j < n ==> IsRetried(Attempt(primary, clock, upload, j))
    requires Attempt(primary, clock, upload, n) == Uploaded
    ensures SaveFrom(primary, clock, upload, 0)
         == SaveRun(Returned(true), Some(AttemptKey(primary, clock(n))), n + 1)
  {
    SaveFromOutcome(primary, clock, upload, 0);
    var k := FirstDecisive(primary, clock, upload, 0);
    assert k == n;
  }

  /** A store that always rejects with Errors: false after exactly ten attempts, nothing stored */
  lemma AlwaysRejected(primary: string, clock: nat -> nat, upload: (nat, string) -> UploadOutcome)
    requires forall j :: 0 <= j < MaxUploadRetries ==> IsRetried(Attempt(primary, clock, upload, j))
    ensures SaveFrom(primary, clock, upload, 0) == SaveRun(Returned(false), None, MaxUploadRetries)
  {
    SaveFromOutcome(primary, clock, upload, 0);
  }

  // ---------------------------------------------------------------- removeStaleCache

  /** An entry is stale when its time is a number strictly below the stored entry's (NaN compares false) */
  predicate IsStale(key: string, storedTimestamp: Option<int>) {
    var t := Timestamp(key);
    t.Some? && storedTimestamp.Some? && t.value < storedTimestamp.value
  }

  /** The `cacheList.filter(...)`: the stale entries, in listing order */
  function SelectStale(listed: seq<string>, storedTimestamp: Option<int>): (stale: seq<string>)
    ensures |stale| <= |listed|
  {
    if listed == [] then []
    else (if IsStale(listed[0], storedTimestamp) then [listed[0]] else []) + SelectStale(listed[1..], storedTimestamp)
  }

  /** The filter keeps exactly the stale entries */
  lemma {:induction false} SelectStaleMembers(listed: seq<string>, storedTimestamp: Option<int>, key: string)
    ensures key in SelectStale(listed, storedTimestamp) <==> key in listed && IsStale(key, storedTimestamp)
  {
    if listed != [] {
      SelectStaleMembers(listed[1..], storedTimestamp, key);
      assert key in listed <==> key == listed[0] || key in listed[1..];
    }
  }

  /** Selection keeps listing order: it distributes over concatenation */
  lemma {:induction false} SelectStaleAppend(a: seq<string>, b: seq<string>, storedTimestamp: Option<int>)
    ensures SelectStale(a + b, storedTimestamp) == SelectStale(a, storedTimestamp) + SelectStale(b, storedTimestamp)
  {
    if a != [] {
      var head := if IsStale(a[0], storedTimestamp) then [a[0]] else [];
      assert (a + b)[0] == a[0];
      assert (a + b)[1..] == a[1..] + b;
      SelectStaleAppend(a[1..], b, storedTimestamp);
      var restA, restB := SelectStale(a[1..], storedTimestamp), SelectStale(b, storedTimestamp);
      assert SelectStale(a + b, storedTimestamp) == head + (restA + restB);
      assert SelectStale(a, storedTimestamp) == head + restA;
      AppendAssociates(head, restA, restB);
    } else {
      assert a + b == b;
    }
  }

  /** Concatenation regroups; a separate step keeps the solver off the time-stamp parser */
  lemma AppendAssociates<T>(x: seq<T>, y: seq<T>, z: seq<T>)
    ensures x + (y + z) == (x + y) + z
  {
  }

  /**
   * The reaper never selects the key just stored, any entry as new or newer, or any entry
   * whose suffix is not a number; and it judges an entry by its suffix alone.
   */
  lemma StaleSelectionIsSafe(listed: seq<string>, stored: string, key: string, other: string)
    requires key in SelectStale(listed, Timestamp(stored))
    requires TimestampText(other) == TimestampText(key)
    ensures key != stored
    ensures Timestamp(key).Some? && Timestamp(stored).Some? && Timestamp(key).value < Timestamp(stored).value
    ensures other in listed ==> other in SelectStale(listed, Timestamp(stored))
  {
    var storedTimestamp := Timestamp(stored);
    SelectStaleMembers(listed, storedTimestamp, key);
    assert IsStale(key, storedTimestamp);
    SelectStaleMembers(listed, storedTimestamp, other);
    assert Timestamp(other) == Timestamp(key);
    assert IsStale(other, storedTimestamp);
  }

  /** Entries stored at times 100, 200 and 300, the last just now: the first two are selected */
  lemma ReaperScenario(prefix: string)
    ensures SelectStale([AttemptKey(prefix, 100), AttemptKey(prefix, 200), AttemptKey(prefix, 300)],
                        Timestamp(AttemptKey(prefix, 300)))
         == [AttemptKey(prefix, 100), AttemptKey(prefix, 200)]
  {
    AttemptKeyRoundTrip(prefix, 300);
    AttemptKeyStale(prefix, 100, 300);
    AttemptKeyStale(prefix, 200, 300);
    AttemptKeyStale(prefix, 300, 300);
    SelectStaleOfThree(AttemptKey(prefix, 100), AttemptKey(prefix, 200), AttemptKey(prefix, 300), Some(300));
  }

  /** Of three entries of which the first two are stale and the last is not, the filter keeps the first two */
  lemma SelectStaleOfThree(k1: string, k2: string, k3: string, storedTimestamp: Option<int>)
    requires IsStale(k1, storedTimestamp) && IsStale(k2, storedTimestamp) && !IsStale(k3, storedTimestamp)
    ensures SelectStale([k1, k2, k3], storedTimestamp) == [k1, k2]
  {
    SelectStaleCons(k1, [k2, k3], storedTimestamp);
    SelectStaleCons(k2, [k3], storedTimestamp);
    SelectStaleCons(k3, [], storedTimestamp);
  }

  /** The filter decides the first entry, then goes on with the rest */
  lemma SelectStaleCons(key: string, rest: seq<string>, storedTimestamp: Option<int>)
    ensures SelectStale([key] + rest, storedTimestamp)
         == (if IsStale(key, storedTimestamp) then [key] else []) + SelectStale(rest, storedTimestamp)
  {
    assert ([key] + rest)[1..] == rest;
  }

  /**
   * The filter reads the time alone, and the listing is asked for the stored key's family as a
   * key prefix: when that family is a proper prefix of another primary key, an older entry of
   * the other family starts with it and is selected, although its own family differs.
   */
  lemma ForeignFamilySelected(family: string, other: string, time: nat, now: nat)
    requires family < other && time < now
    ensures KeyPrefix(AttemptKey(family, now)) == family
    ensures KeyPrefix(AttemptKey(other, time)) == other != family
    ensures family <= AttemptKey(other, time)
    ensures SelectStale([AttemptKey(other, time)], Timestamp(AttemptKey(family, now))) == [AttemptKey(other, time)]
  {
    AttemptKeyRoundTrip(family, now);
    AttemptKeyRoundTrip(other, time);
    AttemptKeyStale(other, time, now);
    SelectStaleOfOne(AttemptKey(other, time), Some(now));
    KeyExtendsPrimary(family, other, time);
  }

  /** A listing of one stale entry keeps it */
  lemma SelectStaleOfOne(key: string, storedTimestamp: Option<int>)
    requires IsStale(key, storedTimestamp)
    ensures SelectStale([key], storedTimestamp) == [key]
  {
    assert [key][1..] == [];
  }

  /** An attempt key starts with every prefix of its primary key */
  lemma KeyExtendsPrimary(family: string, primary: string, time: nat)
    requires family <= primary
    ensures family <= AttemptKey(primary, time)
  {
    assert AttemptKey(primary, time)[..|family|] == primary[..|family|];
  }

  /** Whether an attempt key is stale depends on its time alone */
  lemma AttemptKeyStale(prefix: string, time: nat, storedTime: nat)
    ensures IsStale(AttemptKey(prefix, time), Some(storedTime)) <==> time < storedTime
  {
    AttemptKeyRoundTrip(prefix, time);
  }

  /** The keys a delete request answers with, none when it is rejected */
  function DeletedKeys(response: Option<seq<string>>): seq<string> {
    match response
    case Some(keys) => keys
    case None => []
  }

  /** `removedKeys` after the first n delete requests, request j asking to delete `stale[j]` */
  function RemovedAfter(stale: seq<string>, delete: (nat, string) -> Option<seq<string>>, n: nat): seq<string>
    requires n <= |stale|
  {
    if n == 0 then [] else RemovedAfter(stale, delete, n - 1) + DeletedKeys(delete(n - 1, stale[n - 1]))
  }

  /** Later requests only append to `removedKeys` */
  lemma {:induction false} RemovedAfterGrows(stale: seq<string>, delete: (nat, string) -> Option<seq<string>>, n: nat, m: nat)
    requires n <= m <= |stale|
    ensures RemovedAfter(stale, delete, n) <= RemovedAfter(stale, delete, m)
    decreases m - n
  {
    if n < m {
      RemovedAfterGrows(stale, delete, n, m - 1);
    }
  }

  /**
   * Best effort: every key any accepted request reports is collected, whatever happened to
   * the requests before it, and nothing else is.
   */
  lemma {:induction false} RemovedAfterCollects(stale: seq<string>, delete: (nat, string) -> Option<seq<string>>, n: nat, key: string)
    requires n <= |stale|
    ensures key in RemovedAfter(stale, delete, n)
        <==> exists j :: 0 <= j < n && key in DeletedKeys(delete(j, stale[j]))
  {
    if n > 0 {
      RemovedAfterCollects(stale, delete, n - 1, key);
      var last := DeletedKeys(delete(n - 1, stale[n - 1]));
      assert key in RemovedAfter(stale, delete, n) <==> key in RemovedAfter(stale, delete, n - 1) || key in last;
    }
  }

  /**
   * The delete loop of removeStaleCache: one request per stale entry, in order; the keys
   * each accepted request reports are appended to `removedKeys`, a rejected one is skipped.
   */
  method DeleteEach(cacheList: seq<string>, delete: (nat, string) -> Option<seq<string>>)
    returns (removedKeys: seq<string>, requested: seq<string>)
    ensures removedKeys == RemovedAfter(cacheList, delete, |cacheList|)
    ensures requested == cacheList
  {
    removedKeys, requested := [], [];
    var i := 0;
    while i < |cacheList|
      invariant 0 <= i <= |cacheList|
      invariant requested == cacheList[..i]
      invariant removedKeys == RemovedAfter(cacheList, delete, i)
    {
      var key := cacheList[i];
      requested := requested + [key];
      var response := delete(i, key);
      if response.Some? {
        var entries := response.value;
        var j := 0;
        while j < |entries|
          invariant 0 <= j <= |entries|
          invariant removedKeys == RemovedAfter(cacheList, delete, i) + entries[..j]
        {
          removedKeys := removedKeys + [entries[j]];
          j := j + 1;
        }
        assert entries[..j] == entries;
      }
      i := i + 1;
    }
    assert cacheList[..i] == cacheList;
  }

  /** How removeStaleCache ends */
  datatype ReapResult =
    | NothingStored                                   // storedCacheKey is empty
    | ListingFailed                                   // the listing request was rejected
    | Swept(stale: seq<string>, removed: seq<string>) // the stale entries and the keys reported removed

  // ---------------------------------------------------------------- the post step

  /** `version[0] >= 4`: false when the major version is missing (undefined) or NaN */
  predicate IsCcache4OrLater(version: seq<Option<int>>) {
    |version| > 0 && version[0].Some? && version[0].value >= 4
  }

  /**
   * The statistics command of showStats: `--show-stats`, doubly verbose exactly when
   * ccache is version 4 or later.
   */
  function StatsCommand(binaryPath: string, version: seq<Option<int>>): (command: string)
    ensures command == binaryPath + " --show-stats" || command == binaryPath + " --show-stats --verbose --verbose"
    ensures command == binaryPath + " --show-stats --verbose --verbose" <==> IsCcache4OrLater(version)
  {
    var command := binaryPath + " --show-stats";
    if IsCcache4OrLater(version) then command + " --verbose --verbose" else command
  }

  /** showStats wraps the statistics command for the platform's shell */
  function ShowStatsCommand(platform: string, compileEnvironment: string, binaryPath: string, version: seq<Option<int>>): string {
    Utils.PlatformExecWrap(platform, compileEnvironment, StatsCommand(binaryPath, version))
  }

  /** How the store step of main ends */
  datatype StoreStep =
    | StoreSkipped               // store_cache is off
    | CachePathFailed            // getCachePath threw before any upload
    | Saved(result: SaveResult)  // saveCache settled

  /** What main did */
  datatype PostReport =
    | NoOperation                    // unsupported platform
    | StatsFailed(statsCommand: string) // the statistics command exited non-zero and the Error ended main
    | Ran(statsCommand: string, store: StoreStep, reap: Option<ReapResult>)

  /** The module state of src/post.ts */
  class PostState {
    var storedCacheKey: string

    constructor ()
      ensures storedCacheKey == ""
    {
      storedCacheKey := "";
    }

    /**
     * saveCache: up to ten uploads, each under a fresh time-stamped key; the first success
     * stores its key and returns true, an Error is retried, a non-Error is rethrown.
     */
    method SaveCache(primary: string, clock: nat -> nat, upload: (nat, string) -> UploadOutcome)
      returns (result: SaveResult, tried: seq<string>)
      modifies this
      ensures var run := SaveFrom(primary, clock, upload, 0);
        && result == run.result
        && storedCacheKey == (if run.stored.Some? then run.stored.value else old(storedCacheKey))
        && |tried| == run.attempts
      ensures forall j :: 0 <= j < |tried| ==> tried[j] == AttemptKey(primary, clock(j))
    {
      var i := 0;
      tried := [];
      while i < MaxUploadRetries
        invariant 0 <= i <= MaxUploadRetries
        invariant |tried| == i
        invariant forall j :: 0 <= j < i ==> tried[j] == AttemptKey(primary, clock(j))
        invariant SaveFrom(primary, clock, upload, 0) == SaveFrom(primary, clock, upload, i)
        invariant storedCacheKey == old(storedCacheKey)
      {
        var key := AttemptKey(primary, clock(i));
        tried := tried + [key];
        var outcome := upload(i, key);
        if outcome == Uploaded {
          storedCacheKey := key;
          return Returned(true), tried;
        } else if outcome == NonError {
          return Rethrown, tried;
        }
        i := i + 1;
      }
      result := Returned(false);
    }

    /**
     * removeStaleCache: list the key family of the stored key, keep the entries strictly
     * older than it, and ask to delete each one, collecting the keys reported removed and
     * carrying on past rejected requests.
     */
    method RemoveStaleCache(list: string -> Option<seq<string>>, delete: (nat, string) -> Option<seq<string>>)
      returns (result: ReapResult, requested: seq<string>)
      ensures storedCacheKey == "" ==> result == NothingStored && requested == []
      ensures storedCacheKey != "" && list(KeyPrefix(storedCacheKey)).None?
          ==> result == ListingFailed && requested == []
      ensures storedCacheKey != "" && list(KeyPrefix(storedCacheKey)).Some? ==>
        var stale := SelectStale(list(KeyPrefix(storedCacheKey)).value, Timestamp(storedCacheKey));
        result == Swept(stale, RemovedAfter(stale, delete, |stale|)) && requested == stale
    {
      requested := [];
      if |storedCacheKey| <= 0 {
        return NothingStored, requested;
      }
      var cacheKeyPrefix := KeyPrefix(storedCacheKey);
      var listing := list(cacheKeyPrefix);
      if listing.None? {
        return ListingFailed, requested;
      }
      var cacheList := SelectStale(listing.value, Timestamp(storedCacheKey));
      var removedKeys;
      removedKeys, requested := DeleteEach(cacheList, delete);
      result := Swept(cacheList, removedKeys);
    }

    /**
     * main: on a supported platform show the statistics, store the cache when store_cache
     * is on, and remove stale entries only when remove_stale_cache is on and the store
     * succeeded.
     */
    method Run(
      platform: string, compileEnvironment: string,
      storeCache: bool, removeStaleCache: bool,
      binaryPath: string, version: seq<Option<int>>, statsExitOk: bool,
      cachePath: Option<string>, primary: string,
      clock: nat -> nat, upload: (nat, string) -> UploadOutcome,
      list: string -> Option<seq<string>>, delete: (nat, string) -> Option<seq<string>>)
      returns (report: PostReport)
      modifies this
      ensures !Utils.IsSupportedPlatform(platform, compileEnvironment) ==>
        report == NoOperation && storedCacheKey == old(storedCacheKey)
      ensures Utils.IsSupportedPlatform(platform, compileEnvironment) && !statsExitOk ==>
        && report == StatsFailed(ShowStatsCommand(platform, compileEnvironment, binaryPath, version))
        && storedCacheKey == old(storedCacheKey)
      ensures Utils.IsSupportedPlatform(platform, compileEnvironment) && statsExitOk ==>
        && report.Ran?
        && report.statsCommand == ShowStatsCommand(platform, compileEnvironment, binaryPath, version)
        && (storeCache <==> !report.store.StoreSkipped?)
        && (report.store.CachePathFailed? <==> storeCache && cachePath.None?)
        && (report.store.Saved? ==> report.store.result == SaveFrom(primary, clock, upload, 0).result)
        && (report.reap.Some? <==> removeStaleCache && report.store == Saved(Returned(true)))
      ensures report.Ran? && report.store == Saved(Returned(true)) ==>
        SaveFrom(primary, clock, upload, 0).stored == Some(storedCacheKey)
      ensures !(report.Ran? && report.store == Saved(Returned(true))) ==> storedCacheKey == old(storedCacheKey)
      ensures report.Ran? && report.reap.Some? ==>
        var listing := list(KeyPrefix(storedCacheKey));
        var stale := if listing.Some? then SelectStale(listing.value, Timestamp(storedCacheKey)) else [];
        report.reap.value == if listing.None? then ListingFailed else Swept(stale, RemovedAfter(stale, delete, |stale|))
    {
      if !Utils.IsSupportedPlatform(platform, compileEnvironment) {
        return NoOperation;
      }
      var statsCommand := ShowStatsCommand(platform, compileEnvironment, binaryPath, version);
      if !statsExitOk {
        return StatsFailed(statsCommand);
      }
      var isSaveCacheSuccess := false;
      var store := StoreSkipped;
      if storeCache {
        if cachePath.None? {
          // the Error thrown by getCachePath ends main before anything else
          return Ran(statsCommand, CachePathFailed, None);
        }
        var saved, _ := SaveCache(primary, clock, upload);
        SaveStoresOnSuccess(primary, clock, upload, 0);
        store := Saved(saved);
        if saved == Rethrown {
          return Ran(statsCommand, store, None);
        }
        isSaveCacheSuccess := saved.success;
      }
      var reap := None;
      if removeStaleCache && isSaveCacheSuccess {
        var removed, _ := RemoveStaleCache(list, delete);
        reap := Some(removed);
      }
      report := Ran(statsCommand, store, reap);
    }
  }
}
