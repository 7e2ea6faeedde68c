/** The sliding-window limiter of app/utils/rate_limit.py.

    `Limiter` is the object the web process shares: one bucket of admission times per
    (client, path), pruned from the front on every request. `Admits` is the rule the
    limiter stands for, stated on the whole history of requests and without any pruning.
 */
module RateLimit {

  /** At most `maxHits` admissions in any `window` seconds. */
  datatype Limit = Limit(maxHits: nat, window: real)

  datatype Key = Key(client: string, path: string)

  datatype Request = Request(key: Key, stamp: real)

  type Limits = map<string, Limit>

  type Hits = map<Key, seq<real>>

  const LIMITS: Limits := map[
    "/api/settings/wipe-cve-data" := Limit(3, 600.0),
    "/api/settings/reset-system" := Limit(3, 600.0),
    "/api/settings/reset-internal-systems" := Limit(3, 600.0),
    "/api/debug/run" := Limit(20, 60.0),
    "/api/debug/run/stream" := Limit(20, 60.0)
  ]

  // ---------- the rule, on whole histories ----------

  /** How many of `stamps` lie in the half-open interval (lo, hi]. */
  function CountIn(stamps: seq<real>, lo: real, hi: real): nat {
    if stamps == [] then 0
    else CountIn(stamps[..|stamps| - 1], lo, hi) + if lo < stamps[|stamps| - 1] <= hi then 1 else 0
  }

  /** A request passes when fewer than `maxHits` of the requests with its key that already
      passed did so in the last `window` seconds. A path without a limit always passes. */
  predicate Room(limits: Limits, passed: seq<real>, r: Request) {
    r.key.path in limits ==>
      var limit := limits[r.key.path];
      CountIn(passed, r.stamp - limit.window, r.stamp) < limit.maxHits
  }

  /** When the requests of `history` with this key passed, oldest first. */
  function Admitted(limits: Limits, history: seq<Request>, key: Key): seq<real> {
    if history == [] then []
    else
      var passed, r := Admitted(limits, history[..|history| - 1], key), history[|history| - 1];
      if r.key == key && Room(limits, passed, r) then passed + [r.stamp] else passed
  }

  predicate Admits(limits: Limits, history: seq<Request>, r: Request) {
    Room(limits, Admitted(limits, history, r.key), r)
  }

  ghost predicate InTimeOrder(history: seq<Request>) {
    forall i, j | 0 <= i < j < |history| :: history[i].stamp <= history[j].stamp
  }

  // ---------- one call, on the shared buckets ----------

  function Bucket(hits: Hits, key: Key): seq<real> {
    if key in hits then hits[key] else []
  }

  function Prune(bucket: seq<real>, cutoff: real): seq<real> {
    if bucket != [] && bucket[0] <= cutoff then Prune(bucket[1..], cutoff) else bucket
  }

  function DecideBucket(limit: Limit, bucket: seq<real>, now: real): (seq<real>, bool) {
    var live := Prune(bucket, now - limit.window);
    if |live| >= limit.maxHits then (live, false) else (live + [now], true)
  }

  function Decide(limits: Limits, hits: Hits, r: Request): (Hits, bool) {
    if r.key.path !in limits then (hits, true)
    else
      var (bucket, ok) := DecideBucket(limits[r.key.path], Bucket(hits, r.key), r.stamp);
      (hits[r.key := bucket], ok)
  }

  /** The buckets after a whole history of calls. */
  function Buckets(limits: Limits, history: seq<Request>): Hits {
    if history == [] then map[]
    else Decide(limits, Buckets(limits, history[..|history| - 1]), history[|history| - 1]).0
  }

  class Limiter {
    const limits: Limits
    var hits: Hits

    constructor (limits: Limits)
      ensures this.limits == limits && hits == map[]
    {
      this.limits := limits;
      hits := map[];
    }

    method Allow(path: string, client: string, now: real) returns (ok: bool)
      modifies this
      ensures (hits, ok) == Decide(limits, old(hits), Request(Key(client, path), now))
    {
      if path !in limits {
        return true;
      }
      var limit := limits[path];
      var key := Key(client, path);
      var bucket := Bucket(hits, key);
      var cutoff := now - limit.window;
      while bucket != [] && bucket[0] <= cutoff
        invariant Prune(bucket, cutoff) == Prune(Bucket(old(hits), key), cutoff)
        decreases |bucket|
      {
        bucket := bucket[1..];
      }
      if |bucket| >= limit.maxHits {
        hits := hits[key := bucket];
        return false;
      }
      hits := hits[key := bucket + [now]];
      ok := true;
    }

    method ResetLimits()
      modifies this
      ensures hits == map[]
    {
      hits := map[];
    }
  }

  // ---------- the buckets refine the rule ----------

  ghost predicate Sorted(stamps: seq<real>) {
    forall i, j | 0 <= i < j < |stamps| :: stamps[i] <= stamps[j]
  }

  ghost predicate NoLaterThan(stamps: seq<real>, t: real) {
    forall i | 0 <= i < |stamps| :: stamps[i] <= t
  }

  /** `bucket` is what is left of `stamps` once some admissions no later than `horizon` are forgotten. */
  ghost predicate LiveSuffix(bucket: seq<real>, stamps: seq<real>, horizon: real) {
    && |bucket| <= |stamps|
    && bucket == stamps[|stamps| - |bucket|..]
    && forall i | 0 <= i < |stamps| - |bucket| :: stamps[i] <= horizon
  }

  lemma {:induction false} CountSplit(stamps: seq<real>, k: nat, lo: real, hi: real)
    requires k <= |stamps|
    requires forall i | 0 <= i < k :: stamps[i] <= lo
    requires forall i | k <= i < |stamps| :: lo < stamps[i] <= hi
    ensures CountIn(stamps, lo, hi) == |stamps| - k
  {
    if |stamps| > 0 {
      var front := stamps[..|stamps| - 1];
      CountSplit(front, if k == |stamps| then k - 1 else k, lo, hi);
    }
  }

  /** On a sorted bucket, pruning from the front forgets exactly the stamps up to the cutoff. */
  lemma {:induction false} PruneSorted(bucket: seq<real>, cutoff: real)
    requires Sorted(bucket)
    ensures LiveSuffix(Prune(bucket, cutoff), bucket, cutoff)
    ensures forall i | 0 <= i < |Prune(bucket, cutoff)| :: Prune(bucket, cutoff)[i] > cutoff
  {
    if bucket != [] && bucket[0] <= cutoff {
      PruneSorted(bucket[1..], cutoff);
      var live := Prune(bucket[1..], cutoff);
      forall i | 0 <= i < |bucket| - |live| ensures bucket[i] <= cutoff {
        if i > 0 { assert bucket[i] == bucket[1..][i - 1]; }
      }
    }
  }

  lemma {:induction false} AdmittedSorted(limits: Limits, history: seq<Request>, key: Key)
    requires InTimeOrder(history)
    ensures Sorted(Admitted(limits, history, key))
    ensures history != [] ==> NoLaterThan(Admitted(limits, history, key), history[|history| - 1].stamp)
  {
    if history != [] {
      var before, r := history[..|history| - 1], history[|history| - 1];
      AdmittedSorted(limits, before, key);
      if before != [] { assert before[|before| - 1].stamp <= r.stamp; }
      var passed := Admitted(limits, before, key);
      assert NoLaterThan(passed, r.stamp);
      assert Admitted(limits, history, key) in {passed, passed + [r.stamp]};
    }
  }

  /** How far pruning may have gone by the end of `history`. */
  function Horizon(limit: Limit, history: seq<Request>, now: real): real {
    if history == [] then now - limit.window else history[|history| - 1].stamp - limit.window
  }

  /** The bucket is the unpruned tail of the admissions; what was pruned left the window of the latest request. */
  ghost predicate Tracks(limits: Limits, history: seq<Request>, key: Key)
    requires key.path in limits
  {
    forall now :: LiveSuffix(Bucket(Buckets(limits, history), key), Admitted(limits, history, key),
                             Horizon(limits[key.path], history, now))
  }

  lemma PruneKeepsLive(bucket: seq<real>, stamps: seq<real>, horizon: real, cutoff: real)
    requires LiveSuffix(bucket, stamps, horizon) && horizon <= cutoff && Sorted(stamps)
    ensures LiveSuffix(Prune(bucket, cutoff), stamps, cutoff)
    ensures forall x | x in Prune(bucket, cutoff) :: cutoff < x
  {
    PruneSorted(bucket, cutoff);
    var live := Prune(bucket, cutoff);
    var k := |stamps| - |live|;
    assert live == stamps[k..];
    forall i | 0 <= i < k ensures stamps[i] <= cutoff {
      var m := |stamps| - |bucket|;
      if i >= m { assert stamps[i] == bucket[i - m]; }
    }
  }

  /** Pruning a live suffix leaves exactly the admissions inside the window that ends now. */
  lemma PruneCountsTheWindow(bucket: seq<real>, stamps: seq<real>, horizon: real, cutoff: real, now: real)
    requires LiveSuffix(bucket, stamps, horizon) && horizon <= cutoff <= now
    requires Sorted(stamps) && NoLaterThan(stamps, now)
    ensures LiveSuffix(Prune(bucket, cutoff), stamps, cutoff)
    ensures |Prune(bucket, cutoff)| == CountIn(stamps, cutoff, now)
  {
    PruneKeepsLive(bucket, stamps, horizon, cutoff);
    var live := Prune(bucket, cutoff);
    var k := |stamps| - |live|;
    forall i | k <= i < |stamps| ensures cutoff < stamps[i] <= now {
      assert stamps[i] == live[i - k] && live[i - k] in live;
    }
    CountSplit(stamps, k, cutoff, now);
  }

  lemma SuffixGrows(live: seq<real>, stamps: seq<real>, horizon: real, x: real)
    requires LiveSuffix(live, stamps, horizon)
    ensures LiveSuffix(live + [x], stamps + [x], horizon)
  {
    assert (stamps + [x])[|stamps| - |live|..] == live + [x];
  }

  ghost predicate AgreesWithTheRule(decision: (seq<real>, bool), admits: bool, stamps: seq<real>, now: real,
                                    horizon: real) {
    && decision.1 == admits
    && LiveSuffix(decision.0, if admits then stamps + [now] else stamps, horizon)
  }

  /** One decision on a live bucket: it counts the window exactly, and leaves a live bucket again. */
  lemma DecisionCountsTheWindow(limits: Limits, r: Request, bucket: seq<real>, stamps: seq<real>, horizon: real)
    requires r.key.path in limits && limits[r.key.path].window >= 0.0
    requires LiveSuffix(bucket, stamps, horizon) && horizon <= r.stamp - limits[r.key.path].window
    requires Sorted(stamps) && NoLaterThan(stamps, r.stamp)
    ensures AgreesWithTheRule(DecideBucket(limits[r.key.path], bucket, r.stamp), Room(limits, stamps, r),
                              stamps, r.stamp, r.stamp - limits[r.key.path].window)
  {
    var limit, cutoff := limits[r.key.path], r.stamp - limits[r.key.path].window;
    PruneCountsTheWindow(bucket, stamps, horizon, cutoff, r.stamp);
    SuffixGrows(Prune(bucket, cutoff), stamps, cutoff, r.stamp);
    var live := Prune(bucket, cutoff);
    assert DecideBucket(limit, bucket, r.stamp) == if |live| >= limit.maxHits then (live, false) else (live + [r.stamp], true);
    assert Room(limits, stamps, r) <==> |live| < limit.maxHits;
  }

  lemma LaterHorizon(bucket: seq<real>, stamps: seq<real>, h: real, h': real)
    requires LiveSuffix(bucket, stamps, h) && h <= h'
    ensures LiveSuffix(bucket, stamps, h')
  {
  }

  /** What every bucket holds after every history in time order. */
  lemma {:induction false} BucketsTrackTheRule(limits: Limits, history: seq<Request>, key: Key)
    requires InTimeOrder(history) && key.path in limits && limits[key.path].window >= 0.0
    ensures Tracks(limits, history, key)
  {
    if history != [] {
      BucketsTrackTheRule(limits, history[..|history| - 1], key);
      TracksOneMore(limits, history[..|history| - 1], history[|history| - 1], key);
      assert history[..|history| - 1] + [history[|history| - 1]] == history;
    }
  }

  lemma OneMoreRequest(limits: Limits, before: seq<Request>, r: Request, key: Key)
    ensures Admitted(limits, before + [r], key) ==
            if r.key == key && Admits(limits, before, r) then Admitted(limits, before, key) + [r.stamp]
            else Admitted(limits, before, key)
    ensures r.key == key && key.path in limits ==>
              Bucket(Buckets(limits, before + [r]), key) ==
              DecideBucket(limits[key.path], Bucket(Buckets(limits, before), key), r.stamp).0
    ensures r.key != key ==> Bucket(Buckets(limits, before + [r]), key) == Bucket(Buckets(limits, before), key)
  {
    assert (before + [r])[..|before|] == before;
  }

  lemma TracksOneMore(limits: Limits, before: seq<Request>, r: Request, key: Key)
    requires InTimeOrder(before) && key.path in limits && limits[key.path].window >= 0.0
    requires before != [] ==> before[|before| - 1].stamp <= r.stamp
    requires Tracks(limits, before, key)
    ensures Tracks(limits, before + [r], key)
  {
    OneMoreRequest(limits, before, r, key);
    var horizon := Horizon(limits[key.path], before, r.stamp);
    if r.key == key {
      AdmittedSorted(limits, before, key);
      DecisionCountsTheWindow(limits, r, Bucket(Buckets(limits, before), key), Admitted(limits, before, key), horizon);
    } else {
      LaterHorizon(Bucket(Buckets(limits, before), key), Admitted(limits, before, key),
                   horizon, r.stamp - limits[key.path].window);
    }
  }

  /** Main result: over every history in time order the limiter admits a request exactly when the rule does. */
  lemma LimiterRefinesTheRule(limits: Limits, history: seq<Request>, r: Request)
    requires InTimeOrder(history + [r])
    requires r.key.path in limits ==> limits[r.key.path].window >= 0.0
    ensures Decide(limits, Buckets(limits, history), r).1 == Admits(limits, history, r)
  {
    var all := history + [r];
    assert forall i | 0 <= i < |history| :: history[i] == all[i];
    if history != [] { assert all[|history| - 1].stamp <= all[|history|].stamp; }
    if r.key.path in limits {
      BucketsTrackTheRule(limits, history, r.key);
      AdmittedSorted(limits, history, r.key);
      DecisionCountsTheWindow(limits, r, Bucket(Buckets(limits, history), r.key), Admitted(limits, history, r.key),
                              Horizon(limits[r.key.path], history, r.stamp));
    }
  }

  /** The limits the program ships with meet the hypothesis, so its limiter refines the rule on every ordered history. */
  lemma ShippedLimiterRefinesTheRule(history: seq<Request>, r: Request)
    requires InTimeOrder(history + [r])
    ensures Decide(LIMITS, Buckets(LIMITS, history), r).1 == Admits(LIMITS, history, r)
  {
    assert forall path | path in LIMITS :: LIMITS[path].window >= 0.0;
    LimiterRefinesTheRule(LIMITS, history, r);
  }

  /** A window that starts later and sees no stamp past the earlier window's end holds no more. */
  lemma {:induction false} CountShrinks(stamps: seq<real>, lo: real, hi: real, lo': real, hi': real)
    requires lo <= lo'
    requires forall i | 0 <= i < |stamps| :: stamps[i] <= hi
    ensures CountIn(stamps, lo', hi') <= CountIn(stamps, lo, hi)
  {
    if stamps != [] {
      CountShrinks(stamps[..|stamps| - 1], lo, hi, lo', hi');
    }
  }

  /** One more admission at `x` keeps every window below the cap if the window ending at `x` had room. */
  lemma OneMoreFits(stamps: seq<real>, x: real, w: real, t: real, cap: nat)
    requires NoLaterThan(stamps, x)
    requires CountIn(stamps, x - w, x) < cap && CountIn(stamps, t - w, t) <= cap
    ensures CountIn(stamps + [x], t - w, t) <= cap
  {
    assert (stamps + [x])[..|stamps|] == stamps;
    if x <= t {
      CountShrinks(stamps, x - w, x, t - w, t);
    }
  }

  /** No window of the configured length ever holds more than `maxHits` admissions of one key. */
  lemma {:induction false} NoWindowOverflows(limits: Limits, history: seq<Request>, key: Key, t: real)
    requires InTimeOrder(history) && key.path in limits
    ensures CountIn(Admitted(limits, history, key), t - limits[key.path].window, t) <= limits[key.path].maxHits
  {
    if history != [] {
      var before, r := history[..|history| - 1], history[|history| - 1];
      NoWindowOverflows(limits, before, key, t);
      if r.key == key && Admits(limits, before, r) {
        AdmittedSorted(limits, before, key);
        if before != [] { assert before[|before| - 1].stamp <= r.stamp; }
        OneMoreFits(Admitted(limits, before, key), r.stamp, limits[key.path].window, t, limits[key.path].maxHits);
      }
    }
  }

  function OnlyKey(history: seq<Request>, key: Key): seq<Request> {
    if history == [] then []
    else
      OnlyKey(history[..|history| - 1], key) +
      if history[|history| - 1].key == key then [history[|history| - 1]] else []
  }

  /** Requests with other keys never change what happens to this one. */
  lemma {:induction false} KeysAreIndependent(limits: Limits, history: seq<Request>, r: Request)
    ensures Admitted(limits, history, r.key) == Admitted(limits, OnlyKey(history, r.key), r.key)
    ensures Admits(limits, history, r) == Admits(limits, OnlyKey(history, r.key), r)
  {
    if history != [] {
      var before, last := history[..|history| - 1], history[|history| - 1];
      KeysAreIndependent(limits, before, r);
      if last.key == r.key {
        KeysAreIndependent(limits, before, last);
        var kept := OnlyKey(before, r.key);
        assert (kept + [last])[..|kept|] == kept;
      } else {
        assert OnlyKey(history, r.key) == OnlyKey(before, r.key);
      }
    }
  }

  // ---------- when a request is refused, on the requests alone ----------

  /** What the limiter answered to the k-th request. */
  predicate Passed(limits: Limits, history: seq<Request>, k: nat)
    requires k < |history|
  {
    Decide(limits, Buckets(limits, history[..k]), history[k]).1
  }

  /** The earlier requests with the key of the k-th one that passed less than `window` before it. */
  ghost function RecentlyPassed(limits: Limits, history: seq<Request>, k: nat, window: real): set<nat>
    requires k < |history|
  {
    set j: nat | j < k && history[j].key == history[k].key && history[j].stamp > history[k].stamp - window
                 && Passed(limits, history, j)
  }

  ghost function AdmittedIn(limits: Limits, history: seq<Request>, key: Key, lo: real, hi: real): set<nat> {
    set j: nat | j < |history| && history[j].key == key && Admits(limits, history[..j], history[j]) && lo < history[j].stamp <= hi
  }

  lemma OneMoreAdmitted(limits: Limits, before: seq<Request>, r: Request, key: Key, lo: real, hi: real)
    ensures AdmittedIn(limits, before + [r], key, lo, hi) ==
            AdmittedIn(limits, before, key, lo, hi) +
            if r.key == key && Admits(limits, before, r) && lo < r.stamp <= hi then {|before|} else {}
  {
    var all := before + [r];
    assert all[..|before|] == before && all[|before|] == r;
    assert forall j: nat | j < |before| :: all[..j] == before[..j] && all[j] == before[j];
  }

  lemma CountOneMore(stamps: seq<real>, x: real, lo: real, hi: real)
    ensures CountIn(stamps + [x], lo, hi) == CountIn(stamps, lo, hi) + if lo < x <= hi then 1 else 0
  {
    assert (stamps + [x])[..|stamps|] == stamps;
  }

  lemma {:induction false} CountIsTheAdmitted(limits: Limits, history: seq<Request>, key: Key, lo: real, hi: real)
    ensures CountIn(Admitted(limits, history, key), lo, hi) == |AdmittedIn(limits, history, key, lo, hi)|
  {
    if history == [] {
      assert AdmittedIn(limits, history, key, lo, hi) == {};
    } else {
      var before, r := history[..|history| - 1], history[|history| - 1];
      assert history == before + [r];
      CountIsTheAdmitted(limits, before, key, lo, hi);
      OneMoreAdmitted(limits, before, r, key, lo, hi);
      CountOneMore(Admitted(limits, before, key), r.stamp, lo, hi);
      assert |before| !in AdmittedIn(limits, before, key, lo, hi);
    }
  }

  lemma PassedIffAdmitted(limits: Limits, history: seq<Request>, k: nat)
    requires k < |history| && InTimeOrder(history)
    requires history[k].key.path in limits ==> limits[history[k].key.path].window >= 0.0
    ensures Passed(limits, history, k) <==> Admits(limits, history[..k], history[k])
  {
    assert history[..k] + [history[k]] == history[..k + 1];
    LimiterRefinesTheRule(limits, history[..k], history[k]);
  }

  lemma RecentlyPassedAreAdmitted(limits: Limits, history: seq<Request>, k: nat, window: real)
    requires k < |history| && InTimeOrder(history)
    requires history[k].key.path in limits ==> limits[history[k].key.path].window >= 0.0
    ensures var r := history[k];
            RecentlyPassed(limits, history, k, window) ==
            AdmittedIn(limits, history[..k], r.key, r.stamp - window, r.stamp)
  {
    var r := history[k];
    forall j: nat | j < k && history[j].key == r.key
      ensures j in RecentlyPassed(limits, history, k, window) <==>
              j in AdmittedIn(limits, history[..k], r.key, r.stamp - window, r.stamp)
    {
      assert history[..k][j] == history[j] && history[..k][..j] == history[..j] && history[j].stamp <= r.stamp;
      PassedIffAdmitted(limits, history, j);
    }
  }

  /** Main result: in every history in time order a request is refused exactly when its path has a limit and that many
      earlier requests of the same client to the same path passed within the window before it. */
  lemma RefusedIffTheWindowIsFull(limits: Limits, history: seq<Request>, k: nat)
    requires k < |history| && InTimeOrder(history)
    requires history[k].key.path in limits ==> limits[history[k].key.path].window >= 0.0
    ensures !Passed(limits, history, k) <==>
            var path := history[k].key.path;
            path in limits && |RecentlyPassed(limits, history, k, limits[path].window)| >= limits[path].maxHits
  {
    PassedIffAdmitted(limits, history, k);
    var r := history[k];
    if r.key.path in limits {
      var window := limits[r.key.path].window;
      CountIsTheAdmitted(limits, history[..k], r.key, r.stamp - window, r.stamp);
      RecentlyPassedAreAdmitted(limits, history, k, window);
    }
  }

  /** With the limits the program ships with: a client's fourth wipe or reset within ten minutes and its twenty-first debug
      run within a minute are refused, and nothing else is. */
  lemma ShippedLimiterRefusesIff(history: seq<Request>, k: nat)
    requires k < |history| && InTimeOrder(history)
    ensures !Passed(LIMITS, history, k) <==>
            var path := history[k].key.path;
            || (path in {"/api/settings/wipe-cve-data", "/api/settings/reset-system", "/api/settings/reset-internal-systems"} &&
                |RecentlyPassed(LIMITS, history, k, 600.0)| >= 3)
            || (path in {"/api/debug/run", "/api/debug/run/stream"} && |RecentlyPassed(LIMITS, history, k, 60.0)| >= 20)
  {
    assert forall path | path in LIMITS :: LIMITS[path].window >= 0.0;
    RefusedIffTheWindowIsFull(LIMITS, history, k);
  }
}
