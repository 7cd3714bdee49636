/**
 * Per-tenant sliding-window rate limiting. Each tenant has a Redis sorted set
 * (key `ratelimit:<tenant>`) whose members are `"<now>:<cost>"` with score
 * `now`. The set is modelled as a map from member to score; a member is the
 * pair (now, cost), which determines its string uniquely.
 */
module RateLimiter {
  import opened Wrappers

  datatype Member = Member(at: int, cost: int)

  type Window = map<Member, int>

  /** `ZREMRANGEBYSCORE key 0 windowStart`: drops members whose score lies in [0, windowStart]. */
  function Purged(w: Window, windowStart: int): (r: Window)
    ensures forall m :: m in r <==> m in w && !(0 <= w[m] <= windowStart)
    ensures forall m :: m in r ==> r[m] == w[m]
  {
    map m | m in w && !(0 <= w[m] <= windowStart) :: w[m]
  }

  /** `limit or default_limit`: None and 0 both fall back. */
  function EffectiveLimit(limit: Option<int>, defaultLimit: int): (l: int)
    ensures limit.Some? && limit.value != 0 ==> l == limit.value
    ensures limit.None? || limit.value == 0 ==> l == defaultLimit
  {
    if limit.Some? && limit.value != 0 then limit.value else defaultLimit
  }

  datatype RateInfo =
    | RateInfo(limit: int, remaining: int, resetAt: int, current: nat, windowSeconds: int, tier: Option<string>)
    | DisabledInfo(limit: int, remaining: int)

  function Max(a: int, b: int): int { if a >= b then a else b }

  /**
   * One `check_rate_limit` against window `w`: whether the request is allowed,
   * the reported info, and the window Redis is left with.
   */
  function Check(w: Window, limit: int, cost: int, now: int, windowSeconds: int): (r: (bool, RateInfo, Window))
    ensures var current := |Purged(w, now - windowSeconds)|;
      r.0 <==> current + cost <= limit
    ensures r.1.RateInfo? && r.1.current == |Purged(w, now - windowSeconds)| && r.1.limit == limit
    ensures r.1.remaining == Max(0, limit - r.1.current - cost) && r.1.remaining >= 0
    ensures r.1.resetAt == now + windowSeconds && r.1.tier.None?
    ensures r.0 ==> r.2 == Purged(w, now - windowSeconds)[Member(now, cost) := now]
    ensures !r.0 ==> r.2 == Purged(w, now - windowSeconds) - {Member(now, cost)}
  {
    var purged := Purged(w, now - windowSeconds);
    var current := |purged|;
    var added := purged[Member(now, cost) := now];
    var info := RateInfo(limit, Max(0, limit - current - cost), now + windowSeconds, current, windowSeconds, None);
    var allowed := current + cost <= limit;
    (allowed, info, if allowed then added else added - {Member(now, cost)})
  }

  const FreeLimit: int := 50

  /** `TIER_LIMITS.get(tier, TIER_LIMITS["free"])`. */
  function TierLimit(tier: string): (l: int)
    ensures tier == "pro" ==> l == 200
    ensures tier == "enterprise" ==> l == 1000
    ensures tier != "pro" && tier != "enterprise" ==> l == FreeLimit
  {
    if tier == "free" then 50 else if tier == "pro" then 200 else if tier == "enterprise" then 1000 else FreeLimit
  }

  /** The tier lookup used when none is supplied. */
  function DefaultTierLookup(tenant: string): (tier: string)
    ensures TierLimit(tier) == FreeLimit
  {
    "free"
  }

  /** `NoOpRateLimiter.check_rate_limit`: always allowed, limits reported as -1. */
  function NoOpCheck(): (r: (bool, RateInfo))
    ensures r.0 && r.1.DisabledInfo? && r.1.limit == -1 && r.1.remaining == -1
  {
    (true, DisabledInfo(-1, -1))
  }

  datatype Usage =
    | Usage(tenant: string, current: nat, limit: int, remaining: int, resetInSeconds: int)
    | DisabledUsage(tenant: string)

  function NoOpUsage(tenant: string): (u: Usage)
    ensures u.DisabledUsage? && u.tenant == tenant
  {
    DisabledUsage(tenant)
  }

  // ------------------------------------------------------------------ fairness

  /** Successive cost-1 checks at times `ts`: how many were allowed, and the final window. */
  function Run(w: Window, limit: int, windowSeconds: int, ts: seq<int>): (nat, Window)
    decreases |ts|
  {
    if ts == [] then (0, w)
    else
      var (ok, _, w1) := Check(w, limit, 1, ts[0], windowSeconds);
      var (n, w2) := Run(w1, limit, windowSeconds, ts[1..]);
      ((if ok then 1 else 0) + n, w2)
  }

  lemma {:induction false} SubsetCard<T>(a: set<T>, b: set<T>)
    requires a <= b
    ensures |a| <= |b|
    decreases |b|
  {
    if a != {} {
      var x :| x in a;
      SubsetCard(a - {x}, b - {x});
    }
  }

  predicate Increasing(ts: seq<int>)
  {
    forall i, j :: 0 <= i < j < |ts| ==> ts[i] < ts[j]
  }

  /** Members already counted survive the purge at the next request's time. */
  lemma CountedSurvive(w: Window, windowSeconds: int, now: int, alreadyIn: set<Member>, lo: int)
    requires now < lo + windowSeconds
    requires alreadyIn <= w.Keys
    requires forall m :: m in alreadyIn ==> w[m] == m.at && lo <= m.at && m.at < now
    ensures alreadyIn <= Purged(w, now - windowSeconds).Keys
    ensures |alreadyIn| <= |Purged(w, now - windowSeconds)|
    ensures Member(now, 1) !in alreadyIn
  {
    var purged := Purged(w, now - windowSeconds);
    assert alreadyIn <= purged.Keys;
    SubsetCard(alreadyIn, purged.Keys);
  }

  /** One request of a run: the counted members grow by the request when it is allowed. */
  lemma BoundStep(w: Window, limit: int, windowSeconds: int, ts: seq<int>, alreadyIn: set<Member>, lo: int)
    returns (next: set<Member>)
    requires ts != [] && Increasing(ts)
    requires forall i :: 0 <= i < |ts| ==> lo <= ts[i] < lo + windowSeconds
    requires alreadyIn <= w.Keys && |alreadyIn| <= limit
    requires forall m :: m in alreadyIn ==> w[m] == m.at && lo <= m.at && m.at < ts[0]
    ensures var w1 := Check(w, limit, 1, ts[0], windowSeconds).2;
      next <= w1.Keys && |next| <= limit &&
      forall m :: m in next ==> w1[m] == m.at && lo <= m.at && m.at <= ts[0]
    ensures |next| == |alreadyIn| + (if Check(w, limit, 1, ts[0], windowSeconds).0 then 1 else 0)
  {
    var now := ts[0];
    CountedSurvive(w, windowSeconds, now, alreadyIn, lo);
    if Check(w, limit, 1, now, windowSeconds).0 {
      next := alreadyIn + {Member(now, 1)};
    } else {
      next := alreadyIn;
    }
  }

  lemma {:induction false} RunBoundFrom(w: Window, limit: int, windowSeconds: int, ts: seq<int>, alreadyIn: set<Member>, lo: int)
    requires Increasing(ts)
    requires forall i :: 0 <= i < |ts| ==> lo <= ts[i] < lo + windowSeconds
    requires alreadyIn <= w.Keys && |alreadyIn| <= limit
    requires forall m :: m in alreadyIn ==> w[m] == m.at && lo <= m.at && (ts != [] ==> m.at < ts[0])
    ensures |alreadyIn| + Run(w, limit, windowSeconds, ts).0 <= limit
    decreases |ts|
  {
    if ts != [] {
      var next := BoundStep(w, limit, windowSeconds, ts, alreadyIn, lo);
      var w1 := Check(w, limit, 1, ts[0], windowSeconds).2;
      var rest := ts[1..];
      assert Increasing(rest);
      assert rest != [] ==> ts[0] < rest[0];
      RunBoundFrom(w1, limit, windowSeconds, rest, next, lo);
    }
  }

  /**
   * Within one window, cost-1 requests at distinct increasing times are
   * allowed at most `limit` times, whatever the window held before.
   */
  lemma RunNeverExceedsLimit(w: Window, limit: int, windowSeconds: int, ts: seq<int>)
    requires limit >= 0 && Increasing(ts) && ts != []
    requires forall i :: 0 <= i < |ts| ==> ts[i] < ts[0] + windowSeconds
    ensures Run(w, limit, windowSeconds, ts).0 <= limit
  {
    RunBoundFrom(w, limit, windowSeconds, ts, {}, ts[0]);
  }

  // ------------------------------------------------------------------ the class

  /**
   * The limiter's Redis state. There is no `Valid()`: the source accepts any
   * limit and window it is constructed with, and every map of windows is a
   * state Redis can hold, so no invariant ties the fields together. What the
   * operations do is stated per method against `Check` and `Purged`.
   */
  class TenantRateLimiter {
    const defaultLimit: int
    const windowSeconds: int
    /** The sorted set under `ratelimit:<tenant>`, per tenant; a missing key is an empty set. */
    var windows: map<string, Window>

    function WindowOf(tenant: string): Window
      reads this
    {
      if tenant in windows then windows[tenant] else map[]
    }

    constructor (defaultLimit: int, windowSeconds: int)
      ensures this.defaultLimit == defaultLimit && this.windowSeconds == windowSeconds && windows == map[]
    {
      this.defaultLimit := defaultLimit;
      this.windowSeconds := windowSeconds;
      windows := map[];
    }

    constructor Default()
      ensures defaultLimit == 100 && windowSeconds == 60 && windows == map[]
    {
      defaultLimit := 100;
      windowSeconds := 60;
      windows := map[];
    }

    /** `check_rate_limit`: only this tenant's window changes. */
    method CheckRateLimit(tenant: string, limit: Option<int>, cost: int, now: int) returns (allowed: bool, info: RateInfo)
      modifies this
      ensures allowed == Check(old(WindowOf(tenant)), EffectiveLimit(limit, defaultLimit), cost, now, windowSeconds).0
      ensures info == Check(old(WindowOf(tenant)), EffectiveLimit(limit, defaultLimit), cost, now, windowSeconds).1
      ensures windows == old(windows)[tenant := Check(old(WindowOf(tenant)), EffectiveLimit(limit, defaultLimit), cost, now, windowSeconds).2]
    {
      var effective := EffectiveLimit(limit, defaultLimit);
      var before := WindowOf(tenant);
      ghost var r := Check(before, effective, cost, now, windowSeconds);
      var windowStart := now - windowSeconds;
      var purged := Purged(before, windowStart);
      var current := |purged|;
      var w := purged[Member(now, cost) := now];
      windows := windows[tenant := w];
      var remaining := Max(0, effective - current - cost);
      info := RateInfo(effective, remaining, now + windowSeconds, current, windowSeconds, None);
      allowed := current + cost <= effective;
      if !allowed {
        windows := windows[tenant := w - {Member(now, cost)}];
        assert w - {Member(now, cost)} == r.2;
      } else {
        assert w == r.2;
      }
      assert (allowed, info) == (r.0, r.1);
    }

    /** `TierBasedRateLimiter.check_rate_limit`: the tier's limit, with the tier added to the info. */
    method CheckTierRateLimit(tenant: string, tier: string, cost: int, now: int) returns (allowed: bool, info: RateInfo)
      modifies this
      ensures allowed == Check(old(WindowOf(tenant)), TierLimit(tier), cost, now, windowSeconds).0
      ensures info == Check(old(WindowOf(tenant)), TierLimit(tier), cost, now, windowSeconds).1.(tier := Some(tier))
      ensures windows == old(windows)[tenant := Check(old(WindowOf(tenant)), TierLimit(tier), cost, now, windowSeconds).2]
    {
      var limit := TierLimit(tier);
      allowed, info := CheckRateLimit(tenant, Some(limit), cost, now);
      info := info.(tier := Some(tier));
    }

    /** `get_usage`: purges, then reports the count against the default limit. */
    method GetUsage(tenant: string, now: int) returns (u: Usage)
      modifies this
      ensures windows == old(windows)[tenant := Purged(old(WindowOf(tenant)), now - windowSeconds)]
      ensures u == Usage(tenant, |windows[tenant]|, defaultLimit, Max(0, defaultLimit - |windows[tenant]|), windowSeconds)
      ensures u.remaining >= 0
    {
      windows := windows[tenant := Purged(WindowOf(tenant), now - windowSeconds)];
      var current := |windows[tenant]|;
      u := Usage(tenant, current, defaultLimit, Max(0, defaultLimit - current), windowSeconds);
    }

    /** `reset_limit`: deletes the tenant's key. */
    method ResetLimit(tenant: string) returns (ok: bool)
      modifies this
      ensures ok && windows == old(windows) - {tenant} && WindowOf(tenant) == map[]
    {
      windows := windows - {tenant};
      ok := true;
    }
  }
}
