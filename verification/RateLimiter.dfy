/** The token bucket of each tenant: exact reals for tokens, nanoseconds for time. */
module RateLimiter {
  import opened Wrappers

  const SECOND: int := 1_000_000_000
  const MILLISECOND: int := 1_000_000

  datatype Config = Config(rate: real, burst: real)
  {
    predicate Valid() {
      rate > 0.0 && burst >= 1.0
    }

    /** Tokens earned in `d` nanoseconds. */
    function Earned(d: int): real {
      rate * (d as real) / SECOND as real
    }

    /** How long, exactly, until a bucket of `tokens` has a whole one. */
    function ExactWait(tokens: real): real
      requires Valid()
    {
      (1.0 - tokens) / rate * SECOND as real
    }
  }

  datatype Bucket = Bucket(tokens: real, last: int)

  datatype Outcome = Admitted | Refused(wait: int)

  // ---- One call -------------------------------------------------------------------------------

  function Min(a: real, b: real): real {
    if a <= b then a else b
  }

  /** A clock that stands still or steps back earns nothing. */
  function Refilled(cfg: Config, b: Option<Bucket>, now: int): Bucket {
    if b.None? then Bucket(cfg.burst, now)
    else if now > b.value.last then Bucket(Min(cfg.burst, b.value.tokens + cfg.Earned(now - b.value.last)), now)
    else b.value
  }

  function Call(cfg: Config, b: Option<Bucket>, now: int): (Bucket, Outcome)
    requires cfg.Valid()
  {
    var full := Refilled(cfg, b, now);
    if full.tokens >= 1.0 then (full.(tokens := full.tokens - 1.0), Admitted)
    else
      var wait := cfg.ExactWait(full.tokens).Floor;
      (full, Refused(if wait < MILLISECOND then MILLISECOND else wait))
  }

  class TenantRateLimiter {
    const cfg: Config
    var buckets: map<string, Bucket>

    constructor (ratePerSecond: real, burst: int)
      ensures cfg == Config(if ratePerSecond <= 0.0 then 1.0 else ratePerSecond,
                            if burst <= 0 then 1.0 else burst as real)
      ensures cfg.Valid() && buckets == map[]
    {
      cfg := Config(if ratePerSecond <= 0.0 then 1.0 else ratePerSecond, if burst <= 0 then 1.0 else burst as real);
      buckets := map[];
    }

    function BucketOf(tenant: string): Option<Bucket>
      reads this
    {
      Lookup(buckets, tenant)
    }

    /** `TryAcquire` at time `now`: this tenant's bucket moves on by one call, every other one stays. */
    method TryAcquire(tenant: string, now: int) returns (outcome: Outcome)
      requires cfg.Valid()
      modifies this
      ensures var (bucket, expected) := Call(cfg, old(BucketOf(tenant)), now);
              buckets == old(buckets)[tenant := bucket] && outcome == expected
    {
      var bucket := Bucket(cfg.burst, now);
      if tenant in buckets { bucket := buckets[tenant]; }
      var elapsed := now - bucket.last;
      if elapsed > 0 {
        bucket := Bucket(Min(cfg.burst, bucket.tokens + cfg.Earned(elapsed)), now);
      }
      if bucket.tokens >= 1.0 {
        bucket := bucket.(tokens := bucket.tokens - 1.0);
        buckets := buckets[tenant := bucket];
        return Admitted;
      }
      buckets := buckets[tenant := bucket];
      var wait := ((1.0 - bucket.tokens) / cfg.rate * SECOND as real).Floor;
      if wait < MILLISECOND { wait := MILLISECOND; }
      outcome := Refused(wait);
    }
  }

  // ---- Runs of one tenant ------------------------------------------------------------------------

  function After(cfg: Config, times: seq<int>): Option<Bucket>
    requires cfg.Valid()
  {
    if times == [] then None
    else Some(Call(cfg, After(cfg, times[..|times| - 1]), times[|times| - 1]).0)
  }

  predicate WasAdmitted(cfg: Config, times: seq<int>, n: nat)
    requires cfg.Valid() && n < |times|
  {
    Call(cfg, After(cfg, times[..n]), times[n]).1 == Admitted
  }

  /** Calls admitted from position i up to, not including, j. */
  function Count(cfg: Config, times: seq<int>, i: nat, j: nat): nat
    requires cfg.Valid() && i <= j <= |times|
  {
    if i == j then 0 else Count(cfg, times, i, j - 1) + if WasAdmitted(cfg, times, j - 1) then 1 else 0
  }

  /** The latest time seen in a run. */
  function Latest(times: seq<int>): int
    requires times != []
  {
    if |times| == 1 || times[|times| - 1] > Latest(times[..|times| - 1]) then times[|times| - 1]
    else Latest(times[..|times| - 1])
  }

  lemma {:induction false} LatestIsLatest(times: seq<int>, n: nat)
    requires n < |times|
    ensures times[n] <= Latest(times)
    ensures Latest(times[..n + 1]) <= Latest(times)
  {
    if n == |times| - 1 {
      assert times[..n + 1] == times;
    } else {
      LatestIsLatest(times[..|times| - 1], n);
      assert times[..|times| - 1][..n + 1] == times[..n + 1];
    }
  }

  /** Tokens never go below zero nor above the burst, and `last` is the latest time seen. */
  lemma {:induction false} TokensInRange(cfg: Config, times: seq<int>)
    requires cfg.Valid() && times != []
    ensures var b := After(cfg, times); b.Some? && 0.0 <= b.value.tokens <= cfg.burst && b.value.last == Latest(times)
  {
    if |times| > 1 {
      TokensInRange(cfg, times[..|times| - 1]);
      var d := times[|times| - 1] - Latest(times[..|times| - 1]);
      if d > 0 { EarnsSomething(cfg, d); }
    }
  }

  lemma EarnsSomething(cfg: Config, d: int)
    requires cfg.Valid() && d >= 0
    ensures cfg.Earned(d) >= 0.0
  {
    assert cfg.rate * (d as real) >= 0.0;
  }

  lemma EarnsTogether(cfg: Config, d: int, e: int)
    ensures cfg.Earned(d + e) == cfg.Earned(d) + cfg.Earned(e)
  {
    assert cfg.rate * ((d + e) as real) == cfg.rate * (d as real) + cfg.rate * (e as real);
  }

  /** What is left after call j - 1, and what was admitted since call i, came out of one full bucket and
      what time earned since. */
  lemma {:induction false} TokensAreConserved(cfg: Config, times: seq<int>, i: nat, j: nat)
    requires cfg.Valid() && i < j <= |times|
    ensures var b := After(cfg, times[..j]);
            && b.Some?
            && b.value.tokens + Count(cfg, times, i, j) as real
               <= cfg.burst + cfg.Earned(Latest(times[..j]) - Latest(times[..i + 1]))
    decreases j
  {
    var now := times[j - 1];
    var before := After(cfg, times[..j - 1]);
    assert times[..j][..j - 1] == times[..j - 1];
    if j - 1 > 0 { TokensInRange(cfg, times[..j - 1]); }
    var full := Refilled(cfg, before, now);
    if i == j - 1 {
      assert cfg.Earned(0) == 0.0;
      assert full.tokens <= cfg.burst;
      assert Count(cfg, times, i, j - 1) == 0;
    } else {
      TokensAreConserved(cfg, times, i, j - 1);
      var (was, after, first) := (Latest(times[..j - 1]), Latest(times[..j]), Latest(times[..i + 1]));
      EarnsTogether(cfg, was - first, after - was);
      assert cfg.Earned(0) == 0.0;
      assert full.tokens <= before.value.tokens + cfg.Earned(after - was);
    }
  }

  /** The calls admitted from i to j number at most burst + rate x (latest time seen - time of i), even
      with a clock that steps back; measured from the latest time seen at i, the bound is tighter still. */
  lemma AdmissionsAreBounded(cfg: Config, times: seq<int>, i: nat, j: nat)
    requires cfg.Valid() && i < j <= |times|
    ensures Count(cfg, times, i, j) as real <= cfg.burst + cfg.Earned(Latest(times[..j]) - Latest(times[..i + 1]))
    ensures Count(cfg, times, i, j) as real <= cfg.burst + cfg.Earned(Latest(times[..j]) - times[i])
  {
    TokensAreConserved(cfg, times, i, j);
    TokensInRange(cfg, times[..j]);
    LatestIsLatest(times[..i + 1], i);
    var (first, last) := (Latest(times[..i + 1]), Latest(times[..j]));
    EarnsTogether(cfg, last - first, first - times[i]);
    EarnsSomething(cfg, first - times[i]);
  }

  // ---- What is granted --------------------------------------------------------------------------------

  /** A new tenant starts with a full burst, whatever time it is. */
  lemma NewTenantIsFull(cfg: Config, now: int)
    requires cfg.Valid()
    ensures Call(cfg, None, now) == (Bucket(cfg.burst - 1.0, now), Admitted)
  {
  }

  /** Nothing is withheld: what is left and what was admitted since the run began make up at least the burst. */
  lemma {:induction false} BurstIsGranted(cfg: Config, times: seq<int>, j: nat)
    requires cfg.Valid() && 0 < j <= |times|
    ensures After(cfg, times[..j]).Some?
    ensures After(cfg, times[..j]).value.tokens + Count(cfg, times, 0, j) as real >= cfg.burst
    decreases j
  {
    assert times[..j][..j - 1] == times[..j - 1];
    if j == 1 {
      assert times[..0] == [];
      assert Count(cfg, times, 0, 0) == 0;
    } else {
      BurstIsGranted(cfg, times, j - 1);
      TokensInRange(cfg, times[..j - 1]);
      var d := times[j - 1] - Latest(times[..j - 1]);
      if d > 0 { EarnsSomething(cfg, d); }
    }
  }

  /** So the first floor(burst) calls of a tenant are admitted, however close together. */
  lemma FirstCallsAreAdmitted(cfg: Config, times: seq<int>, n: nat)
    requires cfg.Valid() && n < |times| && n < cfg.burst.Floor
    ensures WasAdmitted(cfg, times, n)
  {
    if n == 0 {
      assert times[..0] == [];
      NewTenantIsFull(cfg, times[0]);
    } else {
      BurstIsGranted(cfg, times, n);
      AtMostAll(cfg, times, 0, n);
      TokensInRange(cfg, times[..n]);
      var d := times[n] - Latest(times[..n]);
      if d > 0 { EarnsSomething(cfg, d); }
    }
  }

  lemma {:induction false} AtMostAll(cfg: Config, times: seq<int>, i: nat, j: nat)
    requires cfg.Valid() && i <= j <= |times|
    ensures Count(cfg, times, i, j) <= j - i
    decreases j - i
  {
    if i < j { AtMostAll(cfg, times, i, j - 1); }
  }

  /** From call i on, what is left and what was admitted make up at least what was left before and what time
      earned since, or a full burst if that is less. */
  lemma {:induction false} EarningsAreGranted(cfg: Config, times: seq<int>, i: nat, j: nat)
    requires cfg.Valid() && 0 < i <= j <= |times|
    ensures var (before, after) := (After(cfg, times[..i]), After(cfg, times[..j]));
            && before.Some? && after.Some?
            && after.value.tokens + Count(cfg, times, i, j) as real >=
               Min(cfg.burst, before.value.tokens + cfg.Earned(Latest(times[..j]) - Latest(times[..i])))
    decreases j
  {
    TokensInRange(cfg, times[..i]);
    if i == j {
      assert cfg.Earned(0) == 0.0;
    } else {
      EarningsAreGranted(cfg, times, i, j - 1);
      TokensInRange(cfg, times[..j - 1]);
      assert times[..j][..j - 1] == times[..j - 1];
      var (first, was, after) := (Latest(times[..i]), Latest(times[..j - 1]), Latest(times[..j]));
      EarnsTogether(cfg, was - first, after - was);
      assert cfg.Earned(0) == 0.0;
      EarnsSomething(cfg, after - was);
      OneMoreGranted(cfg, After(cfg, times[..j - 1]).value, times[j - 1], after - was);
    }
  }

  lemma OneMoreGranted(cfg: Config, b: Bucket, now: int, earning: int)
    requires cfg.Valid() && earning == (if now > b.last then now - b.last else 0)
    ensures var (bucket, outcome) := Call(cfg, Some(b), now);
            bucket.tokens + (if outcome == Admitted then 1.0 else 0.0) >= Min(cfg.burst, b.tokens + cfg.Earned(earning))
            || bucket.tokens + (if outcome == Admitted then 1.0 else 0.0) == b.tokens
  {
    assert cfg.Earned(0) == 0.0;
  }

  /** A tenant that is refused at call j got at least one call less than what time earned since call i. */
  lemma RefusedGotItsShare(cfg: Config, times: seq<int>, i: nat, j: nat)
    requires cfg.Valid() && 0 < i < j <= |times| && !WasAdmitted(cfg, times, j - 1)
    ensures Count(cfg, times, i, j) as real >
            Min(cfg.burst, cfg.Earned(Latest(times[..j]) - Latest(times[..i]))) - 1.0
  {
    EarningsAreGranted(cfg, times, i, j);
    TokensInRange(cfg, times[..i]);
    assert times[..j][..j - 1] == times[..j - 1];
  }

  /** A refusal never says less than a millisecond, nor more than the time to the next whole token. */
  lemma WaitIsHonest(cfg: Config, b: Option<Bucket>, now: int)
    requires cfg.Valid() && Call(cfg, b, now).1.Refused?
    ensures var (bucket, outcome) := Call(cfg, b, now);
            && bucket.tokens < 1.0
            && outcome.wait >= 1_000_000
            && (outcome.wait > 1_000_000 ==>
                  && outcome.wait as real <= (1.0 - bucket.tokens) / cfg.rate * 1_000_000_000.0
                  && (1.0 - bucket.tokens) / cfg.rate * 1_000_000_000.0 < outcome.wait as real + 1.0)
  {
  }

  // ---- Many tenants -------------------------------------------------------------------------------

  datatype Attempt = Attempt(tenant: string, now: int)

  /** What a sequence of `TryAcquire` calls leaves in the limiter. */
  function Buckets(cfg: Config, calls: seq<Attempt>): map<string, Bucket>
    requires cfg.Valid()
  {
    if calls == [] then map[]
    else
      var (before, c) := (Buckets(cfg, calls[..|calls| - 1]), calls[|calls| - 1]);
      before[c.tenant := Call(cfg, Lookup(before, c.tenant), c.now).0]
  }

  function Lookup(buckets: map<string, Bucket>, tenant: string): Option<Bucket> {
    if tenant in buckets then Some(buckets[tenant]) else None
  }

  function TimesOf(calls: seq<Attempt>, tenant: string): seq<int> {
    if calls == [] then []
    else
      var c := calls[|calls| - 1];
      TimesOf(calls[..|calls| - 1], tenant) + if c.tenant == tenant then [c.now] else []
  }

  /** A tenant's bucket is what its own calls made of it, whatever the others do in between. */
  lemma {:induction false} TenantsAreIndependent(cfg: Config, calls: seq<Attempt>, tenant: string)
    requires cfg.Valid()
    ensures Lookup(Buckets(cfg, calls), tenant) == After(cfg, TimesOf(calls, tenant))
  {
    if calls != [] {
      var before, c := calls[..|calls| - 1], calls[|calls| - 1];
      TenantsAreIndependent(cfg, before, tenant);
      if c.tenant == tenant {
        OneMoreTime(cfg, TimesOf(before, tenant), c.now);
      } else {
        assert TimesOf(calls, tenant) == TimesOf(before, tenant);
      }
    }
  }

  lemma OneMoreTime(cfg: Config, times: seq<int>, now: int)
    requires cfg.Valid()
    ensures After(cfg, times + [now]) == Some(Call(cfg, After(cfg, times), now).0)
  {
    assert (times + [now])[..|times|] == times;
  }

  // ---- Retrying after the returned wait ---------------------------------------------------------------

  /** When a refused caller is admitted, if it is the next to call and its clock has not stepped back. */
  lemma AdmittedAfter(cfg: Config, b: Option<Bucket>, now: int, d: nat)
    requires cfg.Valid() && (b.Some? ==> b.value.last <= now) && Call(cfg, b, now).1.Refused?
    ensures var (bucket, _) := Call(cfg, b, now);
            Call(cfg, Some(bucket), now + d).1 == Admitted <==> d as real >= cfg.ExactWait(bucket.tokens)
  {
    var (bucket, _) := Call(cfg, b, now);
    EnoughTime(cfg, bucket.tokens, d);
  }

  lemma EnoughTime(cfg: Config, tokens: real, d: nat)
    requires cfg.Valid() && tokens < 1.0
    ensures cfg.ExactWait(tokens) > 0.0
    ensures tokens + cfg.Earned(d) >= 1.0 <==> d as real >= cfg.ExactWait(tokens)
  {
    var need := 1.0 - tokens;
    var q := need / cfg.rate;
    assert q * cfg.rate == need;
    assert q > 0.0;
    var x := q * SECOND as real;
    if d as real >= x {
      assert cfg.rate * (d as real) >= cfg.rate * x;
      assert cfg.rate * x == need * SECOND as real;
    } else {
      assert cfg.rate * (d as real) < cfg.rate * x;
      assert cfg.rate * x == need * SECOND as real;
    }
  }

  /** One nanosecond after the returned wait it is always admitted; exactly at the wait, if and only if
      truncating the wait lost nothing or the one-millisecond minimum made up for it. */
  lemma RetryIsAdmitted(cfg: Config, b: Option<Bucket>, now: int)
    requires cfg.Valid() && (b.Some? ==> b.value.last <= now) && Call(cfg, b, now).1.Refused?
    ensures var (bucket, outcome) := Call(cfg, b, now);
            var exact := cfg.ExactWait(bucket.tokens);
            && Call(cfg, Some(bucket), now + outcome.wait + 1).1 == Admitted
            && (Call(cfg, Some(bucket), now + outcome.wait).1 == Admitted <==>
                exact.Floor as real == exact || exact <= MILLISECOND as real)
  {
    var (bucket, outcome) := Call(cfg, b, now);
    AdmittedAfter(cfg, b, now, outcome.wait + 1);
    AdmittedAfter(cfg, b, now, outcome.wait);
  }
}
