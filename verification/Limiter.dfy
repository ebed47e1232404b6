/** The directional token bucket, in exact arithmetic. Times are in seconds. */
module Limiter {
  datatype Direction = Ingress | Egress

  datatype Bucket = Bucket(tokens: real, at: real)

  datatype Config = Config(rate: real, burst: real)

  function Max(a: real, b: real): real {
    if a < b then b else a
  }

  function Min(a: real, b: real): real {
    if a < b then a else b
  }

  /** A nonzero rate without a burst gets one second of allowance. */
  function Effective(cfg: Config): (c: Config)
    ensures c.rate == cfg.rate && (cfg.rate > 0.0 && cfg.burst >= 0.0 ==> c.burst > 0.0)
  {
    if cfg.rate != 0.0 && cfg.burst == 0.0 then cfg.(burst := cfg.rate) else cfg
  }

  predicate Sane(cfg: Config) {
    cfg.rate > 0.0 && cfg.burst > 0.0
  }

  /** Refilled up to the burst; a clock that went back counts as standing still. */
  function Refilled(cfg: Config, b: Bucket, now: real): Bucket {
    RefilledAt(cfg, b, Max(now, b.at))
  }

  function RefilledAt(cfg: Config, b: Bucket, t: real): Bucket {
    Bucket(Min(b.tokens + (t - b.at) * cfg.rate, cfg.burst), t)
  }

  predicate Passes(cfg: Config, b: Bucket, n: nat, now: real) {
    n as real <= Refilled(cfg, b, now).tokens
  }

  function Asked(cfg: Config, b: Bucket, n: nat, now: real): Bucket {
    var r := Refilled(cfg, b, now);
    if n as real <= r.tokens then r.(tokens := r.tokens - n as real) else r
  }

  // ---- runs ----

  /** One request: a direction, a size and what the clock said. */
  datatype Ask = Ask(d: Direction, n: nat, now: real)

  type Buckets = map<Direction, Bucket>

  predicate Filled(cfg: Config, s: Buckets) {
    forall d :: d in s && 0.0 <= s[d].tokens <= cfg.burst
  }

  function Step(cfg: Config, s: Buckets, a: Ask): Buckets
    requires a.d in s
  {
    s[a.d := Asked(cfg, s[a.d], a.n, a.now)]
  }

  /** The buckets before and after each request of a run, both directions mixed as they come. */
  ghost predicate IsRun(cfg: Config, ss: seq<Buckets>, asks: seq<Ask>) {
    && |ss| == |asks| + 1 && Filled(cfg, ss[0])
    && forall i :: 0 <= i < |asks| ==> asks[i].d in ss[i] && ss[i + 1] == Step(cfg, ss[i], asks[i])
  }

  /** The bytes one request lets through in a direction. */
  ghost function Through(cfg: Config, s: Buckets, a: Ask, d: Direction): real
    requires a.d in s
  {
    if a.d == d && Passes(cfg, s[a.d], a.n, a.now) then a.n as real else 0.0
  }

  /** The bytes let through in a direction by the requests from i up to j. */
  ghost function Passed(cfg: Config, ss: seq<Buckets>, asks: seq<Ask>, d: Direction, i: nat, j: nat): real
    requires IsRun(cfg, ss, asks) && i <= j <= |asks|
    decreases j - i
  {
    if i == j then 0.0 else Through(cfg, ss[i], asks[i], d) + Passed(cfg, ss, asks, d, i + 1, j)
  }

  /** The tokens less all that time has refilled so far: it only goes down, by at least what passes. */
  ghost function Credit(cfg: Config, b: Bucket): real {
    b.tokens - b.at * cfg.rate
  }

  lemma RefillConserves(cfg: Config, b: Bucket, t: real)
    requires Sane(cfg) && 0.0 <= b.tokens <= cfg.burst && b.at <= t
    ensures var a := RefilledAt(cfg, b, t); 0.0 <= a.tokens <= cfg.burst && Credit(cfg, a) <= Credit(cfg, b)
  {
    NotNegative(t - b.at, cfg.rate);
    Spread(b.at, t, cfg.rate);
    Topped(b.tokens, cfg.burst, (t - b.at) * cfg.rate, b.at * cfg.rate, t * cfg.rate);
  }

  lemma Topped(tokens: real, burst: real, gain: real, before: real, after: real)
    requires gain == after - before && gain >= 0.0 && 0.0 <= tokens <= burst
    ensures 0.0 <= Min(tokens + gain, burst) <= burst && Min(tokens + gain, burst) - after <= tokens - before
  {
  }

  lemma NotNegative(x: real, y: real)
    requires x >= 0.0 && y >= 0.0
    ensures x * y >= 0.0
  {
  }

  lemma Spread(a: real, b: real, r: real)
    ensures (b - a) * r == b * r - a * r
  {
  }

  lemma BucketConserves(cfg: Config, b: Bucket, n: nat, now: real)
    requires Sane(cfg) && 0.0 <= b.tokens <= cfg.burst
    ensures var a := Asked(cfg, b, n, now);
            && 0.0 <= a.tokens <= cfg.burst && b.at <= a.at
            && (if Passes(cfg, b, n, now) then n as real else 0.0) + Credit(cfg, a) <= Credit(cfg, b)
  {
    RefillConserves(cfg, b, Max(now, b.at));
  }

  lemma StepConserves(cfg: Config, s: Buckets, a: Ask, d: Direction)
    requires Sane(cfg) && Filled(cfg, s)
    ensures var t := Step(cfg, s, a);
            && Filled(cfg, t) && s[d].at <= t[d].at
            && Through(cfg, s, a, d) + Credit(cfg, t[d]) <= Credit(cfg, s[d])
  {
    BucketConserves(cfg, s[a.d], a.n, a.now);
  }

  lemma {:induction false} AlwaysFilled(cfg: Config, ss: seq<Buckets>, asks: seq<Ask>, i: nat)
    requires Sane(cfg) && IsRun(cfg, ss, asks) && i < |ss|
    ensures Filled(cfg, ss[i])
  {
    if i > 0 {
      AlwaysFilled(cfg, ss, asks, i - 1);
      StepConserves(cfg, ss[i - 1], asks[i - 1], Ingress);
    }
  }

  lemma {:induction false} WindowConserves(cfg: Config, ss: seq<Buckets>, asks: seq<Ask>, d: Direction, i: nat, j: nat)
    requires Sane(cfg) && IsRun(cfg, ss, asks) && i <= j <= |asks|
    ensures d in ss[i] && d in ss[j] && ss[i][d].at <= ss[j][d].at
    ensures Passed(cfg, ss, asks, d, i, j) + Credit(cfg, ss[j][d]) <= Credit(cfg, ss[i][d])
    decreases j - i
  {
    AlwaysFilled(cfg, ss, asks, i);
    if i < j {
      StepConserves(cfg, ss[i], asks[i], d);
      WindowConserves(cfg, ss, asks, d, i + 1, j);
    }
  }

  /** The burst, and the refill between two times of a bucket. */
  ghost function Allowance(cfg: Config, a: Bucket, b: Bucket): real {
    cfg.burst + (b.at - a.at) * cfg.rate
  }

  /**
    Over any window of any run, backward clocks included, the bytes let
    through in a direction are at most the burst plus the rate times the time
    elapsed on that direction's clock, which only moves forward.
   */
  lemma WindowBound(cfg: Config, ss: seq<Buckets>, asks: seq<Ask>, d: Direction, i: nat, j: nat)
    requires Sane(cfg) && IsRun(cfg, ss, asks) && i <= j <= |asks|
    ensures d in ss[i] && d in ss[j]
    ensures Passed(cfg, ss, asks, d, i, j) <= Allowance(cfg, ss[i][d], ss[j][d])
  {
    AlwaysFilled(cfg, ss, asks, i);
    AlwaysFilled(cfg, ss, asks, j);
    WindowConserves(cfg, ss, asks, d, i, j);
    FromCredit(cfg, Passed(cfg, ss, asks, d, i, j), ss[i][d], ss[j][d]);
  }

  lemma FromCredit(cfg: Config, p: real, a: Bucket, b: Bucket)
    requires p + Credit(cfg, b) <= Credit(cfg, a) && a.tokens <= cfg.burst && 0.0 <= b.tokens
    ensures p <= Allowance(cfg, a, b)
  {
    Spread(a.at, b.at, cfg.rate);
  }

  /** The latest of a start and the readings made in a direction. */
  ghost function Latest(start: real, asks: seq<Ask>, d: Direction): real {
    if asks == [] then start
    else
      var before := Latest(start, asks[..|asks| - 1], d);
      if asks[|asks| - 1].d == d then Max(asks[|asks| - 1].now, before) else before
  }

  /** A direction's clock stands at the latest reading so far. */
  lemma {:induction false} ClampedClock(cfg: Config, ss: seq<Buckets>, asks: seq<Ask>, d: Direction, j: nat)
    requires IsRun(cfg, ss, asks) && j <= |asks|
    ensures d in ss[0] && d in ss[j] && ss[j][d].at == Latest(ss[0][d].at, asks[..j], d)
  {
    if j > 0 {
      ClampedClock(cfg, ss, asks, d, j - 1);
      assert asks[..j][..j - 1] == asks[..j - 1];
    }
  }

  class TokenLimiter {
    const cfg: Config
    var buckets: map<Direction, Bucket>

    ghost predicate Valid()
      reads this
    {
      cfg.rate >= 0.0 && (cfg.rate != 0.0 ==> Sane(cfg) && Ingress in buckets && Egress in buckets)
    }

    constructor (config: Config, started: Direction -> real)
      requires config.rate >= 0.0 && config.burst >= 0.0
      ensures Valid() && cfg == Effective(config)
      ensures cfg.rate != 0.0 ==>
                && Ingress in buckets && buckets[Ingress] == Bucket(cfg.burst, started(Ingress))
                && Egress in buckets && buckets[Egress] == Bucket(cfg.burst, started(Egress))
    {
      var c := Effective(config);
      cfg := c;
      buckets := if c.rate == 0.0 then map[]
                 else map[Ingress := Bucket(c.burst, started(Ingress)), Egress := Bucket(c.burst, started(Egress))];
    }

    /** Each direction has its own bucket; a zero rate lets everything pass; a negative size never passes. */
    method Allow(d: Direction, n: int, clock: real) returns (ok: bool)
      requires Valid()
      modifies this
      ensures Valid()
      ensures n < 0 ==> !ok && buckets == old(buckets)
      ensures n >= 0 && cfg.rate == 0.0 ==> ok && buckets == old(buckets)
      ensures n >= 0 && cfg.rate != 0.0 ==>
                && ok == Passes(cfg, old(buckets[d]), n, clock)
                && buckets == old(buckets)[d := Asked(cfg, old(buckets[d]), n, clock)]
    {
      if n < 0 {
        return false;
      }
      if cfg.rate == 0.0 {
        return true;
      }
      var b := buckets[d];
      var now := clock;
      if now < b.at {
        now := b.at;
      }
      b := b.(tokens := b.tokens + (now - b.at) * cfg.rate);
      if b.tokens > cfg.burst {
        b := b.(tokens := cfg.burst);
      }
      b := b.(at := now);
      assert b == RefilledAt(cfg, old(buckets[d]), now);
      if n as real > b.tokens {
        buckets := buckets[d := b];
        return false;
      }
      b := b.(tokens := b.tokens - n as real);
      buckets := buckets[d := b];
      ok := true;
    }
  }
}
