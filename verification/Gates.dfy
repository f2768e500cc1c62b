/** The gate in front of the proxy: a token bucket with lazy refill per address, temporary
    blocks, session limits, a ban list, and a periodic sweep that forgets idle buckets.

    Tokens are real numbers and the time is an argument, measured from the zero time. */
module Gates {
  const SWEEP_INTERVAL := 60.0
  const BUCKET_IDLE_TIME := 300.0
  const ZERO_TIME := 0.0

  type Address = string

  datatype Decision = Allowed | DeniedBanned | DeniedRateLimited | DeniedTooManySessions | DeniedFull

  datatype Options = Options(rate: real, burst: int, blockDuration: real, maxSessionsPerIP: int, maxSessions: int)

  /** The configuration loader refuses anything else. */
  predicate OptionsOk(o: Options) { o.rate > 0.0 && o.burst >= 1 }

  datatype Bucket = Bucket(tokens: real, last: real, blockedUntil: real)

  datatype GateState = GateState(buckets: map<Address, Bucket>, sessions: map<Address, int>, banned: set<Address>,
                         total: int, lastSweep: real, blocked: nat, rejected: nat)

  // ------------------------------------------------------------------------ arithmetic

  /** The tokens that a stretch of time brings. */
  function Gain(rate: real, span: real): real { rate * span }

  lemma {:induction false} GainAdd(rate: real, a: real, b: real)
    ensures Gain(rate, a + b) == Gain(rate, a) + Gain(rate, b)
  {}

  lemma {:induction false} GainGrows(rate: real, a: real, b: real)
    requires rate >= 0.0 && a <= b
    ensures Gain(rate, a) <= Gain(rate, b)
  {
    GainAdd(rate, a, b - a);
  }

  lemma {:induction false} GainNothing(rate: real)
    ensures Gain(rate, 0.0) == 0.0
  {}

  function Lesser(a: real, b: real): real { if a <= b then a else b }

  // ------------------------------------------------------------------------ operations

  function FreshBucket(o: Options, now: real): Bucket { Bucket(o.burst as real, now, ZERO_TIME) }

  function BucketOf(g: GateState, ip: Address, o: Options, now: real): Bucket {
    if ip in g.buckets then g.buckets[ip] else FreshBucket(o, now)
  }

  function Refill(b: Bucket, o: Options, now: real): Bucket {
    b.(tokens := Lesser(b.tokens + Gain(o.rate, now - b.last), o.burst as real), last := now)
  }

  function SessionsOf(g: GateState, ip: Address): int { if ip in g.sessions then g.sessions[ip] else 0 }

  predicate Evictable(g: GateState, ip: Address, now: real) {
    && ip in g.buckets && !(now < g.buckets[ip].blockedUntil)
    && !(now - g.buckets[ip].last < BUCKET_IDLE_TIME) && !(SessionsOf(g, ip) > 0)
  }

  predicate SweepDue(g: GateState, now: real) { !(now - g.lastSweep < SWEEP_INTERVAL) }

  function Swept(g: GateState, now: real): GateState {
    if !SweepDue(g, now) then g
    else g.(lastSweep := now, buckets := map ip | ip in g.buckets && !Evictable(g, ip, now) :: g.buckets[ip])
  }

  /** The decision on an address that is not banned, its bucket after it. */
  function Judge(g: GateState, o: Options, b: Bucket, ip: Address, now: real): (Bucket, Decision) {
    if now < b.blockedUntil then (b, DeniedRateLimited)
    else
      var r := Refill(b, o, now);
      if r.tokens < 1.0 then (r.(blockedUntil := now + o.blockDuration), DeniedRateLimited)
      else if o.maxSessionsPerIP > 0 && SessionsOf(g, ip) >= o.maxSessionsPerIP then (r, DeniedTooManySessions)
      else if o.maxSessions > 0 && g.total >= o.maxSessions then (r, DeniedFull)
      else (r.(tokens := r.tokens - 1.0), Allowed)
  }

  function Admit(g: GateState, o: Options, ip: Address, now: real): (GateState, Decision) {
    if ip in g.banned then (g.(rejected := g.rejected + 1), DeniedBanned)
    else
      var (b, d) := Judge(g, o, BucketOf(g, ip, o, now), ip, now);
      (g.(buckets := g.buckets[ip := b],
          blocked := g.blocked + if d == DeniedRateLimited then 1 else 0,
          rejected := g.rejected + if d == Allowed then 0 else 1), d)
  }

  datatype Call = Allow(ip: Address) | Acquire(ip: Address)
                | Release(ip: Address) | Ban(ip: Address) | Unban(ip: Address)

  /** One call. With `evict` false this is the reference gate that never forgets a bucket. */
  function Step(g: GateState, o: Options, c: Call, now: real, evict: bool): (GateState, Decision) {
    match c
    case Allow(ip) => Admit(if evict then Swept(g, now) else g, o, ip, now)
    case Acquire(ip) => (g.(sessions := g.sessions[ip := SessionsOf(g, ip) + 1], total := g.total + 1), Allowed)
    case Release(ip) =>
      (g.(sessions := if SessionsOf(g, ip) <= 1 then g.sessions - {ip} else g.sessions[ip := SessionsOf(g, ip) - 1],
          total := if g.total > 0 then g.total - 1 else g.total), Allowed)
    case Ban(ip) => (g.(banned := g.banned + {ip}), Allowed)
    case Unban(ip) => (g.(banned := g.banned - {ip}), Allowed)
  }

  // ---------------------------------------------------------------------- the code itself

  class Gate {
    const opts: Options
    var buckets: map<Address, Bucket>
    var sessions: map<Address, int>
    var banned: set<Address>
    var total: int
    var lastSweep: real
    var blocked: nat
    var rejected: nat

    function State(): GateState
      reads this
    {
      GateState(buckets, sessions, banned, total, lastSweep, blocked, rejected)
    }

    constructor (opts: Options, banned: set<Address>, now: real)
      ensures this.opts == opts && State() == Initial(Start(now, banned))
    {
      this.opts := opts;
      buckets, sessions := map[], map[];
      this.banned := banned;
      total, lastSweep := 0, now;
      blocked, rejected := 0, 0;
    }

    /** The bucket is written back wherever the method returns. */
    method Allow(ip: Address, now: real) returns (d: Decision)
      modifies this
      ensures (State(), d) == Step(old(State()), opts, Call.Allow(ip), now, true)
    {
      hide Gain, Lesser, Swept, Evictable, SessionsOf;
      Sweep(now);
      if ip in banned {
        rejected := rejected + 1;
        return DeniedBanned;
      }
      var b := if ip in buckets then buckets[ip] else Bucket(opts.burst as real, now, ZERO_TIME);
      if now < b.blockedUntil {
        buckets := buckets[ip := b];
        blocked, rejected := blocked + 1, rejected + 1;
        return DeniedRateLimited;
      }
      MinIs(b.tokens + Gain(opts.rate, now - b.last), opts.burst as real);
      b := b.(tokens := b.tokens + Gain(opts.rate, now - b.last), last := now);
      if b.tokens > opts.burst as real {
        b := b.(tokens := opts.burst as real);
      }
      if b.tokens < 1.0 {
        buckets := buckets[ip := b.(blockedUntil := now + opts.blockDuration)];
        blocked, rejected := blocked + 1, rejected + 1;
        return DeniedRateLimited;
      }
      if opts.maxSessionsPerIP > 0 && SessionsOf(State(), ip) >= opts.maxSessionsPerIP {
        buckets := buckets[ip := b];
        rejected := rejected + 1;
        return DeniedTooManySessions;
      }
      if opts.maxSessions > 0 && total >= opts.maxSessions {
        buckets := buckets[ip := b];
        rejected := rejected + 1;
        return DeniedFull;
      }
      buckets := buckets[ip := b.(tokens := b.tokens - 1.0)];
      return Allowed;
    }

    lemma {:induction false} MinIs(a: real, b: real)
      ensures Lesser(a, b) == if a > b then b else a
    {}

    method Sweep(now: real)
      modifies this`buckets, this`lastSweep
      ensures State() == Swept(old(State()), now)
    {
      if now - lastSweep < SWEEP_INTERVAL {
        return;
      }
      lastSweep := now;
      var keys := buckets.Keys;
      while keys != {}
        invariant lastSweep == now && keys <= buckets.Keys <= old(buckets.Keys)
        invariant forall ip :: ip in buckets ==> buckets[ip] == old(buckets)[ip]
        invariant forall ip :: ip in old(buckets) && ip !in keys ==>
                    (ip in buckets <==> !Evictable(old(State()), ip, now))
        decreases |keys|
      {
        var key :| key in keys;
        keys := keys - {key};
        var b := buckets[key];
        if now < b.blockedUntil {
          continue;
        }
        if now - b.last < BUCKET_IDLE_TIME {
          continue;
        }
        if SessionsOf(State(), key) > 0 {
          continue;
        }
        buckets := buckets - {key};
      }
      assert buckets == Swept(old(State()), now).buckets;
    }

    method Acquire(ip: Address)
      modifies this`sessions, this`total
      ensures State() == Step(old(State()), opts, Call.Acquire(ip), ZERO_TIME, true).0
    {
      sessions := sessions[ip := SessionsOf(State(), ip) + 1];
      total := total + 1;
    }

    method Release(ip: Address)
      modifies this`sessions, this`total
      ensures State() == Step(old(State()), opts, Call.Release(ip), ZERO_TIME, true).0
    {
      var count := SessionsOf(State(), ip);
      if count <= 1 {
        sessions := sessions - {ip};
      }
      if count > 1 {
        sessions := sessions[ip := count - 1];
      }
      if total > 0 {
        total := total - 1;
      }
    }

    method Ban(ip: Address)
      modifies this`banned
      ensures State() == Step(old(State()), opts, Call.Ban(ip), ZERO_TIME, true).0
    {
      banned := banned + {ip};
    }

    method Unban(ip: Address) returns (found: bool)
      modifies this`banned
      ensures State() == Step(old(State()), opts, Call.Unban(ip), ZERO_TIME, true).0
      ensures found <==> ip in old(banned)
    {
      if ip !in banned {
        return false;
      }
      banned := banned - {ip};
      return true;
    }
  }

  // -------------------------------------------------------------------------------- runs

  /** A call and the time it is made. */
  datatype Timed = Timed(call: Call, at: real)

  /** When a gate is made, and the ban list it is made with. */
  datatype Start = Start(at: real, banned: set<Address>)

  /** Calls in the order of their times, none before the gate was made. */
  ghost predicate InTime(start: Start, ops: seq<Timed>) {
    && start.at >= ZERO_TIME
    && (forall i :: 0 <= i < |ops| ==> start.at <= ops[i].at)
    && forall i, j :: 0 <= i <= j < |ops| ==> ops[i].at <= ops[j].at
  }

  function Initial(start: Start): GateState { GateState(map[], map[], start.banned, 0, start.at, 0, 0) }

  /** The gate before call n. */
  function StateBefore(o: Options, start: Start, ops: seq<Timed>, n: nat, evict: bool): GateState
    requires n <= |ops|
  {
    if n == 0 then Initial(start)
    else Step(StateBefore(o, start, ops, n - 1, evict), o, ops[n - 1].call, ops[n - 1].at, evict).0
  }

  function DecisionAt(o: Options, start: Start, ops: seq<Timed>, n: nat, evict: bool): Decision
    requires n < |ops|
  {
    Step(StateBefore(o, start, ops, n, evict), o, ops[n].call, ops[n].at, evict).1
  }

  function TimeBefore(start: Start, ops: seq<Timed>, n: nat): real
    requires n <= |ops|
  {
    if n == 0 then start.at else ops[n - 1].at
  }

  // --------------------------------------------------------------------- token invariant

  ghost predicate BucketOk(b: Bucket, o: Options, now: real) {
    0.0 <= b.tokens <= o.burst as real && ZERO_TIME <= b.last <= now
  }

  ghost predicate GateOk(g: GateState, o: Options, now: real) {
    forall ip :: ip in g.buckets ==> BucketOk(g.buckets[ip], o, now)
  }

  lemma {:induction false} JudgeKeepsOk(g: GateState, o: Options, b: Bucket, ip: Address, was: real, now: real)
    requires OptionsOk(o) && BucketOk(b, o, was) && ZERO_TIME <= was <= now
    ensures BucketOk(Judge(g, o, b, ip, now).0, o, now)
  {
    hide Gain;
    GainNothing(o.rate);
    GainGrows(o.rate, 0.0, now - b.last);
  }

  lemma {:induction false} StepKeepsOk(g: GateState, o: Options, c: Call, was: real, now: real, evict: bool)
    requires OptionsOk(o) && GateOk(g, o, was) && ZERO_TIME <= was <= now
    ensures GateOk(Step(g, o, c, now, evict).0, o, now)
  {
    hide Judge;
    if c.Allow? {
      var s := if evict then Swept(g, now) else g;
      JudgeKeepsOk(s, o, BucketOf(s, c.ip, o, was), c.ip, was, now);
      JudgeKeepsOk(s, o, BucketOf(s, c.ip, o, now), c.ip, now, now);
    }
  }

  /** In every run every bucket holds between zero and `burst` tokens. */
  lemma {:induction false} TokensBounded(o: Options, start: Start, ops: seq<Timed>, n: nat, evict: bool)
    requires OptionsOk(o) && InTime(start, ops) && n <= |ops|
    ensures GateOk(StateBefore(o, start, ops, n, evict), o, TimeBefore(start, ops, n))
    ensures start.at <= TimeBefore(start, ops, n) && (n < |ops| ==> TimeBefore(start, ops, n) <= ops[n].at)
  {
    hide Step;
    if n > 0 {
      TokensBounded(o, start, ops, n - 1, evict);
      StepKeepsOk(StateBefore(o, start, ops, n - 1, evict), o, ops[n - 1].call,
                  TimeBefore(start, ops, n - 1), ops[n - 1].at, evict);
    }
  }

  // ---------------------------------------------------------------------- the rate bound

  /** The tokens an address would have at time t. */
  function Level(g: GateState, o: Options, ip: Address, t: real): real {
    if ip in g.buckets then Refill(g.buckets[ip], o, t).tokens else o.burst as real
  }

  predicate Admits(o: Options, start: Start, ops: seq<Timed>, n: nat, ip: Address, evict: bool)
    requires n < |ops|
  {
    ops[n].call == Allow(ip) && DecisionAt(o, start, ops, n, evict) == Allowed
  }

  /** How often the address was let in by the calls from lo up to hi. */
  function AllowedCount(o: Options, start: Start, ops: seq<Timed>, lo: nat, hi: nat, ip: Address, evict: bool): nat
    requires lo <= hi <= |ops|
    decreases hi
  {
    if lo == hi then 0
    else AllowedCount(o, start, ops, lo, hi - 1, ip, evict) + if Admits(o, start, ops, hi - 1, ip, evict) then 1 else 0
  }

  /** Call n makes the sweep forget the bucket of this address. */
  predicate Forgets(o: Options, start: Start, ops: seq<Timed>, n: nat, ip: Address, evict: bool)
    requires n < |ops|
  {
    var g := StateBefore(o, start, ops, n, evict);
    evict && ops[n].call.Allow? && SweepDue(g, ops[n].at) && Evictable(g, ip, ops[n].at)
  }

  /** Idle buckets have refilled by the time they are forgotten. */
  predicate Refills(o: Options) { Gain(o.rate, BUCKET_IDLE_TIME) >= o.burst as real }

  lemma {:induction false} LevelRises(g: GateState, o: Options, ip: Address, s: real, t: real)
    requires OptionsOk(o) && s <= t
    ensures Level(g, o, ip, t) <= Level(g, o, ip, s) + Gain(o.rate, t - s)
    ensures Level(g, o, ip, t) <= o.burst as real
  {
    hide Gain;
    GainNothing(o.rate);
    GainGrows(o.rate, 0.0, t - s);
    if ip in g.buckets { GainAdd(o.rate, s - g.buckets[ip].last, t - s); }
  }

  /** A call costs the address one token if it is let in, and never gives it any. */
  lemma {:induction false} LevelStep(g: GateState, o: Options, c: Call, ip: Address, now: real, evict: bool)
    requires OptionsOk(o) && GateOk(g, o, now)
    requires evict && c.Allow? && SweepDue(g, now) && Evictable(g, ip, now) ==> Refills(o)
    ensures var (after, d) := Step(g, o, c, now, evict);
            Level(after, o, ip, now) == Level(g, o, ip, now) - if c == Allow(ip) && d == Allowed then 1.0 else 0.0
  {
    hide Gain, BucketOk;
    if c.Allow? {
      var s := if evict then Swept(g, now) else g;
      SweepKeepsLevel(g, o, ip, now, evict);
      if c.ip == ip {
        JudgeLevel(s, o, ip, now);
      }
    }
  }

  lemma {:induction false} SweepKeepsLevel(g: GateState, o: Options, ip: Address, now: real, evict: bool)
    requires OptionsOk(o) && GateOk(g, o, now)
    requires evict && SweepDue(g, now) && Evictable(g, ip, now) ==> Refills(o)
    ensures Level(if evict then Swept(g, now) else g, o, ip, now) == Level(g, o, ip, now)
  {
    hide Gain;
    if Evictable(g, ip, now) { GainGrows(o.rate, BUCKET_IDLE_TIME, now - g.buckets[ip].last); }
  }

  lemma {:induction false} JudgeLevel(g: GateState, o: Options, ip: Address, now: real)
    requires OptionsOk(o) && (ip in g.buckets ==> BucketOk(g.buckets[ip], o, now))
    ensures var (b, d) := Judge(g, o, BucketOf(g, ip, o, now), ip, now);
            Refill(b, o, now).tokens == Level(g, o, ip, now) - if d == Allowed then 1.0 else 0.0
  {
    hide Gain;
    GainNothing(o.rate);
  }

  /** Between two calls, both included, an address is let in at most burst + rate * span
      times, unless the sweep forgets its bucket before it has refilled. */
  lemma {:induction false} AllowedBound(o: Options, start: Start, ops: seq<Timed>, lo: nat, hi: nat, ip: Address,
                                        evict: bool)
    requires OptionsOk(o) && InTime(start, ops) && lo < hi <= |ops|
    requires Refills(o) || forall n :: lo <= n < hi ==> !Forgets(o, start, ops, n, ip, evict)
    ensures AllowedCount(o, start, ops, lo, hi, ip, evict) as real
            <= o.burst as real + Gain(o.rate, ops[hi - 1].at - ops[lo].at)
  {
    SpentLevel(o, start, ops, lo, hi, ip, evict);
    TokensBounded(o, start, ops, hi, evict);
    LevelNatural(StateBefore(o, start, ops, hi, evict), o, ip, ops[hi - 1].at);
  }

  lemma {:induction false} LevelNatural(g: GateState, o: Options, ip: Address, t: real)
    requires OptionsOk(o) && GateOk(g, o, t)
    ensures Level(g, o, ip, t) >= 0.0
  {
    hide Gain;
    if ip in g.buckets {
      GainNothing(o.rate);
      GainGrows(o.rate, 0.0, t - g.buckets[ip].last);
    }
  }

  lemma {:induction false} SpentLevel(o: Options, start: Start, ops: seq<Timed>, lo: nat, hi: nat, ip: Address,
                                      evict: bool)
    requires OptionsOk(o) && InTime(start, ops) && lo < hi <= |ops|
    requires Refills(o) || forall n :: lo <= n < hi ==> !Forgets(o, start, ops, n, ip, evict)
    ensures AllowedCount(o, start, ops, lo, hi, ip, evict) as real
            + Level(StateBefore(o, start, ops, hi, evict), o, ip, ops[hi - 1].at)
            <= o.burst as real + Gain(o.rate, ops[hi - 1].at - ops[lo].at)
    decreases hi
  {
    hide Step, Gain, Level, Refills, GateOk, Swept, Evictable, SweepDue;
    var last := hi - 1;
    var g := StateBefore(o, start, ops, last, evict);
    TokensBounded(o, start, ops, last, evict);
    StateOkLater(g, o, TimeBefore(start, ops, last), ops[last].at);
    assert Refills(o) || !Forgets(o, start, ops, last, ip, evict);
    LevelStep(g, o, ops[last].call, ip, ops[last].at, evict);
    if last == lo {
      GainNothing(o.rate);
      LevelRises(g, o, ip, ops[lo].at, ops[lo].at);
    } else {
      SpentLevel(o, start, ops, lo, last, ip, evict);
      LevelRises(g, o, ip, ops[last - 1].at, ops[last].at);
      GainAdd(o.rate, ops[last - 1].at - ops[lo].at, ops[last].at - ops[last - 1].at);
    }
  }

  lemma {:induction false} StateOkLater(g: GateState, o: Options, was: real, now: real)
    requires GateOk(g, o, was) && was <= now
    ensures GateOk(g, o, now)
  {}

  // ------------------------------------------------------------------------------ blocks

  ghost predicate BlockedUntil(g: GateState, ip: Address, until: real) {
    ip in g.buckets && g.buckets[ip].blockedUntil == until
  }

  lemma {:induction false} BlockedStep(g: GateState, o: Options, c: Call, ip: Address, until: real, now: real,
                                       evict: bool)
    requires BlockedUntil(g, ip, until) && now < until
    ensures BlockedUntil(Step(g, o, c, now, evict).0, ip, until)
    ensures c == Allow(ip) ==> Step(g, o, c, now, evict).1 in {DeniedRateLimited, DeniedBanned}
  {
    hide Refill;
  }

  /** Once an address has run out of tokens it is not let in again before its block is over,
      sweeps or not; a block that was not there before lasts the whole block duration. */
  lemma {:induction false} BlockLasts(o: Options, start: Start, ops: seq<Timed>, i: nat, j: nat, ip: Address,
                                      evict: bool)
    requires InTime(start, ops) && i < j < |ops| && ops[i].call == Allow(ip) && ops[j].call == Allow(ip)
    requires DecisionAt(o, start, ops, i, evict) == DeniedRateLimited
    ensures var before, after := StateBefore(o, start, ops, i, evict), StateBefore(o, start, ops, i + 1, evict);
            && ip in after.buckets
            && (ops[j].at < after.buckets[ip].blockedUntil ==>
                  DecisionAt(o, start, ops, j, evict) in {DeniedRateLimited, DeniedBanned})
            && (ip in before.buckets && ops[i].at < before.buckets[ip].blockedUntil ==>
                  after.buckets[ip].blockedUntil == before.buckets[ip].blockedUntil)
            && (!(ip in before.buckets && ops[i].at < before.buckets[ip].blockedUntil) ==>
                  after.buckets[ip].blockedUntil == ops[i].at + o.blockDuration)
  {
    hide Refill;
    var until := StateBefore(o, start, ops, i + 1, evict).buckets[ip].blockedUntil;
    if ops[j].at < until {
      StaysBlocked(o, start, ops, i + 1, j, ip, until, evict);
      BlockedStep(StateBefore(o, start, ops, j, evict), o, ops[j].call, ip, until, ops[j].at, evict);
    }
  }

  lemma {:induction false} StaysBlocked(o: Options, start: Start, ops: seq<Timed>, i: nat, j: nat, ip: Address,
                                        until: real, evict: bool)
    requires InTime(start, ops) && i <= j < |ops| && ops[j].at < until
    requires BlockedUntil(StateBefore(o, start, ops, i, evict), ip, until)
    ensures BlockedUntil(StateBefore(o, start, ops, j, evict), ip, until)
    decreases j
  {
    hide Step, BlockedUntil;
    if i < j {
      StaysBlocked(o, start, ops, i, j - 1, ip, until, evict);
      BlockedStep(StateBefore(o, start, ops, j - 1, evict), o, ops[j - 1].call, ip, until, ops[j - 1].at, evict);
    }
  }

  // ---------------------------------------------------------------- eviction transparency

  /** Equal for every decision from now on: blocks that are over do not matter. */
  predicate SameBucket(b: Bucket, r: Bucket, now: real) {
    b.tokens == r.tokens && b.last == r.last
    && (b.blockedUntil == r.blockedUntil || (b.blockedUntil <= now && r.blockedUntil <= now))
  }

  /** A bucket that has refilled and is not blocked: as good as none. */
  predicate AsFresh(r: Bucket, o: Options, now: real) {
    r.blockedUntil <= now && Gain(o.rate, now - r.last) >= o.burst as real
  }

  /** The gate and its reference that never forgets: they agree on everything but buckets that
      are as good as none. */
  ghost predicate Agree(g: GateState, ref: GateState, o: Options, now: real) {
    && g.sessions == ref.sessions && g.banned == ref.banned && g.total == ref.total
    && g.blocked == ref.blocked && g.rejected == ref.rejected
    && (forall ip :: ip in g.buckets ==> ip in ref.buckets && SameBucket(g.buckets[ip], ref.buckets[ip], now))
    && (forall ip :: ip in ref.buckets && ip !in g.buckets ==> AsFresh(ref.buckets[ip], o, now))
  }

  lemma {:induction false} AgreeLater(g: GateState, ref: GateState, o: Options, was: real, now: real)
    requires OptionsOk(o) && was <= now && Agree(g, ref, o, was)
    ensures Agree(g, ref, o, now)
  {
    hide Gain;
    forall ip | ip in ref.buckets && ip !in g.buckets
      ensures AsFresh(ref.buckets[ip], o, now)
    {
      GainGrows(o.rate, was - ref.buckets[ip].last, now - ref.buckets[ip].last);
    }
  }

  lemma {:induction false} SweepAgrees(g: GateState, ref: GateState, o: Options, now: real)
    requires OptionsOk(o) && Refills(o) && Agree(g, ref, o, now)
    ensures Agree(Swept(g, now), ref, o, now)
  {
    hide Gain;
    forall ip | Evictable(g, ip, now)
      ensures AsFresh(ref.buckets[ip], o, now)
    {
      GainGrows(o.rate, BUCKET_IDLE_TIME, now - ref.buckets[ip].last);
    }
  }

  lemma {:induction false} AdmitAgrees(g: GateState, ref: GateState, o: Options, ip: Address, now: real)
    requires OptionsOk(o) && Agree(g, ref, o, now) && GateOk(ref, o, now) && ZERO_TIME <= now
    ensures var (h, d) := Admit(g, o, ip, now); var (s, e) := Admit(ref, o, ip, now);
            d == e && Agree(h, s, o, now)
  {
    hide Gain, AsFresh, Judge;
    JudgeAgrees(g, ref, o, ip, now);
  }

  lemma {:induction false} JudgeAgrees(g: GateState, ref: GateState, o: Options, ip: Address, now: real)
    requires OptionsOk(o) && Agree(g, ref, o, now) && GateOk(ref, o, now) && ZERO_TIME <= now
    ensures var (b, d) := Judge(g, o, BucketOf(g, ip, o, now), ip, now);
            var (r, e) := Judge(ref, o, BucketOf(ref, ip, o, now), ip, now);
            d == e && SameBucket(b, r, now)
  {
    hide Gain;
    GainNothing(o.rate);
  }

  lemma {:induction false} StepAgrees(g: GateState, ref: GateState, o: Options, c: Call, now: real)
    requires OptionsOk(o) && Refills(o) && Agree(g, ref, o, now) && GateOk(ref, o, now) && ZERO_TIME <= now
    ensures var (h, d) := Step(g, o, c, now, true); var (s, e) := Step(ref, o, c, now, false);
            d == e && Agree(h, s, o, now)
  {
    hide AsFresh, SameBucket, Swept, Admit, Refills;
    if c.Allow? {
      SweepAgrees(g, ref, o, now);
      AdmitAgrees(Swept(g, now), ref, o, c.ip, now);
    }
  }

  lemma {:induction false} AgreeThroughout(o: Options, start: Start, ops: seq<Timed>, n: nat)
    requires OptionsOk(o) && Refills(o) && InTime(start, ops) && n <= |ops|
    ensures Agree(StateBefore(o, start, ops, n, true), StateBefore(o, start, ops, n, false), o,
                  TimeBefore(start, ops, n))
  {
    hide Step, Agree, Refills, GateOk;
    if n == 0 {
      InitialAgrees(o, start);
    } else {
      var g, ref := StateBefore(o, start, ops, n - 1, true), StateBefore(o, start, ops, n - 1, false);
      AgreeThroughout(o, start, ops, n - 1);
      TokensBounded(o, start, ops, n - 1, false);
      StateOkLater(ref, o, TimeBefore(start, ops, n - 1), ops[n - 1].at);
      AgreeLater(g, ref, o, TimeBefore(start, ops, n - 1), ops[n - 1].at);
      StepAgrees(g, ref, o, ops[n - 1].call, ops[n - 1].at);
    }
  }

  lemma {:induction false} InitialAgrees(o: Options, start: Start)
    ensures Agree(Initial(start), Initial(start), o, start.at)
  {}

  /** If idle buckets refill, forgetting them changes no decision on any call of any run. */
  lemma {:induction false} EvictionTransparent(o: Options, start: Start, ops: seq<Timed>, n: nat)
    requires OptionsOk(o) && Refills(o) && InTime(start, ops) && n < |ops|
    ensures DecisionAt(o, start, ops, n, true) == DecisionAt(o, start, ops, n, false)
  {
    hide Step, Agree, Refills, GateOk;
    var g, ref := StateBefore(o, start, ops, n, true), StateBefore(o, start, ops, n, false);
    AgreeThroughout(o, start, ops, n);
    TokensBounded(o, start, ops, n, false);
    StateOkLater(ref, o, TimeBefore(start, ops, n), ops[n].at);
    AgreeLater(g, ref, o, TimeBefore(start, ops, n), ops[n].at);
    StepAgrees(g, ref, o, ops[n].call, ops[n].at);
  }

  // ------------------------------------------------------------- exactly when these hold

  /** A burst of calls, five idle minutes, and the same burst again. */
  function TwoBursts(o: Options, ip: Address, start: real): seq<Timed>
    requires OptionsOk(o)
  {
    seq(2 * o.burst, i => Timed(Allow(ip), if i < o.burst then start else start + BUCKET_IDLE_TIME))
  }

  /** The gate before call n of the two bursts. */
  ghost predicate Spending(g: GateState, o: Options, ip: Address, start: real, n: nat) {
    && g.sessions == map[] && ip !in g.banned && g.total == 0
    && (n == 0 ==> g.buckets == map[])
    && (0 < n <= o.burst ==> g.buckets == map[ip := Bucket(o.burst as real - n as real, start, ZERO_TIME)])
    && (n > o.burst ==>
          g.buckets == map[ip := Bucket(2.0 * o.burst as real - n as real, start + BUCKET_IDLE_TIME, ZERO_TIME)])
    && g.lastSweep == if n <= o.burst then start else start + BUCKET_IDLE_TIME
  }

  lemma {:induction false} SpendingStep(g: GateState, o: Options, ip: Address, start: real, n: nat)
    requires OptionsOk(o) && start >= ZERO_TIME && n < 2 * o.burst && Spending(g, o, ip, start, n)
    ensures var (h, d) := Step(g, o, Allow(ip), TwoBursts(o, ip, start)[n].at, true);
            d == Allowed && Spending(h, o, ip, start, n + 1)
  {
    hide Gain;
    var now := TwoBursts(o, ip, start)[n].at;
    GainNothing(o.rate);
    var s := Swept(g, now);
    assert s.buckets == if n == o.burst then map[] else g.buckets;
    assert s.sessions == map[] && ip !in s.banned && s.total == 0;
    SpendOne(s, o, ip, now);
  }

  /** An address with a token, no sessions and no ban is let in. */
  lemma {:induction false} SpendOne(g: GateState, o: Options, ip: Address, now: real)
    requires OptionsOk(o) && g.sessions == map[] && ip !in g.banned && g.total == 0 && now >= ZERO_TIME
    requires ip in g.buckets ==>
               var b := g.buckets[ip];
               b.last == now && 1.0 <= b.tokens <= o.burst as real && b.blockedUntil == ZERO_TIME
    ensures var (h, d) := Admit(g, o, ip, now);
            var tokens := if ip in g.buckets then g.buckets[ip].tokens else o.burst as real;
            d == Allowed && h == g.(buckets := g.buckets[ip := Bucket(tokens - 1.0, now, ZERO_TIME)])
  {
    hide Gain;
    GainNothing(o.rate);
  }

  lemma {:induction false} SpendingThroughout(o: Options, ip: Address, start: Start, n: nat)
    requires OptionsOk(o) && start.at >= ZERO_TIME && ip !in start.banned && n <= 2 * o.burst
    ensures Spending(StateBefore(o, start, TwoBursts(o, ip, start.at), n, true), o, ip, start.at, n)
    ensures AllowedCount(o, start, TwoBursts(o, ip, start.at), 0, n, ip, true) == n
  {
    hide Step, Spending;
    if n == 0 {
      SpendingStart(o, ip, start);
    } else {
      SpendingThroughout(o, ip, start, n - 1);
      SpendingStep(StateBefore(o, start, TwoBursts(o, ip, start.at), n - 1, true), o, ip, start.at, n - 1);
    }
  }

  lemma {:induction false} SpendingStart(o: Options, ip: Address, start: Start)
    requires OptionsOk(o) && ip !in start.banned
    ensures Spending(Initial(start), o, ip, start.at, 0)
  {}

  ghost predicate BoundHolds(o: Options, start: Start, ops: seq<Timed>, lo: nat, hi: nat, ip: Address) {
    InTime(start, ops) && lo < hi <= |ops| ==>
      AllowedCount(o, start, ops, lo, hi, ip, true) as real
      <= o.burst as real + Gain(o.rate, ops[hi - 1].at - ops[lo].at)
  }

  /** If five minutes do not refill a bucket, every gate, whenever it was made, lets any address
      that is not banned in twice its burst within five minutes. */
  lemma {:induction false} BoundFails(o: Options, ip: Address, start: Start)
    requires OptionsOk(o) && !Refills(o) && start.at >= ZERO_TIME && ip !in start.banned
    ensures !BoundHolds(o, start, TwoBursts(o, ip, start.at), 0, 2 * o.burst, ip)
  {
    hide Gain, AllowedCount;
    SpendingThroughout(o, ip, start, 2 * o.burst);
  }

  /** The rate bound holds in all runs exactly when five minutes refill a bucket. */
  lemma {:induction false} BoundExactly(o: Options)
    requires OptionsOk(o)
    ensures Refills(o) <==> forall start: Start, ops, lo: nat, hi: nat, ip :: BoundHolds(o, start, ops, lo, hi, ip)
  {
    hide Gain, AllowedCount;
    if Refills(o) {
      forall start: Start, ops, lo: nat, hi: nat, ip
        ensures BoundHolds(o, start, ops, lo, hi, ip)
      {
        if InTime(start, ops) && lo < hi <= |ops| { AllowedBound(o, start, ops, lo, hi, ip, true); }
      }
    } else {
      BoundFails(o, "", Start(ZERO_TIME, {}));
    }
  }

  ghost predicate SameDecision(o: Options, start: Start, ops: seq<Timed>, n: nat) {
    InTime(start, ops) && n < |ops| ==> DecisionAt(o, start, ops, n, true) == DecisionAt(o, start, ops, n, false)
  }

  lemma {:induction false} SameCounts(o: Options, start: Start, ops: seq<Timed>, hi: nat, ip: Address)
    requires InTime(start, ops) && hi <= |ops| && forall n :: 0 <= n < |ops| ==> SameDecision(o, start, ops, n)
    ensures AllowedCount(o, start, ops, 0, hi, ip, true) == AllowedCount(o, start, ops, 0, hi, ip, false)
  {
    hide DecisionAt, InTime;
    if hi > 0 {
      SameCounts(o, start, ops, hi - 1, ip);
      assert SameDecision(o, start, ops, hi - 1);
    }
  }

  /** And that is also exactly when forgetting buckets can never be noticed. */
  lemma {:induction false} TransparentExactly(o: Options)
    requires OptionsOk(o)
    ensures Refills(o) <==> forall start: Start, ops, n: nat :: SameDecision(o, start, ops, n)
  {
    hide Gain, AllowedCount;
    if Refills(o) {
      forall start: Start, ops, n: nat
        ensures SameDecision(o, start, ops, n)
      {
        if InTime(start, ops) && n < |ops| { EvictionTransparent(o, start, ops, n); }
      }
    } else if forall start: Start, ops, n: nat :: SameDecision(o, start, ops, n) {
      var start, ops := Start(ZERO_TIME, {}), TwoBursts(o, "", ZERO_TIME);
      SpendingThroughout(o, "", start, 2 * o.burst);
      AllowedBound(o, start, ops, 0, 2 * o.burst, "", false);
      SameCounts(o, start, ops, 2 * o.burst, "");
    }
  }
}
