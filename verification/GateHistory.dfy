/** What the gate decides, told from the calls made so far alone: who is banned, who is blocked
    until when, how many tokens an address has, and how many sessions are held. */
module GateHistory {
  import opened Gates

  // -------------------------------------------------------------------------- the history

  predicate NoUnban(ops: seq<Timed>, lo: nat, hi: nat, ip: Address) {
    forall k :: lo <= k < hi && k < |ops| ==> ops[k].call != Unban(ip)
  }

  /** Banned before call n: by the list the gate was made with or by a call, and not unbanned
      since. */
  ghost predicate IsBanned(start: Start, ops: seq<Timed>, n: nat, ip: Address)
    requires n <= |ops|
  {
    || (ip in start.banned && NoUnban(ops, 0, n, ip))
    || exists i: nat :: i < n && ops[i].call == Ban(ip) && NoUnban(ops, i, n, ip)
  }

  /** The sessions of an address before call n; giving back what is not held does nothing. */
  function Held(ops: seq<Timed>, n: nat, ip: Address): nat
    requires n <= |ops|
  {
    if n == 0 then 0
    else
      var before := Held(ops, n - 1, ip);
      if ops[n - 1].call == Acquire(ip) then before + 1
      else if ops[n - 1].call == Release(ip) && before > 0 then before - 1
      else before
  }

  /** The sessions of all addresses together. */
  function HeldByAll(ops: seq<Timed>, n: nat): nat
    requires n <= |ops|
  {
    if n == 0 then 0
    else
      var before := HeldByAll(ops, n - 1);
      if ops[n - 1].call.Acquire? then before + 1
      else if ops[n - 1].call.Release? && before > 0 then before - 1
      else before
  }

  /** The tokens an address has at time t, before call n: what it had after the last call and
      what the time since then brought, up to the burst. */
  function TokensAt(o: Options, start: Start, ops: seq<Timed>, n: nat, t: real, ip: Address, evict: bool): real
    requires n <= |ops|
  {
    if n == 0 then o.burst as real
    else
      var before := TokensAt(o, start, ops, n - 1, ops[n - 1].at, ip, evict);
      var left := before - if Admits(o, start, ops, n - 1, ip, evict) then 1.0 else 0.0;
      Lesser(left + Gain(o.rate, t - ops[n - 1].at), o.burst as real)
  }

  /** The end of the last block: a refusal for want of tokens while no block was on started it. */
  function BlockEnd(o: Options, start: Start, ops: seq<Timed>, n: nat, ip: Address, evict: bool): real
    requires n <= |ops|
  {
    if n == 0 then start.at
    else
      var before := BlockEnd(o, start, ops, n - 1, ip, evict);
      var limited := ops[n - 1].call == Allow(ip) && DecisionAt(o, start, ops, n - 1, evict) == DeniedRateLimited;
      if limited && ops[n - 1].at >= before then ops[n - 1].at + o.blockDuration else before
  }

  /** How many of the first n calls asked to be let in and were refused, or were so for want of
      tokens. */
  function Refused(o: Options, start: Start, ops: seq<Timed>, n: nat, limitedOnly: bool, evict: bool): nat
    requires n <= |ops|
  {
    if n == 0 then 0
    else
      var d := DecisionAt(o, start, ops, n - 1, evict);
      Refused(o, start, ops, n - 1, limitedOnly, evict)
      + if ops[n - 1].call.Allow? && d != Allowed && (limitedOnly ==> d == DeniedRateLimited) then 1 else 0
  }

  // ------------------------------------------------------------------- bans and sessions

  lemma {:induction false} BannedStep(start: Start, ops: seq<Timed>, n: nat, ip: Address)
    requires n < |ops|
    ensures IsBanned(start, ops, n + 1, ip)
            <==> ops[n].call == Ban(ip) || (IsBanned(start, ops, n, ip) && ops[n].call != Unban(ip))
  {
    if ops[n].call == Ban(ip) { assert NoUnban(ops, n, n + 1, ip); }
    if IsBanned(start, ops, n, ip) && ops[n].call != Unban(ip) {
      if i: nat :| i < n && ops[i].call == Ban(ip) && NoUnban(ops, i, n, ip) { assert NoUnban(ops, i, n + 1, ip); }
    }
  }

  /** What a call leaves of bans and sessions. */
  lemma {:induction false} CallKeeps(g: GateState, o: Options, c: Call, now: real, evict: bool, ip: Address)
    ensures var h := Step(g, o, c, now, evict).0;
            && (ip in h.banned <==> c == Ban(ip) || (ip in g.banned && c != Unban(ip)))
            && SessionsOf(h, ip) == (if c == Acquire(ip) then SessionsOf(g, ip) + 1
                                     else if c == Release(ip) && SessionsOf(g, ip) > 0 then SessionsOf(g, ip) - 1
                                     else if c == Release(ip) then 0
                                     else SessionsOf(g, ip))
            && h.total == g.total + (if c.Acquire? then 1 else if c.Release? && g.total > 0 then -1 else 0)
  {
    hide Judge, Swept, BucketOf;
    SweptKeeps(g, now);
  }

  lemma {:induction false} SweptKeeps(g: GateState, now: real)
    ensures var s := Swept(g, now);
            s.banned == g.banned && s.sessions == g.sessions && s.total == g.total
            && s.blocked == g.blocked && s.rejected == g.rejected
  {}

  /** The gate remembers exactly who is banned and what is held. */
  lemma {:induction false} Remembers(o: Options, start: Start, ops: seq<Timed>, n: nat, ip: Address, evict: bool)
    requires n <= |ops|
    ensures var g := StateBefore(o, start, ops, n, evict);
            && (ip in g.banned <==> IsBanned(start, ops, n, ip))
            && SessionsOf(g, ip) == Held(ops, n, ip) && g.total == HeldByAll(ops, n)
  {
    hide Step, IsBanned;
    if n == 0 {
      NothingYet(start, ops, ip);
    } else {
      Remembers(o, start, ops, n - 1, ip, evict);
      BannedStep(start, ops, n - 1, ip);
      CallKeeps(StateBefore(o, start, ops, n - 1, evict), o, ops[n - 1].call, ops[n - 1].at, evict, ip);
    }
  }

  lemma {:induction false} NothingYet(start: Start, ops: seq<Timed>, ip: Address)
    ensures IsBanned(start, ops, 0, ip) <==> ip in start.banned
  {}

  /** Exactly who is refused as banned, in any run. */
  lemma {:induction false} BannedExactly(o: Options, start: Start, ops: seq<Timed>, n: nat, evict: bool)
    requires n < |ops|
    ensures DecisionAt(o, start, ops, n, evict) == DeniedBanned
            <==> ops[n].call.Allow? && IsBanned(start, ops, n, ops[n].call.ip)
  {
    hide Judge, Swept, BucketOf, IsBanned;
    var g := StateBefore(o, start, ops, n, evict);
    Remembers(o, start, ops, n, ops[n].call.ip, evict);
    SweptKeeps(g, ops[n].at);
    NeverBanned(g, o, ops[n].call.ip, ops[n].at);
    NeverBanned(Swept(g, ops[n].at), o, ops[n].call.ip, ops[n].at);
  }

  lemma {:induction false} NeverBanned(g: GateState, o: Options, ip: Address, now: real)
    ensures Judge(g, o, BucketOf(g, ip, o, now), ip, now).1 != DeniedBanned
  {}

  // ------------------------------------------------------------------- tokens and blocks

  /** Nothing was forgotten before it had refilled. */
  ghost predicate NothingForgotten(o: Options, start: Start, ops: seq<Timed>, n: nat, ip: Address, evict: bool)
    requires n <= |ops|
  {
    Refills(o) || forall k :: 0 <= k < n ==> !Forgets(o, start, ops, k, ip, evict)
  }

  lemma {:induction false} LevelLater(g: GateState, o: Options, ip: Address, s: real, t: real)
    requires OptionsOk(o) && s <= t
    ensures Level(g, o, ip, t) == Lesser(Level(g, o, ip, s) + Gain(o.rate, t - s), o.burst as real)
  {
    hide Gain;
    GainNothing(o.rate);
    GainGrows(o.rate, 0.0, t - s);
    if ip in g.buckets { GainAdd(o.rate, s - g.buckets[ip].last, t - s); }
  }

  /** The bucket of an address holds what its history says. */
  lemma {:induction false} TokensExactly(o: Options, start: Start, ops: seq<Timed>, n: nat, t: real, ip: Address,
                                         evict: bool)
    requires OptionsOk(o) && InTime(start, ops) && n <= |ops| && TimeBefore(start, ops, n) <= t
    requires NothingForgotten(o, start, ops, n, ip, evict)
    ensures Level(StateBefore(o, start, ops, n, evict), o, ip, t) == TokensAt(o, start, ops, n, t, ip, evict)
  {
    hide Step, Gain, Level, Refills, GateOk, Swept, Evictable, SweepDue;
    if n == 0 {
      LevelAtFirst(o, start, ip, t);
    } else {
      var last := n - 1;
      var g := StateBefore(o, start, ops, last, evict);
      TokensBounded(o, start, ops, last, evict);
      StateOkLater(g, o, TimeBefore(start, ops, last), ops[last].at);
      assert Refills(o) || !Forgets(o, start, ops, last, ip, evict);
      TokensExactly(o, start, ops, last, ops[last].at, ip, evict);
      LevelStep(g, o, ops[last].call, ip, ops[last].at, evict);
      LevelLater(StateBefore(o, start, ops, n, evict), o, ip, ops[last].at, t);
    }
  }

  lemma {:induction false} LevelAtFirst(o: Options, start: Start, ip: Address, t: real)
    ensures Level(Initial(start), o, ip, t) == o.burst as real
  {}

  /** A block in the bucket is on exactly as long as one that ends at `end`. */
  predicate BlockIs(g: GateState, ip: Address, end: real, now: real) {
    if ip in g.buckets then
      g.buckets[ip].blockedUntil == end || (g.buckets[ip].blockedUntil <= now && end <= now)
    else end <= now
  }

  predicate Limits(g: GateState, o: Options, c: Call, ip: Address, now: real, evict: bool) {
    c == Allow(ip) && Step(g, o, c, now, evict).1 == DeniedRateLimited
  }

  lemma {:induction false} BlockStep(g: GateState, o: Options, c: Call, ip: Address, end: real, now: real, evict: bool)
    requires BlockIs(g, ip, end, now) && now >= ZERO_TIME
    ensures BlockIs(Step(g, o, c, now, evict).0, ip,
                    if Limits(g, o, c, ip, now, evict) && now >= end then now + o.blockDuration else end, now)
  {
    hide Gain, Lesser;
  }

  lemma {:induction false} BlockLater(g: GateState, ip: Address, end: real, was: real, now: real)
    requires BlockIs(g, ip, end, was) && was <= now
    ensures BlockIs(g, ip, end, now)
  {}

  lemma {:induction false} BlockExactly(o: Options, start: Start, ops: seq<Timed>, n: nat, ip: Address, evict: bool)
    requires InTime(start, ops) && n <= |ops|
    ensures TimeBefore(start, ops, n) >= ZERO_TIME
    ensures BlockIs(StateBefore(o, start, ops, n, evict), ip, BlockEnd(o, start, ops, n, ip, evict),
                    TimeBefore(start, ops, n))
  {
    hide Step, BlockIs;
    if n == 0 {
      NoBlockAtFirst(start, ip);
    } else {
      var g, end := StateBefore(o, start, ops, n - 1, evict), BlockEnd(o, start, ops, n - 1, ip, evict);
      BlockExactly(o, start, ops, n - 1, ip, evict);
      BlockLater(g, ip, end, TimeBefore(start, ops, n - 1), ops[n - 1].at);
      BlockStep(g, o, ops[n - 1].call, ip, end, ops[n - 1].at, evict);
    }
  }

  lemma {:induction false} NoBlockAtFirst(start: Start, ip: Address)
    ensures BlockIs(Initial(start), ip, start.at, start.at)
  {}

  // ------------------------------------------------------------------------- the decision

  /** The verdict on an address that is not banned. */
  function Verdict(o: Options, blocked: bool, tokens: real, held: nat, total: nat): Decision {
    if blocked || tokens < 1.0 then DeniedRateLimited
    else if o.maxSessionsPerIP > 0 && held >= o.maxSessionsPerIP then DeniedTooManySessions
    else if o.maxSessions > 0 && total >= o.maxSessions then DeniedFull
    else Allowed
  }

  lemma {:induction false} AdmitVerdict(g: GateState, o: Options, ip: Address, end: real, now: real, evict: bool)
    requires OptionsOk(o) && GateOk(g, o, now) && BlockIs(g, ip, end, now) && now >= ZERO_TIME
    requires SessionsOf(g, ip) >= 0 && g.total >= 0
    requires evict && SweepDue(g, now) && Evictable(g, ip, now) ==> Refills(o)
    ensures ip !in g.banned ==>
              Step(g, o, Allow(ip), now, evict).1
              == Verdict(o, now < end, Level(g, o, ip, now), SessionsOf(g, ip), g.total)
  {
    hide Gain, BucketOk;
    SweepKeepsLevel(g, o, ip, now, evict);
    GainNothing(o.rate);
  }

  /** What the gate decides on any call of any run, from its history alone. */
  lemma {:induction false} DecidesExactly(o: Options, start: Start, ops: seq<Timed>, n: nat, ip: Address, evict: bool)
    requires OptionsOk(o) && InTime(start, ops) && n < |ops| && ops[n].call == Allow(ip)
    requires NothingForgotten(o, start, ops, n + 1, ip, evict)
    ensures DecisionAt(o, start, ops, n, evict)
            == if IsBanned(start, ops, n, ip) then DeniedBanned
               else Verdict(o, ops[n].at < BlockEnd(o, start, ops, n, ip, evict),
                            TokensAt(o, start, ops, n, ops[n].at, ip, evict),
                            Held(ops, n, ip), HeldByAll(ops, n))
  {
    hide Step, GateOk, BlockIs, Level, Verdict, SweepDue, Evictable, Refills, IsBanned;
    var g, was := StateBefore(o, start, ops, n, evict), TimeBefore(start, ops, n);
    var end := BlockEnd(o, start, ops, n, ip, evict);
    BannedExactly(o, start, ops, n, evict);
    Remembers(o, start, ops, n, ip, evict);
    TokensBounded(o, start, ops, n, evict);
    StateOkLater(g, o, was, ops[n].at);
    TokensExactly(o, start, ops, n, ops[n].at, ip, evict);
    BlockExactly(o, start, ops, n, ip, evict);
    BlockLater(g, ip, end, was, ops[n].at);
    assert Refills(o) || !Forgets(o, start, ops, n, ip, evict);
    AdmitVerdict(g, o, ip, end, ops[n].at, evict);
  }

  /** The two counters of the gate say how many calls were refused, and how many of them for
      want of tokens. */
  lemma {:induction false} CountersExact(o: Options, start: Start, ops: seq<Timed>, n: nat, evict: bool)
    requires n <= |ops|
    ensures var g := StateBefore(o, start, ops, n, evict);
            g.rejected == Refused(o, start, ops, n, false, evict) && g.blocked == Refused(o, start, ops, n, true, evict)
  {
    hide Judge, Swept, BucketOf;
    if n > 0 {
      CountersExact(o, start, ops, n - 1, evict);
      SweptKeeps(StateBefore(o, start, ops, n - 1, evict), ops[n - 1].at);
    }
  }

  // --------------------------------------------------------------------------- the sweep

  /** The time of the last sweep before call n: a call that asks to be let in sweeps if a sweep
      interval has passed. */
  function LastSweep(start: Start, ops: seq<Timed>, n: nat): real
    requires n <= |ops|
  {
    if n == 0 then start.at
    else
      var before := LastSweep(start, ops, n - 1);
      if ops[n - 1].call.Allow? && ops[n - 1].at - before >= SWEEP_INTERVAL then ops[n - 1].at else before
  }

  lemma {:induction false} SweepTimes(o: Options, start: Start, ops: seq<Timed>, n: nat)
    requires n <= |ops|
    ensures StateBefore(o, start, ops, n, true).lastSweep == LastSweep(start, ops, n)
  {
    hide Judge, Evictable, BucketOf;
    if n > 0 { SweepTimes(o, start, ops, n - 1); }
  }

  /** In every run, exactly when a call makes the gate forget the bucket of another address: a sweep
      is due, and the address is idle, not blocked, and holds no session. No call touches the bucket
      of another address otherwise. */
  lemma {:induction false} ForgottenExactly(o: Options, start: Start, ops: seq<Timed>, n: nat, ip: Address)
    requires n < |ops| && ops[n].call != Allow(ip) && ip in StateBefore(o, start, ops, n, true).buckets
    ensures var b, after := StateBefore(o, start, ops, n, true).buckets[ip], StateBefore(o, start, ops, n + 1, true);
            && (ip !in after.buckets
                <==> && ops[n].call.Allow? && ops[n].at - LastSweep(start, ops, n) >= SWEEP_INTERVAL
                     && ops[n].at >= b.blockedUntil && ops[n].at - b.last >= BUCKET_IDLE_TIME
                     && Held(ops, n, ip) == 0)
            && (ip in after.buckets ==> after.buckets[ip] == b)
  {
    hide Judge, BucketOf, IsBanned, Held, LastSweep;
    SweepTimes(o, start, ops, n);
    Remembers(o, start, ops, n, ip, true);
  }
}
