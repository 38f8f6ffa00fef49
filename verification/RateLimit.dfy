/** The keyed token bucket with eviction.  Times are seconds and tokens are real numbers. */
module RateLimit {

  datatype Bucket = Bucket(tokens: real, last: real)

  type Buckets = map<string, Bucket>

  /** What `New` is given: `burst` requests at once, refilled over `per` seconds. */
  datatype Rate = Rate(burst: real, per: real, maxKeys: nat)
  {
    ghost predicate Usable() {
      burst >= 1.0 && per > 0.0 && maxKeys >= 1
    }

    function RefillPerSec(): real
      requires per > 0.0
    {
      burst / per
    }
  }

  datatype Call = Call(key: string, now: real)

  function Min(a: real, b: real): real {
    if a < b then a else b
  }

  function Max0(a: real): real {
    if a > 0.0 then a else 0.0
  }

  // ---------------------------------------------------------------- one call

  /** Idle buckets would have refilled completely, so they are dropped. */
  function Swept(rate: Rate, m: Buckets, now: real): Buckets {
    map k | k in m && now - m[k].last < rate.per :: m[k]
  }

  /** Refill for forward time only, then spend a token if there is one. */
  function Spend(rate: Rate, b: Bucket, now: real): (bool, Bucket)
    requires rate.per > 0.0
  {
    var elapsed := now - b.last;
    var tokens := if elapsed > 0.0 then Min(rate.burst, b.tokens + elapsed * rate.RefillPerSec()) else b.tokens;
    if tokens < 1.0 then (false, Bucket(tokens, now)) else (true, Bucket(tokens - 1.0, now))
  }

  /** A key that is not tracked is refused at the cap; a tracked key is served normally. */
  function Serve(rate: Rate, m: Buckets, c: Call): (bool, Buckets)
    requires rate.per > 0.0
  {
    if c.key in m then
      var (ok, b) := Spend(rate, m[c.key], c.now);
      (ok, m[c.key := b])
    else
      var swept := Swept(rate, m, c.now);
      if |swept| >= rate.maxKeys then (false, swept)
      else
        var (ok, b) := Spend(rate, Bucket(rate.burst, c.now), c.now);
        (ok, swept[c.key := b])
  }

  /** Every bucket holds between nothing and a full burst. */
  ghost predicate Filled(rate: Rate, m: Buckets) {
    forall k | k in m :: 0.0 <= m[k].tokens <= rate.burst
  }

  class Limiter {
    const rate: Rate
    var buckets: Buckets

    ghost predicate Valid()
      reads this
    {
      rate.Usable() && Filled(rate, buckets) && |buckets| <= rate.maxKeys
    }

    constructor (burst: int, per: real, maxKeys: nat)
      requires burst >= 1 && per > 0.0 && maxKeys >= 1
      ensures Valid() && buckets == map[] && rate == Rate(burst as real, per, maxKeys)
    {
      rate, buckets := Rate(burst as real, per, maxKeys), map[];
    }

    method Allow(key: string, now: real) returns (ok: bool)
      requires Valid()
      modifies this`buckets
      ensures Valid() && (ok, buckets) == Serve(rate, old(buckets), Call(key, now))
    {
      hide Spend, Swept;
      ServeKeepsFilled(rate, buckets, Call(key, now));
      ServeKeepsCap(rate, buckets, Call(key, now));
      var b;
      if key in buckets {
        b := buckets[key];
      } else {
        Sweep(now);
        if |buckets| >= rate.maxKeys {
          return false;
        }
        b := Bucket(rate.burst, now);
      }
      ok, b := Take(b, now);
      buckets := buckets[key := b];
    }

    method Take(bucket: Bucket, now: real) returns (ok: bool, b: Bucket)
      requires rate.Usable()
      ensures (ok, b) == Spend(rate, bucket, now)
    {
      hide Rate.RefillPerSec;
      b := bucket;
      var elapsed := now - b.last;
      if elapsed > 0.0 {
        b := b.(tokens := Min(rate.burst, b.tokens + elapsed * rate.RefillPerSec()));
      }
      b := b.(last := now);
      ok := b.tokens >= 1.0;
      if ok {
        b := b.(tokens := b.tokens - 1.0);
      }
    }

    method Sweep(now: real)
      requires rate.Usable()
      modifies this`buckets
      ensures buckets == Swept(rate, old(buckets), now)
    {
      var unread := buckets.Keys;
      ghost var before := buckets;
      while unread != {}
        invariant unread <= before.Keys && buckets.Keys <= before.Keys
        invariant forall k | k in buckets :: buckets[k] == before[k]
        invariant forall k | k in before :: k in buckets <==> k in unread || now - before[k].last < rate.per
      {
        var k :| k in unread;
        if now - buckets[k].last >= rate.per {
          buckets := buckets - {k};
        }
        unread := unread - {k};
      }
    }
  }

  // ---------------------------------------------------------------- runs

  function After(rate: Rate, m: Buckets, calls: seq<Call>): Buckets
    requires rate.per > 0.0
  {
    if calls == [] then m
    else Serve(rate, After(rate, m, calls[..|calls| - 1]), calls[|calls| - 1]).1
  }

  function Answer(rate: Rate, m: Buckets, calls: seq<Call>, i: nat): bool
    requires rate.per > 0.0 && i < |calls|
  {
    Serve(rate, After(rate, m, calls[..i]), calls[i]).0
  }

  /** Acceptances of one key over a stretch of calls. */
  function Accepted(rate: Rate, m: Buckets, calls: seq<Call>, key: string): nat
    requires rate.per > 0.0
  {
    if calls == [] then 0
    else
      var n := |calls| - 1;
      Accepted(rate, m, calls[..n], key)
      + if calls[n].key == key && Serve(rate, After(rate, m, calls[..n]), calls[n]).0 then 1 else 0
  }

  /** How far the clock moved forward over a stretch; steps back do not count. */
  function Forward(calls: seq<Call>): real {
    if |calls| <= 1 then 0.0
    else Forward(calls[..|calls| - 1]) + Max0(calls[|calls| - 1].now - calls[|calls| - 2].now)
  }

  lemma ServeKeepsFilled(rate: Rate, m: Buckets, c: Call)
    requires rate.Usable() && Filled(rate, m)
    ensures Filled(rate, Serve(rate, m, c).1)
  {
    if c.key in m {
      SpendKeepsFilled(rate, m[c.key], c.now);
    } else {
      SpendKeepsFilled(rate, Bucket(rate.burst, c.now), c.now);
    }
  }

  lemma SpendKeepsFilled(rate: Rate, b: Bucket, now: real)
    requires rate.Usable() && 0.0 <= b.tokens <= rate.burst
    ensures 0.0 <= Spend(rate, b, now).1.tokens <= rate.burst && Spend(rate, b, now).1.last == now
  {
    if now > b.last {
      Product(now - b.last, rate.RefillPerSec());
    }
  }

  lemma Product(a: real, b: real)
    requires a >= 0.0 && b >= 0.0
    ensures a * b >= 0.0
  {
  }

  lemma SweepShrinks(rate: Rate, m: Buckets, now: real)
    ensures |Swept(rate, m, now)| <= |m|
  {
    Smaller(Swept(rate, m, now).Keys, m.Keys);
  }

  lemma {:induction false} Smaller(a: set<string>, b: set<string>)
    requires a <= b
    ensures |a| <= |b|
  {
    if a != {} {
      var x :| x in a;
      Smaller(a - {x}, b - {x});
    }
  }

  /** Tracked keys never exceed the cap. */
  lemma ServeKeepsCap(rate: Rate, m: Buckets, c: Call)
    requires rate.Usable() && |m| <= rate.maxKeys
    ensures |Serve(rate, m, c).1| <= rate.maxKeys
  {
    SweepShrinks(rate, m, c.now);
    if c.key in m {
      assert Serve(rate, m, c).1.Keys == m.Keys;
    } else {
      assert |Swept(rate, m, c.now).Keys + {c.key}| <= |Swept(rate, m, c.now)| + 1;
      assert |Swept(rate, m, c.now)| < rate.maxKeys ==> Serve(rate, m, c).1.Keys == Swept(rate, m, c.now).Keys + {c.key};
    }
  }

  lemma {:induction false} RunKeepsCap(rate: Rate, m: Buckets, calls: seq<Call>)
    requires rate.Usable() && Filled(rate, m) && |m| <= rate.maxKeys
    ensures Filled(rate, After(rate, m, calls)) && |After(rate, m, calls)| <= rate.maxKeys
  {
    hide Serve, Filled;
    if calls != [] {
      RunKeepsCap(rate, m, calls[..|calls| - 1]);
      ServeKeepsFilled(rate, After(rate, m, calls[..|calls| - 1]), calls[|calls| - 1]);
      ServeKeepsCap(rate, After(rate, m, calls[..|calls| - 1]), calls[|calls| - 1]);
    }
  }

  // ---------------------------------------------------------------- the bound

  /** The credit argument for one key.  `acc` acceptances so far, `forward` the clock's
      forward movement, `clock` the time of the last call. */
  ghost predicate Credit(rate: Rate, m: Buckets, key: string, acc: nat, forward: real, clock: real)
    requires rate.per > 0.0
  {
    var r := rate.RefillPerSec();
    forward >= 0.0 &&
    if acc == 0 then true
    else if key !in m then acc as real <= r * forward
    else acc as real + m[key].tokens <= rate.burst + r * (forward - Max0(clock - m[key].last))
  }

  lemma Scale(r: real, a: real, b: real)
    requires r >= 0.0 && a <= b
    ensures r * a <= r * b
  {
  }

  lemma FullRefill(rate: Rate)
    requires rate.Usable()
    ensures rate.RefillPerSec() * rate.per == rate.burst && rate.RefillPerSec() > 0.0
  {
  }

  /** Moving the clock on, without a call of this key, keeps the credit. */
  lemma ClockKeepsCredit(rate: Rate, m: Buckets, key: string, acc: nat, forward: real, clock: real, now: real)
    requires rate.Usable() && Credit(rate, m, key, acc, forward, clock)
    ensures Credit(rate, m, key, acc, forward + Max0(now - clock), now)
  {
    FullRefill(rate);
    var forward' := forward + Max0(now - clock);
    Scale(rate.RefillPerSec(), forward, forward');
    if key in m {
      Scale(rate.RefillPerSec(), forward - Max0(clock - m[key].last), forward' - Max0(now - m[key].last));
    }
  }

  /** Dropping an idle bucket keeps the credit: it would have been full anyway. */
  lemma SweepKeepsCredit(rate: Rate, m: Buckets, key: string, acc: nat, forward: real, now: real)
    requires rate.Usable() && Filled(rate, m) && Credit(rate, m, key, acc, forward, now)
    ensures Credit(rate, Swept(rate, m, now), key, acc, forward, now)
  {
    hide Rate.RefillPerSec;
    FullRefill(rate);
    if key in m && now - m[key].last >= rate.per {
      var r := rate.RefillPerSec();
      assert m[key].tokens >= 0.0;
      Scale(r, forward - Max0(now - m[key].last), forward - rate.per);
      Distribute(r, forward, rate.per);
      assert r * (forward - rate.per) == r * forward - rate.burst;
      assert key !in Swept(rate, m, now);
      assert acc > 0 ==> acc as real + m[key].tokens <= rate.burst + r * (forward - Max0(now - m[key].last));
    } else {
      assert key in m <==> key in Swept(rate, m, now);
    }
  }

  lemma Distribute(r: real, a: real, b: real)
    ensures r * (a - b) == r * a - r * b
  {
  }

  /** Spending from a bucket turns credit into at most one acceptance. */
  lemma SpendKeepsCredit(rate: Rate, b: Bucket, acc: nat, forward: real, now: real)
    requires rate.Usable() && 0.0 <= b.tokens <= rate.burst && forward >= 0.0
    requires acc == 0 || acc as real + b.tokens <= rate.burst + rate.RefillPerSec() * (forward - Max0(now - b.last))
    ensures var (ok, b') := Spend(rate, b, now);
            var acc' := acc + if ok then 1 else 0;
            acc' as real + b'.tokens <= rate.burst + rate.RefillPerSec() * (forward - Max0(now - b'.last))
  {
    FullRefill(rate);
    var r := rate.RefillPerSec();
    Product(r, forward);
    if now > b.last {
      Distribute(r, forward, now - b.last);
    }
  }

  lemma ServeKeepsCredit(rate: Rate, m: Buckets, c: Call, key: string, acc: nat, forward: real)
    requires rate.Usable() && Filled(rate, m) && Credit(rate, m, key, acc, forward, c.now)
    ensures var (ok, m') := Serve(rate, m, c);
            Credit(rate, m', key, acc + (if c.key == key && ok then 1 else 0), forward, c.now)
  {
    hide Spend;
    if c.key !in m {
      SweepKeepsCredit(rate, m, key, acc, forward, c.now);
      ServeNew(rate, m, c, key, acc, forward);
    } else if c.key == key {
      SpendKeepsFilled(rate, m[key], c.now);
      SpendKeepsCredit(rate, m[key], acc, forward, c.now);
    }
  }

  lemma ServeNew(rate: Rate, m: Buckets, c: Call, key: string, acc: nat, forward: real)
    requires rate.Usable() && c.key !in m && Credit(rate, Swept(rate, m, c.now), key, acc, forward, c.now)
    ensures var (ok, m') := Serve(rate, m, c);
            Credit(rate, m', key, acc + (if c.key == key && ok then 1 else 0), forward, c.now)
  {
    hide Spend, Swept;
    if c.key == key && |Swept(rate, m, c.now)| < rate.maxKeys {
      var b := Bucket(rate.burst, c.now);
      assert key !in Swept(rate, m, c.now) by { SweptIsPart(rate, m, c.now); }
      SpendKeepsFilled(rate, b, c.now);
      SpendKeepsCredit(rate, b, acc, forward, c.now);
    }
  }

  lemma SweptIsPart(rate: Rate, m: Buckets, now: real)
    ensures Swept(rate, m, now).Keys <= m.Keys
  {
  }

  /** The token-bucket bound, from any state, with evictions and a clock that may step back:
      over a stretch of calls a key is accepted at most burst times, plus the refill rate
      times the clock's total forward movement. */
  lemma AcceptancesAreBounded(rate: Rate, m: Buckets, calls: seq<Call>, key: string)
    requires rate.Usable() && Filled(rate, m) && |m| <= rate.maxKeys && calls != []
    ensures Accepted(rate, m, calls, key) as real <= rate.burst + rate.RefillPerSec() * Forward(calls)
  {
    hide Rate.RefillPerSec, Serve, Forward, Accepted, After;
    RunKeepsCredit(rate, m, calls, key);
    RunKeepsCap(rate, m, calls);
    var m', acc, f := After(rate, m, calls), Accepted(rate, m, calls, key), Forward(calls);
    FullRefill(rate);
    Product(rate.RefillPerSec(), f);
    if acc > 0 && key in m' {
      Scale(rate.RefillPerSec(), f - Max0(calls[|calls| - 1].now - m'[key].last), f);
    }
  }

  lemma {:induction false} RunKeepsCredit(rate: Rate, m: Buckets, calls: seq<Call>, key: string)
    requires rate.Usable() && Filled(rate, m) && |m| <= rate.maxKeys && calls != []
    ensures Credit(rate, After(rate, m, calls), key, Accepted(rate, m, calls, key), Forward(calls), calls[|calls| - 1].now)
  {
    hide Serve, Filled, Credit;
    var n := |calls| - 1;
    var front := calls[..n];
    RunKeepsCap(rate, m, front);
    var before, acc := After(rate, m, front), Accepted(rate, m, front, key);
    if n > 0 {
      RunKeepsCredit(rate, m, front, key);
      ClockKeepsCredit(rate, before, key, acc, Forward(front), front[n - 1].now, calls[n].now);
    } else {
      NoAcceptanceYet(rate, before, key, calls[n].now);
    }
    ServeKeepsCredit(rate, before, calls[n], key, acc, Forward(calls));
  }

  lemma NoAcceptanceYet(rate: Rate, m: Buckets, key: string, now: real)
    requires rate.per > 0.0
    ensures Credit(rate, m, key, 0, 0.0, now)
  {
  }

  // ---------------------------------------------------------------- eviction is invisible

  /** A limiter that never evicts and has no cap. */
  function ServePlain(rate: Rate, m: Buckets, c: Call): (bool, Buckets)
    requires rate.per > 0.0
  {
    var (ok, b) := Spend(rate, if c.key in m then m[c.key] else Bucket(rate.burst, c.now), c.now);
    (ok, m[c.key := b])
  }

  function AfterPlain(rate: Rate, m: Buckets, calls: seq<Call>): Buckets
    requires rate.per > 0.0
  {
    if calls == [] then m
    else ServePlain(rate, AfterPlain(rate, m, calls[..|calls| - 1]), calls[|calls| - 1]).1
  }

  /** The evicting limiter holds the same buckets, but for some that have refilled. */
  ghost predicate Mirrors(rate: Rate, m: Buckets, plain: Buckets, clock: real) {
    && (forall k | k in m :: k in plain && plain[k] == m[k])
    && (forall k | k in plain && k !in m :: clock - plain[k].last >= rate.per)
    && (forall k | k in plain :: 0.0 <= plain[k].tokens <= rate.burst)
  }

  /** The key is not tracked, and as many as the cap were called too recently to be dropped. */
  predicate RefusedAtCap(rate: Rate, m: Buckets, c: Call) {
    c.key !in m && |set k | k in m && c.now - m[k].last < rate.per| >= rate.maxKeys
  }

  lemma RefusedAtCapIff(rate: Rate, m: Buckets, c: Call)
    requires rate.Usable()
    ensures RefusedAtCap(rate, m, c) <==> c.key !in m && |Swept(rate, m, c.now)| >= rate.maxKeys
    ensures RefusedAtCap(rate, m, c) ==> !Serve(rate, m, c).0 && c.key !in Serve(rate, m, c).1
  {
    assert Swept(rate, m, c.now).Keys == set k | k in m && c.now - m[k].last < rate.per;
  }

  /** An idle bucket spends like a new one. */
  lemma IdleSpendsLikeNew(rate: Rate, b: Bucket, now: real)
    requires rate.Usable() && 0.0 <= b.tokens <= rate.burst && now - b.last >= rate.per
    ensures Spend(rate, b, now) == Spend(rate, Bucket(rate.burst, now), now)
  {
    hide Rate.RefillPerSec;
    FullRefill(rate);
    var r := rate.RefillPerSec();
    Scale(r, rate.per, now - b.last);
    assert (now - b.last) * r == r * (now - b.last) >= rate.burst;
  }

  lemma ServeMirrors(rate: Rate, m: Buckets, plain: Buckets, clock: real, c: Call)
    requires rate.Usable() && Mirrors(rate, m, plain, clock) && clock <= c.now && !RefusedAtCap(rate, m, c)
    ensures Serve(rate, m, c).0 == ServePlain(rate, plain, c).0
    ensures Mirrors(rate, Serve(rate, m, c).1, ServePlain(rate, plain, c).1, c.now)
  {
    hide Spend, RefusedAtCap;
    RefusedAtCapIff(rate, m, c);
    if c.key in m {
      SpendKeepsFilled(rate, m[c.key], c.now);
    } else {
      SpendKeepsFilled(rate, Bucket(rate.burst, c.now), c.now);
      if c.key in plain {
        IdleSpendsLikeNew(rate, plain[c.key], c.now);
      }
    }
  }

  /** With a clock that never steps back and no refusal at the cap, the answers are those of
      a limiter that never evicts. */
  lemma {:induction false} EvictionIsInvisible(rate: Rate, calls: seq<Call>, i: nat)
    requires rate.Usable() && i <= |calls|
    requires forall j | 0 < j < |calls| :: calls[j - 1].now <= calls[j].now
    requires forall j | 0 <= j < |calls| :: !RefusedAtCap(rate, After(rate, map[], calls[..j]), calls[j])
    ensures i > 0 ==> Mirrors(rate, After(rate, map[], calls[..i]), AfterPlain(rate, map[], calls[..i]), calls[i - 1].now)
    ensures i < |calls| ==> Answer(rate, map[], calls, i) == ServePlain(rate, AfterPlain(rate, map[], calls[..i]), calls[i]).0
  {
    hide Serve, ServePlain, Mirrors, RefusedAtCap;
    if i > 0 {
      EvictionIsInvisible(rate, calls, i - 1);
      assert calls[..i][..i - 1] == calls[..i - 1];
      ServeAtMirrors(rate, calls, i - 1);
    }
    if i < |calls| {
      ServeAtMirrors(rate, calls, i);
    }
  }

  lemma ServeAtMirrors(rate: Rate, calls: seq<Call>, i: nat)
    requires rate.Usable() && i < |calls| && (i > 0 ==> calls[i - 1].now <= calls[i].now)
    requires !RefusedAtCap(rate, After(rate, map[], calls[..i]), calls[i])
    requires i > 0 ==> Mirrors(rate, After(rate, map[], calls[..i]), AfterPlain(rate, map[], calls[..i]), calls[i - 1].now)
    ensures Serve(rate, After(rate, map[], calls[..i]), calls[i]).0 == ServePlain(rate, AfterPlain(rate, map[], calls[..i]), calls[i]).0
    ensures Mirrors(rate, Serve(rate, After(rate, map[], calls[..i]), calls[i]).1,
                    ServePlain(rate, AfterPlain(rate, map[], calls[..i]), calls[i]).1, calls[i].now)
  {
    hide Serve, ServePlain, RefusedAtCap;
    if i == 0 {
      assert calls[..0] == [];
      ServeMirrors(rate, map[], map[], calls[0].now, calls[0]);
    } else {
      ServeMirrors(rate, After(rate, map[], calls[..i]), AfterPlain(rate, map[], calls[..i]), calls[i - 1].now, calls[i]);
    }
  }
}
