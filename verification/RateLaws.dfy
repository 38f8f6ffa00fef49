/** Who the limiter lets through, exactly, in terms of the calls and their answers alone. */
module RateLaws {
  import opened RateLimit

  /** The clock never steps back. */
  predicate Onward(calls: seq<Call>) {
    forall i, j | 0 <= i <= j < |calls| :: calls[i].now <= calls[j].now
  }

  predicate NoneAtCap(rate: Rate, calls: seq<Call>)
    requires rate.per > 0.0
  {
    forall j | 0 <= j < |calls| :: !RefusedAtCap(rate, After(rate, map[], calls[..j]), calls[j])
  }

  /** How many calls of the key were let through, from call `m` up to call `n`. */
  function Served(rate: Rate, calls: seq<Call>, key: string, m: nat, n: nat): nat
    requires rate.per > 0.0 && n <= |calls|
  {
    if n <= m then 0
    else Served(rate, calls, key, m, n - 1) + if calls[n - 1].key == key && Answer(rate, map[], calls, n - 1) then 1 else 0
  }

  /** What is refilled between two points in time. */
  function Refilled(rate: Rate, from: real, until: real): real
    requires rate.per > 0.0
  {
    rate.burst * (until - from) / rate.per
  }

  lemma RefilledAddsUp(rate: Rate, a: real, b: real, c: real)
    requires rate.Usable()
    ensures Refilled(rate, a, b) + Refilled(rate, b, c) == Refilled(rate, a, c) && Refilled(rate, a, a) == 0.0
    ensures a <= b ==> Refilled(rate, a, b) >= 0.0
    ensures Refilled(rate, a, b) == (b - a) * rate.RefillPerSec()
  {
    var r := rate.RefillPerSec();
    assert rate.burst == r * rate.per;
    Cancel(r, rate.per, b - a);
    Cancel(r, rate.per, c - b);
    Cancel(r, rate.per, c - a);
    Cancel(r, rate.per, a - a);
    Linear(r, b - a, c - b);
    if a <= b {
      Product(b - a, r);
    }
  }

  lemma Cancel(r: real, p: real, d: real)
    requires p > 0.0
    ensures r * p * d / p == d * r
  {
    assert r * p * d == (d * r) * p;
  }

  lemma Linear(r: real, a: real, b: real)
    ensures a * r + b * r == (a + b) * r
  {
  }

  /** The tokens a key would find at a time. */
  ghost function Level(rate: Rate, m: Buckets, key: string, t: real): real
    requires rate.per > 0.0
  {
    if key in m then Min(rate.burst, m[key].tokens + Refilled(rate, m[key].last, t)) else rate.burst
  }

  ghost predicate LevelIs(rate: Rate, calls: seq<Call>, key: string, n: nat, t: real, level: real)
    requires rate.per > 0.0 && n <= |calls|
  {
    && 0.0 <= level <= rate.burst
    && (forall m | 0 <= m < n :: level <= rate.burst + Refilled(rate, calls[m].now, t) - Served(rate, calls, key, m, n) as real)
    && (level == rate.burst
        || exists m :: 0 <= m < n && level == rate.burst + Refilled(rate, calls[m].now, t) - Served(rate, calls, key, m, n) as real)
  }

  ghost function PlainAt(rate: Rate, calls: seq<Call>, n: nat): Buckets
    requires rate.per > 0.0 && n <= |calls|
  {
    AfterPlain(rate, map[], calls[..n])
  }

  /** A bucket holds what its fullest moment since leaves of a burst. */
  lemma {:induction false} Levels(rate: Rate, calls: seq<Call>, key: string, n: nat, t: real)
    requires rate.Usable() && Onward(calls) && NoneAtCap(rate, calls) && n <= |calls| && (n > 0 ==> calls[n - 1].now <= t)
    ensures LevelIs(rate, calls, key, n, t, Level(rate, PlainAt(rate, calls, n), key, t))
    ensures key in PlainAt(rate, calls, n) ==> n > 0 && PlainAt(rate, calls, n)[key].last <= calls[n - 1].now
    ensures key in PlainAt(rate, calls, n) ==> 0.0 <= PlainAt(rate, calls, n)[key].tokens <= rate.burst
  {
    hide NoneAtCap, LevelIs, Level, Refilled, Spend, Answer;
    if n == 0 {
      assert calls[..0] == [];
      NoLevel(rate, calls, key, t);
    } else {
      var c, before := calls[n - 1], PlainAt(rate, calls, n - 1);
      assert calls[..n][..n - 1] == calls[..n - 1];
      assert PlainAt(rate, calls, n) == ServePlain(rate, before, c).1;
      if c.key == key {
        Levels(rate, calls, key, n - 1, c.now);
        Eviction(rate, calls, n - 1);
        Spends(rate, before, c, t);
        LevelMoves(rate, calls, key, n, t, Level(rate, before, key, c.now));
      } else {
        Levels(rate, calls, key, n - 1, t);
        SameBucket(rate, before, PlainAt(rate, calls, n), key, t);
        LevelWaits(rate, calls, key, n, t, Level(rate, before, key, t));
      }
    }
  }

  lemma NoLevel(rate: Rate, calls: seq<Call>, key: string, t: real)
    requires rate.Usable()
    ensures LevelIs(rate, calls, key, 0, t, rate.burst) && Level(rate, map[], key, t) == rate.burst
  {
  }

  lemma SameBucket(rate: Rate, a: Buckets, b: Buckets, key: string, t: real)
    requires rate.Usable() && (key in a <==> key in b) && (key in a ==> a[key] == b[key])
    ensures Level(rate, a, key, t) == Level(rate, b, key, t)
  {
  }

  /** The answer is whether there is a whole token, and that is what an acceptance takes. */
  lemma Spends(rate: Rate, m: Buckets, c: Call, t: real)
    requires rate.Usable() && (c.key in m ==> m[c.key].last <= c.now && 0.0 <= m[c.key].tokens <= rate.burst)
    ensures var (ok, m') := ServePlain(rate, m, c);
            && (ok <==> Level(rate, m, c.key, c.now) >= 1.0)
            && m'[c.key] == Bucket(Level(rate, m, c.key, c.now) - (if ok then 1.0 else 0.0), c.now)
            && Level(rate, m', c.key, t) == Min(rate.burst, m'[c.key].tokens + Refilled(rate, c.now, t))
  {
    hide Refilled;
    if c.key in m {
      RefilledAddsUp(rate, m[c.key].last, c.now, c.now);
    }
  }

  lemma Eviction(rate: Rate, calls: seq<Call>, i: nat)
    requires rate.Usable() && Onward(calls) && NoneAtCap(rate, calls) && i < |calls|
    ensures Answer(rate, map[], calls, i) == ServePlain(rate, PlainAt(rate, calls, i), calls[i]).0
  {
    hide Serve, ServePlain, Mirrors, RefusedAtCap;
    EvictionIsInvisible(rate, calls, i);
  }

  lemma LevelWaits(rate: Rate, calls: seq<Call>, key: string, n: nat, t: real, level: real)
    requires rate.Usable() && 0 < n <= |calls| && calls[n - 1].key != key && calls[n - 1].now <= t
    requires LevelIs(rate, calls, key, n - 1, t, level)
    ensures LevelIs(rate, calls, key, n, t, level)
  {
    hide Refilled, Answer;
    RefilledAddsUp(rate, calls[n - 1].now, t, t);
    forall m | 0 <= m < n
      ensures level <= rate.burst + Refilled(rate, calls[m].now, t) - Served(rate, calls, key, m, n) as real
    {
      assert Served(rate, calls, key, n - 1, n) == 0;
    }
    if level != rate.burst {
      var m :| 0 <= m < n - 1 && level == rate.burst + Refilled(rate, calls[m].now, t) - Served(rate, calls, key, m, n - 1) as real;
      assert Served(rate, calls, key, m, n) == Served(rate, calls, key, m, n - 1);
    }
  }

  lemma LevelMoves(rate: Rate, calls: seq<Call>, key: string, n: nat, t: real, level: real)
    requires rate.Usable() && 0 < n <= |calls| && calls[n - 1].key == key && calls[n - 1].now <= t
    requires LevelIs(rate, calls, key, n - 1, calls[n - 1].now, level)
    requires Answer(rate, map[], calls, n - 1) <==> level >= 1.0
    ensures var left := level - if level >= 1.0 then 1.0 else 0.0;
            0.0 <= left <= rate.burst && LevelIs(rate, calls, key, n, t, Min(rate.burst, left + Refilled(rate, calls[n - 1].now, t)))
  {
    hide Refilled, Answer;
    var now := calls[n - 1].now;
    var left := level - if level >= 1.0 then 1.0 else 0.0;
    RefilledAddsUp(rate, now, t, t);
    forall m | 0 <= m < n
      ensures left + Refilled(rate, now, t) <= rate.burst + Refilled(rate, calls[m].now, t) - Served(rate, calls, key, m, n) as real
    {
      RefilledAddsUp(rate, calls[m].now, now, t);
      RefilledAddsUp(rate, now, now, t);
      assert Served(rate, calls, key, n - 1, n - 1) == 0;
    }
    if left + Refilled(rate, now, t) < rate.burst {
      if level == rate.burst {
        assert Served(rate, calls, key, n - 1, n - 1) == 0;
        assert left + Refilled(rate, now, t) == rate.burst + Refilled(rate, now, t) - Served(rate, calls, key, n - 1, n) as real;
      } else {
        var m :| 0 <= m < n - 1 && level == rate.burst + Refilled(rate, calls[m].now, now) - Served(rate, calls, key, m, n - 1) as real;
        RefilledAddsUp(rate, calls[m].now, now, t);
        assert left + Refilled(rate, now, t) == rate.burst + Refilled(rate, calls[m].now, t) - Served(rate, calls, key, m, n) as real;
      }
    }
  }

  /** The exact law: below the cap and on a forward clock, a call is let through if and only if,
      counted from every earlier call, one more stays within a burst and what was refilled
      since.  So a refused caller has spent that much, to within one. */
  lemma AllowedIff(rate: Rate, calls: seq<Call>, n: nat)
    requires rate.Usable() && Onward(calls) && NoneAtCap(rate, calls) && n < |calls|
    ensures Answer(rate, map[], calls, n) <==>
              forall m | 0 <= m < n ::
                Served(rate, calls, calls[n].key, m, n) as real + 1.0 <= rate.burst + Refilled(rate, calls[m].now, calls[n].now)
  {
    hide NoneAtCap, Level, Refilled, Answer, ServePlain;
    var c := calls[n];
    Levels(rate, calls, c.key, n, c.now);
    Eviction(rate, calls, n);
    Spends(rate, PlainAt(rate, calls, n), c, c.now);
  }

  /** How many calls of the key there were, whatever their answers. */
  function Asked(calls: seq<Call>, key: string, n: nat): nat
    requires n <= |calls|
  {
    if n == 0 then 0 else Asked(calls, key, n - 1) + if calls[n - 1].key == key then 1 else 0
  }

  lemma {:induction false} ServedIsAsked(rate: Rate, calls: seq<Call>, key: string, m: nat, n: nat)
    requires rate.per > 0.0 && n <= |calls|
    ensures Served(rate, calls, key, m, n) <= Asked(calls, key, n)
  {
    hide Answer;
    if n > m {
      ServedIsAsked(rate, calls, key, m, n - 1);
    }
  }

  /** The first burst of a fresh key is let through. */
  lemma FirstBurstIsAllowed(rate: Rate, calls: seq<Call>, n: nat)
    requires rate.Usable() && Onward(calls) && NoneAtCap(rate, calls) && n < |calls|
    requires Asked(calls, calls[n].key, n) as real + 1.0 <= rate.burst
    ensures Answer(rate, map[], calls, n)
  {
    hide NoneAtCap, Refilled, Answer;
    AllowedIff(rate, calls, n);
    forall m | 0 <= m < n
      ensures Served(rate, calls, calls[n].key, m, n) as real + 1.0 <= rate.burst + Refilled(rate, calls[m].now, calls[n].now)
    {
      ServedIsAsked(rate, calls, calls[n].key, m, n);
      RefilledAddsUp(rate, calls[m].now, calls[n].now, calls[n].now);
    }
  }

  // ---------------------------------------------------------------- the cap

  /** The key was called less than a refill period ago. */
  ghost predicate CalledSince(rate: Rate, calls: seq<Call>, key: string, now: real) {
    exists i :: 0 <= i < |calls| && calls[i].key == key && now - calls[i].now < rate.per
  }

  predicate TracksSince(rate: Rate, m: Buckets, key: string, now: real) {
    key in m && now - m[key].last < rate.per
  }

  /** The keys that count against the cap are those called within a refill period, whatever
      they were answered. */
  lemma {:induction false} TrackedIff(rate: Rate, calls: seq<Call>, key: string, now: real)
    requires rate.Usable() && Onward(calls) && NoneAtCap(rate, calls) && (calls != [] ==> calls[|calls| - 1].now <= now)
    ensures TracksSince(rate, After(rate, map[], calls), key, now) <==> CalledSince(rate, calls, key, now)
    ensures calls != [] && key in After(rate, map[], calls) ==> After(rate, map[], calls)[key].last <= calls[|calls| - 1].now
  {
    hide Serve, RefusedAtCap;
    if calls != [] {
      var n := |calls| - 1;
      var front := calls[..n];
      assert NoneAtCap(rate, front) by {
        forall j | 0 <= j < n ensures !RefusedAtCap(rate, After(rate, map[], front[..j]), front[j]) {
          assert front[..j] == calls[..j];
        }
      }
      TrackedIff(rate, front, key, now);
      TrackedIff(rate, front, key, calls[n].now);
      assert !RefusedAtCap(rate, After(rate, map[], front), calls[n]);
      ServeTracks(rate, After(rate, map[], front), calls[n], key, now);
      OneMoreCall(rate, calls, key, now);
    }
  }

  lemma OneMoreCall(rate: Rate, calls: seq<Call>, key: string, now: real)
    requires calls != []
    ensures var n := |calls| - 1;
            CalledSince(rate, calls, key, now)
            <==> CalledSince(rate, calls[..n], key, now) || (calls[n].key == key && now - calls[n].now < rate.per)
  {
    var n := |calls| - 1;
    if CalledSince(rate, calls[..n], key, now) {
      var i :| 0 <= i < n && calls[..n][i].key == key && now - calls[..n][i].now < rate.per;
      assert calls[i].key == key;
    }
    if CalledSince(rate, calls, key, now) {
      var i :| 0 <= i < |calls| && calls[i].key == key && now - calls[i].now < rate.per;
      assert i < n ==> calls[..n][i].key == key;
    }
  }

  lemma ServeTracks(rate: Rate, m: Buckets, c: Call, key: string, now: real)
    requires rate.Usable() && c.now <= now && !RefusedAtCap(rate, m, c) && (key in m ==> m[key].last <= c.now)
    ensures TracksSince(rate, Serve(rate, m, c).1, key, now)
            <==> TracksSince(rate, m, key, now) || (c.key == key && now - c.now < rate.per)
    ensures key in Serve(rate, m, c).1 ==> Serve(rate, m, c).1[key].last <= c.now
  {
    hide Rate.RefillPerSec, RefusedAtCap;
    RefusedAtCapIff(rate, m, c);
  }

  /** So a key is turned away for want of room only if it was not called within a refill
      period and as many others as the cap were. */
  lemma AtCapIsFull(rate: Rate, calls: seq<Call>, c: Call)
    requires rate.Usable() && Onward(calls) && NoneAtCap(rate, calls) && (calls != [] ==> calls[|calls| - 1].now <= c.now)
    requires RefusedAtCap(rate, After(rate, map[], calls), c)
    ensures !CalledSince(rate, calls, c.key, c.now)
    ensures exists full: set<string> :: |full| >= rate.maxKeys && forall k | k in full :: CalledSince(rate, calls, k, c.now)
  {
    hide CalledSince, NoneAtCap;
    var m := After(rate, map[], calls);
    var full := set k | k in m && c.now - m[k].last < rate.per;
    forall k
      ensures TracksSince(rate, m, k, c.now) <==> CalledSince(rate, calls, k, c.now)
    {
      TrackedIff(rate, calls, k, c.now);
    }
    assert forall k | k in full :: TracksSince(rate, m, k, c.now);
    assert !TracksSince(rate, m, c.key, c.now);
  }
}
