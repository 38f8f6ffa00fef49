/** Pass-policy conflicts: a projection derived from everything known of a ticket. */
module Conflicts {
  import opened Basics

  type Id = nat

  type Time = int

  datatype Kind = Entry | Exit | Other

  /** One physical admission.  `sequence` is zero for facts of the quarantine side. */
  datatype Fact = Fact(occurrence: Id, kind: Kind, at: Time, sequence: nat, undirected: bool)

  datatype Policy = Single | Multi(requiresExit: bool) | CountLimited(maxEntries: Option<int>, requiresExit: bool)
  {
    predicate IsPass() {
      !Single?
    }

    predicate RequiresExit() {
      !Single? && requiresExit
    }

    /** Whether `n` entries are more than the policy allows. */
    predicate Exceeded(n: int) {
      CountLimited? && maxEntries.Some? && n > maxEntries.value
    }
  }

  datatype Rule = EntryLimitReached | ExitRequired

  datatype Conflict = Conflict(rule: Rule, occurrence: Id)

  datatype Live = Accepted | NotInside | Denied(rule: Rule)

  // ---------------------------------------------------------------- order

  /** Claimed time first, then integrity sequence, then occurrence id. */
  predicate Before(a: Fact, b: Fact) {
    || a.at < b.at
    || (a.at == b.at && a.sequence < b.sequence)
    || (a.at == b.at && a.sequence == b.sequence && a.occurrence < b.occurrence)
  }

  /** Stable insertion: a fact goes after those it does not precede. */
  function Insert(f: Fact, sorted: seq<Fact>): (r: seq<Fact>)
    ensures |r| == |sorted| + 1
    ensures forall x :: x in r <==> x == f || x in sorted
  {
    if sorted == [] then [f]
    else if !Before(sorted[0], f) then [f] + sorted
    else
      assert sorted == [sorted[0]] + sorted[1..];
      [sorted[0]] + Insert(f, sorted[1..])
  }

  ghost predicate Ordered(s: seq<Fact>) {
    forall i, j | 0 <= i < j < |s| :: !Before(s[j], s[i])
  }

  /** The stably sorted copy. */
  function OrderFacts(facts: seq<Fact>): (r: seq<Fact>)
    ensures |r| == |facts|
    ensures forall x :: x in r <==> x in facts
  {
    if facts == [] then []
    else
      assert facts == [facts[0]] + facts[1..];
      Insert(facts[0], OrderFacts(facts[1..]))
  }

  lemma {:induction false} InsertKeepsOrder(f: Fact, s: seq<Fact>)
    requires Ordered(s)
    ensures Ordered(Insert(f, s))
  {
    if s != [] && Before(s[0], f) {
      var rest := Insert(f, s[1..]);
      InsertKeepsOrder(f, s[1..]);
      forall k | 0 <= k < |rest|
        ensures !Before(rest[k], s[0])
      {
        assert rest[k] in rest;
        if rest[k] != f {
          var j :| 0 <= j < |s[1..]| && s[1..][j] == rest[k];
          assert s[j + 1] == rest[k];
        }
      }
    }
  }

  lemma {:induction false} OrderFactsOrders(facts: seq<Fact>)
    ensures Ordered(OrderFacts(facts))
  {
    if facts != [] {
      OrderFactsOrders(facts[1..]);
      InsertKeepsOrder(facts[0], OrderFacts(facts[1..]));
    }
  }

  /** No two facts share time, sequence and occurrence. */
  ghost predicate DistinctKeys(facts: seq<Fact>) {
    forall i, j | 0 <= i < j < |facts| :: Before(facts[i], facts[j]) || Before(facts[j], facts[i])
  }

  ghost predicate SameFacts(a: seq<Fact>, b: seq<Fact>) {
    forall f :: f in a <==> f in b
  }

  /** Strictly ordered. */
  ghost predicate Increasing(s: seq<Fact>) {
    forall i, j | 0 <= i < j < |s| :: Before(s[i], s[j])
  }

  lemma {:induction false} InsertStrictly(f: Fact, s: seq<Fact>)
    requires Increasing(s) && forall x | x in s :: Before(x, f) || Before(f, x)
    ensures Increasing(Insert(f, s))
  {
    if s != [] && Before(s[0], f) {
      var rest := Insert(f, s[1..]);
      assert s == [s[0]] + s[1..];
      InsertStrictly(f, s[1..]);
      forall k | 0 <= k < |rest|
        ensures Before(s[0], rest[k])
      {
        assert rest[k] in rest;
        if rest[k] != f {
          var j :| 0 <= j < |s[1..]| && s[1..][j] == rest[k];
          assert s[j + 1] == rest[k];
        }
      }
    } else if s != [] {
      assert Before(f, s[0]);
    }
  }

  lemma {:induction false} OrderFactsStrictly(facts: seq<Fact>)
    requires DistinctKeys(facts)
    ensures Increasing(OrderFacts(facts))
  {
    if facts != [] {
      var rest := facts[1..];
      assert forall i | 0 <= i < |rest| :: rest[i] == facts[i + 1];
      OrderFactsStrictly(rest);
      forall x | x in OrderFacts(rest)
        ensures Before(x, facts[0]) || Before(facts[0], x)
      {
        var i :| 0 <= i < |rest| && rest[i] == x;
        assert facts[i + 1] == x;
      }
      InsertStrictly(facts[0], OrderFacts(rest));
    }
  }

  lemma TailIncreases(s: seq<Fact>)
    requires s != [] && Increasing(s)
    ensures Increasing(s[1..]) && forall x | x in s[1..] :: Before(s[0], x)
  {
  }

  /** A set of facts with distinct keys has one order. */
  lemma {:induction false} OrderIsUnique(a: seq<Fact>, b: seq<Fact>)
    requires Increasing(a) && Increasing(b) && SameFacts(a, b)
    ensures a == b
  {
    hide Increasing;
    assert b != [] ==> b[0] in a;
    if a != [] {
      assert a[0] in b;
      var x, y := a[1..], b[1..];
      assert a == [a[0]] + x && b == [b[0]] + y;
      TailIncreases(a);
      TailIncreases(b);
      SameTail(a[0], x, b[0], y);
      OrderIsUnique(x, y);
    }
  }

  lemma SameTail(p: Fact, x: seq<Fact>, q: Fact, y: seq<Fact>)
    requires (forall f | f in x :: Before(p, f)) && (forall f | f in y :: Before(q, f))
    requires SameFacts([p] + x, [q] + y)
    ensures p == q && SameFacts(x, y)
  {
    assert p in [p] + x && q in [q] + y;
    forall f
      ensures f in x <==> f in y
    {
      assert f in x ==> f in [p] + x;
      assert f in y ==> f in [q] + y;
    }
  }

  // ---------------------------------------------------------------- the walk

  datatype State = State(entries: nat, inside: bool)

  const START := State(0, false)

  /** An entry, or an admission recorded without a direction. */
  predicate Counts(f: Fact) {
    f.kind != Exit && (f.undirected || f.kind == Entry)
  }

  function Next(st: State, f: Fact): State {
    if f.kind == Exit then State(st.entries, false)
    else if Counts(f) then State(st.entries + 1, true)
    else st
  }

  /** The conflict attributed to a fact, if any. */
  function Raised(policy: Policy, st: State, f: Fact): seq<Conflict> {
    if !Counts(f) then []
    else if policy.Exceeded(st.entries + 1) then [Conflict(EntryLimitReached, f.occurrence)]
    else if policy.RequiresExit() && st.inside && !f.undirected then [Conflict(ExitRequired, f.occurrence)]
    else []
  }

  function StateAfter(st: State, facts: seq<Fact>): State
    decreases |facts|
  {
    if facts == [] then st else StateAfter(Next(st, facts[0]), facts[1..])
  }

  function Walk(policy: Policy, st: State, facts: seq<Fact>): seq<Conflict>
    decreases |facts|
  {
    if facts == [] then [] else Raised(policy, st, facts[0]) + Walk(policy, Next(st, facts[0]), facts[1..])
  }

  /** The conflicts of a ticket, derived from scratch. */
  function Derive(policy: Policy, facts: seq<Fact>): seq<Conflict> {
    if !policy.IsPass() then [] else Walk(policy, START, OrderFacts(facts))
  }

  lemma {:induction false} WalkAppends(policy: Policy, st: State, a: seq<Fact>, b: seq<Fact>)
    ensures Walk(policy, st, a + b) == Walk(policy, st, a) + Walk(policy, StateAfter(st, a), b)
    ensures StateAfter(st, a + b) == StateAfter(StateAfter(st, a), b)
    decreases |a|
  {
    if a == [] {
      assert a + b == b;
    } else {
      assert (a + b)[1..] == a[1..] + b;
      WalkAppends(policy, Next(st, a[0]), a[1..], b);
    }
  }

  method DerivePolicyConflicts(policy: Policy, facts: seq<Fact>) returns (conflicts: seq<Conflict>)
    ensures conflicts == Derive(policy, facts)
  {
    hide Walk;
    conflicts := [];
    if !policy.IsPass() {
      return;
    }
    var entries, inside := 0, false;
    var ordered := OrderFacts(facts);
    for i := 0 to |ordered|
      invariant conflicts + Walk(policy, State(entries, inside), ordered[i..]) == Walk(policy, START, ordered)
    {
      var f := ordered[i];
      WalkStep(policy, State(entries, inside), ordered, i);
      if f.kind == Exit {
        inside := false;
      } else if f.undirected || f.kind == Entry {
        entries := entries + 1;
        if policy.CountLimited? && policy.maxEntries.Some? && entries > policy.maxEntries.value {
          conflicts := conflicts + [Conflict(EntryLimitReached, f.occurrence)];
        } else if policy.RequiresExit() && inside && !f.undirected {
          conflicts := conflicts + [Conflict(ExitRequired, f.occurrence)];
        }
        inside := true;
      }
    }
    WalkEnds(policy, State(entries, inside), ordered);
  }

  lemma WalkStep(policy: Policy, st: State, facts: seq<Fact>, i: nat)
    requires i < |facts|
    ensures Walk(policy, st, facts[i..]) == Raised(policy, st, facts[i]) + Walk(policy, Next(st, facts[i]), facts[i + 1..])
  {
    assert facts[i..][1..] == facts[i + 1..];
  }

  lemma WalkEnds(policy: Policy, st: State, facts: seq<Fact>)
    ensures Walk(policy, st, facts[|facts|..]) == []
  {
  }

  // ---------------------------------------------------------------- the live decision

  /** The live walk counts everything that is not an exit. */
  function LiveNext(st: State, f: Fact): State {
    if f.kind == Exit then State(st.entries, false) else State(st.entries + 1, true)
  }

  function LiveState(st: State, facts: seq<Fact>): State
    decreases |facts|
  {
    if facts == [] then st else LiveState(LiveNext(st, facts[0]), facts[1..])
  }

  function Evaluate(policy: Policy, facts: seq<Fact>, entering: bool): Live {
    var st := LiveState(START, OrderFacts(facts));
    if !entering then (if st.inside then Accepted else NotInside)
    else if policy.CountLimited? && policy.maxEntries.Some? && st.entries >= policy.maxEntries.value then Denied(EntryLimitReached)
    else if policy.RequiresExit() && st.inside then Denied(ExitRequired)
    else Accepted
  }

  method EvaluateLiveAdmission(policy: Policy, facts: seq<Fact>, entering: bool) returns (answer: Live)
    ensures answer == Evaluate(policy, facts, entering)
  {
    var entries, inside := 0, false;
    var ordered := OrderFacts(facts);
    for i := 0 to |ordered|
      invariant LiveState(State(entries, inside), ordered[i..]) == LiveState(START, ordered)
    {
      assert ordered[i..][1..] == ordered[i + 1..];
      if ordered[i].kind == Exit {
        inside := false;
      } else {
        entries, inside := entries + 1, true;
      }
    }
    if !entering {
      return if inside then Accepted else NotInside;
    }
    if policy.CountLimited? && policy.maxEntries.Some? && entries >= policy.maxEntries.value {
      return Denied(EntryLimitReached);
    }
    answer := if policy.RequiresExit() && inside then Denied(ExitRequired) else Accepted;
  }

  /** What the store's query makes of its rows: an entry, an exit, or undirected. */
  ghost predicate WellTyped(facts: seq<Fact>) {
    forall f | f in facts :: f.kind == Other ==> f.undirected
  }

  lemma {:induction false} SameState(st: State, facts: seq<Fact>)
    requires WellTyped(facts)
    ensures LiveState(st, facts) == StateAfter(st, facts)
    decreases |facts|
  {
    if facts != [] {
      assert facts == [facts[0]] + facts[1..];
      SameState(Next(st, facts[0]), facts[1..]);
    }
  }

  /** A fact later than everything known goes to the end. */
  lemma LatestGoesLast(facts: seq<Fact>, f: Fact)
    requires DistinctKeys(facts) && forall x | x in facts :: Before(x, f)
    ensures OrderFacts(facts + [f]) == OrderFacts(facts) + [f]
  {
    var all, last := facts + [f], OrderFacts(facts) + [f];
    OrderFactsStrictly(facts);
    forall i, j | 0 <= i < j < |last|
      ensures Before(last[i], last[j])
    {
      assert last[i] in OrderFacts(facts);
    }
    forall i, j | 0 <= i < j < |all|
      ensures Before(all[i], all[j]) || Before(all[j], all[i])
    {
      assert all[i] in facts;
    }
    OrderFactsStrictly(all);
    OrderIsUnique(OrderFacts(all), last);
  }

  lemma {:induction false} WalkNamesFacts(policy: Policy, st: State, facts: seq<Fact>)
    ensures forall c | c in Walk(policy, st, facts) :: exists f :: f in facts && f.occurrence == c.occurrence
    decreases |facts|
  {
    if facts != [] {
      WalkNamesFacts(policy, Next(st, facts[0]), facts[1..]);
      assert facts == [facts[0]] + facts[1..];
      forall c | c in Walk(policy, st, facts)
        ensures exists f :: f in facts && f.occurrence == c.occurrence
      {
        if c in Raised(policy, st, facts[0]) {
          assert facts[0] in facts;
        } else {
          var f :| f in facts[1..] && f.occurrence == c.occurrence;
          assert f in facts;
        }
      }
    }
  }

  /** The live decision refines the derived rule: for a pass and a directed entry later than
      everything known, the gate denies it for a rule exactly when the derivation would
      attribute that rule's conflict to it. */
  lemma LiveRefinesDerived(policy: Policy, facts: seq<Fact>, f: Fact, rule: Rule)
    requires policy.IsPass() && WellTyped(facts) && DistinctKeys(facts)
    requires f.kind == Entry && !f.undirected
    requires forall x | x in facts :: Before(x, f) && x.occurrence != f.occurrence
    ensures Evaluate(policy, facts, true) == Denied(rule) <==> Conflict(rule, f.occurrence) in Derive(policy, facts + [f])
  {
    var ordered := OrderFacts(facts);
    LatestGoesLast(facts, f);
    SameState(START, ordered);
    WalkAppends(policy, START, ordered, [f]);
    WalkNamesFacts(policy, START, ordered);
    var st := StateAfter(START, ordered);
    assert Walk(policy, st, [f]) == Raised(policy, st, f) by { assert [f][1..] == []; }
  }

  /** Why `LiveRefinesDerived` asks for well typed facts, which is what the store's query
      yields: a directed fact that is neither an entry nor an exit would count live but not in
      the derivation. */
  lemma LiveMayDenyMore(f: Fact, odd: Fact)
    requires odd.kind == Other && !odd.undirected && f.kind == Entry && !f.undirected && Before(odd, f)
    ensures var policy := CountLimited(Some(1), false);
            Evaluate(policy, [odd], true) == Denied(EntryLimitReached) && Derive(policy, [odd, f]) == []
  {
    var policy := CountLimited(Some(1), false);
    assert OrderFacts([odd]) == [odd];
    assert [odd, f][1..] == [f];
    assert OrderFacts([f]) == [f];
    assert OrderFacts([odd, f]) == [odd, f];
    assert LiveState(START, [odd]) == LiveState(State(1, true), []);
    assert Walk(policy, START, [odd, f]) == [] + Walk(policy, START, [f]);
    assert Walk(policy, START, [f]) == [] + Walk(policy, State(1, true), []);
  }

  // ---------------------------------------------------------------- entry limits

  function Entries(facts: seq<Fact>): nat {
    if facts == [] then 0 else (if Counts(facts[0]) then 1 else 0) + Entries(facts[1..])
  }

  function LimitConflicts(conflicts: seq<Conflict>): nat {
    if conflicts == [] then 0 else (if conflicts[0].rule == EntryLimitReached then 1 else 0) + LimitConflicts(conflicts[1..])
  }

  function Max0(n: int): nat {
    if n > 0 then n else 0
  }

  lemma {:induction false} LimitConflictsAppend(a: seq<Conflict>, b: seq<Conflict>)
    ensures LimitConflicts(a + b) == LimitConflicts(a) + LimitConflicts(b)
  {
    if a == [] {
      assert a + b == b;
    } else {
      assert (a + b)[1..] == a[1..] + b;
      LimitConflictsAppend(a[1..], b);
    }
  }

  lemma {:induction false} WalkCountsExcess(policy: Policy, st: State, facts: seq<Fact>)
    requires policy.CountLimited? && policy.maxEntries.Some?
    ensures LimitConflicts(Walk(policy, st, facts))
            == Max0(st.entries + Entries(facts) - Max0(policy.maxEntries.value)) - Max0(st.entries - Max0(policy.maxEntries.value))
    decreases |facts|
  {
    if facts != [] {
      var first := Raised(policy, st, facts[0]);
      WalkCountsExcess(policy, Next(st, facts[0]), facts[1..]);
      LimitConflictsAppend(first, Walk(policy, Next(st, facts[0]), facts[1..]));
      assert |first| <= 1 && (|first| == 1 ==> first[1..] == []);
    }
  }

  lemma {:induction false} EntriesOfInsert(f: Fact, s: seq<Fact>)
    ensures Entries(Insert(f, s)) == Entries([f] + s)
  {
    assert ([f] + s)[1..] == s;
    if s != [] && Before(s[0], f) {
      EntriesOfInsert(f, s[1..]);
      assert ([f] + s[1..])[1..] == s[1..];
      assert Insert(f, s)[1..] == Insert(f, s[1..]);
    }
  }

  lemma {:induction false} EntriesIgnoreOrder(facts: seq<Fact>)
    ensures Entries(OrderFacts(facts)) == Entries(facts)
  {
    if facts != [] {
      EntriesIgnoreOrder(facts[1..]);
      EntriesOfInsert(facts[0], OrderFacts(facts[1..]));
      assert ([facts[0]] + OrderFacts(facts[1..]))[1..] == OrderFacts(facts[1..]);
    }
  }

  /** Under a limit, the derived entry-limit conflicts are exactly the entries beyond it. */
  lemma LimitConflictsAreTheExcess(policy: Policy, facts: seq<Fact>)
    requires policy.CountLimited? && policy.maxEntries.Some?
    ensures LimitConflicts(Derive(policy, facts)) == Max0(Entries(facts) - Max0(policy.maxEntries.value))
  {
    WalkCountsExcess(policy, START, OrderFacts(facts));
    EntriesIgnoreOrder(facts);
  }

  // ---------------------------------------------------------------- a late exit

  /** `b` is `a`, or `a` without one element. */
  ghost predicate LosesAtMostOne(a: seq<Conflict>, b: seq<Conflict>) {
    a == b || exists i | 0 <= i < |a| :: b == Without(a, i)
  }

  function Without(a: seq<Conflict>, i: nat): seq<Conflict>
    requires i < |a|
  {
    a[..i] + a[i + 1..]
  }

  lemma LosesAfter(p: seq<Conflict>, a: seq<Conflict>, b: seq<Conflict>)
    requires LosesAtMostOne(a, b)
    ensures LosesAtMostOne(p + a, p + b)
  {
    if a != b {
      var i :| 0 <= i < |a| && b == Without(a, i);
      assert p + b == Without(p + a, |p| + i);
    }
  }

  /** Being outside instead of inside spares at most the next entry its conflict. */
  lemma {:induction false} OutsideLosesAtMostOne(policy: Policy, n: nat, inside: bool, facts: seq<Fact>)
    ensures LosesAtMostOne(Walk(policy, State(n, inside), facts), Walk(policy, State(n, false), facts))
  {
    if facts != [] && inside {
      var f, rest := facts[0], facts[1..];
      if Counts(f) || f.kind == Exit {
        var st := Next(State(n, true), f);
        var a, b := Raised(policy, State(n, true), f), Raised(policy, State(n, false), f);
        var tail := Walk(policy, st, rest);
        assert Next(State(n, false), f) == st;
        if a != b {
          assert |a| == 1 && b == [];
          assert b + tail == Without(a + tail, 0);
        }
      } else {
        OutsideLosesAtMostOne(policy, n, true, rest);
        LosesAfter([], Walk(policy, State(n, true), rest), Walk(policy, State(n, false), rest));
        assert [] + Walk(policy, State(n, true), rest) == Walk(policy, State(n, true), facts);
        assert [] + Walk(policy, State(n, false), rest) == Walk(policy, State(n, false), facts);
      }
    }
  }

  lemma ExitStep(policy: Policy, st: State, e: Fact, post: seq<Fact>)
    requires e.kind == Exit
    ensures Walk(policy, st, [e] + post) == Walk(policy, State(st.entries, false), post)
  {
    assert ([e] + post)[1..] == post;
  }

  lemma {:induction false} InsertSplits(f: Fact, s: seq<Fact>) returns (p: nat)
    ensures p <= |s| && Insert(f, s) == s[..p] + [f] + s[p..]
  {
    if s == [] || !Before(s[0], f) {
      p := 0;
    } else {
      var q := InsertSplits(f, s[1..]);
      p := q + 1;
      assert s[..p] == [s[0]] + s[1..][..q];
    }
  }

  /** A late exit raises nothing and withdraws at most one conflict, wherever it falls. */
  lemma LateExitOnlyWithdraws(policy: Policy, facts: seq<Fact>, e: Fact)
    requires e.kind == Exit && DistinctKeys([e] + facts)
    ensures LosesAtMostOne(Derive(policy, facts), Derive(policy, facts + [e]))
  {
    hide Walk;
    ExitArrivesAnywhere(policy, facts, e);
    var s := OrderFacts(facts);
    assert ([e] + facts)[1..] == facts;
    var p := InsertSplits(e, s);
    var pre, post := s[..p], s[p..];
    var st := StateAfter(START, pre);
    assert s == pre + post && OrderFacts([e] + facts) == pre + ([e] + post);
    WalkAppends(policy, START, pre, post);
    WalkAppends(policy, START, pre, [e] + post);
    ExitStep(policy, st, e, post);
    OutsideLosesAtMostOne(policy, st.entries, st.inside, post);
    LosesAfter(Walk(policy, START, pre), Walk(policy, st, post), Walk(policy, st, [e] + post));
  }

  /** Where in the listing the exit stands does not matter. */
  lemma ExitArrivesAnywhere(policy: Policy, facts: seq<Fact>, e: Fact)
    requires DistinctKeys([e] + facts)
    ensures Derive(policy, facts + [e]) == Derive(policy, [e] + facts)
  {
    hide Derive;
    DistinctRotates(e, facts);
    DeriveIgnoresOrder(policy, facts + [e], [e] + facts);
  }

  lemma DistinctRotates(e: Fact, facts: seq<Fact>)
    requires DistinctKeys([e] + facts)
    ensures DistinctKeys(facts + [e]) && DistinctKeys(facts)
  {
    var a, b := [e] + facts, facts + [e];
    assert forall i | 0 <= i < |facts| :: a[i + 1] == facts[i] == b[i];
    forall i, j | 0 <= i < j < |b|
      ensures Before(b[i], b[j]) || Before(b[j], b[i])
    {
      if j < |facts| {
        assert Before(a[i + 1], a[j + 1]) || Before(a[j + 1], a[i + 1]);
      } else {
        assert Before(a[0], a[i + 1]) || Before(a[i + 1], a[0]);
      }
    }
    forall i, j | 0 <= i < j < |facts|
      ensures Before(facts[i], facts[j]) || Before(facts[j], facts[i])
    {
      assert Before(a[i + 1], a[j + 1]) || Before(a[j + 1], a[i + 1]);
    }
  }

  // ---------------------------------------------------------------- the projection

  /** Deriving depends only on the set of facts. */
  lemma DeriveIgnoresOrder(policy: Policy, a: seq<Fact>, b: seq<Fact>)
    requires DistinctKeys(a) && DistinctKeys(b) && SameFacts(a, b)
    ensures Derive(policy, a) == Derive(policy, b)
  {
    OrderFactsStrictly(a);
    OrderFactsStrictly(b);
    OrderIsUnique(OrderFacts(a), OrderFacts(b));
  }

  datatype Status = RaisedStatus | Withdrawn

  /** One stored row per conflict ever raised, with the version of its last transition. */
  type Projection = map<Conflict, (Status, nat)>

  predicate IsRaised(current: Projection, c: Conflict) {
    c in current && current[c].0 == RaisedStatus
  }

  ghost function RaisedSet(current: Projection): set<Conflict> {
    set c | c in current && IsRaised(current, c)
  }

  ghost function Elements(conflicts: seq<Conflict>): set<Conflict> {
    set c | c in conflicts
  }

  /** The transitions owed. */
  function Raises(current: Projection, derived: seq<Conflict>): seq<Conflict> {
    if derived == [] then []
    else (if IsRaised(current, derived[0]) then [] else [derived[0]]) + Raises(current, derived[1..])
  }

  ghost function Withdraws(current: Projection, derived: seq<Conflict>): set<Conflict> {
    set c | c in current && IsRaised(current, c) && c !in derived
  }

  lemma {:induction false} RaisesAre(current: Projection, derived: seq<Conflict>)
    ensures Elements(Raises(current, derived)) == set c | c in derived && !IsRaised(current, c)
  {
    if derived != [] {
      RaisesAre(current, derived[1..]);
      assert derived == [derived[0]] + derived[1..];
      forall c
        ensures c in Raises(current, derived) <==> c in derived && !IsRaised(current, c)
      {
        assert c in Raises(current, derived[1..]) <==> c in Elements(Raises(current, derived[1..]));
      }
    }
  }

  /** Raises come in the order of the derivation, withdrawals in whatever order the map
      yields them. */
  method DiffPolicyConflicts(current: Projection, derived: seq<Conflict>) returns (raises: seq<Conflict>, withdraws: seq<Conflict>)
    ensures raises == Raises(current, derived)
    ensures NoRepeats(withdraws) && Elements(withdraws) == Withdraws(current, derived)
  {
    hide Withdraws;
    raises, withdraws := [], [];
    for i := 0 to |derived|
      invariant raises + Raises(current, derived[i..]) == Raises(current, derived)
    {
      assert derived[i..][1..] == derived[i + 1..];
      if !IsRaised(current, derived[i]) {
        raises := raises + [derived[i]];
      }
    }
    withdraws := NoLongerDerived(current, derived);
  }

  method NoLongerDerived(current: Projection, derived: seq<Conflict>) returns (withdraws: seq<Conflict>)
    ensures NoRepeats(withdraws) && Elements(withdraws) == Withdraws(current, derived)
  {
    withdraws := [];
    var unread := current.Keys;
    while unread != {}
      invariant unread <= current.Keys && NoRepeats(withdraws)
      invariant forall c :: c in withdraws <==> c in current && c !in unread && IsRaised(current, c) && c !in derived
    {
      var c :| c in unread;
      unread := unread - {c};
      if current[c].0 == RaisedStatus && c !in derived {
        withdraws := withdraws + [c];
      }
    }
  }

  function Version(current: Projection, c: Conflict): nat {
    if c in current then current[c].1 else 0
  }

  /** Writing one list of transitions, each with the version after the one that was read. */
  function Apply(read: Projection, current: Projection, cs: seq<Conflict>, status: Status): Projection
    decreases |cs|
  {
    if cs == [] then current
    else Apply(read, current[cs[0] := (status, Version(read, cs[0]) + 1)], cs[1..], status)
  }

  lemma {:induction false} ApplySets(read: Projection, current: Projection, cs: seq<Conflict>, status: Status)
    ensures var next := Apply(read, current, cs, status);
            && (forall c :: c in next <==> c in current || c in cs)
            && (forall c | c in next :: next[c] == if c in cs then (status, Version(read, c) + 1) else current[c])
    decreases |cs|
  {
    if cs != [] {
      ApplySets(read, current[cs[0] := (status, Version(read, cs[0]) + 1)], cs[1..], status);
      assert cs == [cs[0]] + cs[1..];
    }
  }

  /** Re-evaluating a ticket: derive, diff, write the raises, then the withdrawals. */
  ghost predicate Evaluates(policy: Policy, facts: seq<Fact>, before: Projection, after: Projection) {
    exists withdraws: seq<Conflict> ::
      && NoRepeats(withdraws) && Elements(withdraws) == Withdraws(before, Derive(policy, facts))
      && after == Apply(before, Apply(before, before, Raises(before, Derive(policy, facts)), RaisedStatus), withdraws, Withdrawn)
  }

  /** After a re-evaluation, exactly the derived conflicts are raised. */
  lemma EvaluationRaisesDerived(policy: Policy, facts: seq<Fact>, before: Projection, after: Projection)
    requires Evaluates(policy, facts, before, after)
    ensures RaisedSet(after) == Elements(Derive(policy, facts))
  {
    hide Derive, Raises;
    var derived := Derive(policy, facts);
    var withdraws: seq<Conflict> :| NoRepeats(withdraws) && Elements(withdraws) == Withdraws(before, derived)
      && after == Apply(before, Apply(before, before, Raises(before, derived), RaisedStatus), withdraws, Withdrawn);
    RaisesAre(before, derived);
    ApplySets(before, before, Raises(before, derived), RaisedStatus);
    ApplySets(before, Apply(before, before, Raises(before, derived), RaisedStatus), withdraws, Withdrawn);
    forall c
      ensures c in RaisedSet(after) <==> c in derived
    {
      assert c in withdraws <==> c in Withdraws(before, derived) by { assert c in withdraws <==> c in Elements(withdraws); }
      assert c in Raises(before, derived) <==> c in Elements(Raises(before, derived));
    }
  }

  /** A projection reached by evaluating after each arrival. */
  ghost predicate Reaches(policy: Policy, arrivals: seq<Fact>, current: Projection)
    decreases |arrivals|
  {
    if arrivals == [] then current == map[]
    else exists before :: Reaches(policy, arrivals[..|arrivals| - 1], before) && Evaluates(policy, arrivals, before, current)
  }

  lemma ReachedIsDerived(policy: Policy, arrivals: seq<Fact>, current: Projection)
    requires Reaches(policy, arrivals, current)
    ensures RaisedSet(current) == Elements(Derive(policy, arrivals))
  {
    hide Evaluates;
    if arrivals != [] {
      var before :| Reaches(policy, arrivals[..|arrivals| - 1], before) && Evaluates(policy, arrivals, before, current);
      EvaluationRaisesDerived(policy, arrivals, before, current);
    }
  }

  lemma {:induction false} ListingExists(s: set<Conflict>)
    ensures exists cs: seq<Conflict> :: NoRepeats(cs) && Elements(cs) == s
  {
    if s == {} {
      assert Elements([]) == s;
    } else {
      var c :| c in s;
      ListingExists(s - {c});
      var cs: seq<Conflict> :| NoRepeats(cs) && Elements(cs) == s - {c};
      assert c !in cs by { assert c !in Elements(cs); }
      forall x
        ensures x in Elements(cs + [c]) <==> x in s
      {
        assert x in cs <==> x in Elements(cs);
      }
      assert NoRepeats(cs + [c]);
    }
  }

  lemma EvaluationExists(policy: Policy, facts: seq<Fact>, before: Projection)
    ensures exists after :: Evaluates(policy, facts, before, after)
  {
    hide Derive, Raises, Withdraws;
    ListingExists(Withdraws(before, Derive(policy, facts)));
    var withdraws: seq<Conflict> :| NoRepeats(withdraws) && Elements(withdraws) == Withdraws(before, Derive(policy, facts));
    var after := Apply(before, Apply(before, before, Raises(before, Derive(policy, facts)), RaisedStatus), withdraws, Withdrawn);
    assert Evaluates(policy, facts, before, after);
  }

  /** Every order of arrival reaches a projection. */
  lemma {:induction false} EveryOrderIsReached(policy: Policy, arrivals: seq<Fact>)
    ensures exists current :: Reaches(policy, arrivals, current)
    decreases |arrivals|
  {
    hide Evaluates;
    if arrivals == [] {
      assert Reaches(policy, arrivals, map[]);
    } else {
      var front := arrivals[..|arrivals| - 1];
      EveryOrderIsReached(policy, front);
      var before :| Reaches(policy, front, before);
      EvaluationExists(policy, arrivals, before);
      var current :| Evaluates(policy, arrivals, before, current);
      assert Reaches(policy, arrivals, current);
    }
  }

  /** The projection is confluent: facts arriving in any order, each followed by an
      evaluation, end in the same raised set, the one derived from all of them. */
  lemma ProjectionIsConfluent(policy: Policy, a: seq<Fact>, x: Projection, b: seq<Fact>, y: Projection)
    requires DistinctKeys(a) && DistinctKeys(b) && SameFacts(a, b)
    requires Reaches(policy, a, x) && Reaches(policy, b, y)
    ensures RaisedSet(x) == RaisedSet(y) == Elements(Derive(policy, a))
  {
    hide Reaches, Derive;
    ReachedIsDerived(policy, a, x);
    ReachedIsDerived(policy, b, y);
    DeriveIgnoresOrder(policy, a, b);
  }

  /** Re-evaluating unchanged facts owes nothing and changes nothing. */
  lemma ReEvaluationIsSilent(policy: Policy, facts: seq<Fact>, before: Projection, current: Projection, again: Projection)
    requires Evaluates(policy, facts, before, current) && Evaluates(policy, facts, current, again)
    ensures Raises(current, Derive(policy, facts)) == [] && Withdraws(current, Derive(policy, facts)) == {}
    ensures again == current
  {
    hide Derive, Raises;
    var derived := Derive(policy, facts);
    EvaluationRaisesDerived(policy, facts, before, current);
    forall c
      ensures c in derived <==> c in current && IsRaised(current, c)
    {
      assert c in derived <==> c in Elements(derived);
      assert c in RaisedSet(current) <==> c in current && IsRaised(current, c);
    }
    RaisesAre(current, derived);
    NoElements(Raises(current, derived));
    var withdraws: seq<Conflict> :| NoRepeats(withdraws) && Elements(withdraws) == Withdraws(current, derived)
      && again == Apply(current, Apply(current, current, Raises(current, derived), RaisedStatus), withdraws, Withdrawn);
    NoElements(withdraws);
  }

  lemma NoElements(cs: seq<Conflict>)
    ensures Elements(cs) == {} ==> cs == []
  {
    if cs != [] {
      assert cs[0] in Elements(cs);
    }
  }
}
