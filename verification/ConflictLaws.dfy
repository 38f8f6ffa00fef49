/** What the pass policy answers, in terms of the facts and their order in time alone. */
module ConflictLaws {
  import opened Basics
  import opened Conflicts

  /** By claimed time, then place in the chain, then occurrence id. */
  predicate Precedes(a: Fact, b: Fact) {
    if a.at != b.at then a.at < b.at
    else if a.sequence != b.sequence then a.sequence < b.sequence
    else a.occurrence < b.occurrence
  }

  /** `s` lists the facts in time order. */
  ghost predicate Lists(facts: seq<Fact>, s: seq<Fact>) {
    (forall f :: f in facts <==> f in s) && forall i, j | 0 <= i < j < |s| :: Precedes(s[i], s[j])
  }

  lemma ListsIsOrder(facts: seq<Fact>, s: seq<Fact>)
    requires DistinctKeys(facts) && Lists(facts, s)
    ensures OrderFacts(facts) == s
  {
    OrderFactsStrictly(facts);
    OrderIsUnique(OrderFacts(facts), s);
  }

  lemma OrderLists(facts: seq<Fact>)
    requires DistinctKeys(facts)
    ensures Lists(facts, OrderFacts(facts))
  {
    OrderFactsStrictly(facts);
  }

  // ---------------------------------------------------------------- the live answer

  lemma {:induction false} LiveAppends(st: State, a: seq<Fact>, f: Fact)
    ensures LiveState(st, a + [f]) == LiveNext(LiveState(st, a), f)
    decreases |a|
  {
    if a == [] {
      assert a + [f] == [f] && [f][1..] == [];
    } else {
      assert (a + [f])[1..] == a[1..] + [f];
      LiveAppends(LiveNext(st, a[0]), a[1..], f);
    }
  }

  lemma {:induction false} LiveStateIs(s: seq<Fact>, k: nat)
    requires k <= |s|
    ensures LiveState(START, s[..k]).entries == |set i | 0 <= i < k && s[i].kind != Exit|
    ensures LiveState(START, s[..k]).inside == (k > 0 && s[k - 1].kind != Exit)
  {
    if k > 0 {
      LiveStateIs(s, k - 1);
      assert s[..k] == s[..k - 1] + [s[k - 1]];
      LiveAppends(START, s[..k - 1], s[k - 1]);
      var before, now := set i | 0 <= i < k - 1 && s[i].kind != Exit, set i | 0 <= i < k && s[i].kind != Exit;
      assert now == before + if s[k - 1].kind != Exit then {k - 1} else {};
    }
  }

  /** The exit rule: for distinct facts, an exit is accepted if and only if there are facts and
      the one that no other fact follows is not an exit. */
  lemma ExitIsAcceptedIff(policy: Policy, facts: seq<Fact>)
    requires DistinctKeys(facts)
    ensures Evaluate(policy, facts, false) == Accepted <==>
            exists f | f in facts :: f.kind != Exit && forall g | g in facts :: g == f || Precedes(g, f)
    ensures Evaluate(policy, facts, false) == Accepted || Evaluate(policy, facts, false) == NotInside
  {
    var s := OrderFacts(facts);
    OrderLists(facts);
    LiveStateIs(s, |s|);
    assert s[..|s|] == s;
    if s != [] {
      var last := s[|s| - 1];
      assert last in facts;
      forall g | g in facts
        ensures g == last || Precedes(g, last)
      {
        assert g in s;
      }
      forall f | f in facts && forall g | g in facts :: g == f || Precedes(g, f)
        ensures f == last
      {
      }
    } else {
      assert forall f :: f in facts ==> f in s;
    }
  }

  /** The entry rule: an entry is denied by the limit if as many facts as it allows are not
      exits, else by the exit rule if the latest fact is not an exit, and else accepted. */
  lemma EntryIsAnswered(policy: Policy, facts: seq<Fact>, s: seq<Fact>)
    requires DistinctKeys(facts) && Lists(facts, s)
    ensures Evaluate(policy, facts, true) ==
            var entries := |set i | 0 <= i < |s| && s[i].kind != Exit|;
            var inside := s != [] && s[|s| - 1].kind != Exit;
            match policy
            case Single => Accepted
            case Multi(requiresExit) => if requiresExit && inside then Denied(ExitRequired) else Accepted
            case CountLimited(limit, requiresExit) =>
              if limit.Some? && entries >= limit.value then Denied(EntryLimitReached)
              else if requiresExit && inside then Denied(ExitRequired) else Accepted
  {
    ListsIsOrder(facts, s);
    LiveStateIs(s, |s|);
    assert s[..|s|] == s;
  }

  /** In both directions the live answer depends only on the set of facts. */
  lemma LiveIgnoresOrder(policy: Policy, a: seq<Fact>, b: seq<Fact>, entering: bool)
    requires DistinctKeys(a) && DistinctKeys(b) && SameFacts(a, b)
    ensures Evaluate(policy, a, entering) == Evaluate(policy, b, entering)
  {
    OrderLists(b);
    ListsIsOrder(a, OrderFacts(b));
  }

  // ---------------------------------------------------------------- the derivation

  /** An entry, or an admission of unknown direction. */
  predicate Enters(f: Fact) {
    f.kind == Entry || (f.kind == Other && f.undirected)
  }

  /** Somebody was inside just before the k-th fact: the latest entry or exit was an entry. */
  ghost predicate InsideBefore(s: seq<Fact>, k: nat)
    requires k <= |s|
  {
    exists i | 0 <= i < k :: Enters(s[i]) && forall j | i < j < k :: s[j].kind != Exit
  }

  lemma {:induction false} StateIs(s: seq<Fact>, k: nat)
    requires k <= |s|
    ensures StateAfter(START, s[..k]).entries == |set i | 0 <= i < k && Enters(s[i])|
    ensures StateAfter(START, s[..k]).inside <==> InsideBefore(s, k)
  {
    if k > 0 {
      StateIs(s, k - 1);
      assert s[..k] == s[..k - 1] + [s[k - 1]];
      WalkAppends(Single, START, s[..k - 1], [s[k - 1]]);
      assert StateAfter(StateAfter(START, s[..k - 1]), [s[k - 1]]) == Next(StateAfter(START, s[..k - 1]), s[k - 1]) by {
        assert [s[k - 1]][1..] == [];
      }
      var before, now := set i | 0 <= i < k - 1 && Enters(s[i]), set i | 0 <= i < k && Enters(s[i]);
      assert now == before + if Enters(s[k - 1]) then {k - 1} else {};
      InsideStep(s, k);
    }
  }

  lemma InsideStep(s: seq<Fact>, k: nat)
    requires 0 < k <= |s|
    ensures InsideBefore(s, k) <==> Enters(s[k - 1]) || (s[k - 1].kind != Exit && InsideBefore(s, k - 1))
  {
    if !Enters(s[k - 1]) && s[k - 1].kind != Exit && InsideBefore(s, k - 1) {
      var i :| 0 <= i < k - 1 && Enters(s[i]) && forall j | i < j < k - 1 :: s[j].kind != Exit;
      assert forall j | i < j < k :: s[j].kind != Exit;
    }
  }

  /** The rule the k-th fact breaks, if any. */
  ghost function Broken(policy: Policy, s: seq<Fact>, k: nat): Option<Rule>
    requires k < |s|
  {
    if !Enters(s[k]) || policy.Single? then None
    else if policy.CountLimited? && policy.maxEntries.Some? && |set i | 0 <= i <= k && Enters(s[i])| > policy.maxEntries.value
    then Some(EntryLimitReached)
    else if policy.requiresExit && !(s[k].undirected) && InsideBefore(s, k) then Some(ExitRequired)
    else None
  }

  lemma {:induction false} WalkIsBroken(policy: Policy, s: seq<Fact>, k: nat, c: Conflict)
    requires k <= |s| && !policy.Single?
    ensures c in Walk(policy, START, s[..k]) <==>
            exists i | 0 <= i < k :: c.occurrence == s[i].occurrence && Broken(policy, s, i) == Some(c.rule)
  {
    hide Broken, StateAfter;
    if k > 0 {
      WalkIsBroken(policy, s, k - 1, c);
      assert s[..k] == s[..k - 1] + [s[k - 1]];
      WalkAppends(policy, START, s[..k - 1], [s[k - 1]]);
      RaisedIsBroken(policy, s, k - 1, c);
    }
  }

  lemma RaisedIsBroken(policy: Policy, s: seq<Fact>, k: nat, c: Conflict)
    requires k < |s| && !policy.Single?
    ensures c in Walk(policy, StateAfter(START, s[..k]), [s[k]]) <==>
            c.occurrence == s[k].occurrence && Broken(policy, s, k) == Some(c.rule)
  {
    var st := StateAfter(START, s[..k]);
    assert Walk(policy, st, [s[k]]) == Raised(policy, st, s[k]) by { assert [s[k]][1..] == []; }
    hide StateAfter, InsideBefore;
    StateIs(s, k);
    OneMore(s, k);
  }

  lemma OneMore(s: seq<Fact>, k: nat)
    requires k < |s|
    ensures Enters(s[k]) ==> |set i | 0 <= i <= k && Enters(s[i])| == |set i | 0 <= i < k && Enters(s[i])| + 1
  {
    var before, now := set i | 0 <= i < k && Enters(s[i]), set i | 0 <= i <= k && Enters(s[i]);
    if Enters(s[k]) {
      assert now == before + {k};
    }
  }

  /** The derivation is exact: an occurrence has a conflict if and only if, with the facts in
      time order, it enters beyond the limit, or enters with a direction while somebody is
      inside and the policy asks for an exit first. */
  lemma DerivedIff(policy: Policy, facts: seq<Fact>, s: seq<Fact>, c: Conflict)
    requires DistinctKeys(facts) && Lists(facts, s)
    ensures c in Derive(policy, facts) <==>
            exists k | 0 <= k < |s| :: c.occurrence == s[k].occurrence && Broken(policy, s, k) == Some(c.rule)
  {
    ListsIsOrder(facts, s);
    if !policy.Single? {
      WalkIsBroken(policy, s, |s|, c);
      assert s[..|s|] == s;
    }
  }
}
