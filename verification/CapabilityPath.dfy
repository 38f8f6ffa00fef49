/** Rewriting request paths so that no capability reaches telemetry. */
module CapabilityPath {
  import opened Basics

  // ---------------------------------------------------------------- segments

  /** The segments of a path, as splitting at every slash yields them. */
  function Split(path: string): (segs: seq<string>)
    ensures |segs| > 0
  {
    if path == "" then [""]
    else if path[0] == '/' then [""] + Split(path[1..])
    else
      var rest := Split(path[1..]);
      [[path[0]] + rest[0]] + rest[1..]
  }

  function Join(segs: seq<string>): string
    requires |segs| > 0
  {
    if |segs| == 1 then segs[0] else segs[0] + "/" + Join(segs[1..])
  }

  predicate NoSlash(s: string) {
    '/' !in s
  }

  lemma {:induction false} SplitHasNoSlash(path: string)
    ensures forall i | 0 <= i < |Split(path)| :: NoSlash(Split(path)[i])
  {
    if path != "" {
      SplitHasNoSlash(path[1..]);
    }
  }

  lemma {:induction false} JoinSplit(path: string)
    ensures Join(Split(path)) == path
  {
    if path != "" {
      JoinSplit(path[1..]);
      var rest := Split(path[1..]);
      if path[0] == '/' {
        assert Split(path)[1..] == rest;
      } else {
        JoinPrefix([path[0]], rest);
        assert path == [path[0]] + path[1..];
      }
    }
  }

  lemma Associate(a: string, b: string, c: string)
    ensures a + b + "/" + c == a + (b + "/" + c)
  {
  }

  lemma JoinPrefix(head: string, segs: seq<string>)
    requires |segs| > 0
    ensures Join([head + segs[0]] + segs[1..]) == head + Join(segs)
  {
    var joined := [head + segs[0]] + segs[1..];
    assert joined[1..] == segs[1..];
    if |segs| > 1 {
      Associate(head, segs[0], Join(segs[1..]));
      assert Join(joined) == head + segs[0] + "/" + Join(segs[1..]);
    }
  }

  lemma {:induction false} SplitOne(s: string)
    requires NoSlash(s)
    ensures Split(s) == [s]
  {
    if s != "" {
      SplitOne(s[1..]);
      assert s == [s[0]] + s[1..];
    }
  }

  lemma {:induction false} SplitAfter(s: string, rest: string)
    requires NoSlash(s)
    ensures Split(s + "/" + rest) == [s] + Split(rest)
  {
    var all := s + "/" + rest;
    if s == "" {
      assert all[1..] == rest;
    } else {
      assert all[1..] == s[1..] + "/" + rest;
      SplitAfter(s[1..], rest);
      assert s == [s[0]] + s[1..];
      assert ([s[1..]] + Split(rest))[1..] == Split(rest);
    }
  }

  lemma {:induction false} SplitJoin(segs: seq<string>)
    requires |segs| > 0 && forall i | 0 <= i < |segs| :: NoSlash(segs[i])
    ensures Split(Join(segs)) == segs
  {
    if |segs| == 1 {
      SplitOne(segs[0]);
    } else {
      SplitJoin(segs[1..]);
      assert segs[0] + "/" + Join(segs[1..]) == segs[0] + ("/" + Join(segs[1..]));
      SplitAfter(segs[0], Join(segs[1..]));
      assert segs == [segs[0]] + segs[1..];
    }
  }

  // ---------------------------------------------------------------- dot segments

  /** A segment that names something: not empty and not a dot segment. */
  predicate Names(s: string) {
    s != "" && s != "." && s != ".."
  }

  /** Names minus parent steps in the stretch that starts after a position. */
  function Balance(segs: seq<string>, after: nat, upTo: nat): int
    requires upTo <= |segs|
    decreases upTo
  {
    if upTo <= after + 1 then 0
    else Balance(segs, after, upTo - 1) + if Names(segs[upTo - 1]) then 1 else if segs[upTo - 1] == ".." then -1 else 0
  }

  /** A name survives when no stretch that starts after it has more parent steps than names. */
  ghost predicate Survives(segs: seq<string>, i: nat, n: nat)
    requires n <= |segs|
  {
    i < n && Names(segs[i]) && forall j | i < j <= n :: Balance(segs, i, j) >= 0
  }

  /** A name some parent step popped. */
  ghost predicate Popped(segs: seq<string>, i: nat)
  {
    i < |segs| && Names(segs[i]) && !Survives(segs, i, |segs|)
  }

  /** The stack of surviving positions after a prefix of the segments. */
  function Stack(segs: seq<string>, n: nat): (s: seq<nat>)
    requires n <= |segs|
    ensures |s| <= n
  {
    if n == 0 then []
    else
      var s := Stack(segs, n - 1);
      if Names(segs[n - 1]) then s + [n - 1]
      else if segs[n - 1] == ".." && |s| > 0 then s[..|s| - 1]
      else s
  }

  /** Increasing positions of names, each with as many names above it as its balance. */
  ghost predicate Shaped(segs: seq<string>, n: nat, s: seq<nat>)
    requires n <= |segs|
  {
    && (forall p | 0 <= p < |s| :: s[p] < n && Names(segs[s[p]]))
    && (forall p, q | 0 <= p < q < |s| :: s[p] < s[q])
    && (forall p | 0 <= p < |s| :: Balance(segs, s[p], n) == |s| - 1 - p)
  }

  lemma {:induction false} StackShape(segs: seq<string>, n: nat)
    requires n <= |segs|
    ensures Shaped(segs, n, Stack(segs, n))
  {
    if n > 0 {
      StackShape(segs, n - 1);
      var s, s' := Stack(segs, n - 1), Stack(segs, n);
      forall p | 0 <= p < |s'|
        ensures Balance(segs, s'[p], n) == |s'| - 1 - p
      {
        if p < |s| {
          assert s'[p] == s[p];
        }
      }
    }
  }

  /** One more segment: what survives of the earlier names. */
  lemma SurvivesStep(segs: seq<string>, i: nat, n: nat)
    requires 0 < n <= |segs| && i < n - 1
    ensures Survives(segs, i, n) <==> Survives(segs, i, n - 1) && Balance(segs, i, n) >= 0
  {
  }

  lemma NewestSurvives(segs: seq<string>, n: nat)
    requires 0 < n <= |segs|
    ensures Survives(segs, n - 1, n) <==> Names(segs[n - 1])
  {
    assert Balance(segs, n - 1, n) == 0;
  }

  lemma {:induction false} Survivors(segs: seq<string>, n: nat, i: nat)
    requires n <= |segs|
    ensures i in Stack(segs, n) <==> Survives(segs, i, n)
  {
    hide Survives, Shaped;
    if n == 0 || i >= n {
      NoneBeyond(segs, n, i);
    } else if i == n - 1 {
      NewestSurvives(segs, n);
      NewestInStack(segs, n);
    } else {
      Survivors(segs, n - 1, i);
      SurvivesStep(segs, i, n);
      EarlierInStack(segs, n, i);
    }
  }

  lemma NoneBeyond(segs: seq<string>, n: nat, i: nat)
    requires n <= |segs| && i >= n
    ensures i !in Stack(segs, n) && !Survives(segs, i, n)
  {
    StackShape(segs, n);
  }

  lemma NewestInStack(segs: seq<string>, n: nat)
    requires 0 < n <= |segs|
    ensures n - 1 in Stack(segs, n) <==> Names(segs[n - 1])
  {
    StackShape(segs, n - 1);
    StackShape(segs, n);
  }

  lemma EarlierInStack(segs: seq<string>, n: nat, i: nat)
    requires 0 < n <= |segs| && i < n - 1
    ensures i in Stack(segs, n) <==> i in Stack(segs, n - 1) && Balance(segs, i, n) >= 0
  {
    StackShape(segs, n - 1);
    StackShape(segs, n);
    var s := Stack(segs, n - 1);
    if i in s {
      var p :| 0 <= p < |s| && s[p] == i;
      OnlyPosition(s, p, i);
    }
  }

  /** In an increasing stack a position occurs once. */
  lemma OnlyPosition(s: seq<nat>, p: nat, i: nat)
    requires (forall a, b | 0 <= a < b < |s| :: s[a] < s[b]) && p < |s| && s[p] == i
    ensures forall q | 0 <= q < |s| && s[q] == i :: q == p
    ensures |s| > 0 ==> (i in s[..|s| - 1] <==> p < |s| - 1)
  {
    if |s| > 0 && p < |s| - 1 {
      assert s[..|s| - 1][p] == i;
    }
  }

  // ---------------------------------------------------------------- routes

  datatype Segment = Literal(text: string) | OneOf(values: seq<string>) | AnySegment | Capability

  const PLACEHOLDER := ":capability"

  const LOCALES := ["en", "fr"]

  const ROUTES: seq<seq<Segment>> := [
    [Literal("api"), Literal("access"), Literal("orders"), Capability, Literal("tickets")],
    [Literal("orders"), Capability, Literal("tickets")],
    [Literal("api"), Literal("access"), Literal("orders"), Capability, Literal("tickets"), AnySegment, Literal("qr.png")],
    [Literal("orders"), Capability, Literal("tickets"), AnySegment, Literal("qr.png")],
    [OneOf(LOCALES), Literal("tickets"), Capability]
  ]

  /** Simple case folding against a lower-case ASCII literal: besides the upper-case letter,
      the long s and the Kelvin sign fold onto `s` and `k`. */
  predicate FoldsTo(c: char, l: char) {
    || c == l
    || ('a' <= l <= 'z' && c as int == l as int - 32)
    || (l == 's' && c == '\U{17F}')
    || (l == 'k' && c == '\U{212A}')
  }

  predicate EqualFold(s: string, literal: string) {
    |s| == |literal| && forall i | 0 <= i < |s| :: FoldsTo(s[i], literal[i])
  }

  /** Folding goes beyond case: a path spelt with the long s matches a declared route. */
  lemma FoldingGoesBeyondCase(capability: string)
    requires capability != ""
    ensures RouteMatches(["order\U{17F}", capability, "ticket\U{17F}"], ROUTES[1])
  {
    assert EqualFold("order\U{17F}", "orders") && EqualFold("ticket\U{17F}", "tickets");
    assert SegmentMatches("order\U{17F}", Literal("orders")) && SegmentMatches("ticket\U{17F}", Literal("tickets"));
  }

  predicate SegmentMatches(part: string, seg: Segment) {
    match seg
    case Literal(text) => EqualFold(part, text)
    case OneOf(values) => exists v | v in values :: EqualFold(part, v)
    case AnySegment => part != ""
    case Capability => part != ""
  }

  predicate RouteMatches(parts: seq<string>, route: seq<Segment>) {
    |parts| == |route| && forall p | 0 <= p < |route| :: SegmentMatches(parts[p], route[p])
  }

  /** The significant segments: what a router would see. */
  function Canonical(segs: seq<string>): (parts: seq<string>)
    ensures |parts| == |Stack(segs, |segs|)|
  {
    var s := Stack(segs, |segs|);
    StackShape(segs, |segs|);
    assert forall p | 0 <= p < |s| :: s[p] < |segs|;
    seq(|s|, p requires 0 <= p < |s| => segs[s[p]])
  }

  /** The first declared route that matches. */
  function FirstMatch(parts: seq<string>, k: nat): (r: Option<nat>)
    requires k <= |ROUTES|
    ensures r.Some? ==> k <= r.value < |ROUTES| && RouteMatches(parts, ROUTES[r.value])
                        && forall j | k <= j < r.value :: !RouteMatches(parts, ROUTES[j])
    ensures r.None? ==> forall j | k <= j < |ROUTES| :: !RouteMatches(parts, ROUTES[j])
    decreases |ROUTES| - k
  {
    if k == |ROUTES| then None
    else if RouteMatches(parts, ROUTES[k]) then Some(k)
    else FirstMatch(parts, k + 1)
  }

  /** A position that must not be emitted: a surviving capability, or anything popped. */
  ghost predicate Secret(segs: seq<string>, route: seq<Segment>, i: nat) {
    || Popped(segs, i)
    || exists p :: 0 <= p < |route| && p < |Stack(segs, |segs|)| && Stack(segs, |segs|)[p] == i && route[p].Capability?
  }

  ghost function Rewritten(segs: seq<string>, route: seq<Segment>): (out: seq<string>)
    ensures |out| == |segs|
  {
    seq(|segs|, i requires 0 <= i < |segs| => if Secret(segs, route, i) then PLACEHOLDER else segs[i])
  }

  ghost function Sanitized(path: string): string {
    var segs := Split(path);
    var m := FirstMatch(Canonical(segs), 0);
    if path == "" || path == "/" || m.None? then path else Join(Rewritten(segs, ROUTES[m.value]))
  }

  // ---------------------------------------------------------------- the algorithm

  /** What the third result of the reduction lists, over all slots. */
  ghost predicate Listed(popped: map<nat, seq<nat>>, i: nat) {
    exists slot :: slot in popped && i in popped[slot]
  }

  /** The names of a prefix that are no longer on the stack. */
  ghost function Gone(segs: seq<string>, n: nat): set<nat>
    requires n <= |segs|
  {
    set i: nat | i < n && Names(segs[i]) && i !in Stack(segs, n)
  }

  /** The segments that survive, with their positions, and everything popped. */
  method CanonicalSegments(path: string) returns (indices: seq<nat>, segments: seq<string>, popped: map<nat, seq<nat>>)
    ensures indices == Stack(Split(path), |Split(path)|) && segments == Canonical(Split(path))
    ensures forall i :: Listed(popped, i) <==> Popped(Split(path), i)
  {
    hide Survives, Listed, Gone, Stack, Popped;
    var segs := Split(path);
    indices, segments, popped := [], [], map[];
    StackStart(segs);
    for n := 0 to |segs|
      invariant indices == Stack(segs, n) && segments == Picked(segs, indices)
      invariant forall i :: Listed(popped, i) <==> i in Gone(segs, n)
    {
      StackStep(segs, n);
      var seg := segs[n];
      if Names(seg) {
        indices, segments := indices + [n], segments + [seg];
      } else if seg == ".." && |segments| > 0 {
        var slot := |segments| - 1;
        ghost var before := popped;
        popped := popped[slot := (if slot in popped then popped[slot] else []) + [indices[slot]]];
        PopAdds(before, slot, indices[slot], popped, Gone(segs, n));
        indices, segments := indices[..slot], segments[..slot];
      }
    }
    GoneIsPopped(segs);
    PickedIsCanonical(segs);
  }

  function Picked(segs: seq<string>, indices: seq<nat>): (parts: seq<string>)
    ensures |parts| == |indices|
  {
    seq(|indices|, p requires 0 <= p < |indices| => if indices[p] < |segs| then segs[indices[p]] else "")
  }

  lemma PickedIsCanonical(segs: seq<string>)
    ensures Picked(segs, Stack(segs, |segs|)) == Canonical(segs)
  {
    StackShape(segs, |segs|);
  }

  lemma StackStart(segs: seq<string>)
    ensures Stack(segs, 0) == [] && Gone(segs, 0) == {} && forall i :: !Listed(map[], i)
  {
  }

  lemma PushLeavesGone(segs: seq<string>, n: nat)
    requires n < |segs| && Stack(segs, n + 1) == Stack(segs, n) + [n]
    ensures Gone(segs, n + 1) == Gone(segs, n)
  {
    hide Names, Stack;
    forall i: nat
      ensures i in Gone(segs, n + 1) <==> i in Gone(segs, n)
    {
      assert i in Stack(segs, n + 1) <==> i in Stack(segs, n) || i == n;
    }
  }

  lemma WithoutTop(s: seq<nat>)
    requires |s| > 0 && forall p, q | 0 <= p < q < |s| :: s[p] < s[q]
    ensures forall i: nat :: i in s[..|s| - 1] <==> i in s && i != s[|s| - 1]
    ensures s[|s| - 1] in s
  {
    var top := s[|s| - 1];
    forall i: nat
      ensures i in s[..|s| - 1] <==> i in s && i != top
    {
      if i in s && i != top {
        var p :| 0 <= p < |s| && s[p] == i;
        assert s[..|s| - 1][p] == i;
      }
    }
  }

  lemma PopAddsToGone(segs: seq<string>, n: nat, top: nat)
    requires n < |segs| && !Names(segs[n]) && top < n && Names(segs[top])
    requires forall i: nat :: i in Stack(segs, n + 1) <==> i in Stack(segs, n) && i != top
    requires top in Stack(segs, n)
    ensures Gone(segs, n + 1) == Gone(segs, n) + {top}
  {
    hide Names, Stack;
  }

  lemma SameStackSameGone(segs: seq<string>, n: nat)
    requires n < |segs| && !Names(segs[n]) && Stack(segs, n + 1) == Stack(segs, n)
    ensures Gone(segs, n + 1) == Gone(segs, n)
  {
    hide Names, Stack;
  }

  /** One segment: a name is pushed, a parent step pops, anything else is dropped. */
  lemma StackStep(segs: seq<string>, n: nat)
    requires n < |segs|
    ensures var s := Stack(segs, n);
            && (Names(segs[n]) ==> Stack(segs, n + 1) == s + [n] && Gone(segs, n + 1) == Gone(segs, n))
            && (segs[n] == ".." && |s| > 0 ==>
                  Stack(segs, n + 1) == s[..|s| - 1] && Gone(segs, n + 1) == Gone(segs, n) + {s[|s| - 1]})
            && (!Names(segs[n]) && !(segs[n] == ".." && |s| > 0) ==> Stack(segs, n + 1) == s && Gone(segs, n + 1) == Gone(segs, n))
  {
    hide Shaped, Gone;
    var s := Stack(segs, n);
    IncreasingStack(segs, n);
    if Names(segs[n]) {
      PushLeavesGone(segs, n);
    } else if segs[n] == ".." && |s| > 0 {
      WithoutTop(s);
      PopAddsToGone(segs, n, s[|s| - 1]);
    } else {
      SameStackSameGone(segs, n);
    }
  }

  lemma IncreasingStack(segs: seq<string>, n: nat)
    requires n <= |segs|
    ensures forall p, q | 0 <= p < q < |Stack(segs, n)| :: Stack(segs, n)[p] < Stack(segs, n)[q]
    ensures forall i | i in Stack(segs, n) :: i < n && Names(segs[i])
  {
    StackShape(segs, n);
  }

  lemma GoneIsPopped(segs: seq<string>)
    ensures forall i :: i in Gone(segs, |segs|) <==> Popped(segs, i)
  {
    hide Survives;
    forall i
      ensures i in Gone(segs, |segs|) <==> Popped(segs, i)
    {
      Survivors(segs, |segs|, i);
    }
  }

  lemma PopAdds(before: map<nat, seq<nat>>, slot: nat, i: nat, after: map<nat, seq<nat>>, gone: set<nat>)
    requires after == before[slot := (if slot in before then before[slot] else []) + [i]]
    requires forall k :: Listed(before, k) <==> k in gone
    ensures forall k :: Listed(after, k) <==> k in gone + {i}
  {
    forall k
      ensures Listed(after, k) <==> k in gone + {i}
    {
      if Listed(before, k) {
        var s :| s in before && k in before[s];
        assert s in after && k in after[s];
      }
      if k == i {
        assert slot in after && k in after[slot];
      }
      if Listed(after, k) {
        var s :| s in after && k in after[s];
        if s != slot || (slot in before && k in before[slot]) {
          assert s in before && k in before[s];
        }
      }
    }
  }

  method Matches(parts: seq<string>, route: seq<Segment>) returns (ok: bool)
    requires |parts| == |route|
    ensures ok <==> RouteMatches(parts, route)
  {
    hide EqualFold;
    for p := 0 to |route|
      invariant forall q | 0 <= q < p :: SegmentMatches(parts[q], route[q])
    {
      match route[p] {
        case Literal(text) =>
          if !EqualFold(parts[p], text) {
            return false;
          }
        case OneOf(values) =>
          var found := false;
          for v := 0 to |values|
            invariant found <==> exists w | 0 <= w < v :: EqualFold(parts[p], values[w])
          {
            if EqualFold(parts[p], values[v]) {
              found := true;
            }
          }
          if !found {
            assert forall v | v in values :: !EqualFold(parts[p], v);
            return false;
          }
        case _ =>
          if parts[p] == "" {
            return false;
          }
      }
    }
    ok := true;
  }

  method SanitizedPath(path: string) returns (out: string)
    ensures out == Sanitized(path)
  {
    hide Stack, Secret, RouteMatches, FoldsTo;
    if path == "" || path == "/" {
      return path;
    }
    var segs := Split(path);
    var indices, canonical, popped := CanonicalSegments(path);
    for k := 0 to |ROUTES|
      invariant FirstMatch(canonical, 0) == FirstMatch(canonical, k)
    {
      var matched := false;
      if |canonical| == |ROUTES[k]| {
        matched := Matches(canonical, ROUTES[k]);
      } else {
        WrongLength(canonical, ROUTES[k]);
      }
      if matched {
        var rewritten := Rewrite(segs, ROUTES[k], indices, popped);
        return Join(rewritten);
      }
    }
    out := path;
  }

  lemma WrongLength(parts: seq<string>, route: seq<Segment>)
    requires |parts| != |route|
    ensures !RouteMatches(parts, route)
  {
  }

  /** Overwrites the surviving capabilities, then everything popped. */
  method Rewrite(segs: seq<string>, route: seq<Segment>, indices: seq<nat>, popped: map<nat, seq<nat>>) returns (out: seq<string>)
    requires indices == Stack(segs, |segs|) && |indices| == |route|
    requires forall i :: Listed(popped, i) <==> Popped(segs, i)
    ensures out == Rewritten(segs, route)
  {
    hide Survives, Stack;
    StackShape(segs, |segs|);
    out := segs;
    for p := 0 to |route|
      invariant |out| == |segs|
      invariant forall i | 0 <= i < |segs| ::
        out[i] == if (exists q :: 0 <= q < p && indices[q] == i && route[q].Capability?) then PLACEHOLDER else segs[i]
    {
      if route[p].Capability? {
        out := out[indices[p] := PLACEHOLDER];
      }
    }
    out := RedactPopped(segs, route, indices, popped, out);
  }

  method RedactPopped(segs: seq<string>, route: seq<Segment>, indices: seq<nat>, popped: map<nat, seq<nat>>, start: seq<string>)
    returns (out: seq<string>)
    requires indices == Stack(segs, |segs|) && |indices| == |route| && |start| == |segs|
    requires forall i :: Listed(popped, i) <==> Popped(segs, i)
    requires forall i | 0 <= i < |segs| ::
      start[i] == if (exists q :: 0 <= q < |route| && indices[q] == i && route[q].Capability?) then PLACEHOLDER else segs[i]
    ensures out == Rewritten(segs, route)
  {
    hide Survives, Stack;
    out := start;
    var unread := popped.Keys;
    while unread != {}
      invariant unread <= popped.Keys && |out| == |segs|
      invariant forall i | 0 <= i < |segs| ::
        out[i] == if (exists slot :: slot in popped && slot !in unread && i in popped[slot]) then PLACEHOLDER else start[i]
    {
      var slot :| slot in unread;
      ghost var before := out;
      for m := 0 to |popped[slot]|
        invariant |out| == |segs|
        invariant forall i | 0 <= i < |segs| :: out[i] == if i in popped[slot][..m] then PLACEHOLDER else before[i]
      {
        assert popped[slot][m] in popped[slot];
        assert Listed(popped, popped[slot][m]) && Popped(segs, popped[slot][m]);
        out := out[popped[slot][m] := PLACEHOLDER];
        assert popped[slot][..m + 1] == popped[slot][..m] + [popped[slot][m]];
      }
      assert popped[slot][..|popped[slot]|] == popped[slot];
      unread := unread - {slot};
    }
    assert forall i | 0 <= i < |segs| :: out[i] == Rewritten(segs, route)[i];
  }

  // ---------------------------------------------------------------- what is emitted

  lemma RewrittenHasNoSlash(path: string, route: seq<Segment>)
    ensures forall i | 0 <= i < |Rewritten(Split(path), route)| :: NoSlash(Rewritten(Split(path), route)[i])
  {
    hide Secret;
    SplitHasNoSlash(path);
  }

  /** The rewriting is exact: the slashes stay where they are; empty and dot segments and
      surviving segments that are not capabilities are kept verbatim; every surviving
      capability and everything a parent step popped becomes the placeholder.  A path that
      matches no declared route is returned unchanged. */
  lemma RewritingIsExact(path: string)
    ensures var segs, out := Split(path), Split(Sanitized(path));
            match FirstMatch(Canonical(segs), 0)
            case None => Sanitized(path) == path
            case Some(k) =>
              |out| == |segs| && forall i | 0 <= i < |segs| ::
                && (!Names(segs[i]) ==> out[i] == segs[i])
                && (Popped(segs, i) ==> out[i] == PLACEHOLDER)
                && (forall p | 0 <= p < |ROUTES[k]| && Stack(segs, |segs|)[p] == i ::
                      out[i] == if ROUTES[k][p].Capability? then PLACEHOLDER else segs[i])
  {
    hide Popped, RouteMatches;
    var segs := Split(path);
    var m := FirstMatch(Canonical(segs), 0);
    if m.Some? {
      MatchHasLength(Canonical(segs), m.value);
      NoRouteForRoot(path);
      RewrittenHasNoSlash(path, ROUTES[m.value]);
      SplitJoin(Rewritten(segs, ROUTES[m.value]));
      forall i | 0 <= i < |segs|
        ensures !Names(segs[i]) ==> !Secret(segs, ROUTES[m.value], i)
        ensures forall p | 0 <= p < |ROUTES[m.value]| && Stack(segs, |segs|)[p] == i ::
                  Secret(segs, ROUTES[m.value], i) <==> ROUTES[m.value][p].Capability?
      {
        SecretIs(segs, ROUTES[m.value], i);
      }
    }
  }

  lemma MatchHasLength(parts: seq<string>, k: nat)
    requires k < |ROUTES| && RouteMatches(parts, ROUTES[k])
    ensures |parts| == |ROUTES[k]|
  {
  }

  /** The early return of the empty path and the root path agrees with the routes. */
  lemma NoRouteForRoot(path: string)
    requires FirstMatch(Canonical(Split(path)), 0).Some?
    ensures path != "" && path != "/"
  {
    hide SegmentMatches;
    var k := FirstMatch(Canonical(Split(path)), 0).value;
    assert |ROUTES[k]| >= 3;
    StackIsSmall(Split(path), |Split(path)|);
    assert Split("") == [""];
    assert Split("/") == ["", ""] by { assert "/"[1..] == ""; }
  }

  lemma StackIsSmall(segs: seq<string>, n: nat)
    requires n <= |segs|
    ensures |Stack(segs, n)| <= n
  {
  }

  lemma SecretIs(segs: seq<string>, route: seq<Segment>, i: nat)
    requires i < |segs| && |route| == |Stack(segs, |segs|)|
    ensures !Names(segs[i]) ==> !Secret(segs, route, i)
    ensures forall p | 0 <= p < |route| && Stack(segs, |segs|)[p] == i :: Secret(segs, route, i) <==> route[p].Capability?
  {
    hide Survives, Stack;
    IncreasingStack(segs, |segs|);
    Survivors(segs, |segs|, i);
    var s := Stack(segs, |segs|);
    forall p | 0 <= p < |route| && s[p] == i
      ensures Secret(segs, route, i) <==> route[p].Capability?
    {
      OnlyPosition(s, p, i);
      assert s[p] in s;
    }
    if !Names(segs[i]) {
      assert i !in s;
    }
  }

  // ---------------------------------------------------------------- idempotence

  /** Two segmentations with names and parent steps in the same places. */
  ghost predicate SameShape(a: seq<string>, b: seq<string>) {
    |a| == |b| && forall i | 0 <= i < |a| :: (Names(a[i]) <==> Names(b[i])) && (a[i] == ".." <==> b[i] == "..")
  }

  lemma {:induction false} SameShapeSameStack(a: seq<string>, b: seq<string>, n: nat)
    requires SameShape(a, b) && n <= |a|
    ensures Stack(a, n) == Stack(b, n)
  {
    if n > 0 {
      SameShapeSameStack(a, b, n - 1);
    }
  }

  lemma RewritingKeepsShape(segs: seq<string>, route: seq<Segment>)
    requires |route| == |Stack(segs, |segs|)|
    ensures SameShape(segs, Rewritten(segs, route))
  {
    hide Secret, Stack;
    forall i | 0 <= i < |segs|
      ensures Secret(segs, route, i) ==> Names(segs[i])
    {
      SecretIs(segs, route, i);
    }
  }

  lemma PlaceholderFoldsToNoWord(literal: string)
    requires |literal| > 0 && 'a' <= literal[0] <= 'z'
    ensures !EqualFold(PLACEHOLDER, literal)
  {
    assert !FoldsTo(PLACEHOLDER[0], literal[0]);
  }

  /** No declared literal folds onto the placeholder. */
  lemma PlaceholderIsNoLiteral(k: nat, p: nat)
    requires k < |ROUTES| && p < |ROUTES[k]|
    ensures SegmentMatches(PLACEHOLDER, ROUTES[k][p]) ==> ROUTES[k][p].AnySegment? || ROUTES[k][p].Capability?
  {
    LiteralsStartWithLetters(k, p);
    match ROUTES[k][p] {
      case Literal(text) => PlaceholderFoldsToNoWord(text);
      case OneOf(values) =>
        forall v | v in values
          ensures !EqualFold(PLACEHOLDER, v)
        {
          PlaceholderFoldsToNoWord(v);
        }
      case _ =>
    }
  }

  lemma LiteralsStartWithLetters(k: nat, p: nat)
    requires k < |ROUTES| && p < |ROUTES[k]|
    ensures match ROUTES[k][p]
            case Literal(text) => |text| > 0 && 'a' <= text[0] <= 'z'
            case OneOf(values) => forall v | v in values :: |v| > 0 && 'a' <= v[0] <= 'z'
            case _ => true
  {
  }

  /** Redacting positions that hold a name changes the answer of no route it redacts for. */
  lemma SameRoutes(parts: seq<string>, parts': seq<string>, m: nat, k: nat)
    requires m < |ROUTES| && k < |ROUTES| && |parts| == |parts'| == |ROUTES[m]|
    requires forall p | 0 <= p < |parts| :: parts[p] != ""
    requires forall p | 0 <= p < |parts| :: parts'[p] == if ROUTES[m][p].Capability? then PLACEHOLDER else parts[p]
    ensures RouteMatches(parts', ROUTES[k]) ==> RouteMatches(parts, ROUTES[k])
    ensures RouteMatches(parts, ROUTES[m]) ==> RouteMatches(parts', ROUTES[m])
  {
    hide EqualFold, FoldsTo;
    if RouteMatches(parts', ROUTES[k]) {
      forall p | 0 <= p < |parts|
        ensures SegmentMatches(parts[p], ROUTES[k][p])
      {
        assert SegmentMatches(parts'[p], ROUTES[k][p]);
        if ROUTES[m][p].Capability? {
          PlaceholderIsNoLiteral(k, p);
        }
      }
    }
    if RouteMatches(parts, ROUTES[m]) {
      forall p | 0 <= p < |parts|
        ensures SegmentMatches(parts'[p], ROUTES[m][p])
      {
        assert SegmentMatches(parts[p], ROUTES[m][p]);
      }
    }
  }

  lemma CanonicalOfRewritten(segs: seq<string>, m: nat)
    requires m < |ROUTES| && |ROUTES[m]| == |Stack(segs, |segs|)|
    ensures var parts, parts' := Canonical(segs), Canonical(Rewritten(segs, ROUTES[m]));
            && |parts| == |parts'| == |ROUTES[m]|
            && (forall p | 0 <= p < |parts| :: parts[p] != "")
            && forall p | 0 <= p < |parts| :: parts'[p] == if ROUTES[m][p].Capability? then PLACEHOLDER else parts[p]
  {
    hide Secret, Stack;
    var s := Stack(segs, |segs|);
    IncreasingStack(segs, |segs|);
    RewritingKeepsShape(segs, ROUTES[m]);
    SameShapeSameStack(segs, Rewritten(segs, ROUTES[m]), |segs|);
    assert forall p | 0 <= p < |s| :: s[p] in s && s[p] < |segs|;
    forall p | 0 <= p < |s|
      ensures Names(segs[s[p]]) && (Secret(segs, ROUTES[m], s[p]) <==> ROUTES[m][p].Capability?)
    {
      assert s[p] in s;
      SecretIs(segs, ROUTES[m], s[p]);
    }
  }

  lemma SameFirstMatch(segs: seq<string>, m: nat)
    requires FirstMatch(Canonical(segs), 0) == Some(m)
    ensures FirstMatch(Canonical(Rewritten(segs, ROUTES[m])), 0) == Some(m)
  {
    hide Stack, Canonical, RouteMatches, Rewritten;
    MatchHasLength(Canonical(segs), m);
    CanonicalOfRewritten(segs, m);
    forall k: nat | k < |ROUTES|
      ensures RouteMatches(Canonical(Rewritten(segs, ROUTES[m])), ROUTES[k]) ==> RouteMatches(Canonical(segs), ROUTES[k])
      ensures k == m ==> RouteMatches(Canonical(Rewritten(segs, ROUTES[m])), ROUTES[k])
    {
      SameRoutes(Canonical(segs), Canonical(Rewritten(segs, ROUTES[m])), m, k);
    }
  }

  lemma SameSecrets(a: seq<string>, b: seq<string>, route: seq<Segment>, i: nat)
    requires SameShape(a, b) && i < |a|
    ensures Secret(a, route, i) <==> Secret(b, route, i)
  {
    hide Survives, Stack;
    SameShapeSameStack(a, b, |a|);
    Survivors(a, |a|, i);
    Survivors(b, |b|, i);
  }

  /** Rewriting twice changes nothing more. */
  lemma RewritingIsIdempotent(path: string)
    ensures Sanitized(Sanitized(path)) == Sanitized(path)
  {
    hide Stack, Secret, FirstMatch;
    var segs := Split(path);
    var m := FirstMatch(Canonical(segs), 0);
    if m.Some? && path != "" && path != "/" {
      var out := Rewritten(segs, ROUTES[m.value]);
      MatchHasLength(Canonical(segs), m.value);
      RewrittenHasNoSlash(path, ROUTES[m.value]);
      SplitJoin(out);
      SameFirstMatch(segs, m.value);
      RewritingKeepsShape(segs, ROUTES[m.value]);
      forall i | 0 <= i < |segs|
        ensures Secret(segs, ROUTES[m.value], i) <==> Secret(out, ROUTES[m.value], i)
      {
        SameSecrets(segs, out, ROUTES[m.value], i);
      }
      assert Rewritten(out, ROUTES[m.value]) == out;
    }
  }
}
