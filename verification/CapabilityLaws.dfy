/** The declared paths, spelt out: what each shows in place of its capability. */
module CapabilityLaws {
  import opened Basics
  import opened CapabilityPath

  /** A path of plain names. */
  function PathOf(parts: seq<string>): string {
    Join([""] + parts)
  }

  predicate Plain(parts: seq<string>) {
    parts != [] && forall i | 0 <= i < |parts| :: Names(parts[i]) && NoSlash(parts[i])
  }

  lemma {:induction false} PlainStack(parts: seq<string>, n: nat)
    requires Plain(parts) && n <= |parts|
    ensures Stack([""] + parts, n + 1) == seq(n, i => i + 1)
  {
    var segs := [""] + parts;
    if n == 0 {
      assert Stack(segs, 0) == [];
    } else {
      PlainStack(parts, n - 1);
      assert segs[n] == parts[n - 1];
    }
  }

  lemma PlainCanonical(parts: seq<string>)
    requires Plain(parts)
    ensures Split(PathOf(parts)) == [""] + parts && Canonical([""] + parts) == parts
    ensures forall i: nat :: !Popped([""] + parts, i)
  {
    hide Popped, Stack;
    var segs := [""] + parts;
    SplitJoin(segs);
    PlainStack(parts, |parts|);
    forall i: nat ensures !Popped(segs, i) {
      Survivors(segs, |segs|, i);
      assert 0 < i < |segs| ==> Stack(segs, |segs|)[i - 1] == i;
      PlainNeverPopped(segs, i);
    }
  }

  lemma PlainNeverPopped(segs: seq<string>, i: nat)
    requires i < |segs| && Names(segs[i]) ==> Survives(segs, i, |segs|)
    ensures !Popped(segs, i)
  {
  }

  /** Of a plain path, a capability of the first route that matches becomes the placeholder, and
      every other segment is shown. */
  lemma PlainPath(parts: seq<string>, k: nat)
    requires Plain(parts) && FirstMatch(parts, 0) == Some(k)
    ensures Sanitized(PathOf(parts))
            == PathOf(seq(|parts|, i requires 0 <= i < |parts| =>
                 if ROUTES[k][i].Capability? then PLACEHOLDER else parts[i]))
  {
    hide Popped, RouteMatches, Stack, Survives;
    var segs := [""] + parts;
    PlainCanonical(parts);
    PlainStack(parts, |parts|);
    MatchHasLength(parts, k);
    NoRouteForRoot(PathOf(parts));
    forall i | 0 <= i < |segs|
      ensures Secret(segs, ROUTES[k], i) <==> i > 0 && ROUTES[k][i - 1].Capability?
    {
      if i > 0 {
        assert Stack(segs, |segs|)[i - 1] == i;
      }
    }
    assert Rewritten(segs, ROUTES[k])
           == [""] + seq(|parts|, i requires 0 <= i < |parts| => if ROUTES[k][i].Capability? then PLACEHOLDER else parts[i]);
  }

  lemma {:induction false} FirstIs(parts: seq<string>, k: nat, j: nat)
    requires j <= k < |ROUTES| && RouteMatches(parts, ROUTES[k]) && forall m | j <= m < k :: !RouteMatches(parts, ROUTES[m])
    ensures FirstMatch(parts, j) == Some(k)
    decreases k - j
  {
    hide RouteMatches;
    if j < k {
      FirstIs(parts, k, j + 1);
    }
  }

  lemma PathShows(parts: seq<string>, k: nat, shown: seq<string>)
    requires Plain(parts) && k < |ROUTES| && RouteMatches(parts, ROUTES[k]) && forall m | 0 <= m < k :: !RouteMatches(parts, ROUTES[m])
    requires |shown| == |parts| && forall i | 0 <= i < |parts| :: shown[i] == if ROUTES[k][i].Capability? then PLACEHOLDER else parts[i]
    ensures Sanitized(PathOf(parts)) == PathOf(shown)
  {
    hide RouteMatches, Sanitized, PathOf;
    FirstIs(parts, k, 0);
    PlainPath(parts, k);
    MatchHasLength(parts, k);
    assert shown == seq(|parts|, i requires 0 <= i < |parts| => if ROUTES[k][i].Capability? then PLACEHOLDER else parts[i]);
  }

  lemma SpeltOut(s: string)
    ensures EqualFold(s, s)
  {
  }

  lemma Words()
    ensures Names("api") && Names("access") && Names("orders") && Names("tickets") && Names("qr.png") && Names("en") && Names("fr")
    ensures NoSlash("api") && NoSlash("access") && NoSlash("orders") && NoSlash("tickets") && NoSlash("qr.png") && NoSlash("en") && NoSlash("fr")
    ensures EqualFold("api", "api") && EqualFold("access", "access") && EqualFold("orders", "orders")
    ensures EqualFold("tickets", "tickets") && EqualFold("qr.png", "qr.png")
    ensures !EqualFold("orders", "api") && !EqualFold("en", "orders") && !EqualFold("fr", "orders")
  {
  }

  /** The tickets of an order, behind its capability. */
  lemma OrderPage(capability: string)
    requires Names(capability) && NoSlash(capability)
    ensures Sanitized(PathOf(["orders", capability, "tickets"])) == PathOf(["orders", ":capability", "tickets"])
  {
    hide Sanitized, PathOf, EqualFold, Names, NoSlash;
    Words();
    NamesAreNotEmpty(capability);
    PathShows(["orders", capability, "tickets"], 1, ["orders", ":capability", "tickets"]);
  }

  lemma NamesAreNotEmpty(s: string)
    requires Names(s)
    ensures s != ""
  {
  }

  lemma OrderCall(capability: string)
    requires Names(capability) && NoSlash(capability)
    ensures Sanitized(PathOf(["api", "access", "orders", capability, "tickets"]))
            == PathOf(["api", "access", "orders", ":capability", "tickets"])
  {
    hide Sanitized, PathOf, EqualFold, Names, NoSlash;
    Words();
    NamesAreNotEmpty(capability);
    PathShows(["api", "access", "orders", capability, "tickets"], 0, ["api", "access", "orders", ":capability", "tickets"]);
  }

  /** The code of one ticket, behind its order's capability; which ticket it is stays. */
  lemma TicketCode(capability: string, ticket: string)
    requires Names(capability) && NoSlash(capability) && Names(ticket) && NoSlash(ticket)
    ensures Sanitized(PathOf(["orders", capability, "tickets", ticket, "qr.png"]))
            == PathOf(["orders", ":capability", "tickets", ticket, "qr.png"])
  {
    hide Sanitized, PathOf, EqualFold, Names, NoSlash;
    Words();
    NamesAreNotEmpty(capability);
    NamesAreNotEmpty(ticket);
    var page := ["orders", capability, "tickets", ticket, "qr.png"];
    assert !SegmentMatches(page[0], ROUTES[0][0]);
    PathShows(page, 3, ["orders", ":capability", "tickets", ticket, "qr.png"]);
  }

  lemma TicketCodeCall(capability: string, ticket: string)
    requires Names(capability) && NoSlash(capability) && Names(ticket) && NoSlash(ticket)
    ensures Sanitized(PathOf(["api", "access", "orders", capability, "tickets", ticket, "qr.png"]))
            == PathOf(["api", "access", "orders", ":capability", "tickets", ticket, "qr.png"])
  {
    hide Sanitized, PathOf, EqualFold, Names, NoSlash;
    Words();
    NamesAreNotEmpty(capability);
    NamesAreNotEmpty(ticket);
    PathShows(["api", "access", "orders", capability, "tickets", ticket, "qr.png"], 2,
              ["api", "access", "orders", ":capability", "tickets", ticket, "qr.png"]);
  }

  /** The page of a ticket in either language, whose last segment is the capability. */
  lemma TicketPage(locale: string, capability: string)
    requires (locale == "en" || locale == "fr") && Names(capability) && NoSlash(capability)
    ensures Sanitized(PathOf([locale, "tickets", capability])) == PathOf([locale, "tickets", ":capability"])
  {
    hide Sanitized, PathOf, EqualFold, Names, NoSlash;
    Words();
    NamesAreNotEmpty(capability);
    SpeltOut(locale);
    var page := [locale, "tickets", capability];
    assert locale in LOCALES;
    assert !SegmentMatches(page[0], ROUTES[1][0]) && SegmentMatches(page[0], ROUTES[4][0]);
    PathShows(page, 4, [locale, "tickets", ":capability"]);
  }
}
