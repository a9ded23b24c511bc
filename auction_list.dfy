/** The browsable auction list: a four-part filter (search text, shipment
    type, location, price range), the "ending soon" and "new" tabs, and the
    rendering of the minutes left as hours and minutes. */
module AuctionList {
  import opened Types
  import opened Text

  /** An auction as the list shows it; timeRemaining is in minutes. */
  datatype Listing = Listing(
    id: string,
    title: string,
    shipmentType: string,
    origin: string,
    destination: string,
    timeRemaining: int,
    bidCount: int,
    currentBid: int)

  /** The filter panel; "" for type or location means "all". */
  datatype Filters = Filters(shipmentType: string, location: string, priceLow: int, priceHigh: int)

  const DefaultFilters := Filters("", "", 0, 10000000)

  /** Elements of `xs` that satisfy `p`, in their order (`Array.filter`). */
  function Keep<T>(xs: seq<T>, p: T -> bool): (r: seq<T>)
    ensures |r| <= |xs|
    ensures forall x :: x in r ==> x in xs && p(x)
  {
    if xs == [] then []
    else if p(xs[0]) then [xs[0]] + Keep(xs[1..], p)
    else Keep(xs[1..], p)
  }

  /** `xs` can be obtained from `ys` by deleting elements. */
  predicate IsSubsequence<T(==)>(xs: seq<T>, ys: seq<T>)
    decreases |ys|
  {
    if xs == [] then true
    else if ys == [] then false
    else if xs[0] == ys[0] then IsSubsequence(xs[1..], ys[1..])
    else IsSubsequence(xs, ys[1..])
  }

  /** Everything in the input that passes the test is kept. */
  lemma {:induction false} KeepComplete<T>(xs: seq<T>, p: T -> bool, x: T)
    requires x in xs && p(x)
    ensures x in Keep(xs, p)
  {
    if xs[0] != x {
      KeepComplete(xs[1..], p, x);
    }
  }

  /** What is kept keeps its relative order. */
  lemma {:induction false} KeepIsSubsequence<T>(xs: seq<T>, p: T -> bool)
    ensures IsSubsequence(Keep(xs, p), xs)
  {
    if xs != [] {
      KeepIsSubsequence(xs[1..], p);
      var r := Keep(xs[1..], p);
      if !p(xs[0]) && r != [] {
        assert r[0] in r;
        assert r[0] != xs[0];
      }
    }
  }

  /** Filtering distributes over concatenation. */
  lemma {:induction false} KeepAppend<T>(xs: seq<T>, ys: seq<T>, p: T -> bool)
    ensures Keep(xs + ys, p) == Keep(xs, p) + Keep(ys, p)
  {
    if xs != [] {
      assert (xs + ys)[1..] == xs[1..] + ys;
      KeepAppend(xs[1..], ys, p);
    } else {
      assert xs + ys == ys;
    }
  }

  /** `searchTerm`, lower-cased, occurs in the lower-cased title, origin or
      destination. */
  predicate MatchesSearch(a: Listing, term: string)
  {
    var t := Lower(term);
    Contains(Lower(a.title), t) || Contains(Lower(a.origin), t) || Contains(Lower(a.destination), t)
  }

  predicate MatchesType(a: Listing, f: Filters)
  {
    f.shipmentType == "" || a.shipmentType == f.shipmentType
  }

  /** The location filter is case-sensitive, unlike the search. */
  predicate MatchesLocation(a: Listing, f: Filters)
  {
    f.location == "" || Contains(a.origin, f.location) || Contains(a.destination, f.location)
  }

  /** Both ends of the price range are inclusive. */
  predicate MatchesPrice(a: Listing, f: Filters)
  {
    f.priceLow <= a.currentBid <= f.priceHigh
  }

  predicate Matches(a: Listing, term: string, f: Filters)
  {
    MatchesSearch(a, term) && MatchesType(a, f) && MatchesLocation(a, f) && MatchesPrice(a, f)
  }

  /** `filteredAuctions`. */
  function Filtered(auctions: seq<Listing>, term: string, f: Filters): seq<Listing>
  {
    Keep(auctions, a => Matches(a, term, f))
  }

  /** The filtered list is an order-preserving subsequence of the input in
      which every kept auction passes all four tests and every dropped one
      fails at least one. */
  lemma FilteredCharacterized(auctions: seq<Listing>, term: string, f: Filters)
    ensures IsSubsequence(Filtered(auctions, term, f), auctions)
    ensures forall a :: a in Filtered(auctions, term, f) ==> a in auctions && Matches(a, term, f)
    ensures forall a :: a in auctions && a !in Filtered(auctions, term, f) ==>
      !MatchesSearch(a, term) || !MatchesType(a, f) || !MatchesLocation(a, f) || !MatchesPrice(a, f)
  {
    var p := a => Matches(a, term, f);
    KeepIsSubsequence(auctions, p);
    forall a | a in auctions && Matches(a, term, f) ensures a in Filtered(auctions, term, f) {
      KeepComplete(auctions, p, a);
    }
  }

  /** An empty search text matches every auction. */
  lemma EmptySearchMatchesAll(a: Listing)
    ensures MatchesSearch(a, "")
  {
    assert Lower("") == "";
    ContainsEmpty(Lower(a.title));
  }

  /** With the initial filters and no search text, an auction is shown
      exactly when its current bid lies in 0..10000000. */
  lemma DefaultFiltersKeep(auctions: seq<Listing>, a: Listing)
    requires a in auctions
    ensures a in Filtered(auctions, "", DefaultFilters) <==> 0 <= a.currentBid <= 10000000
  {
    EmptySearchMatchesAll(a);
    FilteredCharacterized(auctions, "", DefaultFilters);
  }

  predicate EndsWithinHour(a: Listing) { a.timeRemaining < 60 }

  predicate HasOverFiveHours(a: Listing) { a.timeRemaining > 300 }

  /** The "ending soon" tab: less than an hour left. */
  function EndingSoon(shown: seq<Listing>): seq<Listing>
  {
    Keep(shown, EndsWithinHour)
  }

  /** The "new" tab: more than five hours left. */
  function Fresh(shown: seq<Listing>): seq<Listing>
  {
    Keep(shown, HasOverFiveHours)
  }

  /** The two tabs are disjoint parts of the filtered list, and an auction
      with 60 to 300 minutes left appears in neither. */
  lemma BucketsDisjoint(shown: seq<Listing>)
    ensures forall a :: a in EndingSoon(shown) ==> a in shown && a !in Fresh(shown)
    ensures forall a :: a in Fresh(shown) ==> a in shown && a !in EndingSoon(shown)
    ensures forall a :: a in shown && 60 <= a.timeRemaining <= 300 ==>
      a !in EndingSoon(shown) && a !in Fresh(shown)
  {
  }

  /** Each auction with under an hour left is in the "ending soon" tab. */
  lemma EndingSoonComplete(shown: seq<Listing>, a: Listing)
    requires a in shown
    ensures a in EndingSoon(shown) <==> a.timeRemaining < 60
    ensures a in Fresh(shown) <==> a.timeRemaining > 300
  {
    if a.timeRemaining < 60 {
      KeepComplete(shown, EndsWithinHour, a);
    }
    if a.timeRemaining > 300 {
      KeepComplete(shown, HasOverFiveHours, a);
    }
  }

  /** JavaScript's `%`: the remainder takes the sign of the dividend. */
  function JsRem(a: int, b: int): (r: int)
    requires b > 0
    ensures a >= 0 ==> 0 <= r < b && r == a % b
    ensures a < 0 ==> -b < r <= 0 && r == -((-a) % b)
  {
    if a >= 0 then a % b else -((-a) % b)
  }

  /** `formatTimeRemaining`: `Math.floor(minutes / 60)` and `minutes % 60`. */
  function TimeParts(minutes: int): (int, int)
  {
    (minutes / 60, JsRem(minutes, 60))
  }

  /** The badge text, "<hours>j <mins>m". */
  function TimeLabel(minutes: int): string
  {
    var (h, m) := TimeParts(minutes);
    IntToString(h) + "j " + IntToString(m) + "m"
  }

  /** For a non-negative number of minutes, the parts recombine to it and the
      minute part lies in 0..59. */
  lemma TimePartsSplit(minutes: int)
    requires minutes >= 0
    ensures var (h, m) := TimeParts(minutes);
      h >= 0 && 0 <= m < 60 && h * 60 + m == minutes
  {
  }

  /** A negative number of minutes is rendered with a floored hour and a
      truncated remainder, which no longer recombine: -30 shows "-1j -30m". */
  lemma NegativeMinutesMisrendered()
    ensures TimeParts(-30) == (-1, -30)
    ensures TimeLabel(-30) == "-1j -30m"
  {
    assert NatToString(1) == "1";
    assert NatToString(30) == NatToString(3) + [DigitChar(0)];
  }

  datatype BadgeVariant = Destructive | Secondary

  function Badge(a: Listing): BadgeVariant
  {
    if a.timeRemaining < 60 then Destructive else Secondary
  }

  /** The red badge marks exactly the auctions of the "ending soon" tab. */
  lemma BadgeMatchesEndingSoon(shown: seq<Listing>, a: Listing)
    requires a in shown
    ensures Badge(a) == Destructive <==> a in EndingSoon(shown)
  {
    EndingSoonComplete(shown, a);
  }
}
