/** The recommendations on the home page (pages/Home.js): the ten most expensive approved listings of the first 50. */
module Home {
  import opened Wrappers
  import opened Lists
  import opened Sorting
  import opened Listing

  /** `b.price - a.price` orders by price, highest first; a missing price is read as 0. */
  function PriceKey(): Property -> SortKey {
    (p: Property) => Num(NumOrZero(p.price))
  }

  function Price(p: Property): int {
    NumOrZero(p.price)
  }

  function ApprovedOf(b: Body<Property>): seq<Property> {
    Keep(ContentOrEmpty(b), ApprovedFn())
  }

  /** `content || []`, approved only, sorted by price descending, first ten. */
  function Recommendations(b: Body<Property>): (r: seq<Property>)
    ensures |r| == if |ApprovedOf(b)| <= 10 then |ApprovedOf(b)| else 10
  {
    var sorted := SortByKey(ApprovedOf(b), PriceKey(), Desc);
    if |sorted| <= 10 then sorted else sorted[..10]
  }

  lemma {:induction false} DescendingPrices(s: seq<Property>)
    requires Sorted(s, PriceKey(), Desc)
    ensures forall i, j :: 0 <= i < j < |s| ==> Price(s[i]) >= Price(s[j])
  {
    forall i, j | 0 <= i < j < |s|
      ensures Price(s[i]) >= Price(s[j])
    {
      assert Compare(PriceKey()(s[i]), PriceKey()(s[j]), Desc) <= 0;
    }
  }

  lemma {:induction false} ApprovedMembers(b: Body<Property>, y: Property)
    requires y in multiset(ApprovedOf(b))
    ensures IsApproved(y)
  {
    var a := ApprovedOf(b);
    assert y in a;
    var k :| 0 <= k < |a| && a[k] == y;
    assert ApprovedFn()(a[k]);
  }

  /** The sorted approved listings the recommendations are the head of. */
  function Ranked(b: Body<Property>): (r: seq<Property>)
    ensures |r| == |ApprovedOf(b)|
  {
    SortByKey(ApprovedOf(b), PriceKey(), Desc)
  }

  lemma {:induction false} RankedFacts(b: Body<Property>)
    ensures multiset(Ranked(b)) == multiset(ApprovedOf(b))
    ensures forall i, j :: 0 <= i < j < |Ranked(b)| ==> Price(Ranked(b)[i]) >= Price(Ranked(b)[j])
    ensures Recommendations(b) == Ranked(b)[..|Recommendations(b)|]
  {
    SortByKeyCorrect(ApprovedOf(b), PriceKey(), Desc);
    DescendingPrices(Ranked(b));
  }

  /** Only approved listings are recommended. */
  lemma {:induction false} RecommendedAreApproved(b: Body<Property>)
    ensures forall i :: 0 <= i < |Recommendations(b)| ==> IsApproved(Recommendations(b)[i])
  {
    var r, s := Recommendations(b), Ranked(b);
    RankedFacts(b);
    forall i | 0 <= i < |r|
      ensures IsApproved(r[i])
    {
      assert r[i] == s[i] && s[i] in multiset(s);
      ApprovedMembers(b, r[i]);
    }
  }

  /** What the recommendations leave out is the rest of the ranking. */
  lemma {:induction false} LeftOutRanked(b: Body<Property>)
    ensures |Recommendations(b)| <= |Ranked(b)|
    ensures multiset(ApprovedOf(b)) == multiset(Recommendations(b)) + multiset(Ranked(b)[|Recommendations(b)|..])
  {
    var r, s := Recommendations(b), Ranked(b);
    RankedFacts(b);
    assert s == r + s[|r|..];
  }

  /** A listing left out is priced no higher than any listing kept. */
  lemma {:induction false} LeftOutCheaper(b: Body<Property>, y: Property, i: int)
    requires y in multiset(ApprovedOf(b)) - multiset(Recommendations(b))
    requires 0 <= i < |Recommendations(b)|
    ensures Price(y) <= Price(Recommendations(b)[i])
  {
    var r, s := Recommendations(b), Ranked(b);
    RankedFacts(b);
    LeftOutRanked(b);
    var rest := s[|r|..];
    assert y in multiset(rest);
    var j :| 0 <= j < |rest| && rest[j] == y;
    assert s[|r| + j] == y && r[i] == s[i];
  }

  /**
   * At most ten approved listings, highest price first, each taken once from
   * the approved ones; all of them when there are at most ten; and a listing
   * left out is priced no higher than any listing kept.
   */
  lemma {:induction false} RecommendationsCorrect(b: Body<Property>)
    ensures |Recommendations(b)| <= 10
    ensures forall i :: 0 <= i < |Recommendations(b)| ==> IsApproved(Recommendations(b)[i])
    ensures forall i, j :: 0 <= i < j < |Recommendations(b)| ==> Price(Recommendations(b)[i]) >= Price(Recommendations(b)[j])
    ensures multiset(Recommendations(b)) <= multiset(ApprovedOf(b))
    ensures |ApprovedOf(b)| <= 10 ==> multiset(Recommendations(b)) == multiset(ApprovedOf(b))
    ensures forall y, i :: y in multiset(ApprovedOf(b)) - multiset(Recommendations(b)) && 0 <= i < |Recommendations(b)|
              ==> Price(y) <= Price(Recommendations(b)[i])
  {
    var r := Recommendations(b);
    RecommendedAreApproved(b);
    RecommendedDescending(b);
    RecommendedFromApproved(b);
    forall y, i | y in multiset(ApprovedOf(b)) - multiset(r) && 0 <= i < |r|
      ensures Price(y) <= Price(r[i])
    {
      LeftOutCheaper(b, y, i);
    }
  }

  lemma {:induction false} RecommendedDescending(b: Body<Property>)
    ensures forall i, j :: 0 <= i < j < |Recommendations(b)| ==> Price(Recommendations(b)[i]) >= Price(Recommendations(b)[j])
  {
    var r, s := Recommendations(b), Ranked(b);
    RankedFacts(b);
    forall i, j | 0 <= i < j < |r|
      ensures Price(r[i]) >= Price(r[j])
    {
      assert r[i] == s[i] && r[j] == s[j];
    }
  }

  lemma {:induction false} RecommendedFromApproved(b: Body<Property>)
    ensures |Recommendations(b)| <= 10
    ensures multiset(Recommendations(b)) <= multiset(ApprovedOf(b))
    ensures |ApprovedOf(b)| <= 10 ==> multiset(Recommendations(b)) == multiset(ApprovedOf(b))
  {
    var r, s := Recommendations(b), Ranked(b);
    RankedFacts(b);
    LeftOutRanked(b);
    if |ApprovedOf(b)| <= 10 {
      assert |s| <= 10 && r == s;
    }
  }
}
