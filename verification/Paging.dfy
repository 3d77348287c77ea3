/**
 Paged listings. A bucket's listable items are numbered by their place in the listing order, so
 a listing is the ascending sequence of a set of numbers and a continuation token is the number
 of the last item already returned.
 */
module Paging {

  lemma LeastExists(s: set<nat>) returns (m: nat)
    requires s != {}
    ensures m in s && forall x <- s :: m <= x
  {
    var x :| x in s;
    if s == {x} {
      m := x;
    } else {
      assert s == (s - {x}) + {x};
      var m' := LeastExists(s - {x});
      m := if m' < x then m' else x;
    }
  }

  function Least(s: set<nat>): (m: nat)
    requires s != {}
    ensures m in s && forall x <- s :: m <= x
  {
    assert exists m :: m in s && forall x <- s :: m <= x by { var m := LeastExists(s); }
    var m :| m in s && forall x <- s :: m <= x;
    m
  }

  predicate Ascending(l: seq<nat>) { forall i, j | 0 <= i < j < |l| :: l[i] < l[j] }

  /** The items in listing order. */
  function Listing(items: set<nat>): (l: seq<nat>)
    ensures forall x :: x in l <==> x in items
  {
    if items == {} then []
    else
      var m := Least(items);
      [m] + Listing(items - {m})
  }

  lemma {:induction false} ListingAscends(items: set<nat>)
    ensures Ascending(Listing(items))
  {
    if items != {} {
      var m := Least(items);
      ListingAscends(items - {m});
      var rest := Listing(items - {m});
      assert forall i | 0 <= i < |rest| :: rest[i] in rest && m < rest[i];
    }
  }

  lemma {:induction false} ListsEachOnce(items: set<nat>)
    ensures multiset(Listing(items)) == multiset(items)
    ensures |Listing(items)| == |items|
  {
    if items != {} {
      var m := Least(items);
      ListsEachOnce(items - {m});
      assert Listing(items) == [m] + Listing(items - {m});
      assert items == {m} + (items - {m});
    }
  }

  function Elements(l: seq<nat>): set<nat> { set x | x in l }

  function Beyond(items: set<nat>, token: int): set<nat> { set x | x in items && x > token }

  datatype Page = Page(items: seq<nat>, truncated: bool)

  lemma PrefixOfListing(l: seq<nat>, n: nat)
    requires Ascending(l) && 0 < n <= |l|
    ensures Elements(l[..n]) == set x | x in l && x <= l[n - 1]
  {
    forall x | x in l && x <= l[n - 1] ensures x in l[..n] {
      var i :| 0 <= i < |l| && l[i] == x;
      assert i < n;
      assert l[..n][i] == x;
    }
  }

  /** The next page after `token`, of at most `size + 1` items. */
  function FetchPage(items: set<nat>, token: int, size: nat): Page {
    var rest := Listing(Beyond(items, token));
    var n := if size + 1 < |rest| then size + 1 else |rest|;
    Page(rest[..n], n < |rest|)
  }

  /** A page is empty only when nothing is left; otherwise it holds all that is left up to its own last item. */
  lemma PageFacts(items: set<nat>, token: int, size: nat)
    ensures var page := FetchPage(items, token, size);
            && Ascending(page.items)
            && (page.items == [] ==> Beyond(items, token) == {} && !page.truncated)
            && (!page.truncated ==> Elements(page.items) == Beyond(items, token))
            && (page.items != [] ==>
                Elements(page.items) == set x | x in Beyond(items, token) && x <= page.items[|page.items| - 1])
  {
    ListingAscends(Beyond(items, token));
    PrefixFacts(Listing(Beyond(items, token)), Beyond(items, token), size);
  }

  lemma PrefixFacts(l: seq<nat>, items: set<nat>, size: nat)
    requires Ascending(l) && forall x :: x in l <==> x in items
    ensures var n := if size + 1 < |l| then size + 1 else |l|;
            && Ascending(l[..n])
            && (l[..n] == [] ==> items == {} && n == |l|)
            && (n == |l| ==> Elements(l[..n]) == items)
            && (l[..n] != [] ==> Elements(l[..n]) == set x | x in items && x <= l[..n][n - 1])
  {
    var n := if size + 1 < |l| then size + 1 else |l|;
    assert forall i | 0 <= i < n :: l[..n][i] == l[i];
    if n > 0 {
      PrefixOfListing(l, n);
    } else {
      assert l == [];
    }
    if n == |l| {
      assert l[..n] == l;
    }
  }

  lemma ProperSubsetSmaller(a: set<nat>, b: set<nat>)
    requires a < b
    ensures |a| < |b|
  {
    assert b == a + (b - a);
    assert |b| == |a| + |b - a|;
  }

  /** Listing goes on beyond a page with strictly less to list, however little of it was deleted. */
  lemma PageProgress(items: set<nat>, token: int, size: nat, items': set<nat>)
    requires items' <= items && FetchPage(items, token, size).items != []
    ensures var page := FetchPage(items, token, size);
            |Beyond(items', page.items[|page.items| - 1])| < |Beyond(items, token)|
  {
    PageFacts(items, token, size);
    var page := FetchPage(items, token, size);
    var last := page.items[|page.items| - 1];
    assert last in Elements(page.items) && last in Beyond(items, token) && last !in Beyond(items', last);
    ProperSubsetSmaller(Beyond(items', last), Beyond(items, token));
  }

  /** After a page that was not the last one, exactly the items beyond it are left. */
  lemma LeftBeyondPage(items: set<nat>, token: int, size: nat)
    requires Beyond(items, token) == items && FetchPage(items, token, size).items != []
    ensures var page := FetchPage(items, token, size);
            var last, left := page.items[|page.items| - 1], items - Elements(page.items);
            && Beyond(left, last) == left && |left| < |items|
            && multiset(Elements(page.items)) + multiset(left) == multiset(items)
            && (!page.truncated ==> left == {})
  {
    PageFacts(items, token, size);
    var page := FetchPage(items, token, size);
    var last, left := page.items[|page.items| - 1], items - Elements(page.items);
    assert last in Elements(page.items);
    assert left < items by { assert last in items && last !in left; }
    ProperSubsetSmaller(left, items);
  }

  function Flatten(batches: seq<seq<nat>>): seq<nat> {
    if batches == [] then [] else batches[0] + Flatten(batches[1..])
  }

  lemma {:induction false} FlattenSplit(a: seq<seq<nat>>, b: seq<seq<nat>>)
    ensures Flatten(a + b) == Flatten(a) + Flatten(b)
  {
    if a == [] {
      assert a + b == b;
    } else {
      assert (a + b)[1..] == a[1..] + b;
      FlattenSplit(a[1..], b);
    }
  }
}
