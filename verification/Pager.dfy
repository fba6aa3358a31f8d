/** GenericPager: one page of a list, the page's number and the number of pages. */
module Pager {
  import opened Arithmetic

  function Limit(limit: int): int {
    if limit <= 0 then 5 else limit
  }

  function Offset(offset: int): int {
    if offset < 0 then 0 else offset
  }

  function Page<T>(list: seq<T>, limit: int, offset: int): seq<T> {
    var start, stop := Offset(offset), Offset(offset) + Limit(limit);
    if start >= |list| then [] else list[start..if stop > |list| then |list| else stop]
  }

  function TotalPages(total: nat, limit: int): int {
    var pages := (total + Limit(limit) - 1) / Limit(limit);
    if pages == 0 then 1 else pages
  }

  method GenericPager<T>(limit: int, offset: int, list: seq<T>) returns (items: seq<T>, currentPage: int, totalPages: int)
    ensures items == Page(list, limit, offset)
    ensures currentPage == Offset(offset) / Limit(limit) + 1
    ensures totalPages == TotalPages(|list|, limit)
  {
    var limit := if limit <= 0 then 5 else limit;
    var offset := if offset < 0 then 0 else offset;
    var total := |list|;
    var startIndex, endIndex := offset, offset + limit;
    items := [];
    if startIndex < total {
      if endIndex > total { endIndex := total; }
      for i := startIndex to endIndex
        invariant items == list[startIndex..i]
      {
        items := items + [list[i]];
      }
    }
    currentPage := offset / limit + 1;
    totalPages := (total + limit - 1) / limit;
    if totalPages == 0 { totalPages := 1; }
  }

  /** What a page is, in the numbers of the request: five items unless a positive limit is given,
      from the start unless a positive offset is. */
  lemma PageIs<T>(list: seq<T>, limit: int, offset: int)
    ensures
      var size := if limit > 0 then limit else 5;
      var from := if offset > 0 then offset else 0;
      var page := Page(list, limit, offset);
      && |page| <= size && (|page| < size ==> from + |page| >= |list|)
      && (forall i :: 0 <= i < |page| ==> from + i < |list| && page[i] == list[from + i])
  {
  }

  /** The first k pages, put together. */
  function Pages<T>(list: seq<T>, limit: int, k: nat): seq<T> {
    if k == 0 then [] else Pages(list, limit, k - 1) + Page(list, limit, (k - 1) * Limit(limit))
  }

  lemma PositiveLimit(limit: int)
    ensures Limit(limit) > 0
  {
  }

  function Prefix<T>(list: seq<T>, n: nat): seq<T> {
    if n < |list| then list[..n] else list
  }

  lemma OnePageMore<T>(list: seq<T>, limit: int, from: nat)
    ensures Prefix(list, from) + Page(list, limit, from) == Prefix(list, from + Limit(limit))
  {
    var to := if from + Limit(limit) > |list| then |list| else from + Limit(limit);
    if from < |list| { assert list[..from] + list[from..to] == list[..to]; }
    assert list[..|list|] == list;
  }

  lemma {:induction false} PagesArePrefix<T>(list: seq<T>, limit: int, k: nat)
    ensures k * Limit(limit) >= 0 && Pages(list, limit, k) == Prefix(list, k * Limit(limit))
  {
    hide Limit;
    if k > 0 {
      PagesArePrefix(list, limit, k - 1);
      PositiveLimit(limit);
      Next(k, Limit(limit));
      OnePageMore(list, limit, (k - 1) * Limit(limit));
    }
  }

  lemma Next(k: int, l: int)
    requires k > 0 && l > 0
    ensures k * l == (k - 1) * l + l && (k - 1) * l >= 0
  {
  }

  /** Rounding up: p pages hold n items and p - 1 do not. */
  lemma Ceiling(n: nat, l: int)
    requires l > 0
    ensures
      var p := (n + l - 1) / l;
      n <= p * l && (p > 0 ==> (p - 1) * l < n) && (p == 0 <==> n == 0)
  {
    var p := (n + l - 1) / l;
    assert n + l - 1 == p * l + (n + l - 1) % l;
    if p > 0 { Next(p, l); }
  }

  lemma Monotone(a: nat, b: nat, l: int)
    requires a <= b && l >= 0
    ensures a * l <= b * l
  {
  }

  /** The pages tile the list: put together in order, they give back the list. */
  lemma PagesTile<T>(list: seq<T>, limit: int)
    ensures Pages(list, limit, TotalPages(|list|, limit)) == list
  {
    var p := TotalPages(|list|, limit);
    Ceiling(|list|, Limit(limit));
    PagesArePrefix(list, limit, p);
    if p * Limit(limit) == |list| { assert list[..|list|] == list; }
  }

  /** Every page but the last is full, the last is not empty unless the list is, and the pages
      beyond are empty. */
  lemma PagesFilled<T>(list: seq<T>, limit: int, k: nat)
    ensures
      var p := TotalPages(|list|, limit);
      var page := Page(list, limit, k * Limit(limit));
      if k < p - 1 then |page| == Limit(limit)
      else if k == p - 1 then page == [] <==> list == []
      else page == []
  {
    hide Limit;
    var l := Limit(limit);
    var p := TotalPages(|list|, limit);
    assert l > 0 by { PositiveLimit(limit); }
    Ceiling(|list|, l);
    Monotone(0, k, l);
    if k < p - 1 {
      Monotone(k + 1, p - 1, l);
      Next(k + 1, l);
    } else if k >= p {
      Monotone(p, k, l);
    }
  }

  /** The page number counts the pages from one. */
  lemma PageNumber(limit: int, k: nat)
    ensures Offset(k * Limit(limit)) / Limit(limit) + 1 == k + 1
  {
    var l := Limit(limit);
    Monotone(0, k, l);
    ModIs(k * l, k, 0, l);
  }
}
