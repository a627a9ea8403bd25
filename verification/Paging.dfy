/** Pages of a search: app_search_leave and app_search_leave_num of example/app/app_business.cpp.
    The result list is the same for every page; the products stay within the range of int. */
module Paging {
  function Max(a: int, b: int): int {
    if a < b then b else a
  }

  /** The items a page number and a page size select, both taken as at least 1. */
  function Page<T>(items: seq<T>, page: int, size: int): seq<T> {
    var p, m := Max(1, page), Max(1, size);
    From(items, (p - 1) * m, m)
  }

  /** At most m items from a position on. */
  function From<T>(items: seq<T>, at: int, m: int): seq<T> {
    if at < 0 || m < 0 || at >= |items| then [] else if at + m <= |items| then items[at..at + m] else items[at..]
  }

  lemma PageStartIsNat(p: int, m: int)
    requires p >= 1 && m >= 1
    ensures (p - 1) * m >= 0 && p * m == (p - 1) * m + m
  {
  }

  method SearchLeave<T>(items: seq<T>, page: int, size: int) returns (data: seq<T>)
    ensures data == Page(items, page, size)
  {
    var p, m := Max(1, page), Max(1, size);
    PageStartIsNat(p, m);
    var bg, ed := (p - 1) * m, p * m;
    data := [];
    var i := bg;
    while i < |items| && i < ed
      invariant bg <= i <= ed && (i <= |items| || i == bg)
      invariant data == if i <= |items| then items[bg..i] else []
      decreases |items| - i
    {
      data := data + [items[i]];
      i := i + 1;
    }
  }

  /** Page numbers and sizes below 1 are taken as 1. */
  lemma SmallNumbersAreOne<T>(items: seq<T>, page: int, size: int)
    ensures page < 1 ==> Page(items, page, size) == Page(items, 1, size)
    ensures size < 1 ==> Page(items, page, size) == Page(items, page, 1)
    ensures page <= 1 && size <= 1 && items != [] ==> Page(items, page, size) == [items[0]]
  {
  }

  /** The count request: as many as all the pages hold together, whatever their size. */
  method SearchLeaveNum<T>(items: seq<T>) returns (num: nat)
    ensures forall m :: m >= 1 ==> num == |Pages(items, PageCount(|items|, m), m)|
  {
    num := |items|;
    forall m | m >= 1
      ensures num == |Pages(items, PageCount(|items|, m), m)|
    {
      PagesAreAll(items, m);
    }
  }

  /** Pages 1 to n, one after the other. */
  function Pages<T>(items: seq<T>, n: nat, size: int): seq<T> {
    if n == 0 then [] else Pages(items, n - 1, size) + Page(items, n, size)
  }

  /** The number of pages that are not empty. */
  function PageCount(n: nat, m: int): (c: nat)
    requires m >= 1
    ensures c * m >= n && (c > 0 ==> (c - 1) * m < n)
  {
    if n == 0 then 0
    else
      assert (n - 1) / m * m <= n - 1 < ((n - 1) / m + 1) * m by { DivisionBounds(n - 1, m); }
      (n - 1) / m + 1
  }

  lemma DivisionBounds(x: nat, m: int)
    requires m >= 1
    ensures x / m >= 0 && x / m * m <= x < (x / m + 1) * m
  {
  }

  /** The first k items, as far as there are any. */
  function Prefix<T>(items: seq<T>, k: int): seq<T>
    requires k >= 0
  {
    if k <= |items| then items[..k] else items
  }

  lemma GrowPrefix<T>(items: seq<T>, at: int, m: int)
    requires at >= 0 && m >= 0
    ensures Prefix(items, at) + From(items, at, m) == Prefix(items, at + m)
  {
    if at + m <= |items| {
      assert items[..at] + items[at..at + m] == items[..at + m];
    } else if at <= |items| {
      assert items[..at] + items[at..] == items;
    }
  }

  /** The first n pages are the first n * m items. */
  lemma {:induction false} PagesArePrefix<T>(items: seq<T>, n: nat, m: int)
    requires m >= 1
    ensures n * m >= 0
    ensures Pages(items, n, m) == Prefix(items, n * m)
  {
    if n > 0 {
      hide From, Prefix;
      PagesArePrefix(items, n - 1, m);
      PageStartIsNat(n, m);
      GrowPrefix(items, (n - 1) * m, m);
    } else {
      assert items[..0] == [];
    }
  }

  /** The pages up to the last are the whole list, in order and without overlap; their items number as
      many as the count request says, and every later page is empty. */
  lemma PagesAreAll<T>(items: seq<T>, m: int)
    requires m >= 1
    ensures Pages(items, PageCount(|items|, m), m) == items
    ensures forall p :: p > PageCount(|items|, m) ==> Page(items, p, m) == []
    ensures forall p :: 1 <= p <= PageCount(|items|, m) ==> 1 <= |Page(items, p, m)| <= m
    ensures forall p :: 1 <= p < PageCount(|items|, m) ==> |Page(items, p, m)| == m
  {
    hide Page, Pages;
    PagesArePrefix(items, PageCount(|items|, m), m);
    assert items[..|items|] == items;
    forall p | p >= 1
      ensures p > PageCount(|items|, m) ==> Page(items, p, m) == []
      ensures p <= PageCount(|items|, m) ==> 1 <= |Page(items, p, m)| <= m
      ensures p < PageCount(|items|, m) ==> |Page(items, p, m)| == m
    {
      SizeOfPage(items, p, m);
    }
  }

  lemma SizeOfPage<T>(items: seq<T>, p: int, m: int)
    requires m >= 1 && p >= 1
    ensures var c := PageCount(|items|, m);
      if p > c then Page(items, p, m) == []
      else if p == c then 1 <= |Page(items, p, m)| <= m
      else |Page(items, p, m)| == m
  {
    var c := PageCount(|items|, m);
    PageStartIsNat(p, m);
    if p > c {
      Monotone(c, p - 1, m);
    } else if p < c {
      Monotone(p, c - 1, m);
    }
  }

  lemma Monotone(a: int, b: int, m: int)
    requires a <= b && m >= 1
    ensures a * m <= b * m
  {
  }
}
