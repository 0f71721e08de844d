/** Client-side paging of the report table: fixed-size pages numbered from 1. */
module Pagination {

  const PageSize: nat := 15

  /** Math.ceil(n / PageSize). */
  function PageCount(n: nat): (c: nat)
    ensures n <= c * PageSize
    ensures c == 0 || (c - 1) * PageSize < n
    ensures c == 0 <==> n == 0
  {
    (n + PageSize - 1) / PageSize
  }

  /** Array.prototype.slice with non-negative bounds: both are clamped to the length. */
  function Slice<T>(s: seq<T>, start: nat, end: nat): seq<T>
  {
    var lo := if start < |s| then start else |s|;
    var hi := if end < lo then lo else if end < |s| then end else |s|;
    s[lo..hi]
  }

  /** The rows shown on page `page`: at most PageSize rows, taken in order from
      position (page-1)*PageSize; empty exactly when the page lies past the last one. */
  function PageSlice<T>(data: seq<T>, page: int): (p: seq<T>)
    requires page >= 1
    ensures |p| <= PageSize
    ensures p == [] <==> page > PageCount(|data|)
    ensures page <= PageCount(|data|) ==>
      |p| == (if page * PageSize <= |data| then PageSize else |data| - (page - 1) * PageSize)
    ensures forall j :: 0 <= j < |p| ==> p[j] == data[(page - 1) * PageSize + j]
  {
    var start := (page - 1) * PageSize;
    Slice(data, start, start + PageSize)
  }

  /** The pages 1..k one after another. */
  function Pages<T>(data: seq<T>, k: nat): seq<T>
  {
    if k == 0 then [] else Pages(data, k - 1) + PageSlice(data, k)
  }

  lemma {:induction false} PagesPrefix<T>(data: seq<T>, k: nat)
    ensures Pages(data, k) == data[..if k * PageSize <= |data| then k * PageSize else |data|]
  {
    if k > 0 {
      PagesPrefix(data, k - 1);
      var lo := if (k - 1) * PageSize <= |data| then (k - 1) * PageSize else |data|;
      var hi := if k * PageSize <= |data| then k * PageSize else |data|;
      assert PageSlice(data, k) == data[lo..hi];
      assert data[..lo] + data[lo..hi] == data[..hi];
    }
  }

  /** Reading every page in order shows every row once, in order: nothing is lost or repeated. */
  lemma PagesCoverData<T>(data: seq<T>)
    ensures Pages(data, PageCount(|data|)) == data
  {
    PagesPrefix(data, PageCount(|data|));
  }

  /** Row i is shown on page i / PageSize + 1, at position i % PageSize. */
  lemma PageOfRow<T>(data: seq<T>, i: nat)
    requires i < |data|
    ensures var page := i / PageSize + 1;
      && 1 <= page <= PageCount(|data|)
      && i % PageSize < |PageSlice(data, page)|
      && PageSlice(data, page)[i % PageSize] == data[i]
  {
    var page := i / PageSize + 1;
    assert (page - 1) * PageSize + i % PageSize == i;
  }
}
