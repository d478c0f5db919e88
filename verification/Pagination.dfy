/** Reading a paged list from a server that may lie (discovery/unifi_client.py, `_paginate`). */
module Pagination {
  import opened Basics

  // `total` and `limit` are None when the field is absent or null.
  datatype Page<T> = Page(data: seq<T>, total: Option<int>, limit: Option<int>)

  // The n-th request is for the n-th offset; what the server answers may depend on both.
  type Server<T> = (nat, int) -> Page<T>

  const MAX_PAGES: nat := 500

  function Min(a: int, b: int): int {
    if a < b then a else b
  }

  // What the page at `offset` advances to.
  function NextOffset<T>(offset: int, page: Page<T>): int {
    offset + (if page.limit.Some? then Min(page.limit.value, |page.data|)
              else if page.data == [] then 1 else |page.data|)
  }

  function LastPage<T>(server: Server<T>, offsets: seq<int>): Page<T>
    requires offsets != []
  {
    server(|offsets| - 1, offsets[|offsets| - 1])
  }

  function Gathered<T>(server: Server<T>, offsets: seq<int>): seq<T> {
    if offsets == [] then [] else Gathered(server, offsets[..|offsets| - 1]) + LastPage(server, offsets).data
  }

  /** The last page is empty, reaches the total, or does not advance.  Without a total, what was
      received so far counts as all there is. */
  predicate Exhausted<T>(server: Server<T>, offsets: seq<int>)
    requires offsets != []
  {
    var offset, page := offsets[|offsets| - 1], LastPage(server, offsets);
    var total := if page.total.Some? then page.total.value else |Gathered(server, offsets)|;
    page.data == [] || NextOffset(offset, page) >= total || NextOffset(offset, page) <= offset
  }

  predicate Follows<T>(server: Server<T>, offsets: seq<int>, offset: int) {
    if offsets == [] then offset == 0
    else !Exhausted(server, offsets) && offset == NextOffset(offsets[|offsets| - 1], LastPage(server, offsets))
  }

  /** Each request starts where the page before it, not the last one, advanced to. */
  predicate Chained<T>(server: Server<T>, offsets: seq<int>) {
    offsets == []
    || (Follows(server, offsets[..|offsets| - 1], offsets[|offsets| - 1]) && Chained(server, offsets[..|offsets| - 1]))
  }

  /** `_paginate`, with the offsets it asked for.  Against any server it makes at most 500 requests, and
      stops before that only when the pages are exhausted. */
  method Paginate<T>(server: Server<T>) returns (results: seq<T>, offsets: seq<int>)
    ensures 1 <= |offsets| <= 500 && Chained(server, offsets)
    ensures results == Gathered(server, offsets)
    ensures |offsets| < 500 ==> Exhausted(server, offsets)
  {
    var offset := 0;
    results, offsets := [], [];
    for n := 0 to MAX_PAGES
      invariant |offsets| == n && Chained(server, offsets) && results == Gathered(server, offsets)
      invariant Follows(server, offsets, offset)
    {
      var page := server(n, offset);
      ghost var before := offsets;
      offsets := offsets + [offset];
      assert offsets[..n] == before;
      results := results + page.data;
      var total := if page.total.Some? then page.total.value else |results|;
      var nextOffset := NextOffset(offset, page);
      if page.data == [] || nextOffset >= total {
        return;
      }
      if nextOffset <= offset {
        return;
      }
      offset := nextOffset;
    }
  }

  /** The offsets only ever grow. */
  lemma {:induction false} OffsetsRise<T>(server: Server<T>, offsets: seq<int>, j: nat, k: nat)
    requires Chained(server, offsets) && j < k < |offsets|
    ensures 0 <= offsets[j] < offsets[k]
  {
    var front := offsets[..|offsets| - 1];
    if k == |offsets| - 1 {
      assert offsets[k] > front[k - 1];
      if j < k - 1 {
        OffsetsRise(server, front, j, k - 1);
      } else if j > 0 {
        OffsetsRise(server, front, j - 1, j);
      }
    } else {
      OffsetsRise(server, front, j, k);
    }
  }

  /** The next request is for what lies behind the data that came, or behind the declared limit where that is
      less; it is made only while there is data and the declared total is not reached. */
  lemma {:induction false} OffsetsAdvance<T>(server: Server<T>, offsets: seq<int>, k: nat)
    requires Chained(server, offsets) && k + 1 < |offsets|
    ensures var page := server(k, offsets[k]);
      && page.data != []
      && offsets[k + 1] - offsets[k] == (if page.limit.Some? && page.limit.value < |page.data| then page.limit.value
                                         else |page.data|)
      && (page.total.Some? ==> offsets[k + 1] < page.total.value)
  {
    if k + 1 < |offsets| - 1 {
      OffsetsAdvance(server, offsets[..|offsets| - 1], k);
    }
  }

  /** An honest server: the true total, and non-empty pages of the list, no longer than they declare. */
  ghost predicate Honest<T>(server: Server<T>, items: seq<T>) {
    forall n, offset :: 0 <= offset <= |items| ==> HonestPage(server(n, offset), offset, items)
  }

  predicate HonestPage<T(==)>(page: Page<T>, offset: nat, items: seq<T>)
    requires offset <= |items|
  {
    && page.total == Some(|items|)
    && offset + |page.data| <= |items|
    && page.data == items[offset..offset + |page.data|]
    && (offset < |items| ==> page.data != [])
    && (page.limit.Some? ==> |page.data| <= page.limit.value)
  }

  // The last page continues the list where the pages before it ended.
  lemma {:induction false} HonestPages<T>(server: Server<T>, items: seq<T>, offsets: seq<int>)
    requires Honest(server, items) && Chained(server, offsets) && offsets != []
    ensures var offset := offsets[|offsets| - 1];
      && 0 <= offset <= |items| && HonestPage(LastPage(server, offsets), offset, items)
      && Gathered(server, offsets) == items[..offset + |LastPage(server, offsets).data|]
  {
    var front, offset := offsets[..|offsets| - 1], offsets[|offsets| - 1];
    if front != [] {
      HonestPages(server, items, front);
      assert LastPage(server, front).data != [];
      assert offset == front[|front| - 1] + |LastPage(server, front).data|;
    } else {
      assert Gathered(server, front) == [];
    }
    assert Gathered(server, front) == items[..offset];
    assert HonestPage(server(|offsets| - 1, offset), offset, items);
    hide HonestPage;
    assert items[..offset] + items[offset..offset + |LastPage(server, offsets).data|]
        == items[..offset + |LastPage(server, offsets).data|];
  }

  /** From an honest server the result is the list, in order, with no gap and no repeat; or a prefix of
      it when 500 pages did not suffice. */
  lemma HonestServerIsRead<T>(server: Server<T>, items: seq<T>, offsets: seq<int>)
    requires Honest(server, items) && Chained(server, offsets) && offsets != []
    ensures Gathered(server, offsets) <= items
    ensures Exhausted(server, offsets) <==> Gathered(server, offsets) == items
  {
    HonestPages(server, items, offsets);
  }
}
