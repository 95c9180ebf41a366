/** Cursor pagination over the sampling-markets listing (get_all_markets).
    The server is modelled as the sequence of pages it answers, in the order
    the script asks for them. */
module Pagination {
  import opened Exchange

  /** Some page carries the end-of-list cursor, so the loop stops. */
  ghost predicate Terminates(pages: seq<Page>)
  {
    exists k :: 0 <= k < |pages| && pages[k].nextCursor == EndCursor
  }

  /** The index of the first page that carries the end-of-list cursor. */
  function LastPageIndex(pages: seq<Page>): (k: nat)
    requires Terminates(pages)
    ensures k < |pages| && pages[k].nextCursor == EndCursor
    ensures forall j :: 0 <= j < k ==> pages[j].nextCursor != EndCursor
    decreases |pages|
  {
    if pages[0].nextCursor == EndCursor then 0
    else
      assert Terminates(pages[1..]) by {
        var k :| 0 <= k < |pages| && pages[k].nextCursor == EndCursor;
        assert pages[1..][k - 1] == pages[k];
      }
      1 + LastPageIndex(pages[1..])
  }

  /** The markets of the listing: every page's data in server order, up to and
      including the first page whose cursor is the end-of-list cursor. */
  function Listing(pages: seq<Page>): seq<Market>
    requires Terminates(pages)
    decreases |pages|
  {
    if pages[0].nextCursor == EndCursor then pages[0].data
    else
      assert Terminates(pages[1..]) by {
        var k :| 0 <= k < |pages| && pages[k].nextCursor == EndCursor;
        assert pages[1..][k - 1] == pages[k];
      }
      pages[0].data + Listing(pages[1..])
  }

  /** All markets of a sequence of pages, concatenated. */
  function Concat(pages: seq<Page>): seq<Market>
    decreases |pages|
  {
    if pages == [] then [] else pages[0].data + Concat(pages[1..])
  }

  /** The listing is the concatenation of the pages up to the first end-of-list
      page; whatever the server would answer after it is never asked for. */
  lemma {:induction false} ListingIsConcatToLastPage(pages: seq<Page>)
    requires Terminates(pages)
    ensures Listing(pages) == Concat(pages[..LastPageIndex(pages) + 1])
    decreases |pages|
  {
    if pages[0].nextCursor == EndCursor {
      assert pages[..1][1..] == [];
    } else {
      var rest := pages[1..];
      assert Terminates(rest) by {
        var k :| 0 <= k < |pages| && pages[k].nextCursor == EndCursor;
        assert rest[k - 1] == pages[k];
      }
      ListingIsConcatToLastPage(rest);
      var k := LastPageIndex(pages);
      assert pages[..k + 1][1..] == rest[..LastPageIndex(rest) + 1];
    }
  }

  /** A market is listed exactly when some page up to the first end-of-list
      page holds it. */
  lemma {:induction false} ListingMembership(pages: seq<Page>, m: Market)
    requires Terminates(pages)
    ensures m in Listing(pages) <==>
            exists j :: 0 <= j <= LastPageIndex(pages) && m in pages[j].data
    decreases |pages|
  {
    if pages[0].nextCursor != EndCursor {
      var rest := pages[1..];
      assert Terminates(rest) by {
        var k :| 0 <= k < |pages| && pages[k].nextCursor == EndCursor;
        assert rest[k - 1] == pages[k];
      }
      ListingMembership(rest, m);
      if m in Listing(pages) && m !in pages[0].data {
        var j :| 0 <= j <= LastPageIndex(rest) && m in rest[j].data;
        assert pages[j + 1] == rest[j];
      }
      if exists j :: 0 <= j <= LastPageIndex(pages) && m in pages[j].data {
        var j :| 0 <= j <= LastPageIndex(pages) && m in pages[j].data;
        if j > 0 {
          assert rest[j - 1] == pages[j];
        }
      }
    }
  }

  /** Appending one page adds its markets at the end. */
  lemma {:induction false} ConcatSnoc(pages: seq<Page>, p: Page)
    ensures Concat(pages + [p]) == Concat(pages) + p.data
    decreases |pages|
  {
    if pages != [] {
      assert (pages + [p])[1..] == pages[1..] + [p];
      ConcatSnoc(pages[1..], p);
    }
  }

  /** The loop of get_all_markets: ask for a page with the current cursor
      (the empty cursor first), append its markets one by one, take its cursor,
      and stop after the page whose cursor is the end-of-list cursor.
      `requested` records the cursor sent with each request. */
  method GetAllMarkets(pages: seq<Page>) returns (data: seq<Market>, requested: seq<string>)
    requires Terminates(pages)
    ensures data == Listing(pages)
    ensures |requested| == LastPageIndex(pages) + 1
    ensures requested[0] == ""
    ensures forall j :: 0 < j < |requested| ==> requested[j] == pages[j - 1].nextCursor
  {
    ghost var last := LastPageIndex(pages);
    data := [];
    requested := [];
    var nextCursor := "";
    var i := 0;
    while true
      invariant 0 <= i <= last
      invariant data == Concat(pages[..i])
      invariant |requested| == i
      invariant nextCursor == if i == 0 then "" else pages[i - 1].nextCursor
      invariant i > 0 ==> requested[0] == ""
      invariant forall j :: 0 < j < i ==> requested[j] == pages[j - 1].nextCursor
      decreases last - i
    {
      requested := requested + [nextCursor];
      var resp := pages[i];
      ghost var before := data;
      for x := 0 to |resp.data|
        invariant data == before + resp.data[..x]
      {
        data := data + [resp.data[x]];
      }
      assert resp.data[..|resp.data|] == resp.data;
      ConcatSnoc(pages[..i], resp);
      assert pages[..i] + [resp] == pages[..i + 1];
      nextCursor := resp.nextCursor;
      if nextCursor == EndCursor {
        ListingIsConcatToLastPage(pages);
        break;
      }
      i := i + 1;
    }
  }
}
