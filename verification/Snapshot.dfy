// Enumerating a SCIM list page by page (section 3.4.2.4 of RFC 7644).

module Snapshot {
  import opened Common
  import opened ScimJson

  /** One answer to a list request. `Unusable`: no answer, an error status, or a body that is not a
      list response. */
  datatype Page = Unusable | Listing(entries: seq<Json>, total: Option<int>)

  /** Any server: it may answer each call as it likes. */
  type Server = (nat, nat) -> Page

  function Records(entries: seq<Json>): seq<Json> {
    if entries == [] then []
    else if entries[0].Obj? then [entries[0]] + Records(entries[1..])
    else Records(entries[1..])
  }

  /** Everything some answers have brought. */
  function Gathered(pages: seq<Page>): seq<Json> {
    if pages == [] then []
    else
      var last := pages[|pages| - 1];
      Gathered(pages[..|pages| - 1]) + (if last.Listing? then Records(last.entries) else [])
  }

  /** The total reported last, if one ever was. */
  function LastTotal(pages: seq<Page>): Option<int> {
    if pages == [] then None
    else
      var last := pages[|pages| - 1];
      if last.Listing? && last.total.Some? then last.total else LastTotal(pages[..|pages| - 1])
  }

  predicate Reached(pages: seq<Page>) {
    LastTotal(pages).None? || |Gathered(pages)| >= LastTotal(pages).value
  }

  /** These are the server's answers to asking, each time, for what follows the records so far. */
  predicate Asked(serve: Server, pages: seq<Page>) {
    pages != [] ==>
      var before := pages[..|pages| - 1];
      Asked(serve, before) && pages[|before|] == serve(|before|, 1 + |Gathered(before)|)
  }

  /** Every page was usable and brought something, and none reached the total. */
  predicate Unfinished(pages: seq<Page>) {
    pages != [] ==>
      var last := pages[|pages| - 1];
      Unfinished(pages[..|pages| - 1]) && last.Listing? && Records(last.entries) != [] && !Reached(pages)
  }

  /** The enumeration went on exactly as long as pages were usable, not empty, and short of the
      total; it is complete if the last one reached the total. */
  predicate Enumerated(serve: Server, pages: seq<Page>, complete: bool) {
    && pages != [] && Asked(serve, pages) && Unfinished(pages[..|pages| - 1]) && !Unfinished(pages)
    && (complete <==> pages[|pages| - 1].Listing? && Reached(pages))
  }

  // ---------------------------------------------------------------- a well-behaved server

  /** Serves contiguous slices of a fixed list, of any length from one up, with its length as total. */
  ghost predicate ServesSlices(serve: Server, list: seq<Json>) {
    && (forall r :: r in list ==> r.Obj?)
    && forall i: nat, s: nat :: 1 <= s <= |list| + 1 ==>
         && serve(i, s).Listing? && serve(i, s).total == Some(|list|)
         && serve(i, s).entries <= list[s - 1..]
         && (s <= |list| ==> serve(i, s).entries != [])
  }

  lemma {:induction false} AllRecords(entries: seq<Json>)
    requires forall r :: r in entries ==> r.Obj?
    ensures Records(entries) == entries
  {
    if entries != [] {
      AllRecords(entries[1..]);
    }
  }

  lemma {:induction false} GathersAPrefix(serve: Server, list: seq<Json>, pages: seq<Page>)
    requires ServesSlices(serve, list) && Asked(serve, pages)
    ensures Gathered(pages) <= list
    ensures pages != [] ==> LastTotal(pages) == Some(|list|)
    ensures pages != [] ==> var last := pages[|pages| - 1];
      last.Listing? && (Records(last.entries) == [] ==> Gathered(pages) == list)
  {
    if pages != [] {
      var n := |pages| - 1;
      GathersAPrefix(serve, list, pages[..n]);
      var so := Gathered(pages[..n]);
      var entries := pages[n].entries;
      assert pages[n] == serve(n, 1 + |so|) && entries <= list[|so|..];
      OneSlice(list, so, entries);
      assert Gathered(pages) == so + entries;
    }
  }

  lemma OneSlice(list: seq<Json>, so: seq<Json>, entries: seq<Json>)
    requires so <= list && entries <= list[|so|..] && forall r :: r in list ==> r.Obj?
    ensures so + entries <= list && Records(entries) == entries
  {
    assert forall r :: r in entries ==> r in list[|so|..] && r in list;
    AllRecords(entries);
  }

  /** Against a well-behaved server, whatever its page size, an ended snapshot is the whole list. */
  lemma WholeList(serve: Server, list: seq<Json>, pages: seq<Page>, complete: bool)
    requires ServesSlices(serve, list) && Enumerated(serve, pages, complete)
    ensures complete && Gathered(pages) == list
  {
    GathersAPrefix(serve, list, pages);
  }

  ghost predicate Whole(serve: Server, list: seq<Json>, resources: seq<Json>, complete: bool) {
    ServesSlices(serve, list) ==> complete && resources == list
  }

  lemma WholeIfSlices(serve: Server, list: seq<Json>, pages: seq<Page>, complete: bool)
    requires Enumerated(serve, pages, complete)
    ensures Whole(serve, list, Gathered(pages), complete)
  {
    if ServesSlices(serve, list) {
      WholeList(serve, list, pages, complete);
    }
  }

  ghost predicate BoundedTotals(serve: Server, bound: nat) {
    forall i, s :: serve(i, s).Listing? && serve(i, s).total.Some? ==> serve(i, s).total.value <= bound
  }

  /** With totals below a bound, more calls than that leave no enumeration unfinished. */
  lemma {:induction false} EndsBelowABound(serve: Server, pages: seq<Page>, bound: nat)
    requires BoundedTotals(serve, bound) && Asked(serve, pages) && Unfinished(pages)
    ensures LastTotal(pages).Some? ==> LastTotal(pages).value <= bound
    ensures |pages| <= |Gathered(pages)| && |pages| <= bound
  {
    if pages != [] {
      EndsBelowABound(serve, pages[..|pages| - 1], bound);
    }
  }

  /** What one more page brings. */
  lemma NextPage(serve: Server, pages: seq<Page>, page: Page)
    requires Asked(serve, pages) && Unfinished(pages) && page == serve(|pages|, 1 + |Gathered(pages)|)
    ensures var next, found := pages + [page], if page.Listing? then Records(page.entries) else [];
      && Asked(serve, next) && Gathered(next) == Gathered(pages) + found
      && LastTotal(next) == (if page.Listing? && page.total.Some? then page.total else LastTotal(pages))
      && (Unfinished(next) <==> page.Listing? && found != [] && !Reached(next))
      && (!Unfinished(next) ==> Enumerated(serve, next, page.Listing? && Reached(next)))
  {
    assert (pages + [page])[..|pages|] == pages;
  }

  /** Asks at most `calls` times, of any server whatever. Either the enumeration has ended,
      with the list itself if the server serves slices of it, or every page so far brought
      something and the total is still ahead. */
  method TakeSnapshot(serve: Server, calls: nat, ghost list: seq<Json>)
    returns (ended: bool, resources: seq<Json>, complete: bool, ghost pages: seq<Page>)
    ensures Asked(serve, pages) && resources == Gathered(pages)
    ensures ended ==> Enumerated(serve, pages, complete)
    ensures ended ==> Whole(serve, list, resources, complete)
    ensures !ended ==> Unfinished(pages) && |pages| == calls
    ensures ended && complete && LastTotal(pages).Some? ==> |resources| >= LastTotal(pages).value
  {
    resources, pages, complete := [], [], false;
    var reported: Option<int> := None;
    var startIndex, call := 1, 0;
    while call < calls
      invariant call == |pages| <= calls && startIndex == 1 + |resources|
      invariant resources == Gathered(pages) && reported == LastTotal(pages)
      invariant Asked(serve, pages) && Unfinished(pages)
    {
      var page := serve(call, startIndex);
      NextPage(serve, pages, page);
      pages := pages + [page];
      if page.Unusable? {
        WholeIfSlices(serve, list, pages, false);
        return true, resources, false, pages;
      }
      var found := Records(page.entries);
      resources := resources + found;
      if page.total.Some? {
        reported := page.total;
      }
      var total := if reported.Some? then reported.value else |resources|;
      if |resources| >= total {
        WholeIfSlices(serve, list, pages, true);
        return true, resources, true, pages;
      }
      if found == [] {
        WholeIfSlices(serve, list, pages, false);
        return true, resources, false, pages;
      }
      startIndex := startIndex + |found|;
      call := call + 1;
    }
    ended := false;
  }
}
