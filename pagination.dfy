/**
 * Cursor-following pagination, the loop shared by `backup_list`,
 * `get_followers` and `get_likes`: what the server holds, how it answers
 * one request, and what a complete walk sends and collects.
 */
module Pagination {
  import opened Wrappers

  type Cursor = string

  /** One response of a paginated endpoint: its items and, when more follow, a cursor. */
  datatype Page<T> = Page(items: seq<T>, cursor: Option<Cursor>)

  /**
   * The server never hands out the same cursor twice for one collection,
   * so a cursor names one position in it.
   */
  predicate DistinctCursors<T>(pages: seq<Page<T>>) {
    forall i, j :: 0 <= i < j < |pages| && pages[i].cursor.Some? ==> pages[i].cursor != pages[j].cursor
  }

  /** The page that follows the page which returned cursor c, if any. */
  function PageAfter<T>(pages: seq<Page<T>>, c: Cursor): Option<Page<T>>
    decreases |pages|
  {
    if |pages| < 2 then None
    else if pages[0].cursor == Some(c) then Some(pages[1])
    else PageAfter(pages[1..], c)
  }

  /**
   * The server's answer to one request on a collection whose pages, in
   * order, are `pages`: no cursor asks for the first page; a cursor asks for
   * the page after the one that returned it. None is a failed request.
   */
  function Serve<T>(pages: seq<Page<T>>, cursor: Option<Cursor>): Option<Page<T>> {
    match cursor
    case None => if pages == [] then None else Some(pages[0])
    case Some(c) => PageAfter(pages, c)
  }

  /** With distinct cursors, the cursor of page k leads to page k + 1, and nowhere after the last page. */
  lemma {:induction false} PageAfterCursor<T>(pages: seq<Page<T>>, k: nat)
    requires DistinctCursors(pages)
    requires k < |pages| && pages[k].cursor.Some?
    ensures PageAfter(pages, pages[k].cursor.value) == if k + 1 < |pages| then Some(pages[k + 1]) else None
    decreases k
  {
    var c := pages[k].cursor.value;
    if k > 0 {
      assert pages[0].cursor != Some(c);
      var tail := pages[1..];
      assert DistinctCursors(tail) by {
        forall i, j | 0 <= i < j < |tail| && tail[i].cursor.Some?
          ensures tail[i].cursor != tail[j].cursor
        {
          assert tail[i] == pages[i + 1] && tail[j] == pages[j + 1];
        }
      }
      assert tail[k - 1] == pages[k];
      PageAfterCursor(tail, k - 1);
    }
  }

  /** Index of the first page without a cursor; |pages| when every page has one. */
  function FirstLast<T>(pages: seq<Page<T>>): (n: nat)
    ensures n <= |pages|
    ensures forall i :: 0 <= i < n ==> pages[i].cursor.Some?
    ensures n < |pages| ==> pages[n].cursor.None?
    decreases |pages|
  {
    if pages == [] || pages[0].cursor.None? then 0 else 1 + FirstLast(pages[1..])
  }

  /** Some page ends the collection, so a walk over it finishes without a failed request. */
  predicate Complete<T>(pages: seq<Page<T>>) {
    FirstLast(pages) < |pages|
  }

  /** Number of pages a walk receives: up to and including the first one without a cursor. */
  function Consumed<T>(pages: seq<Page<T>>): nat {
    if Complete(pages) then FirstLast(pages) + 1 else |pages|
  }

  /** Number of requests a walk sends; one more than it receives when the last one fails. */
  function RequestCount<T>(pages: seq<Page<T>>): nat {
    if Complete(pages) then FirstLast(pages) + 1 else |pages| + 1
  }

  /** The cursor the request after k received pages carries: none at first, then the last page's. */
  function NextCursor<T>(pages: seq<Page<T>>, k: nat): Option<Cursor>
    requires k <= |pages|
  {
    if k == 0 then None else pages[k - 1].cursor
  }

  /** The cursors of the first n requests. */
  function SentCursors<T>(pages: seq<Page<T>>, n: nat): seq<Option<Cursor>>
    requires n <= |pages| + 1
  {
    seq(n, i requires 0 <= i <= |pages| => NextCursor(pages, i))
  }

  /** The cursors of every request a walk sends, in order. */
  function Requests<T>(pages: seq<Page<T>>): seq<Option<Cursor>> {
    SentCursors(pages, RequestCount(pages))
  }

  /** All items of the given pages, page after page. */
  function Flatten<T>(pages: seq<Page<T>>): seq<T> {
    if pages == [] then [] else pages[0].items + Flatten(pages[1..])
  }

  /** The items a walk emits: those of every page it receives, in order. */
  function Collected<T>(pages: seq<Page<T>>): seq<T> {
    Flatten(pages[..Consumed(pages)])
  }

  /** The DID of each item, in order. */
  function Dids<T>(items: seq<T>, did: T -> string): (ds: seq<string>)
    ensures |ds| == |items|
    ensures forall i :: 0 <= i < |items| ==> ds[i] == did(items[i])
  {
    if items == [] then [] else [did(items[0])] + Dids(items[1..], did)
  }

  /** The text written for the items: one line `did + '\n'` per item. */
  function Dump<T>(items: seq<T>, did: T -> string): string {
    if items == [] then [] else did(items[0]) + "\n" + Dump(items[1..], did)
  }

  /**
   * When the walk has received k pages, all with a cursor, its next request
   * is answered with page k, or fails when there is none.
   */
  lemma ServeNext<T>(pages: seq<Page<T>>, k: nat)
    requires DistinctCursors(pages)
    requires k <= |pages| && forall i :: 0 <= i < k ==> pages[i].cursor.Some?
    ensures Serve(pages, NextCursor(pages, k)) == if k < |pages| then Some(pages[k]) else None
  {
    if k > 0 {
      PageAfterCursor(pages, k - 1);
    }
  }

  /**
   * The request protocol: the first request has no cursor, every later one
   * carries the cursor of the page just before it, and the walk stops right
   * after the first page without a cursor.
   */
  lemma RequestsFollowCursors<T>(pages: seq<Page<T>>)
    ensures var r := Requests(pages);
      && |r| >= 1 && r[0] == None
      && (forall i :: 1 <= i < |r| ==> i - 1 < |pages| && r[i] == pages[i - 1].cursor && r[i].Some?)
      && (Complete(pages) ==> |r| == Consumed(pages) && pages[|r| - 1].cursor.None?)
      && (!Complete(pages) ==> |r| == |pages| + 1)
  {
  }

  /** Next request's cursors extend the ones sent so far. */
  lemma SentCursorsNext<T>(pages: seq<Page<T>>, k: nat)
    requires k <= |pages|
    ensures SentCursors(pages, k + 1) == SentCursors(pages, k) + [NextCursor(pages, k)]
  {
  }

  lemma {:induction false} FlattenAppend<T>(a: seq<Page<T>>, b: seq<Page<T>>)
    ensures Flatten(a + b) == Flatten(a) + Flatten(b)
    decreases |a|
  {
    if a == [] {
      assert a + b == b;
    } else {
      FlattenAppend(a[1..], b);
      assert (a + b)[1..] == a[1..] + b;
    }
  }

  /** Receiving page k adds exactly its items, after those received before. */
  lemma FlattenNext<T>(pages: seq<Page<T>>, k: nat)
    requires k < |pages|
    ensures Flatten(pages[..k + 1]) == Flatten(pages[..k]) + pages[k].items
  {
    assert pages[..k + 1] == pages[..k] + [pages[k]];
    FlattenAppend(pages[..k], [pages[k]]);
    assert Flatten([pages[k]]) == pages[k].items + Flatten([]);
  }

  lemma {:induction false} DumpAppend<T>(a: seq<T>, b: seq<T>, did: T -> string)
    ensures Dump(a + b, did) == Dump(a, did) + Dump(b, did)
    decreases |a|
  {
    if a == [] {
      assert a + b == b;
    } else {
      DumpAppend(a[1..], b, did);
      assert (a + b)[1..] == a[1..] + b;
    }
  }

  /** Writing item j after the first j appends its one line. */
  lemma DumpNext<T>(items: seq<T>, j: nat, did: T -> string)
    requires j < |items|
    ensures Dump(items[..j + 1], did) == Dump(items[..j], did) + did(items[j]) + "\n"
  {
    assert items[..j + 1] == items[..j] + [items[j]];
    DumpAppend(items[..j], [items[j]], did);
  }

  /** Receiving page k appends that page's lines to what the walk has written. */
  lemma DumpNextPage<T>(pages: seq<Page<T>>, k: nat, did: T -> string)
    requires k < |pages|
    ensures Dump(Flatten(pages[..k + 1]), did) == Dump(Flatten(pages[..k]), did) + Dump(pages[k].items, did)
  {
    FlattenNext(pages, k);
    DumpAppend(Flatten(pages[..k]), pages[k].items, did);
  }

  /**
   * A well-formed collection, every page but the last with a cursor, is
   * walked to its end: every page's items are emitted, the last page's
   * included, and one request is sent per page.
   */
  lemma ChainCollectsAll<T>(pages: seq<Page<T>>)
    requires |pages| >= 1 && pages[|pages| - 1].cursor.None?
    requires forall i :: 0 <= i < |pages| - 1 ==> pages[i].cursor.Some?
    ensures Complete(pages) && Consumed(pages) == |pages|
    ensures Collected(pages) == Flatten(pages)
    ensures |Requests(pages)| == |pages|
  {
    assert pages[..|pages|] == pages;
  }

  /** A walk that has received k pages and finds no cursor on the last of them has sent all its requests and emitted all its items. */
  lemma WalkEnded<T>(pages: seq<Page<T>>, k: nat)
    requires 1 <= k <= |pages| && pages[k - 1].cursor.None?
    requires forall i :: 0 <= i < k - 1 ==> pages[i].cursor.Some?
    ensures Complete(pages) && Consumed(pages) == k
    ensures Requests(pages) == SentCursors(pages, k)
    ensures Collected(pages) == Flatten(pages[..k])
  {
    assert FirstLast(pages) == k - 1;
  }

  /** A walk whose every received page carried a cursor, with none left to serve, ends on a failed request. */
  lemma WalkFailed<T>(pages: seq<Page<T>>)
    requires forall i :: 0 <= i < |pages| ==> pages[i].cursor.Some?
    ensures !Complete(pages)
    ensures Requests(pages) == SentCursors(pages, |pages| + 1)
    ensures Collected(pages) == Flatten(pages[..|pages|])
  {
  }

  /** The first page's items are a prefix of everything a walk collects, and all of it when that page is the last. */
  lemma FirstPagePrefix<T>(pages: seq<Page<T>>)
    requires pages != []
    ensures pages[0].items <= Collected(pages)
    ensures pages[0].cursor.None? ==> Collected(pages) == pages[0].items
  {
    var n := Consumed(pages);
    assert n >= 1;
    assert pages[..n][0] == pages[0];
    if pages[0].cursor.None? {
      assert n == 1;
      assert Flatten(pages[..1]) == pages[0].items + Flatten([]);
    }
  }
}
