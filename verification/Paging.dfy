/**
Listing the snapshots of a sandbox: the runtime collects them from a hash map in any order and sorts
them, the API serves them page by page behind a cursor.

Ids are numbers here; what matters of their text is that it orders them totally.
*/
module SnapshotPaging {
  import opened Core

  datatype Handle = Handle(id: nat, source: nat, createdAt: nat)

  /** Creation time first, id second. */
  predicate Before(a: Handle, b: Handle) {
    a.createdAt < b.createdAt || (a.createdAt == b.createdAt && a.id < b.id)
  }

  predicate Ordered(list: seq<Handle>) {
    forall i, j | 0 <= i < j < |list| :: Before(list[i], list[j])
  }

  // ------------------------------------------------------------------------------- the runtime

  /** The snapshot map lists each artifact under its own id. */
  predicate Keyed(snapshots: map<nat, Handle>) { forall id | id in snapshots :: snapshots[id].id == id }

  /** `list` shows the snapshots of `source`, all of them, once each, in order. */
  ghost predicate IsListing(list: seq<Handle>, snapshots: map<nat, Handle>, source: nat) {
    && Ordered(list)
    && forall h :: h in list <==> h.id in snapshots && snapshots[h.id] == h && h.source == source
  }

  lemma PrependOrdered(h: Handle, list: seq<Handle>)
    requires Ordered(list) && forall other | other in list :: Before(h, other)
    ensures Ordered([h] + list)
  {
    forall j | 0 < j < |[h] + list| ensures Before(h, ([h] + list)[j]) {
      assert list[j - 1] in list;
    }
  }

  /** The comparison sort of the standard library, seen as insertion. */
  function Insert(list: seq<Handle>, h: Handle): (r: seq<Handle>)
    requires Ordered(list) && h !in list
    requires forall other | other in list :: other.id != h.id
    ensures Ordered(r) && forall x :: x in r <==> x in list || x == h
  {
    if list == [] then [h]
    else if Before(h, list[0]) then
      [h] + list
    else
      var rest := Insert(list[1..], h);
      assert list == [list[0]] + list[1..];
      PrependOrdered(list[0], rest);
      [list[0]] + rest
  }

  method ListSnapshots(snapshots: map<nat, Handle>, source: nat) returns (list: seq<Handle>)
    requires Keyed(snapshots)
    ensures IsListing(list, snapshots, source)
  {
    list := [];
    var todo := snapshots.Keys;
    while todo != {}
      invariant todo <= snapshots.Keys && Ordered(list)
      invariant forall h ::
        h in list <==> h.id in snapshots && h.id !in todo && snapshots[h.id] == h && h.source == source
      decreases todo
    {
      var id :| id in todo;
      todo := todo - {id};
      if snapshots[id].source == source {
        list := Insert(list, snapshots[id]);
      }
    }
  }

  /** Two ordered lists with the same elements are equal, so the listing does not depend on the map's order. */
  lemma {:induction false} OrderedUnique(a: seq<Handle>, b: seq<Handle>)
    requires Ordered(a) && Ordered(b) && forall h :: h in a <==> h in b
    ensures a == b
  {
    if a == [] || b == [] {
      SomeElement(a);
      SomeElement(b);
    } else {
      assert a[0] in b && b[0] in a;
      assert a[0] == b[0];
      forall h ensures h in a[1..] <==> h in b[1..] {
        assert h in a[1..] <==> h in a && h != a[0] by { HeadOnce(a, h); }
        assert h in b[1..] <==> h in b && h != b[0] by { HeadOnce(b, h); }
      }
      OrderedUnique(a[1..], b[1..]);
      assert a == [a[0]] + a[1..] && b == [b[0]] + b[1..];
    }
  }

  lemma SomeElement(a: seq<Handle>)
    ensures a != [] ==> exists h :: h in a
  {
    if a != [] {
      assert a[0] in a;
    }
  }

  lemma HeadOnce(a: seq<Handle>, h: Handle)
    requires a != [] && Ordered(a)
    ensures h in a[1..] <==> h in a && h != a[0]
  {
    assert a == [a[0]] + a[1..];
  }

  lemma ListingUnique(a: seq<Handle>, b: seq<Handle>, snapshots: map<nat, Handle>, source: nat)
    requires IsListing(a, snapshots, source) && IsListing(b, snapshots, source)
    ensures a == b
  {
    OrderedUnique(a, b);
  }

  // ----------------------------------------------------------------------------------- the API

  datatype PageError = BadLimit | BadCursor

  datatype Page = Page(items: seq<Handle>, next: Option<nat>)

  function Position(list: seq<Handle>, id: nat): (r: Option<nat>)
    ensures r.Some? ==> r.value < |list| && list[r.value].id == id
    ensures r.None? <==> forall i | 0 <= i < |list| :: list[i].id != id
  {
    if list == [] then None
    else if list[0].id == id then Some(0)
    else match Position(list[1..], id)
         case None => assert forall i | 1 <= i < |list| :: list[i] == list[1..][i - 1]; None
         case Some(i) => Some(i + 1)
  }

  /** The index after the cursor's. */
  function Start(list: seq<Handle>, cursor: Option<nat>): (start: nat)
    requires cursor.Some? ==> Position(list, cursor.value).Some?
    ensures start <= |list|
    ensures cursor.Some? ==> start > 0 && list[start - 1].id == cursor.value
  {
    if cursor.Some? then Position(list, cursor.value).value + 1 else 0
  }

  function ServePage(list: seq<Handle>, cursor: Option<nat>, limit: int): (r: Result<Page, PageError>)
    ensures r.Err? <==>
      !(1 <= limit <= 100) || (cursor.Some? && forall i | 0 <= i < |list| :: list[i].id != cursor.value)
  {
    if !(1 <= limit <= 100) then Err(BadLimit) else
    if cursor.Some? && Position(list, cursor.value).None? then Err(BadCursor) else
    var start := Start(list, cursor);
    var end := Min(start + limit, |list|);
    Ok(Page(list[start..end], if end < |list| then Some(list[end - 1].id) else None))
  }

  // ------------------------------------------------------------------------------- the client

  predicate DistinctIds(list: seq<Handle>) {
    forall i, j | 0 <= i < j < |list| :: list[i].id != list[j].id
  }

  /** A client that follows the cursors of a fixed listing gets exactly that listing, with any limits. */
  method FetchAll(list: seq<Handle>, limits: nat -> nat) returns (all: seq<Handle>)
    requires DistinctIds(list) && forall n :: 1 <= limits(n) <= 100
    ensures all == list
  {
    all := [];
    var cursor: Option<nat>, more, n := None, true, 0;
    while more
      invariant all <= list
      invariant more && cursor.None? ==> all == []
      invariant more && cursor.Some? ==> 0 < |all| < |list| && list[|all| - 1].id == cursor.value
      invariant !more ==> all == list
      decreases more, |list| - |all|
    {
      var page := ServePage(list, cursor, limits(n));
      assert page.Ok?;
      all := all + page.value.items;
      cursor, more, n := page.value.next, page.value.next.Some?, n + 1;
    }
  }

  /** An exchange in which the listing may have changed between the pages; the last page has no cursor. */
  datatype Fetch = Fetch(list: seq<Handle>, limit: int)

  ghost predicate Exchange(fetches: seq<Fetch>, cursor: Option<nat>, pages: seq<Page>)
    decreases |fetches|
  {
    && |fetches| == |pages| && fetches != []
    && ServePage(fetches[0].list, cursor, fetches[0].limit) == Ok(pages[0])
    && (if |pages| == 1 then pages[0].next.None?
        else pages[0].next.Some? && Exchange(fetches[1..], pages[0].next, pages[1..]))
  }

  function Items(pages: seq<Page>): seq<Handle> {
    if pages == [] then [] else pages[0].items + Items(pages[1..])
  }

  ghost predicate ListOk(list: seq<Handle>, registry: map<nat, Handle>) {
    Ordered(list) && forall h | h in list :: h.id in registry && registry[h.id] == h
  }

  /** Every listing is ordered and shows the handles of one registry, since a snapshot never changes. */
  ghost predicate Drawn(fetches: seq<Fetch>, registry: map<nat, Handle>) {
    forall f | f in fetches :: ListOk(f.list, registry)
  }

  predicate After(cursor: Option<nat>, registry: map<nat, Handle>, h: Handle) {
    cursor.Some? ==> cursor.value in registry && Before(registry[cursor.value], h)
  }

  /** Past the cursor's handle in the order is past the cursor's index. */
  lemma AfterStart(list: seq<Handle>, cursor: Option<nat>, registry: map<nat, Handle>, i: nat)
    requires ListOk(list, registry)
    requires cursor.Some? ==> Position(list, cursor.value).Some?
    requires i < |list|
    ensures After(cursor, registry, list[i]) <==> i >= Start(list, cursor)
  {
    if cursor.Some? {
      var start := Start(list, cursor);
      assert list[start - 1] in list;
      if i < start - 1 {
        assert Before(list[i], list[start - 1]);
      }
    }
  }

  /** `page` is what follows `start`, and its cursor is its last handle unless it ends the list. */
  predicate Follows(list: seq<Handle>, start: nat, page: Page) {
    var end := start + |page.items|;
    && end <= |list| && page.items == list[start..end]
    && (page.next.None? ==> end == |list|)
    && (page.next.Some? ==> start < end && list[end - 1].id == page.next.value)
  }

  lemma PageFollows(list: seq<Handle>, cursor: Option<nat>, limit: int, page: Page)
    requires ServePage(list, cursor, limit) == Ok(page)
    ensures cursor.Some? ==> Position(list, cursor.value).Some?
    ensures Follows(list, Start(list, cursor), page)
  {}

  lemma PageItems(list: seq<Handle>, cursor: Option<nat>, page: Page, registry: map<nat, Handle>)
    requires ListOk(list, registry) && (cursor.Some? ==> Position(list, cursor.value).Some?)
    requires Follows(list, Start(list, cursor), page)
    ensures Ordered(page.items)
    ensures forall h | h in page.items :: After(cursor, registry, h)
    ensures page.next.Some? ==>
      && page.items != [] && page.next.value in registry
      && registry[page.next.value] == page.items[|page.items| - 1]
  {
    var start := Start(list, cursor);
    var end := start + |page.items|;
    if page.next.Some? {
      assert list[end - 1] in list;
    }
    forall k | 0 <= k < |page.items| ensures After(cursor, registry, page.items[k]) {
      AfterStart(list, cursor, registry, start + k);
    }
  }

  /** Up to its own cursor, a page passes nothing of the listing over. */
  lemma PagePassesNothing(list: seq<Handle>, cursor: Option<nat>, page: Page, registry: map<nat, Handle>, h: Handle)
    requires ListOk(list, registry) && (cursor.Some? ==> Position(list, cursor.value).Some?)
    requires Follows(list, Start(list, cursor), page)
    requires h in list && After(cursor, registry, h)
    ensures h in page.items || (page.next.Some? && After(page.next, registry, h))
  {
    var start := Start(list, cursor);
    var end := start + |page.items|;
    var i: nat :| i < |list| && list[i] == h;
    AfterStart(list, cursor, registry, i);
    if i < end {
      assert page.items[i - start] == h;
    } else {
      assert list[end - 1] in list && Before(list[end - 1], list[i]);
    }
  }

  lemma ConcatOrdered(head: seq<Handle>, tail: seq<Handle>)
    requires Ordered(head) && Ordered(tail) && head != []
    requires forall h | h in tail :: Before(head[|head| - 1], h)
    ensures Ordered(head + tail)
  {
    forall i, j | 0 <= i < j < |head + tail| ensures Before((head + tail)[i], (head + tail)[j]) {
      if i < |head| <= j {
        assert tail[j - |head|] in tail;
      }
    }
  }

  /** Whatever is created or deleted between the pages of an exchange: no snapshot is shown twice, the
      pages together are in order, and a snapshot that is listed throughout is shown. */
  lemma {:induction false} NothingTwiceNothingMissed(
      fetches: seq<Fetch>, cursor: Option<nat>, pages: seq<Page>, registry: map<nat, Handle>)
    requires Exchange(fetches, cursor, pages) && Drawn(fetches, registry)
    ensures Ordered(Items(pages))
    ensures forall h | h in Items(pages) :: After(cursor, registry, h)
    ensures forall h | After(cursor, registry, h) && (forall f | f in fetches :: h in f.list) :: h in Items(pages)
    decreases |pages|
  {
    assert fetches[0] in fetches;
    PageFollows(fetches[0].list, cursor, fetches[0].limit, pages[0]);
    PageItems(fetches[0].list, cursor, pages[0], registry);
    forall h | h in fetches[0].list && After(cursor, registry, h)
      ensures h in pages[0].items || (pages[0].next.Some? && After(pages[0].next, registry, h))
    {
      PagePassesNothing(fetches[0].list, cursor, pages[0], registry, h);
    }
    if |pages| == 1 {
      assert pages[1..] == [];
    } else {
      forall f | f in fetches[1..] ensures f in fetches {}
      NothingTwiceNothingMissed(fetches[1..], pages[0].next, pages[1..], registry);
      forall h | After(cursor, registry, h) && (forall f | f in fetches :: h in f.list) ensures h in Items(pages) {
        assert h in fetches[0].list;
        assert forall f | f in fetches[1..] :: h in f.list;
      }
      var last := registry[pages[0].next.value];
      ConcatOrdered(pages[0].items, Items(pages[1..]));
      forall h | h in Items(pages[1..]) ensures After(cursor, registry, h) {
        assert After(cursor, registry, last);
      }
    }
  }
}
