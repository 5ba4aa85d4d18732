/** Following the cursors from page to page, over a fixed table and over one that changes. */
module EventWalk {
  import opened Utf16
  import opened Options
  import opened StableSort
  import opened EventPagination

  /** The cursor of the next request: the last selected row, or the same cursor when there is none. */
  function NextCursor(page: seq<Event>, cursor: Option<Key>): Option<Key> {
    if page != [] then Some(page[|page| - 1].key) else cursor
  }

  // ---------- a fixed table

  /** The cursor of request k. */
  function CursorAt(q: Query, table: seq<Event>, k: nat): Option<Key> {
    if k == 0 then None else NextCursor(Page(q, CursorAt(q, table, k - 1), table), CursorAt(q, table, k - 1))
  }

  function PageAt(q: Query, table: seq<Event>, k: nat): seq<Event> { Page(q, CursorAt(q, table, k), table) }

  function Walked(q: Query, table: seq<Event>, k: nat): seq<Event> {
    if k == 0 then [] else Walked(q, table, k - 1) + PageAt(q, table, k - 1)
  }

  lemma SameOrdered(order: Order, a: seq<Event>, b: seq<Event>)
    requires InOrder(order, a) && InOrder(order, b) && forall e :: e in a <==> e in b
    ensures a == b
  {
    SameFront(order, a, b, |a| + |b|);
  }

  lemma ListedIsOrdered(q: Query, table: seq<Event>)
    requires UniqueIds(table)
    ensures Listed(q, table) == ListedFrom(q, None, table) && InOrder(q.order, Listed(q, table))
  {
    hide UniqueIds, Matches, KeyBefore, InOrder, Sort, Filter;
    var p := (e: Event) => e.kind in q.types && Matches(q, e);
    SortedFilter(q.order, p, table);
    ListedMembers(q, None, table);
    SameOrdered(q.order, Listed(q, table), ListedFrom(q, None, table));
  }

  lemma AfterMember(order: Order, s: seq<Event>, m: nat, e: Event)
    requires InOrder(order, s) && 0 < m <= |s|
    ensures e in s[m..] <==> e in s && KeyBefore(order, s[m - 1].key, e.key)
  {
    if e in s {
      var i :| 0 <= i < |s| && s[i] == e;
      if i >= m { assert s[m..][i - m] == e; }
      if e in s[m..] {
        var j :| 0 <= j < |s[m..]| && s[m..][j] == e;
        assert KeyBefore(order, s[m - 1].key, s[m + j].key);
      }
    }
  }

  /** Seeking past the m-th listed row drops the first m. */
  lemma SeekDrops(q: Query, table: seq<Event>, m: nat)
    requires UniqueIds(table) && 0 < m <= |Listed(q, table)|
    ensures ListedFrom(q, Some(Listed(q, table)[m - 1].key), table) == Listed(q, table)[m..]
  {
    hide UniqueIds, Matches, KeyBefore, Sort, Filter, Listed, ListedFrom;
    var s := Listed(q, table);
    var rest := ListedFrom(q, Some(s[m - 1].key), table);
    ListedIsOrdered(q, table);
    ListedMembers(q, None, table);
    ListedMembers(q, Some(s[m - 1].key), table);
    forall e
      ensures e in rest <==> e in s[m..]
    {
      AfterMember(q.order, s, m, e);
    }
    SameOrdered(q.order, rest, s[m..]);
  }

  /** Where request k starts: `start + k * limit`. */
  function Position(q: Query, k: nat): nat {
    if k == 0 then q.start else Position(q, k - 1) + q.limit
  }

  lemma {:induction false} PositionIs(q: Query, k: nat)
    ensures Position(q, k) == q.start + k * q.limit
  {
    if k > 0 { PositionIs(q, k - 1); }
  }

  function Reached(q: Query, table: seq<Event>, k: nat): nat {
    if |Listed(q, table)| <= Position(q, k) then |Listed(q, table)| else Position(q, k)
  }

  /** Request k gets the `limit` rows after the first `start + k * limit`. */
  lemma {:induction false} CursorReaches(q: Query, table: seq<Event>, k: nat)
    requires UniqueIds(table) && q.limit > 0
    ensures k > 0 && q.start < |Listed(q, table)| ==> Reached(q, table, k) > 0
    ensures CursorAt(q, table, k) == if k == 0 || q.start >= |Listed(q, table)| then None else Some(Listed(q, table)[Reached(q, table, k) - 1].key)
    ensures PageAt(q, table, k) == Take(Skip(Listed(q, table), Position(q, k)), q.limit)
  {
    hide UniqueIds, Listed, ListedFrom, Page, Reached, Position;
    if k == 0 {
      FirstCursor(q, table);
    } else {
      CursorReaches(q, table, k - 1);
      CursorGoesOn(q, table, k);
    }
    PageOfCursor(q, table, k, CursorAt(q, table, k));
  }

  lemma {:induction false} FirstCursor(q: Query, table: seq<Event>)
    ensures CursorAt(q, table, 0) == None
  {
  }

  /** From page k - 1 to the cursor of request k. */
  lemma {:induction false} CursorGoesOn(q: Query, table: seq<Event>, k: nat)
    requires q.limit > 0 && k > 0 && PageAt(q, table, k - 1) == Take(Skip(Listed(q, table), Position(q, k - 1)), q.limit)
    requires k > 1 && q.start < |Listed(q, table)| ==> Reached(q, table, k - 1) > 0
    requires CursorAt(q, table, k - 1) ==
             if k == 1 || q.start >= |Listed(q, table)| then None else Some(Listed(q, table)[Reached(q, table, k - 1) - 1].key)
    ensures q.start < |Listed(q, table)| ==> Reached(q, table, k) > 0
    ensures CursorAt(q, table, k) == if q.start >= |Listed(q, table)| then None else Some(Listed(q, table)[Reached(q, table, k) - 1].key)
  {
    hide Listed, Page;
    PositionGrows(q, k - 1);
    assert CursorAt(q, table, k) == NextCursor(PageAt(q, table, k - 1), CursorAt(q, table, k - 1));
  }

  lemma {:induction false} PageOfCursor(q: Query, table: seq<Event>, k: nat, cursor: Option<Key>)
    requires UniqueIds(table) && q.limit > 0
    requires k > 0 && q.start < |Listed(q, table)| ==> Reached(q, table, k) > 0
    requires cursor == if k == 0 || q.start >= |Listed(q, table)| then None else Some(Listed(q, table)[Reached(q, table, k) - 1].key)
    ensures Page(q, cursor, table) == Take(Skip(Listed(q, table), Position(q, k)), q.limit)
  {
    hide UniqueIds, Listed, ListedFrom, Page;
    PageIsPlain(q, cursor, table);
    ListedIsOrdered(q, table);
    if cursor.Some? { SeekDrops(q, table, Reached(q, table, k)); }
    PlainSlice(q, cursor, table, k);
  }

  lemma {:induction false} PositionGrows(q: Query, k: nat)
    ensures Position(q, k) >= q.start
  {
    if k > 0 { PositionGrows(q, k - 1); }
  }

  lemma {:induction false} PlainSlice(q: Query, cursor: Option<Key>, table: seq<Event>, k: nat)
    requires ListedFrom(q, None, table) == Listed(q, table)
    requires k > 0 && cursor.None? ==> q.start >= |Listed(q, table)|
    requires k == 0 ==> cursor.None?
    requires cursor.Some? ==> ListedFrom(q, cursor, table) == Listed(q, table)[Reached(q, table, k)..]
    ensures PlainPage(q, cursor, table) == Take(Skip(Listed(q, table), Position(q, k)), q.limit)
  {
    hide Listed, ListedFrom;
    PositionGrows(q, k);
  }

  /** The first k pages together are the rows of the plain list after the offset, as far as k
      pages go. */
  lemma {:induction false} WalkVisitsAll(q: Query, table: seq<Event>, k: nat)
    requires UniqueIds(table) && q.limit > 0 && q.start <= |Listed(q, table)|
    ensures q.start <= Reached(q, table, k) && Walked(q, table, k) == Listed(q, table)[q.start..Reached(q, table, k)]
  {
    hide UniqueIds, Listed, PageAt, Take, Skip, CursorAt;
    if k > 0 {
      WalkVisitsAll(q, table, k - 1);
      assert PageAt(q, table, k - 1) == Take(Skip(Listed(q, table), Position(q, k - 1)), q.limit) by { CursorReaches(q, table, k - 1); }
      WalkStep(Listed(q, table), q.start, Position(q, k - 1), q.limit, Walked(q, table, k - 1), PageAt(q, table, k - 1),
               Reached(q, table, k - 1), Reached(q, table, k));
    }
  }

  lemma WalkStep(s: seq<Event>, start: nat, position: nat, limit: nat, walked: seq<Event>, page: seq<Event>, done: nat, next: nat)
    requires start <= |s| && start <= done
    requires done == (if |s| <= position then |s| else position) && next == if |s| <= position + limit then |s| else position + limit
    requires walked == s[start..done] && page == Take(Skip(s, position), limit)
    ensures start <= next && walked + page == s[start..next]
  {
    SlicesMeet(s, start, if position < start then start else position, limit);
  }

  /** The plain list holds exactly the matching rows, each once and in order. */
  lemma PlainList(q: Query, table: seq<Event>)
    requires UniqueIds(table)
    ensures InOrder(q.order, Listed(q, table))
    ensures forall e :: e in Listed(q, table) <==> e in table && e.kind in q.types && Matches(q, e)
  {
    hide UniqueIds, Listed, ListedFrom, Matches, KeyBefore, InOrder;
    ListedIsOrdered(q, table);
    ListedMembers(q, None, table);
  }

  lemma SlicesMeet(s: seq<Event>, start: nat, position: nat, limit: nat)
    requires start <= |s| && start <= position
    ensures var done := if |s| <= position then |s| else position;
            var next := if |s| <= position + limit then |s| else position + limit;
            s[start..done] + Take(Skip(s, position), limit) == s[start..next]
  {
  }

  /** Then comes an empty page. */
  lemma WalkEnds(q: Query, table: seq<Event>, k: nat)
    requires UniqueIds(table) && q.limit > 0 && k >= |Listed(q, table)|
    ensures PageAt(q, table, k) == []
  {
    hide UniqueIds, Listed, Page;
    CursorReaches(q, table, k);
    PositionAtLeast(q, k);
  }

  lemma {:induction false} PositionAtLeast(q: Query, k: nat)
    requires q.limit > 0
    ensures Position(q, k) >= k
  {
    if k > 0 { PositionAtLeast(q, k - 1); }
  }

  // ---------- a table that changes between and within requests

  /** The table when the ids of a page are selected, and the ids whose rows are still there when
      the rows are read. */
  datatype Request = Request(table: seq<Event>, present: set<int>)

  /** The cursor after these requests. */
  function CursorAfter(q: Query, requests: seq<Request>): Option<Key> {
    if requests == [] then None
    else
      var n := |requests| - 1;
      NextCursor(Page(q, CursorAfter(q, requests[..n]), requests[n].table), CursorAfter(q, requests[..n]))
  }

  /** The ids selected by request i. */
  function Selected(q: Query, requests: seq<Request>, i: nat): seq<Event>
    requires i < |requests|
  {
    Page(q, CursorAfter(q, requests[..i]), requests[i].table)
  }

  /** The events that request i returns. */
  function Returned(q: Query, requests: seq<Request>, i: nat): seq<Event>
    requires i < |requests|
  {
    Filter((e: Event) => e.key.id in requests[i].present, Selected(q, requests, i))
  }

  ghost predicate Tables(requests: seq<Request>) {
    forall i :: 0 <= i < |requests| ==> UniqueIds(requests[i].table)
  }

  lemma {:induction false} CursorStep(q: Query, requests: seq<Request>, i: nat)
    requires i < |requests|
    ensures CursorAfter(q, requests[..i + 1]) == NextCursor(Selected(q, requests, i), CursorAfter(q, requests[..i]))
  {
    assert requests[..i + 1][..i] == requests[..i];
  }

  lemma TakeSkipMembers(s: seq<Event>, offset: nat, limit: nat)
    ensures forall e <- Take(Skip(s, offset), limit) :: e in s
  {
  }

  /** A page is in order, and all of it lies past the cursor. */
  lemma PageSound(q: Query, cursor: Option<Key>, table: seq<Event>)
    requires UniqueIds(table)
    ensures InOrder(q.order, Page(q, cursor, table))
    ensures forall e <- Page(q, cursor, table) :: e in table && e.kind in q.types && Matches(q, e) && Seeks(q, cursor, e)
  {
    hide UniqueIds, Matches, Seeks, KeyBefore, ListedFrom, Page, Offset;
    PageIsPlain(q, cursor, table);
    ListedMembers(q, cursor, table);
    TakeSkipMembers(ListedFrom(q, cursor, table), Offset(q, cursor), q.limit);
    TakeSkipOrdered(q.order, ListedFrom(q, cursor, table), Offset(q, cursor), q.limit);
  }

  lemma TakeSkipOrdered(order: Order, s: seq<Event>, offset: nat, limit: nat)
    requires InOrder(order, s)
    ensures InOrder(order, Take(Skip(s, offset), limit))
  {
  }

  lemma KeyOrder(order: Order, a: Key, b: Key, c: Key)
    ensures KeyBefore(order, a, b) && KeyBefore(order, b, c) ==> KeyBefore(order, a, c)
    ensures !KeyBefore(order, a, a)
    ensures a == b || KeyBefore(order, a, b) || KeyBefore(order, b, a)
  {
  }

  /** The cursor has passed `key`. */
  ghost predicate Past(q: Query, cursor: Option<Key>, key: Key) {
    cursor.Some? && (cursor.value == key || KeyBefore(q.order, key, cursor.value))
  }

  lemma LastOfPage(order: Order, page: seq<Event>, e: Event)
    requires InOrder(order, page) && e in page
    ensures e.key == page[|page| - 1].key || KeyBefore(order, e.key, page[|page| - 1].key)
  {
  }

  /** A request passes what it selects, and nothing that was passed comes back. */
  lemma {:induction false} CursorMoves(q: Query, requests: seq<Request>, i: nat, key: Key)
    requires Tables(requests) && i < |requests|
    ensures (exists e <- Selected(q, requests, i) :: e.key == key) ==> Past(q, CursorAfter(q, requests[..i + 1]), key)
    ensures Past(q, CursorAfter(q, requests[..i]), key) ==> Past(q, CursorAfter(q, requests[..i + 1]), key)
  {
    hide UniqueIds, Matches, KeyBefore, CursorAfter, Selected, InOrder;
    var page, cursor := Selected(q, requests, i), CursorAfter(q, requests[..i]);
    CursorStep(q, requests, i);
    SelectedSound(q, requests, i);
    if e :| e in page && e.key == key { LastOfPage(q.order, page, e); }
    if Past(q, cursor, key) && page != [] {
      assert page[|page| - 1] in page;
      assert Seeks(q, cursor, page[|page| - 1]);
      KeyOrder(q.order, key, cursor.value, page[|page| - 1].key);
    }
  }

  lemma {:induction false} SelectedSound(q: Query, requests: seq<Request>, i: nat)
    requires Tables(requests) && i < |requests|
    ensures InOrder(q.order, Selected(q, requests, i))
    ensures forall e <- Selected(q, requests, i) ::
            e in requests[i].table && e.kind in q.types && Matches(q, e) && Seeks(q, CursorAfter(q, requests[..i]), e)
  {
    hide UniqueIds, Matches, Seeks, InOrder, Page, CursorAfter;
    PageSound(q, CursorAfter(q, requests[..i]), requests[i].table);
  }

  lemma {:induction false} StaysPast(q: Query, requests: seq<Request>, i: nat, j: nat, key: Key)
    requires Tables(requests) && i <= j <= |requests| && Past(q, CursorAfter(q, requests[..i]), key)
    ensures Past(q, CursorAfter(q, requests[..j]), key)
  {
    hide UniqueIds, Past, CursorAfter;
    if i < j {
      StaysPast(q, requests, i, j - 1, key);
      CursorMoves(q, requests, j - 1, key);
    }
  }

  /** Whatever is inserted or deleted in between: keys grow strictly from page to page, so no row
      comes twice. */
  lemma KeysGrow(q: Query, requests: seq<Request>, i: nat, j: nat, e: Event, f: Event)
    requires Tables(requests) && i < j < |requests| && e in Selected(q, requests, i) && f in Selected(q, requests, j)
    ensures KeyBefore(q.order, e.key, f.key)
  {
    hide UniqueIds, Matches, KeyBefore, CursorAfter, Selected, InOrder;
    CursorMoves(q, requests, i, e.key);
    StaysPast(q, requests, i + 1, j, e.key);
    SelectedSound(q, requests, j);
    assert Seeks(q, CursorAfter(q, requests[..j]), f);
    KeyOrder(q.order, e.key, CursorAfter(q, requests[..j]).value, f.key);
  }

  // ---------- nothing that stays is missed

  /** The event is in the table at every request, and its row is still there when it is read. */
  ghost predicate Throughout(requests: seq<Request>, x: Event) {
    forall i :: 0 <= i < |requests| ==> x in requests[i].table && x.key.id in requests[i].present
  }

  /** The event is still to come. */
  ghost predicate Ahead(q: Query, cursor: Option<Key>, x: Event) { cursor.Some? && KeyBefore(q.order, cursor.value, x.key) }

  lemma PageOrAhead(order: Order, listed: seq<Event>, limit: nat, x: Event)
    requires InOrder(order, listed) && x in listed && limit > 0
    ensures var page := Take(listed, limit); page != [] && (x in page || KeyBefore(order, page[|page| - 1].key, x.key))
  {
    var i :| 0 <= i < |listed| && listed[i] == x;
    var page := Take(listed, limit);
    if i < |page| { assert page[i] == x; } else { assert KeyBefore(order, listed[|page| - 1].key, listed[i].key); }
  }

  /** A request selects an event that is ahead, or leaves it ahead of the next cursor. */
  lemma {:induction false} SelectedOrAhead(q: Query, requests: seq<Request>, i: nat, x: Event)
    requires Tables(requests) && Throughout(requests, x) && i < |requests| && q.limit > 0 && x.kind in q.types && Matches(q, x)
    requires if i == 0 then x in Skip(Listed(q, requests[0].table), q.start) else Ahead(q, CursorAfter(q, requests[..i]), x)
    ensures Selected(q, requests, i) != []
    ensures x in Selected(q, requests, i) || Ahead(q, CursorAfter(q, requests[..i + 1]), x)
  {
    hide UniqueIds, Matches, KeyBefore, InOrder, Listed, ListedFrom, Take, Skip, Page;
    var cursor, table := CursorAfter(q, requests[..i]), requests[i].table;
    PageIsPlain(q, cursor, table);
    ListedIsOrdered(q, table);
    ListedMembers(q, cursor, table);
    CursorStep(q, requests, i);
    var rest := Skip(ListedFrom(q, cursor, table), Offset(q, cursor));
    if i > 0 { SkipNothing(ListedFrom(q, cursor, table)); }
    SkipOrdered(q.order, ListedFrom(q, cursor, table), Offset(q, cursor));
    PageOrAhead(q.order, rest, q.limit, x);
  }

  lemma SkipNothing(s: seq<Event>)
    ensures Skip(s, 0) == s
  {
  }

  lemma SkipOrdered(order: Order, s: seq<Event>, n: nat)
    requires InOrder(order, s)
    ensures InOrder(order, Skip(s, n))
  {
  }

  /** Every event past the first page's offset that is there throughout is returned by one of the
      requests, once an empty page is reached. */
  lemma {:induction false} NothingMissed(q: Query, requests: seq<Request>, n: nat, x: Event)
    requires Tables(requests) && Throughout(requests, x) && q.limit > 0 && x.kind in q.types && Matches(q, x)
    requires 0 < n <= |requests| && x in Skip(Listed(q, requests[0].table), q.start)
    ensures (exists i :: 0 <= i < n && x in Returned(q, requests, i)) || Ahead(q, CursorAfter(q, requests[..n]), x)
    ensures Selected(q, requests, n - 1) == [] ==> exists i :: 0 <= i < n && x in Returned(q, requests, i)
  {
    hide UniqueIds, Matches, KeyBefore, CursorAfter, Selected, Listed, Skip, Ahead;
    if n > 1 { NothingMissed(q, requests, n - 1, x); }
    if n == 1 || Ahead(q, CursorAfter(q, requests[..n - 1]), x) {
      SelectedOrAhead(q, requests, n - 1, x);
      if x in Selected(q, requests, n - 1) { assert x in Returned(q, requests, n - 1); }
    }
  }

  // ---------- pages in numbers

  /** Earlier by date, and by id among equal dates. */
  predicate Earlier(a: Event, b: Event) {
    a.key.created < b.key.created || (a.key.created == b.key.created && a.key.id < b.key.id)
  }

  /** An ascending page goes forward in time, a descending one backward. */
  lemma PageDirection(q: Query, cursor: Option<Key>, table: seq<Event>, i: nat, j: nat)
    requires UniqueIds(table) && i < j < |Page(q, cursor, table)|
    ensures q.order.Ascending? ==> Earlier(Page(q, cursor, table)[i], Page(q, cursor, table)[j])
    ensures q.order.Descending? ==> Earlier(Page(q, cursor, table)[j], Page(q, cursor, table)[i])
  {
    hide UniqueIds, Page;
    PageSound(q, cursor, table);
  }

  /** Every row of a page is of the site, of one of the kinds and strictly between the two dates, and
      lies behind the cursor in the direction of the page. */
  lemma PageRows(q: Query, cursor: Option<Key>, table: seq<Event>, e: Event)
    requires UniqueIds(table) && e in Page(q, cursor, table)
    ensures e in table && e.siteId == q.siteId && e.kind in q.types && q.begin < e.key.created < q.end
    ensures cursor.Some? && q.order.Ascending? ==>
            e.key.created > cursor.value.created || (e.key.created == cursor.value.created && e.key.id > cursor.value.id)
    ensures cursor.Some? && q.order.Descending? ==>
            e.key.created < cursor.value.created || (e.key.created == cursor.value.created && e.key.id < cursor.value.id)
    ensures |Page(q, cursor, table)| <= q.limit
  {
    hide UniqueIds, ListedFrom, Offset;
    PageSound(q, cursor, table);
  }

  /** What a page without an offset leaves out: rows that do not match, rows that the cursor has
      passed, and rows beyond a full page. */
  lemma {:induction false} PageLeavesOut(q: Query, cursor: Option<Key>, table: seq<Event>, e: Event)
    requires UniqueIds(table) && (cursor.Some? || q.start == 0) && e in table && e !in Page(q, cursor, table)
    requires e.siteId == q.siteId && e.kind in q.types && q.begin < e.key.created < q.end
    requires cursor.None? || if q.order.Ascending? then Earlier(Event(cursor.value, e.kind, e.siteId), e) else Earlier(e, Event(cursor.value, e.kind, e.siteId))
    ensures |Page(q, cursor, table)| == q.limit
    ensures forall x <- Page(q, cursor, table) :: if q.order.Ascending? then Earlier(x, e) else Earlier(e, x)
  {
    hide UniqueIds, Filter, Sort, Listed, ListedFrom, InOrder, Page;
    PageIsPlain(q, cursor, table);
    ListedMembers(q, cursor, table);
    SkipNothing(ListedFrom(q, cursor, table));
    TakeFront(q.order, ListedFrom(q, cursor, table), q.limit);
  }

  /** A walk through all pages goes one way, too. */
  lemma {:induction false} WalkDirection(q: Query, table: seq<Event>, k: nat, i: nat, j: nat)
    requires UniqueIds(table) && q.limit > 0 && q.start <= |Listed(q, table)| && i < j < |Walked(q, table, k)|
    ensures q.order.Ascending? ==> Earlier(Walked(q, table, k)[i], Walked(q, table, k)[j])
    ensures q.order.Descending? ==> Earlier(Walked(q, table, k)[j], Walked(q, table, k)[i])
  {
    hide UniqueIds, Walked, Listed, Position;
    WalkVisitsAll(q, table, k);
    PlainList(q, table);
    var all := Listed(q, table);
    assert Walked(q, table, k)[i] == all[q.start + i] && Walked(q, table, k)[j] == all[q.start + j];
  }
}
