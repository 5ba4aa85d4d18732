/** Pages of events by a (created, id) cursor. Each page is put together from one stream per event
    type that is cut short; it is the page of the plain list, and following the cursors walks
    through that list. Ids are numbered in the database's order of ids. */
module EventPagination {
  import opened Utf16
  import opened Options
  import opened StableSort

  datatype Key = Key(created: int, id: int)

  /** A notification row with what its joins say: the site of its batch. */
  datatype Event = Event(key: Key, kind: Text, siteId: Text)

  datatype Order = Ascending | Descending

  predicate KeyLess(a: Key, b: Key) { a.created < b.created || (a.created == b.created && a.id < b.id) }

  /** The comparator of `ORDER BY created, id` and of the seek condition. */
  predicate KeyBefore(order: Order, a: Key, b: Key) {
    if order.Ascending? then KeyLess(a, b) else KeyLess(b, a)
  }

  function Before(order: Order): (Event, Event) -> bool { (a: Event, b: Event) => KeyBefore(order, a.key, b.key) }

  datatype Query = Query(types: seq<Text>, siteId: Text, begin: int, end: int, order: Order, limit: nat, start: nat)

  predicate Matches(q: Query, e: Event) { e.siteId == q.siteId && q.begin < e.key.created < q.end }

  predicate Seeks(q: Query, cursor: Option<Key>, e: Event) { cursor.None? || KeyBefore(q.order, cursor.value, e.key) }

  function Filter(p: Event -> bool, s: seq<Event>): (r: seq<Event>)
    ensures forall e :: e in r <==> e in s && p(e)
  {
    if s == [] then []
    else
      assert s == [s[0]] + s[1..];
      if p(s[0]) then [s[0]] + Filter(p, s[1..]) else Filter(p, s[1..])
  }

  function Take(s: seq<Event>, n: nat): seq<Event> { if |s| <= n then s else s[..n] }

  function Skip(s: seq<Event>, n: nat): seq<Event> { if |s| <= n then [] else s[n..] }

  // ---------- the two ways to make a page

  function Offset(q: Query, cursor: Option<Key>): nat { if cursor.Some? then 0 else q.start }

  predicate InBranch(q: Query, cursor: Option<Key>, kind: Text, e: Event) { e.kind == kind && Matches(q, e) && Seeks(q, cursor, e) }

  /** One arm of the UNION: the first rows of one type. */
  function Branch(q: Query, cursor: Option<Key>, kind: Text, table: seq<Event>): seq<Event> {
    Take(Sort(Before(q.order), Filter((e: Event) => InBranch(q, cursor, kind, e), table)), Offset(q, cursor) + q.limit)
  }

  /** `[...new Set(types)]`. */
  function Distinct(types: seq<Text>): (r: seq<Text>)
    ensures NoDuplicates(r) && forall t :: t in r <==> t in types
  {
    if types == [] then []
    else
      var n := |types| - 1;
      assert types == types[..n] + [types[n]];
      if types[n] in Distinct(types[..n]) then Distinct(types[..n]) else Distinct(types[..n]) + [types[n]]
  }

  function Union(q: Query, cursor: Option<Key>, types: seq<Text>, table: seq<Event>): seq<Event> {
    if types == [] then [] else Branch(q, cursor, types[0], table) + Union(q, cursor, types[1..], table)
  }

  /** The page as the query makes it. */
  function Page(q: Query, cursor: Option<Key>, table: seq<Event>): seq<Event> {
    Take(Skip(Sort(Before(q.order), Union(q, cursor, Distinct(q.types), table)), Offset(q, cursor)), q.limit)
  }

  /** All matching events in order. */
  function Listed(q: Query, table: seq<Event>): seq<Event> {
    Sort(Before(q.order), Filter((e: Event) => e.kind in q.types && Matches(q, e), table))
  }

  function ListedFrom(q: Query, cursor: Option<Key>, table: seq<Event>): seq<Event> {
    Sort(Before(q.order), Filter((e: Event) => e.kind in q.types && Matches(q, e) && Seeks(q, cursor, e), table))
  }

  /** The page as one would write it down: filter, sort, slice. */
  function PlainPage(q: Query, cursor: Option<Key>, table: seq<Event>): seq<Event> {
    Take(Skip(ListedFrom(q, cursor, table), Offset(q, cursor)), q.limit)
  }

  /** The primary key. */
  ghost predicate UniqueIds(table: seq<Event>) {
    forall i, j :: 0 <= i < j < |table| ==> table[i].key.id != table[j].key.id
  }

  // ---------- sorted lists of events

  lemma BeforeIsOrder(order: Order)
    ensures StrictWeakOrder(Before(order))
  {
  }

  /** Strictly in order. */
  ghost predicate InOrder(order: Order, s: seq<Event>) {
    forall i, j :: 0 <= i < j < |s| ==> KeyBefore(order, s[i].key, s[j].key)
  }

  ghost predicate DistinctKeys(s: seq<Event>) {
    forall i, j :: 0 <= i < j < |s| ==> s[i].key != s[j].key
  }

  lemma {:induction false} SortedInOrder(order: Order, s: seq<Event>)
    requires forall a, b :: a in s && b in s && a.key == b.key ==> a == b
    requires NoDuplicates(s)
    ensures InOrder(order, Sort(Before(order), s)) && forall e :: e in Sort(Before(order), s) <==> e in s
  {
    var sorted := Sort(Before(order), s);
    BeforeIsOrder(order);
    SortSorted(Before(order), s);
    SameElements(sorted, s);
    SameMultisetDistinct(s, sorted);
    StrictlySorted(order, sorted);
  }

  lemma StrictlySorted(order: Order, s: seq<Event>)
    requires Sorted(Before(order), s) && NoDuplicates(s) && forall a, b :: a in s && b in s && a.key == b.key ==> a == b
    ensures InOrder(order, s)
  {
    forall i, j | 0 <= i < j < |s|
      ensures KeyBefore(order, s[i].key, s[j].key)
    {
      assert !Before(order)(s[j], s[i]);
      assert s[i] in s && s[j] in s && s[i] != s[j];
    }
  }

  lemma {:induction false} FilterDistinct(p: Event -> bool, s: seq<Event>)
    requires NoDuplicates(s)
    ensures NoDuplicates(Filter(p, s))
  {
    if s != [] {
      FilterDistinct(p, s[1..]);
      assert s[0] !in s[1..];
    }
  }

  lemma TableKeys(table: seq<Event>)
    requires UniqueIds(table)
    ensures NoDuplicates(table) && forall a, b :: a in table && b in table && a.key == b.key ==> a == b
  {
  }

  /** Filtering and sorting a table gives a strictly ordered list of exactly the filtered events. */
  lemma {:induction false} SortedFilter(order: Order, p: Event -> bool, table: seq<Event>)
    requires UniqueIds(table)
    ensures var s := Sort(Before(order), Filter(p, table)); InOrder(order, s) && forall e :: e in s <==> e in table && p(e)
  {
    TableKeys(table);
    FilterDistinct(p, table);
    SortedInOrder(order, Filter(p, table));
  }

  /** Two strictly ordered lists, the first among the second, that share the first n of the second
      agree on these. */
  lemma {:induction false} SameFront(order: Order, a: seq<Event>, b: seq<Event>, n: nat)
    requires InOrder(order, a) && InOrder(order, b) && forall e <- a :: e in b
    requires forall i :: 0 <= i < |b| && i < n ==> b[i] in a
    ensures Take(a, n) == Take(b, n)
  {
    hide KeyBefore, InOrder;
    assert a == [] || a[0] in b;
    if b == [] {
    } else if n > 0 {
      assert b[0] in a;
      HeadsEqual(order, a, b);
      TailMembers(order, a, b, n);
      SameFront(order, a[1..], b[1..], n - 1);
      TakeCons(a, n);
      TakeCons(b, n);
    }
  }

  lemma TakeCons(s: seq<Event>, n: nat)
    requires s != [] && n > 0
    ensures Take(s, n) == [s[0]] + Take(s[1..], n - 1)
  {
  }

  lemma TailMembers(order: Order, a: seq<Event>, b: seq<Event>, n: nat)
    requires InOrder(order, a) && InOrder(order, b) && a != [] && b != [] && a[0] == b[0] && n > 0
    requires (forall e <- a :: e in b) && forall i :: 0 <= i < |b| && i < n ==> b[i] in a
    ensures InOrder(order, a[1..]) && InOrder(order, b[1..]) && forall e <- a[1..] :: e in b[1..]
    ensures forall i :: 0 <= i < |b[1..]| && i < n - 1 ==> b[1..][i] in a[1..]
  {
    hide KeyBefore;
    forall e | e in a[1..]
      ensures e in b[1..]
    {
      assert a == [a[0]] + a[1..];
      TailMember(order, a, b, e);
    }
    forall i | 0 <= i < |b[1..]| && i < n - 1
      ensures b[1..][i] in a[1..]
    {
      assert b[1..][i] == b[i + 1] && b[i + 1] in a && b[i + 1] in b[1..];
      TailMember(order, b, a, b[i + 1]);
    }
  }

  lemma HeadsEqual(order: Order, a: seq<Event>, b: seq<Event>)
    requires InOrder(order, a) && InOrder(order, b) && a != [] && b != [] && a[0] in b && b[0] in a
    ensures a[0] == b[0]
  {
    var i :| 0 <= i < |b| && b[i] == a[0];
    var j :| 0 <= j < |a| && a[j] == b[0];
  }

  lemma TailMember(order: Order, a: seq<Event>, b: seq<Event>, e: Event)
    requires InOrder(order, a) && a != [] && b != [] && a[0] == b[0] && e in a[1..] && e in b
    ensures e in b[1..]
  {
    var i :| 0 <= i < |a[1..]| && a[1..][i] == e;
    assert KeyBefore(order, a[0].key, a[i + 1].key);
    assert b == [b[0]] + b[1..];
  }

  // ---------- the page query refines the plain one

  lemma {:induction false} InUnion(q: Query, cursor: Option<Key>, types: seq<Text>, table: seq<Event>, e: Event)
    ensures e in Union(q, cursor, types, table) <==> exists t :: t in types && e in Branch(q, cursor, t, table)
  {
    hide Branch;
    if types != [] {
      InUnion(q, cursor, types[1..], table, e);
      assert types == [types[0]] + types[1..];
    }
  }

  /** A branch is the front of its type's matching events: in order, at most offset + limit of them,
      and what it leaves out comes after all of it. */
  lemma BranchSound(q: Query, cursor: Option<Key>, kind: Text, table: seq<Event>)
    requires UniqueIds(table)
    ensures InOrder(q.order, Branch(q, cursor, kind, table)) && NoDuplicates(Branch(q, cursor, kind, table))
    ensures |Branch(q, cursor, kind, table)| <= Offset(q, cursor) + q.limit
    ensures forall e <- Branch(q, cursor, kind, table) :: e in table && InBranch(q, cursor, kind, e)
    ensures forall e <- table :: InBranch(q, cursor, kind, e) && e !in Branch(q, cursor, kind, table) ==>
              && |Branch(q, cursor, kind, table)| == Offset(q, cursor) + q.limit
              && forall b <- Branch(q, cursor, kind, table) :: KeyBefore(q.order, b.key, e.key)
  {
    hide InBranch, KeyBefore, UniqueIds, Sort, Filter, InOrder, Take, Offset;
    var p := (e: Event) => InBranch(q, cursor, kind, e);
    var sorted := Sort(Before(q.order), Filter(p, table));
    SortedFilter(q.order, p, table);
    InOrderDistinct(q.order, sorted);
    TakeMembers(sorted, Offset(q, cursor) + q.limit);
    TakeFront(q.order, sorted, Offset(q, cursor) + q.limit);
  }

  lemma TakeAt(s: seq<Event>, n: nat, i: nat)
    requires i < |s|
    ensures i < n ==> s[i] in Take(s, n)
  {
    if i < n { assert Take(s, n)[i] == s[i]; }
  }

  lemma TakeFront(order: Order, s: seq<Event>, n: nat)
    requires InOrder(order, s)
    ensures InOrder(order, Take(s, n)) && |Take(s, n)| <= n
    ensures forall e <- s :: e !in Take(s, n) ==> |Take(s, n)| == n && forall b <- Take(s, n) :: KeyBefore(order, b.key, e.key)
  {
    hide KeyBefore;
    forall e, b | e in s && e !in Take(s, n) && b in Take(s, n)
      ensures KeyBefore(order, b.key, e.key)
    {
      var i :| 0 <= i < |s| && s[i] == e;
      var j :| 0 <= j < |Take(s, n)| && Take(s, n)[j] == b;
      TakeAt(s, n, i);
    }
  }

  lemma InOrderDistinct(order: Order, s: seq<Event>)
    requires InOrder(order, s)
    ensures NoDuplicates(s)
  {
  }

  lemma TakeMembers(s: seq<Event>, n: nat)
    ensures NoDuplicates(s) ==> NoDuplicates(Take(s, n))
    ensures forall e <- Take(s, n) :: e in s
  {
  }

  /** An event in the front of the whole list is in the front of its type's list. */
  lemma FrontOfBranch(order: Order, all: seq<Event>, own: seq<Event>, n: nat, i: nat)
    requires InOrder(order, all) && InOrder(order, own) && (forall e <- own :: e in all)
    requires i < |all| && i < n && all[i] in own
    ensures all[i] in Take(own, n)
  {
    hide KeyBefore;
    var j :| 0 <= j < |own| && own[j] == all[i];
    if j >= n { CountBefore(order, all, own, i, j); }
  }

  lemma {:induction false} CountBefore(order: Order, all: seq<Event>, own: seq<Event>, i: nat, j: nat)
    requires InOrder(order, all) && InOrder(order, own) && (forall e <- own :: e in all)
    requires i < |all| && j < |own| && own[j] == all[i]
    ensures j <= i
  {
    if j > 0 {
      assert own[j - 1] in own;
      var k :| 0 <= k < |all| && all[k] == own[j - 1];
      assert KeyBefore(order, own[j - 1].key, own[j].key);
      if k >= i { Irreflexive(order, all, i, k); }
      CountBefore(order, all, own, k, j - 1);
    }
  }

  lemma Irreflexive(order: Order, s: seq<Event>, i: nat, k: nat)
    requires InOrder(order, s) && i <= k < |s|
    ensures !KeyBefore(order, s[k].key, s[i].key)
  {
  }

  lemma {:induction false} UnionDistinct(q: Query, cursor: Option<Key>, types: seq<Text>, table: seq<Event>)
    requires UniqueIds(table) && NoDuplicates(types)
    ensures NoDuplicates(Union(q, cursor, types, table))
  {
    hide Branch, UniqueIds;
    if types != [] {
      var own, more := Branch(q, cursor, types[0], table), Union(q, cursor, types[1..], table);
      UnionDistinct(q, cursor, types[1..], table);
      BranchSound(q, cursor, types[0], table);
      forall e | e in more
        ensures e !in own
      {
        InUnion(q, cursor, types[1..], table, e);
        var t :| t in types[1..] && e in Branch(q, cursor, t, table);
        BranchSound(q, cursor, t, table);
        var i :| 0 <= i < |types[1..]| && types[1..][i] == t;
        assert types[0] != types[i + 1];
      }
      DistinctConcat(own, more);
    }
  }

  lemma DistinctConcat(a: seq<Event>, b: seq<Event>)
    requires NoDuplicates(a) && NoDuplicates(b) && forall e <- b :: e !in a
    ensures NoDuplicates(a + b)
  {
    assert forall j :: 0 <= j < |b| ==> b[j] in b;
    assert forall i :: 0 <= i < |a| ==> a[i] in a;
  }

  lemma TakeOfSkip(s: seq<Event>, offset: nat, limit: nat)
    ensures Take(Skip(s, offset), limit) == Skip(Take(s, offset + limit), offset)
  {
  }

  lemma {:induction false} UnionMembers(q: Query, cursor: Option<Key>, table: seq<Event>)
    requires UniqueIds(table)
    ensures forall e <- Union(q, cursor, Distinct(q.types), table) :: e in table && e.kind in q.types && Matches(q, e) && Seeks(q, cursor, e)
  {
    hide Branch, UniqueIds, Matches, Seeks;
    forall e | e in Union(q, cursor, Distinct(q.types), table)
      ensures e in table && e.kind in q.types && Matches(q, e) && Seeks(q, cursor, e)
    {
      InUnion(q, cursor, Distinct(q.types), table, e);
      var t :| t in Distinct(q.types) && e in Branch(q, cursor, t, table);
      BranchSound(q, cursor, t, table);
    }
  }

  /** The front of the whole list is in the union. */
  lemma {:induction false} FrontInUnion(q: Query, cursor: Option<Key>, table: seq<Event>, i: nat)
    requires UniqueIds(table) && i < |ListedFrom(q, cursor, table)| && i < Offset(q, cursor) + q.limit
    ensures ListedFrom(q, cursor, table)[i] in Union(q, cursor, Distinct(q.types), table)
  {
    hide UniqueIds, Matches, Seeks, KeyBefore, InOrder, Sort, Filter, Offset;
    var all := ListedFrom(q, cursor, table);
    var e := all[i];
    ListedMembers(q, cursor, table);
    assert e in all;
    var p := (x: Event) => InBranch(q, cursor, e.kind, x);
    var own := Sort(Before(q.order), Filter(p, table));
    SortedFilter(q.order, p, table);
    FrontOfBranch(q.order, all, own, Offset(q, cursor) + q.limit, i);
    assert e in Branch(q, cursor, e.kind, table);
    InUnion(q, cursor, Distinct(q.types), table, e);
  }

  lemma ListedMembers(q: Query, cursor: Option<Key>, table: seq<Event>)
    requires UniqueIds(table)
    ensures InOrder(q.order, ListedFrom(q, cursor, table))
    ensures forall e :: e in ListedFrom(q, cursor, table) <==> e in table && e.kind in q.types && Matches(q, e) && Seeks(q, cursor, e)
  {
    hide UniqueIds, Matches, Seeks, KeyBefore, InOrder, Sort, Filter;
    SortedFilter(q.order, (e: Event) => e.kind in q.types && Matches(q, e) && Seeks(q, cursor, e), table);
  }

  /** For any event types, repeated or not, the page of the cut-short streams is the plain page. */
  lemma PageIsPlain(q: Query, cursor: Option<Key>, table: seq<Event>)
    requires UniqueIds(table)
    ensures Page(q, cursor, table) == PlainPage(q, cursor, table)
  {
    hide UniqueIds, Matches, Seeks, KeyBefore, InOrder, Sort, Union, Take, Skip, Offset, ListedFrom;
    var union := Union(q, cursor, Distinct(q.types), table);
    var a, b, n := Sort(Before(q.order), union), ListedFrom(q, cursor, table), Offset(q, cursor) + q.limit;
    UnionDistinct(q, cursor, Distinct(q.types), table);
    UnionMembers(q, cursor, table);
    TableKeys(table);
    SortedInOrder(q.order, union);
    ListedMembers(q, cursor, table);
    forall i | 0 <= i < |b| && i < n
      ensures b[i] in a
    {
      FrontInUnion(q, cursor, table, i);
    }
    SameFront(q.order, a, b, n);
    TakeOfSkip(a, Offset(q, cursor), q.limit);
    TakeOfSkip(b, Offset(q, cursor), q.limit);
  }
}
