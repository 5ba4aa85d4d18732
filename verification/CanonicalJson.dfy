/** `canonicalJson`, the text that the manifest and artifact hashes are taken of: equal texts
    exactly for values that are equal up to the order of object keys. */
module CanonicalJson {
  import opened Utf16
  import opened JsonGrammar
  import opened JsonScan
  import opened JsonValue
  import opened StableSort

  /** A rendered object member. */
  datatype Part = Part(key: Text, text: Text)

  function Join(parts: seq<Text>): Text {
    if parts == [] then [] else if |parts| == 1 then parts[0] else parts[0] + [COMMA] + Join(parts[1..])
  }

  function PartText(part: Part): Text { Stringify(VString(part.key)) + [COLON] + part.text }

  function PartTexts(parts: seq<Part>): (r: seq<Text>)
    ensures |r| == |parts|
  {
    if parts == [] then [] else [PartText(parts[0])] + PartTexts(parts[1..])
  }

  const PART_ORDER: (Part, Part) -> bool := (a: Part, b: Part) => Less(a.key, b.key)

  const ENTRY_ORDER: (Entry, Entry) -> bool := (a: Entry, b: Entry) => Less(a.key, b.key)

  function CanonicalJson(v: Value): Text
    requires IntegersOnly(v)
    decreases v
  {
    match v
    case VArray(items) => [LBRACKET] + Join(CanonicalItems(items)) + [RBRACKET]
    case VObject(entries) => [LBRACE] + Join(PartTexts(Sort(PART_ORDER, CanonicalParts(entries)))) + [RBRACE]
    case _ => Stringify(v)
  }

  function CanonicalItems(items: seq<Value>): (r: seq<Text>)
    requires IntegersInItems(items)
    ensures |r| == |items|
    decreases items
  {
    if items == [] then [] else [CanonicalJson(items[0])] + CanonicalItems(items[1..])
  }

  function CanonicalParts(entries: seq<Entry>): (r: seq<Part>)
    requires IntegersInEntries(entries)
    ensures |r| == |entries|
    decreases entries
  {
    if entries == [] then []
    else [Part(entries[0].key, CanonicalJson(entries[0].value))] + CanonicalParts(entries[1..])
  }

  // ---------- the same value with every object's keys in order

  function SortKeys(v: Value): (r: Value)
    requires IntegersOnly(v)
    ensures IntegersOnly(r)
    decreases v
  {
    match v
    case VArray(items) => VArray(SortItems(items))
    case VObject(entries) => IntegersSorted(SortEntries(entries)); VObject(Sort(ENTRY_ORDER, SortEntries(entries)))
    case _ => v
  }

  function SortItems(items: seq<Value>): (r: seq<Value>)
    requires IntegersInItems(items)
    ensures |r| == |items| && IntegersInItems(r)
    decreases items
  {
    if items == [] then [] else [SortKeys(items[0])] + SortItems(items[1..])
  }

  function SortEntries(entries: seq<Entry>): (r: seq<Entry>)
    requires IntegersInEntries(entries)
    ensures |r| == |entries| && IntegersInEntries(r) && Keys(r) == Keys(entries)
    decreases entries
  {
    if entries == [] then []
    else
      var rest := SortEntries(entries[1..]);
      assert forall i :: 0 < i < |entries| ==> entries[i].key == Keys(entries[1..])[i - 1];
      [Entry(entries[0].key, SortKeys(entries[0].value))] + rest
  }

  lemma {:induction false} IntegersInserted(x: Entry, s: seq<Entry>)
    requires IntegersOnly(x.value) && IntegersInEntries(s)
    ensures IntegersInEntries(Insert(ENTRY_ORDER, x, s))
  {
    if s != [] && ENTRY_ORDER(s[0], x) {
      IntegersInserted(x, s[1..]);
      assert Insert(ENTRY_ORDER, x, s)[1..] == Insert(ENTRY_ORDER, x, s[1..]);
    } else {
      assert Insert(ENTRY_ORDER, x, s)[1..] == s;
    }
  }

  lemma {:induction false} IntegersSorted(s: seq<Entry>)
    requires IntegersInEntries(s)
    ensures IntegersInEntries(Sort(ENTRY_ORDER, s))
  {
    if s != [] {
      IntegersSorted(s[1..]);
      IntegersInserted(s[0], Sort(ENTRY_ORDER, s[1..]));
    }
  }

  lemma {:induction false} ItemAt(items: seq<Value>, i: nat)
    requires IntegersInItems(items) && i < |items|
    ensures IntegersOnly(items[i]) && SortItems(items)[i] == SortKeys(items[i])
  {
    if i > 0 { ItemAt(items[1..], i - 1); }
  }

  lemma {:induction false} EntryAt(entries: seq<Entry>, i: nat)
    requires IntegersInEntries(entries) && i < |entries|
    ensures IntegersOnly(entries[i].value)
    ensures SortEntries(entries)[i] == Entry(entries[i].key, SortKeys(entries[i].value))
  {
    if i > 0 { EntryAt(entries[1..], i - 1); }
  }

  // ---------- canonicalJson is JSON.stringify of that value

  function Texts(items: seq<Value>): (r: seq<Text>)
    requires IntegersInItems(items)
    ensures |r| == |items|
  {
    if items == [] then [] else [Stringify(items[0])] + Texts(items[1..])
  }

  function PartOf(e: Entry): Part
    requires IntegersOnly(e.value)
  {
    Part(e.key, Stringify(e.value))
  }

  function PartsOf(entries: seq<Entry>): (r: seq<Part>)
    requires IntegersInEntries(entries)
    ensures |r| == |entries|
  {
    if entries == [] then [] else [PartOf(entries[0])] + PartsOf(entries[1..])
  }

  /** Rendering commutes with sorting, since both orders look at the key alone. */
  lemma {:induction false} InsertPart(x: Entry, s: seq<Entry>)
    requires IntegersOnly(x.value) && IntegersInEntries(s)
    ensures IntegersInEntries(Insert(ENTRY_ORDER, x, s))
    ensures PartsOf(Insert(ENTRY_ORDER, x, s)) == Insert(PART_ORDER, PartOf(x), PartsOf(s))
  {
    IntegersInserted(x, s);
    if s != [] && ENTRY_ORDER(s[0], x) {
      InsertPart(x, s[1..]);
      assert PartsOf(s)[1..] == PartsOf(s[1..]);
      assert Insert(ENTRY_ORDER, x, s)[1..] == Insert(ENTRY_ORDER, x, s[1..]);
    } else {
      assert Insert(ENTRY_ORDER, x, s)[1..] == s;
    }
  }

  lemma {:induction false} SortParts(s: seq<Entry>)
    requires IntegersInEntries(s)
    ensures IntegersInEntries(Sort(ENTRY_ORDER, s))
    ensures PartsOf(Sort(ENTRY_ORDER, s)) == Sort(PART_ORDER, PartsOf(s))
  {
    IntegersSorted(s);
    if s != [] {
      SortParts(s[1..]);
      assert PartsOf(s)[1..] == PartsOf(s[1..]);
      InsertPart(s[0], Sort(ENTRY_ORDER, s[1..]));
    }
  }

  lemma {:induction false} JoinElements(items: seq<Value>)
    requires items != [] && IntegersInItems(items)
    ensures RenderElements(CompactElements(items)) == Join(Texts(items)) + [RBRACKET]
  {
    var text := Stringify(items[0]);
    assert [] + text + [] == text;
    if |items| > 1 {
      JoinElements(items[1..]);
      assert Texts(items)[1..] == Texts(items[1..]);
      Assoc(text, [COMMA], Join(Texts(items[1..])) + [RBRACKET]);
      Assoc(text + [COMMA], Join(Texts(items[1..])), [RBRACKET]);
    }
  }

  lemma {:induction false} JoinMembers(entries: seq<Entry>)
    requires entries != [] && IntegersInEntries(entries)
    ensures RenderMembers(CompactMembers(entries)) == Join(PartTexts(PartsOf(entries))) + [RBRACE]
  {
    var Entry(key, v) := entries[0];
    var name := RenderString(QuoteItems(key));
    var texts := PartTexts(PartsOf(entries));
    assert texts[0] == name + [COLON] + Stringify(v);
    if |entries| == 1 {
      MemberText(name, Stringify(v), [RBRACE]);
    } else {
      JoinMembers(entries[1..]);
      assert PartsOf(entries)[1..] == PartsOf(entries[1..]);
      assert texts[1..] == PartTexts(PartsOf(entries[1..]));
      var more := Join(texts[1..]);
      MemberText(name, Stringify(v), [COMMA] + (more + [RBRACE]));
      Assoc(texts[0], [COMMA], more + [RBRACE]);
      Assoc(texts[0] + [COMMA], more, [RBRACE]);
    }
  }

  lemma {:induction false} CanonicalIsStringify(v: Value)
    requires IntegersOnly(v)
    ensures CanonicalJson(v) == Stringify(SortKeys(v))
    decreases v
  {
    match v
    case VArray(items) => CanonicalItemsAre(items); CanonicalArray(items);
    case VObject(entries) => CanonicalPartsAre(entries); CanonicalObject(entries);
    case _ =>
  }

  lemma {:induction false} CanonicalArray(items: seq<Value>)
    requires IntegersInItems(items) && CanonicalItems(items) == Texts(SortItems(items))
    ensures CanonicalJson(VArray(items)) == Stringify(VArray(SortItems(items)))
  {
    if items != [] {
      CanonicalArrayText(items);
      ArrayText(SortItems(items));
      JoinElements(SortItems(items));
      Assoc([LBRACKET], Join(CanonicalItems(items)), [RBRACKET]);
    }
  }

  lemma {:induction false} CanonicalArrayText(items: seq<Value>)
    requires IntegersInItems(items)
    ensures CanonicalJson(VArray(items)) == [LBRACKET] + Join(CanonicalItems(items)) + [RBRACKET]
  {
  }

  lemma {:induction false} CanonicalObject(entries: seq<Entry>)
    requires IntegersInEntries(entries) && CanonicalParts(entries) == PartsOf(SortEntries(entries))
    ensures IntegersInEntries(Sort(ENTRY_ORDER, SortEntries(entries)))
    ensures CanonicalJson(VObject(entries)) == Stringify(VObject(Sort(ENTRY_ORDER, SortEntries(entries))))
  {
    SortParts(SortEntries(entries));
    CanonicalObjectText(entries);
    CanonicalMembers(Sort(ENTRY_ORDER, SortEntries(entries)));
  }

  lemma {:induction false} CanonicalObjectText(entries: seq<Entry>)
    requires IntegersInEntries(entries)
    ensures CanonicalJson(VObject(entries)) == [LBRACE] + Join(PartTexts(Sort(PART_ORDER, CanonicalParts(entries)))) + [RBRACE]
  {
  }

  lemma {:induction false} CanonicalMembers(sorted: seq<Entry>)
    requires IntegersInEntries(sorted)
    ensures Stringify(VObject(sorted)) == [LBRACE] + Join(PartTexts(PartsOf(sorted))) + [RBRACE]
  {
    if sorted == [] {
      assert Stringify(VObject(sorted)) == [LBRACE] + [] + [RBRACE];
    } else {
      ObjectText(sorted);
      JoinMembers(sorted);
      Assoc([LBRACE], Join(PartTexts(PartsOf(sorted))), [RBRACE]);
    }
  }

  lemma {:induction false} CanonicalItemsAre(items: seq<Value>)
    requires IntegersInItems(items)
    ensures CanonicalItems(items) == Texts(SortItems(items))
    decreases items
  {
    if items != [] {
      CanonicalIsStringify(items[0]);
      CanonicalItemsAre(items[1..]);
      assert SortItems(items)[1..] == SortItems(items[1..]);
    }
  }

  lemma {:induction false} CanonicalPartsAre(entries: seq<Entry>)
    requires IntegersInEntries(entries)
    ensures CanonicalParts(entries) == PartsOf(SortEntries(entries))
    decreases entries
  {
    if entries != [] {
      CanonicalIsStringify(entries[0].value);
      CanonicalPartsAre(entries[1..]);
      assert SortEntries(entries)[1..] == SortEntries(entries[1..]);
    }
  }

  // ---------- equality up to the order of keys

  /** `object[key]`. */
  function Lookup(entries: seq<Entry>, key: Text): (v: Value)
    requires key in Keys(entries)
    ensures Entry(key, v) in entries
  {
    if entries[0].key == key then entries[0].value
    else
      assert forall i :: 1 <= i < |entries| ==> Keys(entries)[i] == Keys(entries[1..])[i - 1];
      Lookup(entries[1..], key)
  }

  ghost predicate SameUpToOrder(v: Value, w: Value)
    decreases v
  {
    if v.VArray? && w.VArray? then
      |v.items| == |w.items| && forall i :: 0 <= i < |v.items| ==> SameUpToOrder(v.items[i], w.items[i])
    else if v.VObject? && w.VObject? then
      && SameKeys(v.entries, w.entries)
      && forall i :: 0 <= i < |v.entries| ==> SameUpToOrder(v.entries[i].value, Lookup(w.entries, v.entries[i].key))
    else v == w
  }

  ghost predicate SameKeys(e: seq<Entry>, f: seq<Entry>)
    ensures SameKeys(e, f) ==> forall i :: 0 <= i < |e| ==> e[i].key in Keys(f)
  {
    && (forall i :: 0 <= i < |e| ==> e[i].key in Keys(f))
    && (forall j :: 0 <= j < |f| ==> f[j].key in Keys(e))
  }

  lemma {:induction false} LookupAt(entries: seq<Entry>, i: nat)
    requires i < |entries| && Distinct(Keys(entries))
    ensures entries[i].key in Keys(entries) && Lookup(entries, entries[i].key) == entries[i].value
  {
    var keys, key := Keys(entries), entries[i].key;
    assert keys[i] == key;
    var found := Entry(key, Lookup(entries, key));
    var j :| 0 <= j < |entries| && entries[j] == found;
    assert keys[j] == keys[i];
  }

  lemma KeyOrder()
    ensures StrictWeakOrder(ENTRY_ORDER)
  {
    forall x: Entry, y: Entry | ENTRY_ORDER(x, y)
      ensures !ENTRY_ORDER(y, x)
    {
      LessAsymmetric(x.key, y.key);
    }
    forall x: Entry, y: Entry, z: Entry | ENTRY_ORDER(x, y) && ENTRY_ORDER(y, z)
      ensures ENTRY_ORDER(x, z)
    {
      LessTransitive(x.key, y.key, z.key);
    }
    forall x: Entry, y: Entry, z: Entry | ENTRY_ORDER(x, z)
      ensures ENTRY_ORDER(x, y) || ENTRY_ORDER(y, z)
    {
      LessTotal(x.key, y.key);
      if Less(y.key, x.key) { LessTransitive(y.key, x.key, z.key); }
    }
  }

  lemma {:induction false} SortedEntriesEqual(a: seq<Entry>, b: seq<Entry>)
    requires Distinct(Keys(a)) && Distinct(Keys(b)) && forall x :: x in a <==> x in b
    ensures Sort(ENTRY_ORDER, a) == Sort(ENTRY_ORDER, b)
  {
    hide Less, Keys, Sort;
    KeyOrder();
    SortSorted(ENTRY_ORDER, a);
    SortSorted(ENTRY_ORDER, b);
    DistinctEntries(a);
    DistinctEntries(b);
    SameMultiset(a, b);
    var s := Sort(ENTRY_ORDER, a);
    SameElements(s, a);
    forall x, y | x in s && y in s
      ensures ENTRY_ORDER(x, y) || x == y || ENTRY_ORDER(y, x)
    {
      ComparableEntries(a, x, y);
    }
    SortedUnique(ENTRY_ORDER, s, Sort(ENTRY_ORDER, b));
  }

  lemma DistinctEntries(a: seq<Entry>)
    requires Distinct(Keys(a))
    ensures NoDuplicates(a)
  {
    forall i, j | 0 <= i < j < |a|
      ensures a[i] != a[j]
    {
      assert Keys(a)[i] != Keys(a)[j];
    }
  }

  lemma ComparableEntries(a: seq<Entry>, x: Entry, y: Entry)
    requires Distinct(Keys(a)) && x in a && y in a
    ensures ENTRY_ORDER(x, y) || x == y || ENTRY_ORDER(y, x)
  {
    var i :| 0 <= i < |a| && a[i] == x;
    var j :| 0 <= j < |a| && a[j] == y;
    LessTotal(x.key, y.key);
    assert i != j ==> Keys(a)[i] != Keys(a)[j];
  }

  lemma {:induction false} SortedKeysSame(v: Value, w: Value)
    requires IntegersOnly(v) && IntegersOnly(w) && DistinctKeys(v) && DistinctKeys(w)
    requires SortKeys(v) == SortKeys(w)
    ensures SameUpToOrder(v, w)
    decreases v
  {
    match v
    case VArray(items) =>
      assert SortItems(items) == SortItems(w.items);
      forall i | 0 <= i < |items|
        ensures SameUpToOrder(items[i], w.items[i])
      {
        ItemAt(items, i);
        ItemAt(w.items, i);
        DistinctItem(items, i);
        DistinctItem(w.items, i);
        SortedKeysSame(items[i], w.items[i]);
      }
    case VObject(entries) =>
      var other := w.entries;
      SortedSameElements(SortEntries(entries), SortEntries(other));
      SortedSameKeys(entries, other);
      forall i | 0 <= i < |entries|
        ensures SameUpToOrder(entries[i].value, Lookup(other, entries[i].key))
      {
        var j := SameSorted(entries, other, i);
        LookupAt(other, j);
        DistinctEntry(entries, i);
        DistinctEntry(other, j);
        SortedKeysSame(entries[i].value, other[j].value);
      }
    case _ =>
  }

  lemma {:induction false} SortedSameElements(a: seq<Entry>, b: seq<Entry>)
    requires Sort(ENTRY_ORDER, a) == Sort(ENTRY_ORDER, b)
    ensures forall x :: x in a <==> x in b
  {
    assert multiset(a) == multiset(b);
    SameElements(a, b);
  }

  lemma SameSorted(e: seq<Entry>, f: seq<Entry>, i: nat) returns (j: nat)
    requires IntegersInEntries(e) && IntegersInEntries(f) && i < |e|
    requires forall x :: x in SortEntries(e) <==> x in SortEntries(f)
    ensures j < |f| && f[j].key == e[i].key && IntegersOnly(e[i].value) && IntegersOnly(f[j].value)
    ensures SortKeys(e[i].value) == SortKeys(f[j].value)
  {
    EntryAt(e, i);
    assert SortEntries(e)[i] in SortEntries(f);
    j :| 0 <= j < |f| && SortEntries(f)[j] == SortEntries(e)[i];
    EntryAt(f, j);
  }

  lemma {:induction false} SortedSameKeys(e: seq<Entry>, f: seq<Entry>)
    requires IntegersInEntries(e) && IntegersInEntries(f)
    requires forall x :: x in SortEntries(e) <==> x in SortEntries(f)
    ensures SameKeys(e, f)
  {
    forall i | 0 <= i < |e| ensures e[i].key in Keys(f) {
      var j := SameSorted(e, f, i);
      assert Keys(f)[j] == e[i].key;
    }
    forall j | 0 <= j < |f| ensures f[j].key in Keys(e) {
      var i := SameSorted(f, e, j);
      assert Keys(e)[i] == f[j].key;
    }
  }

  lemma {:induction false} SameSortedKeys(v: Value, w: Value)
    requires IntegersOnly(v) && IntegersOnly(w) && DistinctKeys(v) && DistinctKeys(w)
    requires SameUpToOrder(v, w)
    ensures SortKeys(v) == SortKeys(w)
    decreases v
  {
    match v
    case VArray(items) =>
      forall i | 0 <= i < |items|
        ensures SortItems(items)[i] == SortItems(w.items)[i]
      {
        ItemAt(items, i);
        ItemAt(w.items, i);
        DistinctItem(items, i);
        DistinctItem(w.items, i);
        SameSortedKeys(items[i], w.items[i]);
      }
      assert SortItems(items) == SortItems(w.items);
    case VObject(entries) =>
      var other := w.entries;
      forall i, j | 0 <= i < |entries| && 0 <= j < |other| && entries[i].key == other[j].key
        ensures SortEntries(entries)[i] == SortEntries(other)[j]
      {
        EntryAt(entries, i);
        EntryAt(other, j);
        DistinctEntry(entries, i);
        DistinctEntry(other, j);
        LookupAt(other, j);
        SameSortedKeys(entries[i].value, other[j].value);
      }
      SameSortedEntries(entries, other, SortEntries(entries), SortEntries(other));
    case _ =>
  }

  lemma {:induction false} SameSortedEntries(e: seq<Entry>, f: seq<Entry>, a: seq<Entry>, b: seq<Entry>)
    requires |a| == |e| && |b| == |f| && Keys(a) == Keys(e) && Keys(b) == Keys(f)
    requires Distinct(Keys(e)) && Distinct(Keys(f)) && SameKeys(e, f)
    requires forall i, j :: 0 <= i < |e| && 0 <= j < |f| && e[i].key == f[j].key ==> a[i] == b[j]
    ensures Sort(ENTRY_ORDER, a) == Sort(ENTRY_ORDER, b)
  {
    forall x | x in a
      ensures x in b
    {
      var i :| 0 <= i < |a| && a[i] == x;
      var j :| 0 <= j < |f| && Keys(f)[j] == e[i].key;
      assert a[i] == b[j];
    }
    forall x | x in b
      ensures x in a
    {
      var j :| 0 <= j < |b| && b[j] == x;
      var i :| 0 <= i < |e| && Keys(e)[i] == f[j].key;
      assert a[i] == b[j];
    }
    SortedEntriesEqual(a, b);
  }

  lemma {:induction false} DistinctItem(items: seq<Value>, i: nat)
    requires DistinctInItems(items) && i < |items|
    ensures DistinctKeys(items[i])
  {
    if i > 0 { DistinctItem(items[1..], i - 1); }
  }

  lemma {:induction false} DistinctEntry(entries: seq<Entry>, i: nat)
    requires DistinctInEntries(entries) && i < |entries|
    ensures DistinctKeys(entries[i].value)
  {
    if i > 0 { DistinctEntry(entries[1..], i - 1); }
  }

  /** Two values have the same canonical text exactly when they are equal up to the order of
      object keys, at every depth. */
  lemma {:induction false} CanonicalJsonInjective(v: Value, w: Value)
    requires IntegersOnly(v) && IntegersOnly(w) && DistinctKeys(v) && DistinctKeys(w)
    ensures CanonicalJson(v) == CanonicalJson(w) <==> SameUpToOrder(v, w)
  {
    CanonicalIsStringify(v);
    CanonicalIsStringify(w);
    if CanonicalJson(v) == CanonicalJson(w) {
      StringifyInjective(SortKeys(v), SortKeys(w));
      SortedKeysSame(v, w);
    }
    if SameUpToOrder(v, w) {
      SameSortedKeys(v, w);
    }
  }
}
