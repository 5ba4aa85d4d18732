/** The hashed texts of manifest and artifact spelled out: canonical JSON with these names, in the
    order of their code units, for these fields. */
module RetentionLayout {
  import opened Utf16
  import opened Options
  import opened StableSort
  import opened JsonGrammar
  import opened JsonValue
  import opened CanonicalJson
  import opened EscrowNames
  import opened EscrowRecords
  import opened EscrowCodec
  import opened EscrowLayout
  import opened RetentionPolicy
  import opened RetentionApply

  // ---------- sorting the names of one object

  /** The names ascend. */
  ghost predicate NamesAscend(e: seq<Entry>) { forall i, j :: 0 <= i < j < |e| ==> Less(e[i].key, e[j].key) }

  /** An ascending arrangement of the entries is the sorted one. */
  lemma {:induction false} SortIs(e: seq<Entry>, t: seq<Entry>)
    requires |e| == |t| && (forall i :: 0 <= i < |t| ==> t[i] in e) && NamesAscend(t)
    ensures Sort(ENTRY_ORDER, e) == t
  {
    hide Less, Sort;
    Rearranged(e, t);
    KeyOrder();
    SortSorted(ENTRY_ORDER, e);
    var s := Sort(ENTRY_ORDER, e);
    SameElements(s, t);
    assert Sorted(ENTRY_ORDER, t) by {
      forall i, j | 0 <= i < j < |t|
        ensures !Less(t[j].key, t[i].key)
      {
        LessAsymmetric(t[i].key, t[j].key);
      }
    }
    forall x, y | x in s && y in s
      ensures ENTRY_ORDER(x, y) || x == y || ENTRY_ORDER(y, x)
    {
      var i :| 0 <= i < |t| && t[i] == x;
      var j :| 0 <= j < |t| && t[j] == y;
    }
    SortedUnique(ENTRY_ORDER, s, t);
  }

  /** As many different entries, all from `e`, are those of `e`. */
  lemma {:induction false} Rearranged(e: seq<Entry>, t: seq<Entry>)
    requires |e| == |t| && (forall i :: 0 <= i < |t| ==> t[i] in e) && NamesAscend(t)
    ensures multiset(e) == multiset(t)
  {
    hide Less;
    forall i, j | 0 <= i < j < |t|
      ensures t[i] != t[j]
    {
      LessAsymmetric(t[i].key, t[j].key);
    }
    forall x
      ensures multiset(t)[x] <= multiset(e)[x]
    {
      NoDuplicatesCount(t, x);
      if x in t { assert x in multiset(e); }
    }
    SameSize(multiset(t), multiset(e));
  }

  lemma SameSize(a: multiset<Entry>, b: multiset<Entry>)
    requires a <= b && |a| == |b|
    ensures a == b
  {
    assert b == a + (b - a);
    assert |b| == |a| + |b - a|;
  }

  /** In canonical form the names of every object ascend by their code units. */
  lemma {:induction false} CanonicalNamesAscend(entries: seq<Entry>)
    requires IntegersInEntries(entries) && Distinct(Keys(entries))
    ensures SortKeys(VObject(entries)).VObject? && NamesAscend(SortKeys(VObject(entries)).entries)
    ensures multiset(SortKeys(VObject(entries)).entries) == multiset(SortEntries(entries))
  {
    hide Less, Sort, SortEntries;
    var e := SortEntries(entries);
    var s := Sort(ENTRY_ORDER, e);
    KeyOrder();
    SortSorted(ENTRY_ORDER, e);
    SameElements(s, e);
    DistinctEntries(e);
    SameMultisetDistinct(e, s);
    forall i, j | 0 <= i < j < |s|
      ensures Less(s[i].key, s[j].key)
    {
      assert s[i] in e && s[j] in e && s[i] != s[j];
      DifferentKeys(e, s[i], s[j]);
      LessTotal(s[i].key, s[j].key);
    }
  }

  lemma DifferentKeys(e: seq<Entry>, x: Entry, y: Entry)
    requires Distinct(Keys(e)) && x in e && y in e && x != y
    ensures x.key != y.key
  {
    var i :| 0 <= i < |e| && e[i] == x;
    var j :| 0 <= j < |e| && e[j] == y;
    assert Keys(e)[i] == x.key && Keys(e)[j] == y.key;
  }

  /** Numbers and strings are canonical already. */
  lemma {:induction false} ScalarsStay(e: seq<Entry>)
    requires IntegersInEntries(e) && forall i :: 0 <= i < |e| ==> IsScalar(e[i].value)
    ensures SortEntries(e) == e
  {
    hide SortEntries, IntegersInEntries;
    forall i | 0 <= i < |e|
      ensures SortEntries(e)[i] == e[i]
    {
      EntryAt(e, i);
    }
  }

  /** An object of numbers and strings whose names, put in order, are those of `t`. */
  lemma {:induction false} ScalarObject(e: seq<Entry>, t: seq<Entry>)
    requires (forall i :: 0 <= i < |e| ==> IsScalar(e[i].value)) && |e| == |t| && (forall i :: 0 <= i < |t| ==> t[i] in e) && NamesAscend(t)
    ensures IntegersOnly(VObject(e)) && SortKeys(VObject(e)) == VObject(t)
  {
    hide Sort, SortEntries, Less;
    ScalarEntries(e);
    ScalarsStay(e);
    SortIs(e, t);
  }

  // ---------- the manifest

  lemma BatchNames()
    ensures BATCH_ID == Ascii("batchId") && CREATED_AT == Ascii("createdAt") && ERROR_COUNT == Ascii("errorCount")
    ensures MESSAGE_COUNT == Ascii("messageCount") && NOTIFICATION_COUNT == Ascii("notificationCount")
    ensures BATCH_ID[0] == 98 && CREATED_AT[0] == 99 && ERROR_COUNT[0] == 101 && MESSAGE_COUNT[0] == 109 && NOTIFICATION_COUNT[0] == 110
  {
  }

  /** A published batch in the hashed text. */
  function BatchObject(b: PublicBatch): Value {
    VObject([Named("batchId", VString(b.batchId)), Named("createdAt", VString(b.createdAt)), Named("errorCount", VInt(b.errorCount)),
             Named("messageCount", VInt(b.messageCount)), Named("notificationCount", VInt(b.notificationCount))])
  }

  lemma {:induction false} FirstUnitDecides(a: Text, b: Text)
    requires a != [] && b != [] && a[0] < b[0]
    ensures Less(a, b)
  {
  }

  lemma {:induction false} FirstUnitsAscend(t: seq<Entry>)
    requires forall i :: 0 <= i < |t| ==> t[i].key != []
    requires forall i, j :: 0 <= i < j < |t| ==> t[i].key[0] < t[j].key[0]
    ensures NamesAscend(t)
  {
    hide Less;
    forall i, j | 0 <= i < j < |t|
      ensures Less(t[i].key, t[j].key)
    {
      FirstUnitDecides(t[i].key, t[j].key);
    }
  }

  predicate StartsWith(e: Entry, u: CodeUnit) { e.key != [] && e.key[0] == u }

  /** Five scalars of which the last belongs before the third. */
  lemma {:induction false} LastMovesUp(a: Entry, b: Entry, c: Entry, d: Entry, e: Entry)
    requires IsScalar(a.value) && IsScalar(b.value) && IsScalar(c.value) && IsScalar(d.value) && IsScalar(e.value)
    requires StartsWith(a, 98) && StartsWith(b, 99) && StartsWith(e, 101) && StartsWith(c, 109) && StartsWith(d, 110)
    ensures IntegersOnly(VObject([a, b, c, d, e])) && SortKeys(VObject([a, b, c, d, e])) == VObject([a, b, e, c, d])
  {
    hide SortKeys, NamesAscend, IntegersOnly;
    FirstUnitsAscend([a, b, e, c, d]);
    ScalarObject([a, b, c, d, e], [a, b, e, c, d]);
  }

  lemma BatchCanonical(b: PublicBatch)
    ensures IntegersOnly(BatchValue(b)) && SortKeys(BatchValue(b)) == BatchObject(b)
  {
    hide Ascii, SortKeys, IntegersOnly;
    BatchNames();
    LastMovesUp(Str(BATCH_ID, b.batchId), Str(CREATED_AT, b.createdAt), EscrowCodec.Number(MESSAGE_COUNT, b.messageCount),
                EscrowCodec.Number(NOTIFICATION_COUNT, b.notificationCount), EscrowCodec.Number(ERROR_COUNT, b.errorCount));
  }

  function BatchObjects(bs: seq<PublicBatch>): seq<Value> { seq(|bs|, i requires 0 <= i < |bs| => BatchObject(bs[i])) }

  lemma {:induction false} BatchesCanonical(bs: seq<PublicBatch>)
    ensures IntegersInItems(BatchValues(bs)) && SortItems(BatchValues(bs)) == BatchObjects(bs)
  {
    hide BatchValue, BatchObject, SortKeys, SortItems, IntegersOnly, IntegersInItems;
    forall i | 0 <= i < |bs| ensures IntegersOnly(BatchValues(bs)[i]) { BatchCanonical(bs[i]); }
    IntegerItems(BatchValues(bs));
    forall i | 0 <= i < |bs|
      ensures SortItems(BatchValues(bs))[i] == BatchObjects(bs)[i]
    {
      ItemAt(BatchValues(bs), i);
      BatchCanonical(bs[i]);
    }
  }

  lemma ManifestNames()
    ensures BATCHES == Ascii("batches") && CUTOFF == Ascii("cutoff") && EscrowNames.POLICY_VERSION == Ascii("policyVersion") && SITE_ID == Ascii("siteId")
    ensures BATCHES[0] == 98 && CUTOFF[0] == 99 && EscrowNames.POLICY_VERSION[0] == 112 && SITE_ID[0] == 115
  {
    hide *;
    NamesSpelled();
    FirstUnits();
  }

  lemma FirstUnits()
    ensures BATCHES[0] == 98 && CUTOFF[0] == 99 && EscrowNames.POLICY_VERSION[0] == 112 && SITE_ID[0] == 115
  {
  }

  lemma {:induction false} ManifestCanonical(siteId: Text, cutoff: Text, policyVersion: int, batches: seq<PublicBatch>)
    ensures IntegersOnly(ManifestValue(siteId, cutoff, policyVersion, batches))
    ensures SortKeys(ManifestValue(siteId, cutoff, policyVersion, batches)) ==
            VObject([Named("batches", VArray(BatchObjects(batches))), Named("cutoff", VString(cutoff)), Named("policyVersion", VInt(policyVersion)),
                     Named("siteId", VString(siteId))])
  {
    hide Ascii, SortKeys, IntegersOnly, BatchValues, BatchObjects;
    ManifestIntegers(siteId, cutoff, policyVersion, batches);
    ManifestNames();
    ManifestParts(siteId, cutoff, policyVersion, batches);
    FirstMovesDown(Str(SITE_ID, siteId), Entry(BATCHES, VArray(BatchValues(batches))), Str(CUTOFF, cutoff), EscrowCodec.Number(EscrowNames.POLICY_VERSION, policyVersion));
    BatchListCanonical(batches);
  }

  lemma {:induction false} ManifestParts(siteId: Text, cutoff: Text, policyVersion: int, batches: seq<PublicBatch>)
    ensures IntegersOnly(VString(siteId)) && IntegersOnly(VArray(BatchValues(batches))) && IntegersOnly(VString(cutoff)) && IntegersOnly(VInt(policyVersion))
  {
    hide BatchValues;
    BatchesCanonical(batches);
  }

  lemma {:induction false} BatchListCanonical(batches: seq<PublicBatch>)
    ensures IntegersOnly(VArray(BatchValues(batches))) && SortKeys(VArray(BatchValues(batches))) == VArray(BatchObjects(batches))
  {
    hide BatchValues, BatchObjects;
    BatchesCanonical(batches);
  }

  /** Four entries of which the first belongs behind the others. */
  lemma {:induction false} FirstMovesDown(a: Entry, b: Entry, c: Entry, d: Entry)
    requires IntegersOnly(a.value) && IntegersOnly(b.value) && IntegersOnly(c.value) && IntegersOnly(d.value)
    requires IsScalar(a.value) && IsScalar(c.value) && IsScalar(d.value)
    requires StartsWith(b, 98) && StartsWith(c, 99) && StartsWith(d, 112) && StartsWith(a, 115)
    ensures IntegersOnly(VObject([a, b, c, d])) && SortKeys(VObject([a, b, c, d])) == VObject([Entry(b.key, SortKeys(b.value)), c, d, a])
  {
    hide NamesAscend, Sort, SortEntries, SortKeys, IntegersOnly, IntegersInEntries;
    var b' := Entry(b.key, SortKeys(b.value));
    FourEntries(a, b, c, d);
    FirstUnitsAscend([b', c, d, a]);
    SortIs([a, b', c, d], [b', c, d, a]);
    ObjectSorted([a, b, c, d]);
  }

  lemma {:induction false} FourEntries(a: Entry, b: Entry, c: Entry, d: Entry)
    requires IntegersOnly(b.value) && IsScalar(a.value) && IsScalar(c.value) && IsScalar(d.value)
    ensures IntegersInEntries([a, b, c, d]) && SortEntries([a, b, c, d]) == [a, Entry(b.key, SortKeys(b.value)), c, d]
  {
    hide SortEntries, SortKeys, IntegersOnly, IntegersInEntries;
    var e := [a, b, c, d];
    ScalarStays(a.value);
    ScalarStays(c.value);
    ScalarStays(d.value);
    IntegerEntries(e);
    forall i | 0 <= i < 4
      ensures SortEntries(e)[i] == [a, Entry(b.key, SortKeys(b.value)), c, d][i]
    {
      EntryAt(e, i);
    }
  }

  lemma {:induction false} ScalarStays(v: Value)
    requires IsScalar(v)
    ensures IntegersOnly(v) && SortKeys(v) == v
  {
  }

  lemma {:induction false} ObjectSorted(e: seq<Entry>)
    requires IntegersInEntries(e)
    ensures IntegersOnly(VObject(e)) && SortKeys(VObject(e)) == VObject(Sort(ENTRY_ORDER, SortEntries(e)))
  {
    hide Sort, SortEntries;
  }

  /** The text whose digest is the manifest's hash, parsed. */
  lemma {:induction false} ManifestLayout(siteId: Text, cutoff: Text, policyVersion: int, batches: seq<PublicBatch>)
    ensures IntegersOnly(ManifestValue(siteId, cutoff, policyVersion, batches))
    ensures Parse(false, CanonicalJson.CanonicalJson(ManifestValue(siteId, cutoff, policyVersion, batches))) ==
            Some(VObject([
              Named("batches", VArray(BatchObjects(batches))),
              Named("cutoff", VString(cutoff)),
              Named("policyVersion", VInt(policyVersion)),
              Named("siteId", VString(siteId))]))
  {
    hide Ascii, Parse, Stringify, SortKeys, CanonicalJson.CanonicalJson, ManifestValue, BatchObjects, IntegersOnly;
    ManifestCanonical(siteId, cutoff, policyVersion, batches);
    CanonicalIsStringify(ManifestValue(siteId, cutoff, policyVersion, batches));
    ParseStringify(SortKeys(ManifestValue(siteId, cutoff, policyVersion, batches)));
  }

  // ---------- the artifact

  lemma {:induction false} DiffersAt(a: Text, b: Text, i: nat)
    requires i < |a| && i < |b| && a[..i] == b[..i] && a[i] < b[i]
    ensures Less(a, b)
  {
    hide Less;
    LessExactly(a, b);
  }

  /** It is enough to compare neighbours. */
  lemma {:induction false} NeighboursAscend(t: seq<Entry>)
    requires forall i :: 0 <= i < |t| - 1 ==> Less(t[i].key, t[i + 1].key)
    ensures NamesAscend(t)
  {
    hide Less;
    forall i, j | 0 <= i < j < |t|
      ensures Less(t[i].key, t[j].key)
    {
      LessLater(t, i, j);
    }
  }

  lemma {:induction false} LessLater(t: seq<Entry>, i: nat, j: nat)
    requires i < j < |t| && forall k :: 0 <= k < |t| - 1 ==> Less(t[k].key, t[k + 1].key)
    ensures Less(t[i].key, t[j].key)
    decreases j
  {
    hide Less;
    if i < j - 1 {
      LessLater(t, i, j - 1);
      LessTransitive(t[i].key, t[j - 1].key, t[j].key);
    }
  }

  /** Counts in the hashed text. */
  function CountsObject(c: Counts): Value {
    VObject([Named("batches", VInt(c.batches)), Named("errors", VInt(c.errors)), Named("messages", VInt(c.messages)),
             Named("notifications", VInt(c.notifications))])
  }

  lemma CountUnits()
    ensures BATCHES[0] == 98 && ERRORS[0] == 101 && MESSAGES[0] == 109 && NOTIFICATIONS[0] == 110
  {
  }

  lemma {:induction false} ThirdMovesUp(a: Entry, b: Entry, c: Entry, d: Entry)
    requires IsScalar(a.value) && IsScalar(b.value) && IsScalar(c.value) && IsScalar(d.value)
    requires StartsWith(a, 98) && StartsWith(c, 101) && StartsWith(b, 109) && StartsWith(d, 110)
    ensures IntegersOnly(VObject([a, b, c, d])) && SortKeys(VObject([a, b, c, d])) == VObject([a, c, b, d])
  {
    hide SortKeys, NamesAscend, IntegersOnly;
    FirstUnitsAscend([a, c, b, d]);
    ScalarObject([a, b, c, d], [a, c, b, d]);
  }

  lemma CountsCanonical(c: Counts)
    ensures IntegersOnly(VObject(CountEntries(c))) && SortKeys(VObject(CountEntries(c))) == CountsObject(c)
  {
    hide Ascii, SortKeys, IntegersOnly;
    NamesSpelled();
    CountUnits();
    ThirdMovesUp(EscrowCodec.Number(BATCHES, c.batches), EscrowCodec.Number(MESSAGES, c.messages), EscrowCodec.Number(ERRORS, c.errors),
                 EscrowCodec.Number(NOTIFICATIONS, c.notifications));
  }

  /** The verification result in the hashed text. */
  function VerificationObject(v: Verification): Value {
    VObject([Named("contentHash", VString(v.contentHash)), Named("counts", CountsObject(v.counts)), Named("cutoff", VString(v.header.cutoff)),
             Named("policyVersion", VInt(v.header.policyVersion)), Named("publicManifestHash", VString(v.header.publicManifestHash)),
             Named("schemaFingerprint", VString(v.header.schemaFingerprint)), Named("siteId", VString(v.header.siteId)),
             Named("version", VInt(v.header.version))])
  }

  lemma VerificationNamesAscend()
    ensures Less(CONTENT_HASH, COUNTS) && Less(COUNTS, CUTOFF) && Less(CUTOFF, EscrowNames.POLICY_VERSION)
    ensures Less(EscrowNames.POLICY_VERSION, PUBLIC_MANIFEST_HASH) && Less(PUBLIC_MANIFEST_HASH, SCHEMA_FINGERPRINT)
    ensures Less(SCHEMA_FINGERPRINT, SITE_ID) && Less(SITE_ID, VERSION)
  {
    hide Less;
    DiffersAt(CONTENT_HASH, COUNTS, 2);
    DiffersAt(COUNTS, CUTOFF, 1);
    DiffersAt(CUTOFF, EscrowNames.POLICY_VERSION, 0);
    DiffersAt(EscrowNames.POLICY_VERSION, PUBLIC_MANIFEST_HASH, 1);
    DiffersAt(PUBLIC_MANIFEST_HASH, SCHEMA_FINGERPRINT, 0);
    DiffersAt(SCHEMA_FINGERPRINT, SITE_ID, 1);
    DiffersAt(SITE_ID, VERSION, 0);
  }

  /** Eight entries, in order after two exchanges; the last one is an object. */
  lemma {:induction false} EightSorted(v: Entry, si: Entry, cu: Entry, po: Entry, pu: Entry, sc: Entry, co: Entry, ct: Entry)
    requires IsScalar(v.value) && IsScalar(si.value) && IsScalar(cu.value) && IsScalar(po.value) && IsScalar(pu.value) && IsScalar(sc.value) && IsScalar(co.value)
    requires IntegersOnly(ct.value)
    requires Less(co.key, ct.key) && Less(ct.key, cu.key) && Less(cu.key, po.key) && Less(po.key, pu.key) && Less(pu.key, sc.key) && Less(sc.key, si.key)
    requires Less(si.key, v.key)
    ensures IntegersOnly(VObject([v, si, cu, po, pu, sc, co, ct]))
    ensures SortKeys(VObject([v, si, cu, po, pu, sc, co, ct])) == VObject([co, Entry(ct.key, SortKeys(ct.value)), cu, po, pu, sc, si, v])
  {
    hide Less, NamesAscend, Sort, SortEntries, SortKeys, IntegersOnly, IntegersInEntries;
    var ct' := Entry(ct.key, SortKeys(ct.value));
    var e := [v, si, cu, po, pu, sc, co, ct];
    var front := [v, si, cu, po, pu, sc, co];
    assert e == front + [ct];
    AllButLast(front, ct);
    assert front + [ct'] == [v, si, cu, po, pu, sc, co, ct'];
    EightPut(v, si, cu, po, pu, sc, co, ct');
    ObjectSorted(e);
  }

  lemma {:induction false} EightPut(v: Entry, si: Entry, cu: Entry, po: Entry, pu: Entry, sc: Entry, co: Entry, ct: Entry)
    requires Less(co.key, ct.key) && Less(ct.key, cu.key) && Less(cu.key, po.key) && Less(po.key, pu.key) && Less(pu.key, sc.key) && Less(sc.key, si.key)
    requires Less(si.key, v.key)
    ensures Sort(ENTRY_ORDER, [v, si, cu, po, pu, sc, co, ct]) == [co, ct, cu, po, pu, sc, si, v]
  {
    hide *;
    EightAscend(co, ct, cu, po, pu, sc, si, v);
    SortIs([v, si, cu, po, pu, sc, co, ct], [co, ct, cu, po, pu, sc, si, v]);
  }

  lemma {:induction false} EightAscend(a: Entry, b: Entry, c: Entry, d: Entry, e: Entry, f: Entry, g: Entry, h: Entry)
    requires Less(a.key, b.key) && Less(b.key, c.key) && Less(c.key, d.key) && Less(d.key, e.key) && Less(e.key, f.key) && Less(f.key, g.key)
    requires Less(g.key, h.key)
    ensures NamesAscend([a, b, c, d, e, f, g, h])
  {
    hide Less, NamesAscend;
    NeighboursAscend([a, b, c, d, e, f, g, h]);
  }

  lemma {:induction false} AllButLast(front: seq<Entry>, last: Entry)
    requires (forall i :: 0 <= i < |front| ==> IsScalar(front[i].value)) && IntegersOnly(last.value)
    ensures IntegersInEntries(front + [last]) && SortEntries(front + [last]) == front + [Entry(last.key, SortKeys(last.value))]
  {
    hide SortEntries, SortKeys, IntegersOnly, IntegersInEntries;
    var e := front + [last];
    forall i | 0 <= i < |front| ensures IntegersOnly(front[i].value) && SortKeys(front[i].value) == front[i].value { ScalarStays(front[i].value); }
    IntegerEntries(e);
    forall i | 0 <= i < |e|
      ensures SortEntries(e)[i] == (front + [Entry(last.key, SortKeys(last.value))])[i]
    {
      EntryAt(e, i);
    }
  }

  lemma {:induction false} VerificationCanonical(v: Verification)
    ensures IntegersOnly(VerificationValue(v)) && SortKeys(VerificationValue(v)) == VerificationObject(v)
  {
    hide Ascii, Less, SortKeys, IntegersOnly, CountEntries, CountsObject;
    NamesSpelled();
    CountsCanonical(v.counts);
    VerificationNamesAscend();
    EightSorted(EscrowCodec.Number(VERSION, v.header.version), Str(SITE_ID, v.header.siteId), Str(CUTOFF, v.header.cutoff),
                EscrowCodec.Number(EscrowNames.POLICY_VERSION, v.header.policyVersion), Str(PUBLIC_MANIFEST_HASH, v.header.publicManifestHash),
                Str(SCHEMA_FINGERPRINT, v.header.schemaFingerprint), Str(CONTENT_HASH, v.contentHash), Entry(COUNTS, VObject(CountEntries(v.counts))));
  }

  lemma ArtifactNames()
    ensures BATCH_RECORD_ID == Ascii("batchRecordId") && BINDINGS == Ascii("bindings") && ESCROW == Ascii("escrow")
    ensures BATCH_RECORD_ID[0] == 98 && MANIFEST_INDEX[0] == 109
    ensures BINDINGS[0] == 98 && ESCROW[0] == 101 && PUBLIC_MANIFEST_HASH[0] == 112 && SITE_ID[0] == 115 && VERSION[0] == 118
  {
  }

  /** A binding in the hashed text. */
  function BindingObject(b: Binding): Value {
    VObject([Named("batchRecordId", VString(b.batchRecordId)), Named("manifestIndex", VInt(b.manifestIndex))])
  }

  lemma {:induction false} TwoExchanged(a: Entry, b: Entry)
    requires IsScalar(a.value) && IsScalar(b.value) && StartsWith(b, 98) && StartsWith(a, 109)
    ensures IntegersOnly(VObject([a, b])) && SortKeys(VObject([a, b])) == VObject([b, a])
  {
    hide SortKeys, NamesAscend, IntegersOnly;
    FirstUnitsAscend([b, a]);
    ScalarObject([a, b], [b, a]);
  }

  lemma BindingCanonical(b: Binding)
    ensures IntegersOnly(BindingValue(b)) && SortKeys(BindingValue(b)) == BindingObject(b)
  {
    hide Ascii, SortKeys, IntegersOnly;
    NamesSpelled();
    ArtifactNames();
    TwoExchanged(EscrowCodec.Number(MANIFEST_INDEX, b.manifestIndex), Str(BATCH_RECORD_ID, b.batchRecordId));
  }

  function BindingObjects(bs: seq<Binding>): seq<Value> { seq(|bs|, i requires 0 <= i < |bs| => BindingObject(bs[i])) }

  lemma {:induction false} BindingsCanonical(bs: seq<Binding>)
    ensures IntegersOnly(VArray(BindingValues(bs))) && SortKeys(VArray(BindingValues(bs))) == VArray(BindingObjects(bs))
  {
    hide BindingValue, BindingObject, SortItems, IntegersInItems;
    forall i | 0 <= i < |bs| ensures IntegersOnly(BindingValues(bs)[i]) { BindingCanonical(bs[i]); }
    IntegerItems(BindingValues(bs));
    forall i | 0 <= i < |bs|
      ensures SortItems(BindingValues(bs))[i] == BindingObjects(bs)[i]
    {
      ItemAt(BindingValues(bs), i);
      BindingCanonical(bs[i]);
    }
  }

  /** Five entries in the opposite order. */
  lemma {:induction false} FiveReversed(v: Entry, si: Entry, pu: Entry, es: Entry, bi: Entry)
    requires IsScalar(v.value) && IsScalar(si.value) && IsScalar(pu.value) && IntegersOnly(es.value) && IntegersOnly(bi.value)
    requires StartsWith(bi, 98) && StartsWith(es, 101) && StartsWith(pu, 112) && StartsWith(si, 115) && StartsWith(v, 118)
    ensures IntegersOnly(VObject([v, si, pu, es, bi]))
    ensures SortKeys(VObject([v, si, pu, es, bi])) == VObject([Entry(bi.key, SortKeys(bi.value)), Entry(es.key, SortKeys(es.value)), pu, si, v])
  {
    hide NamesAscend, Sort, SortEntries, SortKeys, IntegersOnly, IntegersInEntries;
    var es', bi' := Entry(es.key, SortKeys(es.value)), Entry(bi.key, SortKeys(bi.value));
    FiveEntries(v, si, pu, es, bi);
    FivePut(v, si, pu, es', bi');
    ObjectSorted([v, si, pu, es, bi]);
  }

  lemma {:induction false} FivePut(v: Entry, si: Entry, pu: Entry, es: Entry, bi: Entry)
    requires StartsWith(bi, 98) && StartsWith(es, 101) && StartsWith(pu, 112) && StartsWith(si, 115) && StartsWith(v, 118)
    ensures Sort(ENTRY_ORDER, [v, si, pu, es, bi]) == [bi, es, pu, si, v]
  {
    hide NamesAscend, Sort, Less;
    FirstUnitsAscend([bi, es, pu, si, v]);
    SortIs([v, si, pu, es, bi], [bi, es, pu, si, v]);
  }

  lemma {:induction false} FiveEntries(v: Entry, si: Entry, pu: Entry, es: Entry, bi: Entry)
    requires IsScalar(v.value) && IsScalar(si.value) && IsScalar(pu.value) && IntegersOnly(es.value) && IntegersOnly(bi.value)
    ensures IntegersInEntries([v, si, pu, es, bi])
    ensures SortEntries([v, si, pu, es, bi]) == [v, si, pu, Entry(es.key, SortKeys(es.value)), Entry(bi.key, SortKeys(bi.value))]
  {
    hide SortEntries, SortKeys, IntegersOnly, IntegersInEntries;
    var e := [v, si, pu, es, bi];
    ScalarStays(v.value);
    ScalarStays(si.value);
    ScalarStays(pu.value);
    IntegerEntries(e);
    forall i | 0 <= i < 5
      ensures SortEntries(e)[i] == [v, si, pu, Entry(es.key, SortKeys(es.value)), Entry(bi.key, SortKeys(bi.value))][i]
    {
      EntryAt(e, i);
    }
  }

  lemma {:induction false} ArtifactCanonical(version: int, siteId: Text, publicManifestHash: Text, escrow: Verification, bindings: seq<Binding>)
    ensures IntegersOnly(ArtifactValue(version, siteId, publicManifestHash, escrow, bindings))
    ensures SortKeys(ArtifactValue(version, siteId, publicManifestHash, escrow, bindings)) ==
            VObject([Named("bindings", VArray(BindingObjects(bindings))), Named("escrow", VerificationObject(escrow)),
                     Named("publicManifestHash", VString(publicManifestHash)), Named("siteId", VString(siteId)), Named("version", VInt(version))])
  {
    hide Ascii, SortKeys, IntegersOnly, BindingValues, BindingObjects, VerificationValue, VerificationObject;
    NamesSpelled();
    ArtifactNames();
    BindingsCanonical(bindings);
    VerificationCanonical(escrow);
    FiveReversed(EscrowCodec.Number(VERSION, version), Str(SITE_ID, siteId), Str(PUBLIC_MANIFEST_HASH, publicManifestHash),
                 Entry(ESCROW, VerificationValue(escrow)), Entry(BINDINGS, VArray(BindingValues(bindings))));
  }

  /** The text whose digest is the artifact's hash, parsed. */
  lemma {:induction false} ArtifactLayout(version: int, siteId: Text, publicManifestHash: Text, escrow: Verification, bindings: seq<Binding>)
    ensures IntegersOnly(ArtifactValue(version, siteId, publicManifestHash, escrow, bindings))
    ensures Parse(false, CanonicalJson.CanonicalJson(ArtifactValue(version, siteId, publicManifestHash, escrow, bindings))) ==
            Some(VObject([
              Named("bindings", VArray(BindingObjects(bindings))),
              Named("escrow", VerificationObject(escrow)),
              Named("publicManifestHash", VString(publicManifestHash)),
              Named("siteId", VString(siteId)),
              Named("version", VInt(version))]))
  {
    hide Ascii, Parse, Stringify, SortKeys, CanonicalJson.CanonicalJson, ArtifactValue, BindingObjects, VerificationObject, IntegersOnly;
    ArtifactCanonical(version, siteId, publicManifestHash, escrow, bindings);
    CanonicalIsStringify(ArtifactValue(version, siteId, publicManifestHash, escrow, bindings));
    ParseStringify(SortKeys(ArtifactValue(version, siteId, publicManifestHash, escrow, bindings)));
  }
}
