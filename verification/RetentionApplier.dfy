/** Apply: the batches of a verified escrow are deleted one by one, each in its own transaction. */
module RetentionApplier {
  import opened Utf16
  import opened Options
  import opened StableSort
  import opened EscrowRecords
  import opened EscrowCodec
  import opened EscrowGroups
  import opened EscrowStages
  import opened EscrowSource
  import opened RetentionPolicy
  import opened RetentionApply
  import opened EscrowLoader
  import opened SnapshotKeys
  import opened EscrowStream
  import opened RetentionDatabase

  // ---------- the transaction

  /** A copy of the database with the deletions and counts that apply makes. A faulty transaction
      may throw at any operation. Foreign keys restrict deletions. */
  class Transaction {
    var db: Database
    const faulty: bool

    constructor (db: Database, faulty: bool)
      ensures this.db == db && this.faulty == faulty
    {
      this.db, this.faulty := db, faulty;
    }

    /** Whether an operation throws for a reason outside the model. */
    method Fault() returns (thrown: bool)
      ensures thrown ==> faulty
    {
      var chance: bool := *;
      thrown := faulty && chance;
    }

    method DeleteNotifications(messageIds: seq<Text>) returns (count: Option<int>)
      modifies this
      ensures count.Some? ==> var gone := NotificationsOf(old(db), AsSet(messageIds));
                              db == old(db).(notifications := old(db).notifications - gone) && count.value == |gone|
      ensures !faulty ==> count.Some?
    {
      var thrown := Fault();
      if thrown { return None; }
      var gone := NotificationsOf(db, AsSet(messageIds));
      db := db.(notifications := db.notifications - gone);
      count := Some(|gone|);
    }

    method DeleteErrors(batch: Text) returns (count: Option<int>)
      modifies this
      ensures count.Some? ==> var gone := ChildErrors(old(db), batch);
                              db == old(db).(errors := old(db).errors - gone) && count.value == |gone|
      ensures !faulty ==> count.Some?
    {
      var thrown := Fault();
      if thrown { return None; }
      var gone := ChildErrors(db, batch);
      db := db.(errors := db.errors - gone);
      count := Some(|gone|);
    }

    method DeleteMessages(batch: Text) returns (count: Option<int>)
      modifies this
      ensures count.Some? ==> var gone := ChildMessages(old(db), batch);
                              db == old(db).(messages := old(db).messages - gone) && count.value == |gone|
      ensures !faulty && NotificationsOf(old(db), ChildMessageIds(old(db), batch)) == {} ==> count.Some?
    {
      var thrown := Fault();
      if thrown { return None; }
      if NotificationsOf(db, ChildMessageIds(db, batch)) != {} { return None; }
      var gone := ChildMessages(db, batch);
      db := db.(messages := db.messages - gone);
      count := Some(|gone|);
    }

    method DeleteBatch(b: BatchRow) returns (count: Option<int>)
      modifies this
      ensures count.Some? ==> db == old(db).(batches := old(db).batches - MatchingBatch(old(db), b)) && count.value == |MatchingBatch(old(db), b)|
      ensures !faulty && ChildMessages(old(db), b.id) == {} && ChildErrors(old(db), b.id) == {} ==> count.Some?
    {
      var thrown := Fault();
      if thrown { return None; }
      if ChildMessages(db, b.id) != {} || ChildErrors(db, b.id) != {} { return None; }
      var gone := MatchingBatch(db, b);
      db := db.(batches := db.batches - gone);
      count := Some(|gone|);
    }

    /** Any of the `count` queries: it throws or gives the size of the set. */
    method Count(rows: set<Text>) returns (count: Option<int>)
      ensures count.Some? ==> count.value == |rows|
      ensures !faulty ==> count.Some?
    {
      var thrown := Fault();
      if thrown { return None; }
      count := Some(|rows|);
    }
  }

  /** The row that the parent's delete condition on id, site, batch id and date selects. */
  function MatchingBatch(db: Database, b: BatchRow): set<Text> {
    if b.id in db.batches && db.batches[b.id].siteId == b.siteId && db.batches[b.id].batchId == b.batchId && db.batches[b.id].created == b.created
    then {b.id} else {}
  }

  method DeleteAndValidate(count: Option<int>, expected: int) returns (r: Option<int>)
    ensures r == if count.Some? && IsCount(count.value) && count.value == expected then count else None
  {
    if count.None? || !IsCount(count.value) || count.value != expected { return None; }
    r := count;
  }

  // ---------- the deletions remove exactly the group

  /** The database after each deletion. */
  function AfterNotifications(db: Database, g: Group): Database {
    db.(notifications := db.notifications - AsSet(NotificationRowIds(g.notifications)))
  }

  function AfterErrors(db: Database, g: Group): Database {
    AfterNotifications(db, g).(errors := db.errors - AsSet(ErrorRowIds(g.errors)))
  }

  function AfterMessages(db: Database, g: Group): Database {
    AfterErrors(db, g).(messages := db.messages - AsSet(MessageRowIds(g.messages)))
  }

  lemma KeysAreChildIds(db: Database, g: Group)
    requires GroupStored(db, g)
    ensures AsSet(MessageKeys(g.messages)) == ChildMessageIds(db, g.parent.id)
  {
    forall id | id in ChildMessages(db, g.parent.id)
      ensures db.messages[id].messageId in AsSet(MessageKeys(g.messages))
    {
      assert id in AsSet(MessageRowIds(g.messages));
      var i :| 0 <= i < |g.messages| && MessageRowIds(g.messages)[i] == id;
      assert g.messages[i] in g.messages && MessageKeys(g.messages)[i] == g.messages[i].messageId;
    }
    forall i | 0 <= i < |g.messages|
      ensures g.messages[i].messageId in ChildMessageIds(db, g.parent.id)
    {
      assert g.messages[i] in g.messages;
      assert MessageRowIds(g.messages)[i] in AsSet(MessageRowIds(g.messages));
    }
  }

  /** What the deletions and the closing counts meet on the way. */
  lemma DeletionSteps(db: Database, g: Group)
    requires GroupStored(db, g)
    ensures NotificationsOf(db, AsSet(MessageKeys(g.messages))) == AsSet(NotificationRowIds(g.notifications))
    ensures g.messages == [] ==> AsSet(NotificationRowIds(g.notifications)) == {}
    ensures ChildErrors(AfterNotifications(db, g), g.parent.id) == AsSet(ErrorRowIds(g.errors))
    ensures ChildMessages(AfterErrors(db, g), g.parent.id) == AsSet(MessageRowIds(g.messages))
    ensures NotificationsOf(AfterErrors(db, g), ChildMessageIds(AfterErrors(db, g), g.parent.id)) == {}
    ensures ChildMessages(AfterMessages(db, g), g.parent.id) == {} && ChildErrors(AfterMessages(db, g), g.parent.id) == {}
    ensures MatchingBatch(AfterMessages(db, g), g.parent) == {g.parent.id}
    ensures AfterMessages(db, g).(batches := db.batches - {g.parent.id}) == Without(db, g)
  {
    KeysAreChildIds(db, g);
    assert ChildMessages(AfterErrors(db, g), g.parent.id) == ChildMessages(db, g.parent.id);
    assert ChildMessageIds(AfterErrors(db, g), g.parent.id) == ChildMessageIds(db, g.parent.id);
    if g.messages == [] {
      assert MessageRowIds(g.messages) == [];
      NoMessagesNoNotifications(db, g.parent.id);
    }
  }

  lemma AfterRemoval(db: Database, g: Group)
    requires GroupStored(db, g)
    ensures ChildMessages(Without(db, g), g.parent.id) == {} && ChildErrors(Without(db, g), g.parent.id) == {}
    ensures NotificationsOf(Without(db, g), AsSet(MessageKeys(g.messages))) == {}
    ensures FoundBatch(Without(db, g), g.parent.id, g.parent.siteId) == None
    ensures OpenOrphans(Without(db, g), AsSet(MessageKeys(g.messages))) == OpenOrphans(db, AsSet(MessageKeys(g.messages)))
  {
    DeletionSteps(db, g);
  }

  // ---------- one batch

  datatype ReceiptBatch = ReceiptBatch(
    manifestIndex: int, batchId: Text, deletedNotificationCount: int, deletedErrorCount: int, deletedMessageCount: int, deletedBatchCount: int)

  /** The receipt's numbers are those of the rows that the tables have lost. */
  ghost predicate CountsLost(r: ReceiptBatch, before: Database, after: Database) {
    && r.deletedNotificationCount == |before.notifications| - |after.notifications|
    && r.deletedErrorCount == |before.errors| - |after.errors|
    && r.deletedMessageCount == |before.messages| - |after.messages|
    && r.deletedBatchCount == |before.batches| - |after.batches|
  }

  /** The receipt of group k. */
  ghost predicate CountsGroup(r: ReceiptBatch, k: int, g: Group) {
    && r.manifestIndex == k && r.batchId == g.parent.batchId
    && r.deletedNotificationCount == |g.notifications| && r.deletedErrorCount == |g.errors|
    && r.deletedMessageCount == |g.messages| && r.deletedBatchCount == 1
  }

  lemma SizeWithout<K, V>(m: map<K, V>, gone: set<K>)
    requires gone <= m.Keys
    ensures |m - gone| == |m| - |gone|
  {
    assert (m - gone).Keys == m.Keys - gone;
    assert |m.Keys| == |m - gone| + |gone|;
  }

  lemma LostRows(db: Database, g: Group)
    requires GroupStored(db, g) && |AsSet(MessageRowIds(g.messages))| == |g.messages| && |AsSet(ErrorRowIds(g.errors))| == |g.errors|
    requires |AsSet(NotificationRowIds(g.notifications))| == |g.notifications|
    ensures |db.notifications| - |Without(db, g).notifications| == |g.notifications| && |db.errors| - |Without(db, g).errors| == |g.errors|
    ensures |db.messages| - |Without(db, g).messages| == |g.messages| && |db.batches| - |Without(db, g).batches| == 1
  {
    hide AsSet;
    SizeWithout(db.notifications, AsSet(NotificationRowIds(g.notifications)));
    SizeWithout(db.errors, AsSet(ErrorRowIds(g.errors)));
    SizeWithout(db.messages, AsSet(MessageRowIds(g.messages)));
    SizeWithout(db.batches, {g.parent.id});
  }

  function ReceiptFor(k: int, b: PublicBatch): ReceiptBatch {
    ReceiptBatch(k, b.batchId, b.notificationCount, b.errorCount, b.messageCount, 1)
  }

  function CandidateFor(siteId: Text, b: PublicBatch, batchRecordId: Text): Candidate {
    Candidate(siteId, batchRecordId, b.batchId, b.createdAt, b.messageCount, b.notificationCount, b.errorCount, 0, true)
  }

  function Reindexed(records: seq<Record>, k: int): seq<Record> {
    seq(|records|, i requires 0 <= i < |records| => records[i].(manifestIndex := k))
  }

  function MessageKeysIn(records: seq<Record>): seq<Text> {
    if records == [] then []
    else MessageKeysIn(records[..|records| - 1]) +
         if records[|records| - 1].row.Message? then [records[|records| - 1].row.message.messageId] else []
  }

  predicate RecordsValid(records: seq<Record>) { forall i :: 0 <= i < |records| ==> ValidRecord(records[i]) }

  lemma ReindexedGroup(k: int, g: Group)
    ensures Reindexed(GroupRecords(0, g), k) == GroupRecords(k, g) && Flatten([g]) == GroupRecords(0, g)
  {
    ReindexedConcat([Record(0, Batch(g.parent))] + MessageRecords(0, g.messages) + ErrorRecords(0, g.errors), NotificationRecords(0, g.notifications), k);
    ReindexedConcat([Record(0, Batch(g.parent))] + MessageRecords(0, g.messages), ErrorRecords(0, g.errors), k);
    ReindexedConcat([Record(0, Batch(g.parent))], MessageRecords(0, g.messages), k);
    assert Reindexed(MessageRecords(0, g.messages), k) == MessageRecords(k, g.messages);
    assert Reindexed(ErrorRecords(0, g.errors), k) == ErrorRecords(k, g.errors);
    assert Reindexed(NotificationRecords(0, g.notifications), k) == NotificationRecords(k, g.notifications);
    assert Reindexed([Record(0, Batch(g.parent))], k) == [Record(k, Batch(g.parent))];
    FlattenSnoc([], g);
    assert [] + [g] == [g] && [] + GroupRecords(0, g) == GroupRecords(0, g);
  }

  lemma ReindexedConcat(a: seq<Record>, b: seq<Record>, k: int)
    ensures Reindexed(a + b, k) == Reindexed(a, k) + Reindexed(b, k)
  {
  }

  lemma GroupRecordsInjective(k: int, g: Group, h: Group)
    requires GroupRecords(k, g) == GroupRecords(k, h)
    ensures g == h
  {
    ReindexedBack(k, g);
    ReindexedBack(k, h);
    GroupingExact(Flatten([g]), [g]);
    GroupingExact(Flatten([g]), [h]);
  }

  lemma ReindexedBack(k: int, g: Group)
    ensures Flatten([g]) == Reindexed(GroupRecords(k, g), 0)
  {
    ReindexedGroup(k, g);
  }

  lemma {:induction false} MessageKeysConcat(a: seq<Record>, b: seq<Record>)
    ensures MessageKeysIn(a + b) == MessageKeysIn(a) + MessageKeysIn(b)
  {
    if b == [] {
      assert a + b == a;
    } else {
      var n := |b| - 1;
      MessageKeysConcat(a, b[..n]);
      assert (a + b)[..|a + b| - 1] == a + b[..n];
    }
  }

  lemma {:induction false} MessageKeysOfMessages(k: int, rows: seq<MessageRow>)
    ensures MessageKeysIn(MessageRecords(k, rows)) == MessageKeys(rows)
  {
    if rows != [] {
      var n := |rows| - 1;
      MessageKeysOfMessages(k, rows[..n]);
      assert MessageRecords(k, rows)[..n] == MessageRecords(k, rows[..n]);
      assert MessageKeys(rows) == MessageKeys(rows[..n]) + [rows[n].messageId];
    }
  }

  lemma {:induction false} NoMessageKeys(records: seq<Record>)
    requires forall r <- records :: !r.row.Message?
    ensures MessageKeysIn(records) == []
  {
    if records != [] { NoMessageKeys(records[..|records| - 1]); }
  }

  lemma MessageKeysOfGroup(k: int, g: Group)
    ensures MessageKeysIn(GroupRecords(k, g)) == MessageKeys(g.messages)
  {
    var p, m, e, n := [Record(k, Batch(g.parent))], MessageRecords(k, g.messages), ErrorRecords(k, g.errors), NotificationRecords(k, g.notifications);
    MessageKeysConcat(p + m + e, n);
    MessageKeysConcat(p + m, e);
    MessageKeysConcat(p, m);
    MessageKeysOfMessages(k, g.messages);
    NoMessageKeys(p);
    NoMessageKeys(e);
    NoMessageKeys(n);
  }

  /** `assertExactEscrowBatchRecords`: the serialized records are compared, which is comparing the
      records. */
  method AssertExactRecords(actual: seq<Record>, expected: seq<Record>) returns (ok: bool)
    ensures ok <==> actual == expected && RecordsValid(actual)
  {
    hide LineText, ValidRecord;
    if |actual| != |expected| { return false; }
    var i := 0;
    while i < |actual|
      invariant 0 <= i <= |actual| && actual[..i] == expected[..i] && forall j :: 0 <= j < i ==> ValidRecord(actual[j])
    {
      var left, right := Serialize(RecordLine(actual[i])), Serialize(RecordLine(expected[i]));
      if left.None? || right.None? || left != right { return false; }
      LineTextInjective(RecordLine(actual[i]), RecordLine(expected[i]));
      i := i + 1;
    }
    ok := true;
  }

  /** The batch can be applied: re-reading it gives the escrow's group. */
  ghost predicate Applicable(d: Delegate, p: Policy, c: Candidate, k: int, g: Group) {
    LoadsAs(d, AsInput(p), [c], [g]) && RecordsValid(GroupRecords(k, g))
  }

  lemma LoadsOne(d: Delegate, p: Policy, c: Candidate, groups: seq<Group>)
    requires ValidPolicy(p) && LoadsAs(d, AsInput(p), [c], groups)
    ensures groups == [groups[0]] && CandidateOk(c, p) && GroupLoads(d, c, p.(dryRun := true), groups[0])
  {
    hide CandidateOk, GroupLoads, ValidPolicy, ParsePolicy, CandidateBefore;
    ParsedAsInput(p);
    assert Sort(CandidateBefore, [c]) == [c] by { SortOfSorted(CandidateBefore, [c]); }
    CandidateModeless(c, p);
    assert [c][0] == c;
  }

  lemma ParsedAsInput(p: Policy)
    requires ValidPolicy(p)
    ensures ParsePolicy(AsInput(p)) == Some(p.(dryRun := true))
  {
  }

  lemma CandidateModeless(c: Candidate, p: Policy)
    ensures CandidateOk(c, p.(dryRun := true)) <==> CandidateOk(c, p)
  {
  }

  lemma LoadedOneStored(d: Delegate, db: Database, p: Policy, c: Candidate, g: Group)
    requires Faithful(d, db) && ValidPolicy(p) && LoadsAs(d, AsInput(p), [c], [g])
    ensures GroupStored(db, g) && |g.messages| == c.messageCount && |g.errors| == c.errorCount && |g.notifications| == c.notificationCount
    ensures c.messageCount > 0 ==> OpenOrphans(db, AsSet(MessageKeys(g.messages))) == {}
    ensures IsCount(c.messageCount) && IsCount(c.errorCount) && IsCount(c.notificationCount)
  {
    hide Faithful, Answered, ParentMatches, ChecksOk, GroupStored, LoadsAs, IsStrict, IsUtcMillis, Less;
    LoadsOne(d, p, c, [g]);
    CandidateModeless(c, p);
    LoadedGroupStored(d, db, c, p.(dryRun := true), g);
    if c.messageCount > 0 { NoOpenOrphans(d, db, g.messages); }
  }

  lemma NoOpenOrphans(d: Delegate, db: Database, rows: seq<MessageRow>)
    requires Faithful(d, db) && d.countOrphans(MessageKeys(rows)) == Some(0)
    ensures OpenOrphans(db, AsSet(MessageKeys(rows))) == {}
  {
    assert |OpenOrphans(db, AsSet(MessageKeys(rows)))| == 0;
  }

  lemma CountsOfStored(g: Group)
    requires UniqueInGroup(g)
    ensures |AsSet(MessageRowIds(g.messages))| == |g.messages| && |AsSet(ErrorRowIds(g.errors))| == |g.errors|
    ensures |AsSet(NotificationRowIds(g.notifications))| == |g.notifications|
  {
    SetOfDistinct(MessageRowIds(g.messages));
    SetOfDistinct(ErrorRowIds(g.errors));
    SetOfDistinct(NotificationRowIds(g.notifications));
  }

  ghost predicate CountsAre(g: Group, b: PublicBatch) {
    && |AsSet(MessageRowIds(g.messages))| == |g.messages| == b.messageCount
    && |AsSet(ErrorRowIds(g.errors))| == |g.errors| == b.errorCount
    && |AsSet(NotificationRowIds(g.notifications))| == |g.notifications| == b.notificationCount
    && IsCount(b.messageCount) && IsCount(b.errorCount) && IsCount(b.notificationCount)
  }

  /** The four deletions, each with its expected count. */
  method DeleteRows(tx: Transaction, k: int, b: PublicBatch, parent: BatchRow, messageIds: seq<Text>, ghost g: Group)
    returns (r: Option<ReceiptBatch>)
    requires GroupStored(tx.db, g) && CountsAre(g, b) && parent == g.parent && messageIds == MessageKeys(g.messages)
    modifies tx
    ensures r.Some? ==> tx.db == Without(old(tx.db), g) && r.value == ReceiptFor(k, b)
    ensures r.Some? ==> CountsLost(r.value, old(tx.db), tx.db) && r.value.manifestIndex == k && r.value.batchId == b.batchId
    ensures !tx.faulty ==> r.Some?
  {
    hide GroupStored, NotificationsOf, ChildMessages, ChildErrors, ChildMessageIds, MatchingBatch, AsSet, Without;
    ghost var db := tx.db;
    DeletionSteps(db, g);
    LostRows(db, g);
    NoKeys(g.messages);
    var notifications: Option<int> := Some(0);
    if messageIds != [] {
      notifications := tx.DeleteNotifications(messageIds);
      notifications := DeleteAndValidate(notifications, b.notificationCount);
      if notifications.None? { return None; }
    }
    NothingRemoved(tx.db.notifications);
    assert tx.db == AfterNotifications(db, g);
    var errors := tx.DeleteErrors(parent.id);
    errors := DeleteAndValidate(errors, b.errorCount);
    if errors.None? { return None; }
    assert tx.db == AfterErrors(db, g);
    var messages := tx.DeleteMessages(parent.id);
    messages := DeleteAndValidate(messages, b.messageCount);
    if messages.None? { return None; }
    assert tx.db == AfterMessages(db, g);
    var batches := tx.DeleteBatch(parent);
    batches := DeleteAndValidate(batches, 1);
    if batches.None? { return None; }
    r := Some(ReceiptBatch(k, b.batchId, notifications.value, errors.value, messages.value, batches.value));
  }

  lemma NoKeys(rows: seq<MessageRow>)
    ensures MessageKeys(rows) == [] <==> rows == []
  {
    assert |MessageKeys(rows)| == |rows|;
  }

  lemma NothingRemoved<K, V>(m: map<K, V>)
    ensures m - {} == m
  {
  }

  /** The closing counts: nothing of the group is left. */
  method CheckGone(tx: Transaction, parent: BatchRow, messageIds: seq<Text>, ghost g: Group, ghost db: Database) returns (ok: bool)
    requires GroupStored(db, g) && tx.db == Without(db, g) && parent == g.parent && messageIds == MessageKeys(g.messages)
    requires g.messages != [] ==> OpenOrphans(db, AsSet(messageIds)) == {}
    ensures !tx.faulty ==> ok
  {
    hide GroupStored, NotificationsOf, ChildMessages, ChildErrors, OpenOrphans, FoundBatch, AsSet, Without;
    AfterRemoval(db, g);
    NoKeys(g.messages);
    var count := tx.Count(if FoundBatch(tx.db, parent.id, parent.siteId).Some? then {parent.id} else {});
    if count != Some(0) { return false; }
    count := tx.Count(ChildMessages(tx.db, parent.id));
    if count != Some(0) { return false; }
    count := tx.Count(ChildErrors(tx.db, parent.id));
    if count != Some(0) { return false; }
    if messageIds != [] {
      count := tx.Count(NotificationsOf(tx.db, AsSet(messageIds)));
      if count != Some(0) { return false; }
      count := tx.Count(OpenOrphans(tx.db, AsSet(messageIds)));
      if count != Some(0) { return false; }
    }
    ok := true;
  }

  /** `applyNewsletterRetentionBatch`. `g` is the group whose records are expected. */
  method ApplyBatch(tx: Transaction, d: Delegate, p: Policy, siteId: Text, k: int, b: PublicBatch, batchRecordId: Text,
                    expected: seq<Record>, ghost g: Group)
    returns (r: Option<ReceiptBatch>)
    requires ValidPolicy(p) && Faithful(d, tx.db) && expected == GroupRecords(k, g)
    modifies tx
    ensures r.Some? ==> Applicable(d, p, CandidateFor(siteId, b, batchRecordId), k, g)
    ensures r.Some? ==> GroupStored(old(tx.db), g) && tx.db == Without(old(tx.db), g) && r.value == ReceiptFor(k, b)
    ensures r.Some? ==> CountsLost(r.value, old(tx.db), tx.db) && CountsGroup(r.value, k, g)
    ensures !tx.faulty && Applicable(d, p, CandidateFor(siteId, b, batchRecordId), k, g) ==> r.Some?
  {
    hide LoadsAs, GroupStored, GroupRecords, RecordsValid, Faithful, ValidPolicy, OpenOrphans, AsSet, Without, Flatten, GroupsOk;
    ghost var db := tx.db;
    var c := CandidateFor(siteId, b, batchRecordId);
    var records, ends, groups := StreamRecords(d, AsInput(p), [c]);
    if !ends { return None; }
    LoadsOneGroup(d, p, c, groups);
    var actual := Reindexed(records, k);
    ReindexedGroup(k, groups[0]);
    var exact := AssertExactRecords(actual, expected);
    if !exact {
      NotApplicable(d, p, c, k, g, groups);
      return None;
    }
    GroupRecordsInjective(k, g, groups[0]);
    LoadedOneStored(d, db, p, c, g);
    LoadedCounts(d, p, c, k, g, b);
    MessageKeysOfGroup(k, g);
    ParentFirst(k, g);
    if actual == [] || !actual[0].row.Batch? { return None; }
    var parent, messageIds := actual[0].row.batch, MessageKeysIn(actual);
    r := DeleteRows(tx, k, b, parent, messageIds, g);
    if r.None? { return; }
    var ok := CheckGone(tx, parent, messageIds, g, db);
    if !ok { return None; }
  }

  lemma LoadsOneGroup(d: Delegate, p: Policy, c: Candidate, groups: seq<Group>)
    requires ValidPolicy(p) && LoadsAs(d, AsInput(p), [c], groups)
    ensures |groups| == 1 && groups == [groups[0]]
  {
    LoadsOne(d, p, c, groups);
  }

  /** When the records differ, the expected group does not load. */
  lemma NotApplicable(d: Delegate, p: Policy, c: Candidate, k: int, g: Group, groups: seq<Group>)
    requires ValidPolicy(p) && LoadsAs(d, AsInput(p), [c], groups) && |groups| == 1
    requires !(GroupRecords(k, groups[0]) == GroupRecords(k, g) && RecordsValid(GroupRecords(k, groups[0])))
    ensures !Applicable(d, p, c, k, g)
  {
    hide Snapshot, CandidatesOk, ParsePolicy, GroupRecords, RecordsValid;
    if LoadsAs(d, AsInput(p), [c], [g]) {
      SnapshotUnique(d, Sort(CandidateBefore, [c]), groups, [g], ParsePolicy(AsInput(p)).value);
      assert groups == [groups[0]] == [g];
    }
  }

  lemma LoadedCounts(d: Delegate, p: Policy, c: Candidate, k: int, g: Group, b: PublicBatch)
    requires ValidPolicy(p) && LoadsAs(d, AsInput(p), [c], [g]) && c.messageCount == b.messageCount && c.errorCount == b.errorCount
    requires c.notificationCount == b.notificationCount
    ensures CountsAre(g, b)
    ensures b.batchId == c.batchId ==> CountsGroup(ReceiptFor(k, b), k, g)
  {
    hide LoadsAs, IsStrict, IsUtcMillis, Less, ChecksOk, AsSet, Answered, OrphansOk, StrictBatch;
    LoadsOne(d, p, c, [g]);
    CandidateModeless(c, p);
    MatchingGroupOk(c, p.(dryRun := true), g);
    CountsOfStored(g);
  }

  lemma ParentFirst(k: int, g: Group)
    ensures GroupRecords(k, g) != [] && GroupRecords(k, g)[0] == Record(k, Batch(g.parent))
  {
  }

  // ---------- reading what is expected

  /** The escrow lists as many valid records for the batch as the manifest announces. */
  ghost predicate Readable(k: int, g: Group, b: PublicBatch) {
    RecordsValid(GroupRecords(k, g)) && CountsAre(g, b) && |GroupRecords(k, g)| <= MAX_SAFE_INTEGER
  }

  /** `readVerifiedBatchRecords`. */
  method ReadVerifiedBatch(source: Source, k: int, b: PublicBatch, faulty: bool) returns (r: Option<seq<Record>>)
    requires source.Valid() && PublicBatchOk(b)
    modifies source, source.records, source.records.lines
    ensures source.Valid() && source.closed == old(source.closed)
    ensures r.Some? ==> k == old(source.nextManifestIndex) && source.nextManifestIndex == k + 1
    ensures r.Some? ==> 0 <= k < |source.groups| && r.value == GroupRecords(k, source.groups[k])
    ensures !faulty && !source.closed && 0 <= k == old(source.nextManifestIndex) < |source.groups| && Readable(k, source.groups[k], b) ==> r.Some?
  {
    hide GroupRecords, ValidRecord, RecordIterator.Valid, TailRecords, AsSet;
    var chance: bool := *;
    if faulty && chance { return None; }
    var rows := source.ReadBatchRecords(k);
    if rows.None? { return None; }
    if 0 <= k < |source.groups| { GroupLength(k, source.groups[k]); }
    PublicCounts(b);
    var count := SafeAdd(1, b.messageCount);
    if count.None? { return None; }
    count := SafeAdd(count.value, b.errorCount);
    if count.None? { return None; }
    count := SafeAdd(count.value, b.notificationCount);
    if count.None? || |rows.value| != count.value { return None; }
    if exists i :: 0 <= i < |rows.value| && !(ValidRecord(rows.value[i]) && rows.value[i].manifestIndex == k) { return None; }
    r := rows;
  }

  lemma GroupLength(k: int, g: Group)
    ensures |GroupRecords(k, g)| == 1 + |g.messages| + |g.errors| + |g.notifications|
    ensures forall i :: 0 <= i < |GroupRecords(k, g)| ==> GroupRecords(k, g)[i].manifestIndex == k
  {
  }

  lemma PublicCounts(b: PublicBatch)
    requires PublicBatchOk(b)
    ensures b.messageCount >= 0 && b.errorCount >= 0 && b.notificationCount >= 0
  {
  }

  // ---------- the run

  class Store {
    var db: Database

    constructor (db: Database)
      ensures this.db == db
    {
      this.db := db;
    }
  }

  datatype LockAnswer = Granted | AlreadyHeld | LockThrows

  /** The lock provider and its lease, with counters of what was called. */
  class ApplyLock {
    const answer: LockAnswer
    const releaseThrows: bool
    var acquired: nat
    var released: nat

    constructor (answer: LockAnswer, releaseThrows: bool)
      ensures this.answer == answer && this.releaseThrows == releaseThrows && acquired == released == 0
    {
      this.answer, this.releaseThrows, acquired, released := answer, releaseThrows, 0, 0;
    }

    method TryAcquire() returns (granted: bool)
      modifies this`acquired
      ensures granted <==> answer.Granted?
      ensures acquired == old(acquired) + if granted then 1 else 0
    {
      granted := answer.Granted?;
      if granted { acquired := acquired + 1; }
    }

    method Release() returns (ok: bool)
      modifies this`released
      ensures ok <==> !releaseThrows
      ensures released == old(released) + 1
    {
      released := released + 1;
      ok := !releaseThrows;
    }
  }

  datatype Receipt = Receipt(
    manifestHash: Text, artifactHash: Text, escrowContentHash: Text, schemaFingerprint: Text, siteId: Text, batches: seq<ReceiptBatch>)

  /** Refused is an error before the lock is asked for; Failed carries the fields of
      NewsletterRetentionApplyError. */
  datatype ApplyOutcome =
    | Refused
    | Failed(completedBatchCount: int, failedManifestIndex: Option<int>)
    | Completed(receipt: Receipt)

  /** The answers that batch k's transaction gets from its database. */
  type Queries = (nat, Database) -> Delegate

  /** The transaction of batch i answers truly about the database that the batches before it leave. */
  ghost predicate FaithfulInTurn(queries: Queries, groups: seq<Group>, db: Database) {
    forall i: nat :: i < |groups| ==> Faithful(queries(i, WithoutAll(db, groups[..i])), WithoutAll(db, groups[..i]))
  }

  /** Batch k is as the escrow says, in the database that the batches before it leave. */
  ghost predicate BatchApplies(queries: Queries, c: Context, groups: seq<Group>, k: nat, db: Database)
    requires k < |groups| && k < |c.manifest.batches| && k < |c.artifact.bindings|
  {
    var b := c.manifest.batches[k];
    && Readable(k, groups[k], b)
    && Applicable(queries(k, db), c.policy, CandidateFor(c.manifest.siteId, b, c.artifact.bindings[k].batchRecordId), k, groups[k])
  }

  /** Batch k, if there is one, is not as the escrow says. */
  ghost predicate DoesNotApply(queries: Queries, c: Context, groups: seq<Group>, k: nat, db: Database) {
    k < |groups| && k < |c.manifest.batches| && k < |c.artifact.bindings| ==> !BatchApplies(queries, c, groups, k, db)
  }

  /** The first k batches were applied, each to the database that the ones before it left. */
  ghost predicate AppliedInTurn(queries: Queries, c: Context, groups: seq<Group>, k: nat, db: Database) {
    && k <= |groups| && k <= |c.manifest.batches| && k <= |c.artifact.bindings|
    && forall i :: 0 <= i < k ==>
         && Applicable(queries(i, WithoutAll(db, groups[..i])), c.policy,
                       CandidateFor(c.manifest.siteId, c.manifest.batches[i], c.artifact.bindings[i].batchRecordId), i, groups[i])
         && GroupStored(WithoutAll(db, groups[..i]), groups[i])
         && groups[i].parent.id == c.artifact.bindings[i].batchRecordId
  }

  ghost predicate ContextOk(c: Context) {
    && ValidPolicy(c.policy) && |c.artifact.bindings| == |c.manifest.batches| > 0
    && (forall i :: 0 <= i < |c.manifest.batches| ==> PublicBatchOk(c.manifest.batches[i]) && c.artifact.bindings[i].manifestIndex == i)
  }

  /** One round of the loop: reading, and a transaction that is kept only when all of it succeeds. */
  method ApplyNext(c: Context, source: Source, store: Store, queries: Queries, faulty: bool, i: nat, ghost start: Database)
    returns (r: Option<ReceiptBatch>)
    requires i < |c.artifact.bindings| && i <= |source.groups| && ContextOk(c) && FaithfulInTurn(queries, source.groups, start)
    requires source.Valid() && AppliedInTurn(queries, c, source.groups, i, start) && store.db == WithoutAll(start, source.groups[..i])
    modifies store, source, source.records, source.records.lines
    ensures source.Valid() && source.closed == old(source.closed)
    ensures r.None? ==> store.db == old(store.db)
    ensures r.Some? ==> i < |source.groups| && i < |c.manifest.batches|
    ensures r.Some? ==> AppliedInTurn(queries, c, source.groups, i + 1, start) && store.db == WithoutAll(start, source.groups[..i + 1])
    ensures r.Some? ==> r.value == ReceiptFor(i, c.manifest.batches[i]) && i == old(source.nextManifestIndex) && source.nextManifestIndex == i + 1
    ensures r.None? && !faulty && !source.closed && i == old(source.nextManifestIndex) ==> DoesNotApply(queries, c, source.groups, i, store.db)
  {
    hide *;
    BindingOf(c, i);
    var b := c.manifest.batches[c.artifact.bindings[i].manifestIndex];
    var expected := ReadVerifiedBatch(source, c.artifact.bindings[i].manifestIndex, b, faulty);
    WhenItApplies(queries, c, source.groups, i, store.db);
    if expected.None? { return None; }
    ghost var g := source.groups[i];
    FaithfulNow(queries, source.groups, start, i);
    var tx := new Transaction(store.db, faulty);
    r := ApplyBatch(tx, queries(i, store.db), c.policy, c.manifest.siteId, i, b, c.artifact.bindings[i].batchRecordId, expected.value, g);
    if r.None? { return; }
    var thrown := tx.Fault();
    if thrown { return None; }
    store.db := tx.db;
    AppliedOneMore(queries, c, source.groups, i, start);
  }

  lemma BindingOf(c: Context, i: nat)
    requires ContextOk(c) && i < |c.artifact.bindings|
    ensures i < |c.manifest.batches| && c.artifact.bindings[i].manifestIndex == i && PublicBatchOk(c.manifest.batches[i]) && ValidPolicy(c.policy)
  {
  }

  lemma {:induction false} FaithfulNow(queries: Queries, groups: seq<Group>, db: Database, i: nat)
    requires FaithfulInTurn(queries, groups, db) && i < |groups|
    ensures Faithful(queries(i, WithoutAll(db, groups[..i])), WithoutAll(db, groups[..i]))
  {
  }

  lemma WhenItApplies(queries: Queries, c: Context, groups: seq<Group>, k: nat, db: Database)
    requires k < |c.manifest.batches| && k < |c.artifact.bindings|
    ensures k >= |groups| ==> DoesNotApply(queries, c, groups, k, db)
    ensures k < |groups| ==>
            (DoesNotApply(queries, c, groups, k, db) <==>
             !(&& Readable(k, groups[k], c.manifest.batches[k])
               && Applicable(queries(k, db), c.policy, CandidateFor(c.manifest.siteId, c.manifest.batches[k], c.artifact.bindings[k].batchRecordId), k, groups[k])))
  {
  }

  lemma {:induction false} AppliedOneMore(queries: Queries, c: Context, groups: seq<Group>, i: nat, db: Database)
    requires AppliedInTurn(queries, c, groups, i, db) && ValidPolicy(c.policy)
    requires i < |groups| && i < |c.manifest.batches| && i < |c.artifact.bindings|
    requires Applicable(queries(i, WithoutAll(db, groups[..i])), c.policy,
                        CandidateFor(c.manifest.siteId, c.manifest.batches[i], c.artifact.bindings[i].batchRecordId), i, groups[i])
    requires GroupStored(WithoutAll(db, groups[..i]), groups[i])
    ensures AppliedInTurn(queries, c, groups, i + 1, db)
    ensures WithoutAll(db, groups[..i + 1]) == Without(WithoutAll(db, groups[..i]), groups[i])
  {
    hide GroupStored, Without, Applicable, ValidPolicy;
    assert groups[..i + 1][..i] == groups[..i] && groups[..i + 1][i] == groups[i];
    ApplicableParent(queries(i, WithoutAll(db, groups[..i])), c.policy,
                     CandidateFor(c.manifest.siteId, c.manifest.batches[i], c.artifact.bindings[i].batchRecordId), i, groups[i]);
  }

  lemma ApplicableParent(d: Delegate, p: Policy, c: Candidate, k: int, g: Group)
    requires ValidPolicy(p) && Applicable(d, p, c, k, g)
    ensures g.parent.id == c.batchRecordId
  {
    hide LoadsAs, ChecksOk, Answered, OrphansOk, CandidateOk, StrictBatch, Less;
    LoadsOne(d, p, c, [g]);
  }

  /** The loop over the bindings, run under the lock. */
  method RunBatches(c: Context, source: Source, store: Store, queries: Queries, faulty: bool)
    returns (completed: nat, failed: bool, batches: seq<ReceiptBatch>)
    requires ContextOk(c) && FaithfulInTurn(queries, source.groups, store.db) && source.Valid()
    modifies store, source, source.records, source.records.lines
    ensures completed <= |source.groups| && completed <= |c.artifact.bindings| && (failed <==> completed < |c.artifact.bindings|)
    ensures AppliedInTurn(queries, c, source.groups, completed, old(store.db)) && store.db == WithoutAll(old(store.db), source.groups[..completed])
    ensures !failed ==> batches == ReceiptOf(c).batches
    ensures failed && !faulty && !old(source.closed) && old(source.nextManifestIndex) == 0 ==>
            DoesNotApply(queries, c, source.groups, completed, store.db)
  {
    hide AppliedInTurn, BatchApplies, FaithfulInTurn, WithoutAll, RecordIterator.Valid, TailRecords, Applicable, Readable, ValidPolicy;
    ghost var start := store.db;
    StartOfRun(queries, c, source.groups, start);
    completed, failed, batches := 0, false, [];
    while completed < |c.artifact.bindings| && !failed
      invariant 0 <= completed <= |c.artifact.bindings| && completed <= |source.groups| && source.Valid() && source.closed == old(source.closed)
      invariant AppliedInTurn(queries, c, source.groups, completed, start) && store.db == WithoutAll(start, source.groups[..completed])
      invariant |batches| == completed && forall i :: 0 <= i < completed ==> batches[i] == ReceiptFor(i, c.manifest.batches[i])
      invariant !failed ==> source.nextManifestIndex == old(source.nextManifestIndex) + completed
      invariant failed ==> completed < |c.artifact.bindings|
      invariant failed && !faulty && !old(source.closed) && old(source.nextManifestIndex) == 0 ==>
                DoesNotApply(queries, c, source.groups, completed, store.db)
      decreases |c.artifact.bindings| - completed, !failed
    {
      var r := ApplyNext(c, source, store, queries, faulty, completed, start);
      if r.None? {
        failed := true;
      } else {
        batches := batches + [r.value];
        completed := completed + 1;
      }
    }
  }

  /** `executeNewsletterRetentionApply`. `committed` is the number of transactions that were kept. */
  method ExecuteApply(input: PolicyInput, e: Evidence, m: Manifest, a: Artifact, source: Source, lock: ApplyLock, store: Store,
                      queries: Queries, faulty: bool, digest: Digest)
    returns (outcome: ApplyOutcome, ghost committed: nat)
    requires FaithfulInTurn(queries, source.groups, store.db) && source.Valid()
    modifies store, lock`acquired, lock`released, source, source.records, source.records.lines
    ensures committed <= |source.groups| && store.db == WithoutAll(old(store.db), source.groups[..committed])
    // an acquired lock is released exactly once on every path
    ensures lock.acquired - old(lock.acquired) == lock.released - old(lock.released) <= 1
    // nothing happens to the database before the lock is held
    ensures outcome.Refused? <==> !Starts(input, e, m, a, source.verification, digest)
    ensures lock.acquired > old(lock.acquired) <==> !outcome.Refused? && lock.answer.Granted?
    ensures lock.acquired == old(lock.acquired) ==> committed == 0 && (outcome.Refused? || outcome == ApplyOutcome.Failed(0, None))
    // under the lock
    ensures forall c :: lock.acquired > old(lock.acquired) && ContextParses(input, e, m, a, c, digest) ==>
            RunReport(queries, c, source.groups, committed, old(store.db), outcome, lock.releaseThrows)
    // without faults a run stops only at a batch that does not apply
    ensures forall c :: && lock.acquired > old(lock.acquired) && ContextParses(input, e, m, a, c, digest)
                        && !faulty && !old(source.closed) && old(source.nextManifestIndex) == 0 && committed < |a.bindings|
                        ==> DoesNotApply(queries, c, source.groups, committed, store.db)
    // the receipt of a complete run
    ensures outcome.Completed? ==> committed == |a.bindings| && ReceiptTells(outcome.receipt, input, m, a, source.verification, source.groups[..committed])
  {
    hide ContextParses, AppliedInTurn, BatchApplies, FaithfulInTurn, WithoutAll, RecordIterator.Valid, TailRecords;
    committed := 0;
    NothingRemovedYet(store.db, source.groups);
    var parsed := ParseContext(input, e, m, a, digest);
    if parsed.None? { return Refused, 0; }
    var c := parsed.value;
    ContextIsUnique(input, e, m, a, c, digest);
    if source.verification != c.artifact.escrow { return Refused, 0; }
    var granted := lock.TryAcquire();
    if !granted { return ApplyOutcome.Failed(0, None), 0; }
    var completed, failed, batches := RunBatches(c, source, store, queries, faulty);
    committed := completed;
    var ok := lock.Release();
    if !ok { return ApplyOutcome.Failed(completed, if failed then Some(completed) else None), completed; }
    if failed { return ApplyOutcome.Failed(completed, Some(completed)), completed; }
    ReceiptIsTrue(queries, input, e, m, a, source.verification, c, source.groups, completed, old(store.db), digest);
    outcome := Completed(Receipt(c.manifest.hash, c.artifact.hash, c.artifact.escrow.contentHash, c.artifact.escrow.header.schemaFingerprint,
                                 c.manifest.siteId, batches));
  }

  /** The receipt names what was applied, and counts the rows of each batch of the escrow. */
  ghost predicate ReceiptTells(r: Receipt, input: PolicyInput, m: Manifest, a: Artifact, v: Verification, groups: seq<Group>) {
    && r.manifestHash == m.hash && r.artifactHash == a.hash && r.siteId == input.siteId
    && r.escrowContentHash == v.contentHash && r.schemaFingerprint == v.header.schemaFingerprint
    && |r.batches| == |groups| && forall i :: 0 <= i < |groups| ==> CountsGroup(r.batches[i], i, groups[i])
  }

  lemma {:induction false} AppliedReceipts(queries: Queries, c: Context, groups: seq<Group>, k: nat, db: Database)
    requires ContextOk(c) && AppliedInTurn(queries, c, groups, k, db)
    ensures k <= |groups| && k <= |c.manifest.batches|
    ensures forall i :: 0 <= i < k ==> CountsGroup(ReceiptFor(i, c.manifest.batches[i]), i, groups[i])
  {
    hide Applicable, CountsGroup, ValidPolicy, PublicBatchOk;
    forall i | 0 <= i < k
      ensures CountsGroup(ReceiptFor(i, c.manifest.batches[i]), i, groups[i])
    {
      AppliedReceipt(queries(i, WithoutAll(db, groups[..i])), c.policy, c.manifest.siteId, c.manifest.batches[i], c.artifact.bindings[i].batchRecordId, i, groups[i]);
    }
  }

  lemma AppliedReceipt(d: Delegate, p: Policy, siteId: Text, b: PublicBatch, batchRecordId: Text, k: int, g: Group)
    requires ValidPolicy(p) && Applicable(d, p, CandidateFor(siteId, b, batchRecordId), k, g)
    ensures CountsGroup(ReceiptFor(k, b), k, g)
  {
    hide LoadsAs, CountsGroup, CountsAre;
    LoadedCounts(d, p, CandidateFor(siteId, b, batchRecordId), k, g, b);
  }

  lemma {:induction false} ReceiptIsTrue(queries: Queries, input: PolicyInput, e: Evidence, m: Manifest, a: Artifact, v: Verification, c: Context,
                                         groups: seq<Group>, k: nat, db: Database, digest: Digest)
    requires ContextParses(input, e, m, a, c, digest) && ContextOk(c) && v == a.escrow && k == |a.bindings|
    requires AppliedInTurn(queries, c, groups, k, db)
    ensures ReceiptTells(ReceiptOf(c), input, m, a, v, groups[..k])
  {
    hide CountsGroup, ReceiptFor, ArtifactParses, EscrowMatches, EvidenceOk, TotalCounts, AppliedInTurn, NormalizeManifest, ValidPolicy, PublicBatchOk;
    AppliedReceipts(queries, c, groups, k, db);
    Normalized(m, c.manifest, digest);
  }

  lemma Normalized(m: Manifest, n: Manifest, digest: Digest)
    requires NormalizeManifest(m, digest) == Some(n)
    ensures n.hash == m.hash && n.siteId == m.siteId
  {
    hide ManifestHash, Sort, PublicBefore, PublicBatchOk;
  }

  /** The run gets past its checks and asks for the lock. */
  ghost predicate Starts(input: PolicyInput, e: Evidence, m: Manifest, a: Artifact, v: Verification, digest: Digest) {
    v == a.escrow && exists c :: ContextParses(input, e, m, a, c, digest)
  }

  /** What a run under the lock reports after `k` commits. */
  ghost predicate RunReport(queries: Queries, c: Context, groups: seq<Group>, k: nat, start: Database, outcome: ApplyOutcome, releaseThrows: bool) {
    && AppliedInTurn(queries, c, groups, k, start)
    && match outcome
       case Refused => false
       case Failed(completed, index) =>
         && completed == k
         && (if k < |c.artifact.bindings| then index == Some(k) else releaseThrows && index == None)
       case Completed(receipt) => k == |c.artifact.bindings| && !releaseThrows && receipt == ReceiptOf(c)
  }

  lemma {:induction false} NothingRemovedYet(db: Database, groups: seq<Group>)
    ensures WithoutAll(db, groups[..0]) == db
  {
  }

  function ReceiptOf(c: Context): Receipt {
    Receipt(c.manifest.hash, c.artifact.hash, c.artifact.escrow.contentHash, c.artifact.escrow.header.schemaFingerprint, c.manifest.siteId,
            seq(|c.manifest.batches|, i requires 0 <= i < |c.manifest.batches| => ReceiptFor(i, c.manifest.batches[i])))
  }

  lemma ContextIsUnique(input: PolicyInput, e: Evidence, m: Manifest, a: Artifact, c: Context, digest: Digest)
    requires ContextParses(input, e, m, a, c, digest)
    ensures ContextOk(c) && c.artifact == a && forall other :: ContextParses(input, e, m, a, other, digest) ==> other == c
  {
    hide ArtifactHash, IsHash, ManifestHash, EscrowMatches, ValidVerification, TotalCounts;
    ParsePolicyAgain(input);
    BindingIndexes(a, digest);
    SortedBatchesOk(m, digest);
  }

  lemma SortedBatchesOk(m: Manifest, digest: Digest)
    requires NormalizeManifest(m, digest).Some?
    ensures forall i :: 0 <= i < |NormalizeManifest(m, digest).value.batches| ==> PublicBatchOk(NormalizeManifest(m, digest).value.batches[i])
  {
    hide ManifestHash, PublicBatchOk, IsHash, Sort, PublicBefore, IsStrict, IsUtcMillis;
    var sorted := Sort(PublicBefore, m.batches);
    SameElements(sorted, m.batches);
    assert forall i :: 0 <= i < |sorted| ==> sorted[i] in sorted;
  }

  lemma {:induction false} StartOfRun(queries: Queries, c: Context, groups: seq<Group>, db: Database)
    ensures AppliedInTurn(queries, c, groups, 0, db) && WithoutAll(db, groups[..0]) == db
  {
  }
}
