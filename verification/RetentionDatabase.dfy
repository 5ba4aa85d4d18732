/** The newsletter tables as maps from row id to row, what a query on them may answer, and a
    transaction: a copy that is kept or dropped. */
module RetentionDatabase {
  import opened Utf16
  import opened Options
  import opened StableSort
  import opened EscrowRecords
  import opened EscrowGroups
  import opened RetentionPolicy
  import opened EscrowLoader
  import opened SnapshotKeys
  import opened EscrowStream

  datatype OrphanRow = OrphanRow(
    id: Text, notificationId: Text, messageId: Text, kind: Text, timestamp: Text, rawEvent: Text, reason: Text, created: Text,
    reconciledAt: Option<Text>)

  datatype Database = Database(
    batches: map<Text, BatchRow>, messages: map<Text, MessageRow>, errors: map<Text, ErrorRow>,
    notifications: map<Text, NotificationRow>, orphans: map<Text, OrphanRow>)

  // ---------- the rows of a batch

  function ChildMessages(db: Database, batch: Text): set<Text> {
    set id | id in db.messages && db.messages[id].newsletterBatchId == batch
  }

  function ChildErrors(db: Database, batch: Text): set<Text> {
    set id | id in db.errors && db.errors[id].newsletterBatchId == batch
  }

  function ChildMessageIds(db: Database, batch: Text): set<Text> {
    set id | id in ChildMessages(db, batch) :: db.messages[id].messageId
  }

  /** The notifications that refer to one of these message ids. */
  function NotificationsOf(db: Database, messageIds: set<Text>): set<Text> {
    set id | id in db.notifications && db.notifications[id].messageId in messageIds
  }

  function OpenOrphans(db: Database, messageIds: set<Text>): set<Text> {
    set id | id in db.orphans && db.orphans[id].messageId in messageIds && db.orphans[id].reconciledAt == None
  }

  // ---------- what a query may answer

  /** At most `take` rows of `all`, without repetition, and all of them when there are no more. In
      which order is up to the database. */
  ghost predicate IsAnswer(ids: seq<Text>, all: set<Text>, take: int) {
    NoDuplicates(ids) && AsSet(ids) <= all && |ids| == if take < |all| then take else |all|
  }

  ghost predicate MessagesAnswer(db: Database, batch: Text, take: int, rows: seq<MessageRow>) {
    && IsAnswer(MessageRowIds(rows), ChildMessages(db, batch), take)
    && forall r <- rows :: r.id in db.messages && db.messages[r.id] == r
  }

  ghost predicate ErrorsAnswer(db: Database, batch: Text, take: int, rows: seq<ErrorRow>) {
    && IsAnswer(ErrorRowIds(rows), ChildErrors(db, batch), take)
    && forall r <- rows :: r.id in db.errors && db.errors[r.id] == r
  }

  ghost predicate NotificationsAnswer(db: Database, batch: Text, take: int, rows: seq<NotificationRow>) {
    && IsAnswer(NotificationRowIds(rows), NotificationsOf(db, ChildMessageIds(db, batch)), take)
    && forall r <- rows :: r.id in db.notifications && db.notifications[r.id] == r
  }

  function FoundBatch(db: Database, id: Text, siteId: Text): Option<BatchRow> {
    if id in db.batches && db.batches[id].siteId == siteId then Some(db.batches[id]) else None
  }

  /** Queries that throw or answer from this database. */
  ghost predicate Faithful(d: Delegate, db: Database) {
    && (forall id, siteId :: d.findBatch(id, siteId).Some? ==> d.findBatch(id, siteId).value == FoundBatch(db, id, siteId))
    && (forall batch, take :: take >= 1 && d.findMessages(batch, take).Some? ==> MessagesAnswer(db, batch, take, d.findMessages(batch, take).value))
    && (forall batch, take :: take >= 1 && d.findErrors(batch, take).Some? ==> ErrorsAnswer(db, batch, take, d.findErrors(batch, take).value))
    && (forall batch, take :: take >= 1 && d.findNotifications(batch, take).Some? ==> NotificationsAnswer(db, batch, take, d.findNotifications(batch, take).value))
    && (forall ids :: d.countOrphans(ids).Some? ==> d.countOrphans(ids).value == |OpenOrphans(db, AsSet(ids))|)
  }

  // ---------- a loaded group is the whole batch

  /** The database holds the batch, and the group lists exactly its rows with their columns. */
  ghost predicate GroupStored(db: Database, g: Group) {
    && g.parent.id in db.batches && db.batches[g.parent.id] == g.parent
    && AsSet(MessageRowIds(g.messages)) == ChildMessages(db, g.parent.id)
    && (forall r <- g.messages :: r.id in db.messages && db.messages[r.id] == r)
    && AsSet(ErrorRowIds(g.errors)) == ChildErrors(db, g.parent.id)
    && (forall r <- g.errors :: r.id in db.errors && db.errors[r.id] == r)
    && AsSet(NotificationRowIds(g.notifications)) == NotificationsOf(db, ChildMessageIds(db, g.parent.id))
    && (forall r <- g.notifications :: r.id in db.notifications && db.notifications[r.id] == r)
  }

  lemma {:induction false} SetOfDistinct(s: seq<Text>)
    requires NoDuplicates(s)
    ensures |AsSet(s)| == |s|
  {
    if s != [] {
      var n := |s| - 1;
      SetOfDistinct(s[..n]);
      assert s == s[..n] + [s[n]];
      assert AsSet(s) == AsSet(s[..n]) + {s[n]};
      assert s[n] !in s[..n];
    } else {
      assert AsSet(s) == {};
    }
  }

  /** Asking for one row more than expected and getting the expected number gives all rows. */
  lemma TakeOneMore(ids: seq<Text>, all: set<Text>, count: int)
    requires IsAnswer(ids, all, count + 1) && |ids| == count
    ensures AsSet(ids) == all
  {
    SetOfDistinct(ids);
    SubsetOfSameSize(AsSet(ids), all);
  }

  lemma SubsetOfSameSize(a: set<Text>, b: set<Text>)
    requires a <= b && |a| == |b|
    ensures a == b
  {
    assert b == a + (b - a);
    assert |b| == |a| + |b - a|;
  }

  lemma NoMessagesNoNotifications(db: Database, batch: Text)
    requires ChildMessages(db, batch) == {}
    ensures NotificationsOf(db, ChildMessageIds(db, batch)) == {}
  {
  }

  /** Whatever the database's row order: a batch that loads is listed completely and truly. */
  lemma LoadedGroupStored(d: Delegate, db: Database, c: Candidate, p: Policy, g: Group)
    requires Faithful(d, db) && CandidateOk(c, p) && GroupLoads(d, c, p, g)
    ensures GroupStored(db, g)
  {
    hide StrictBatch, Less, IsStrict, IsUtcMillis, ChecksOk, OrphansOk, NotificationsOf, ChildMessageIds, ChildMessages, ChildErrors, IsAnswer;
    assert d.findBatch(c.batchRecordId, c.siteId).Some?;
    assert MessagesAnswer(db, c.batchRecordId, c.messageCount + 1, g.messages);
    assert ErrorsAnswer(db, c.batchRecordId, c.errorCount + 1, g.errors);
    FoundBatchIs(db, c.batchRecordId, c.siteId, g.parent);
    TakeOneMore(MessageRowIds(g.messages), ChildMessages(db, c.batchRecordId), c.messageCount);
    TakeOneMore(ErrorRowIds(g.errors), ChildErrors(db, c.batchRecordId), c.errorCount);
    if c.messageCount > 0 {
      assert NotificationsAnswer(db, c.batchRecordId, c.notificationCount + 1, g.notifications);
      TakeOneMore(NotificationRowIds(g.notifications), NotificationsOf(db, ChildMessageIds(db, c.batchRecordId)), c.notificationCount);
    } else {
      assert MessageRowIds(g.messages) == [] && NotificationRowIds(g.notifications) == [];
      NoMessagesNoNotifications(db, c.batchRecordId);
    }
  }

  lemma FoundBatchIs(db: Database, id: Text, siteId: Text, b: BatchRow)
    requires FoundBatch(db, id, siteId) == Some(b) && b.id == id
    ensures b.id in db.batches && db.batches[b.id] == b
  {
  }

  // ---------- removing a batch

  /** The database without the rows of a group; orphan rows are not touched. */
  function Without(db: Database, g: Group): Database {
    Database(db.batches - {g.parent.id}, db.messages - AsSet(MessageRowIds(g.messages)), db.errors - AsSet(ErrorRowIds(g.errors)),
             db.notifications - AsSet(NotificationRowIds(g.notifications)), db.orphans)
  }

  function WithoutAll(db: Database, groups: seq<Group>): Database {
    if groups == [] then db else Without(WithoutAll(db, groups[..|groups| - 1]), groups[|groups| - 1])
  }
}
