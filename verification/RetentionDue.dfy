/** A dry run over a database: which batches it retires, and exactly when it can. */
module RetentionDue {
  import opened Utf16
  import opened Options
  import opened StableSort
  import opened Utf8
  import opened EscrowRecords
  import opened EscrowGroups
  import opened EscrowStages
  import opened EscrowWriter
  import opened RetentionPolicy
  import opened EscrowLoader
  import opened SnapshotKeys
  import opened EscrowStream
  import opened RetentionApply
  import opened RetentionDatabase
  import opened RetentionApplier
  import opened RetentionExact
  import opened RetentionCandidates
  import opened RetentionDryRun
  import opened RetentionEndToEnd

  // ---------- the rows of several batches

  function MessagesIn(db: Database, batches: set<Text>): set<Text> {
    set id | id in db.messages && db.messages[id].newsletterBatchId in batches
  }

  function ErrorsIn(db: Database, batches: set<Text>): set<Text> {
    set id | id in db.errors && db.errors[id].newsletterBatchId in batches
  }

  function MessageIdsIn(db: Database, batches: set<Text>): set<Text> {
    set id | id in db.messages && db.messages[id].newsletterBatchId in batches :: db.messages[id].messageId
  }

  function NotificationsIn(db: Database, batches: set<Text>): set<Text> { NotificationsOf(db, MessageIdsIn(db, batches)) }

  /** The database without these batches and their rows; orphan rows are not touched. */
  function WithoutBatches(db: Database, batches: set<Text>): Database {
    Database(db.batches - batches, db.messages - MessagesIn(db, batches), db.errors - ErrorsIn(db, batches),
             db.notifications - NotificationsIn(db, batches), db.orphans)
  }

  function ErrorMessageIdsIn(db: Database, batches: set<Text>): set<Text> {
    set id | id in db.errors && db.errors[id].newsletterBatchId in batches :: db.errors[id].messageId
  }

  function NotificationIdsIn(db: Database, batches: set<Text>): set<Text> {
    set id | id in db.notifications && db.notifications[id].messageId in MessageIdsIn(db, batches) :: db.notifications[id].notificationId
  }

  lemma OneBatch(db: Database, b: Text)
    ensures MessagesIn(db, {b}) == ChildMessages(db, b) && ErrorsIn(db, {b}) == ChildErrors(db, b)
    ensures MessageIdsIn(db, {b}) == ChildMessageIds(db, b) && NotificationsIn(db, {b}) == NotificationsOf(db, ChildMessageIds(db, b))
  {
    assert MessageIdsIn(db, {b}) == ChildMessageIds(db, b);
  }

  lemma MessageIdsApart(db: Database, batches: set<Text>, b: Text)
    requires Consistent(db) && b !in batches
    ensures MessageIdsIn(db, batches) !! MessageIdsIn(db, {b}) && MessageIdsIn(db, batches + {b}) == MessageIdsIn(db, batches) + MessageIdsIn(db, {b})
  {
    forall i, j | i in MessagesIn(db, batches) && j in MessagesIn(db, {b})
      ensures db.messages[i].messageId != db.messages[j].messageId
    {
      assert i != j;
    }
  }

  /** One batch more brings its own rows and no others. */
  lemma OneMoreBatch(db: Database, batches: set<Text>, b: Text)
    requires Consistent(db) && b !in batches
    ensures MessagesIn(db, batches) !! MessagesIn(db, {b}) && MessagesIn(db, batches + {b}) == MessagesIn(db, batches) + MessagesIn(db, {b})
    ensures ErrorsIn(db, batches) !! ErrorsIn(db, {b}) && ErrorsIn(db, batches + {b}) == ErrorsIn(db, batches) + ErrorsIn(db, {b})
    ensures NotificationsIn(db, batches) !! NotificationsIn(db, {b})
    ensures NotificationsIn(db, batches + {b}) == NotificationsIn(db, batches) + NotificationsIn(db, {b})
    ensures |batches + {b}| == |batches| + 1 && |MessagesIn(db, batches + {b})| == |MessagesIn(db, batches)| + |MessagesIn(db, {b})|
    ensures |ErrorsIn(db, batches + {b})| == |ErrorsIn(db, batches)| + |ErrorsIn(db, {b})|
    ensures |NotificationsIn(db, batches + {b})| == |NotificationsIn(db, batches)| + |NotificationsIn(db, {b})|
  {
    hide Consistent, MessageIdsIn;
    MessageIdsApart(db, batches, b);
  }

  lemma ErrorIdsApart(db: Database, batches: set<Text>, b: Text)
    requires Consistent(db) && b !in batches
    ensures ErrorMessageIdsIn(db, batches) !! ErrorMessageIdsIn(db, {b})
    ensures ErrorMessageIdsIn(db, batches + {b}) == ErrorMessageIdsIn(db, batches) + ErrorMessageIdsIn(db, {b})
  {
    forall i, j | i in ErrorsIn(db, batches) && j in ErrorsIn(db, {b})
      ensures db.errors[i].messageId != db.errors[j].messageId
    {
      assert i != j;
    }
  }

  lemma NotificationIdsApart(db: Database, batches: set<Text>, b: Text)
    requires Consistent(db) && b !in batches
    ensures NotificationIdsIn(db, batches) !! NotificationIdsIn(db, {b})
    ensures NotificationIdsIn(db, batches + {b}) == NotificationIdsIn(db, batches) + NotificationIdsIn(db, {b})
  {
    hide MessageIdsIn;
    MessageIdsApart(db, batches, b);
    forall i, j | i in NotificationsIn(db, batches) && j in NotificationsIn(db, {b})
      ensures db.notifications[i].notificationId != db.notifications[j].notificationId
    {
      assert i != j;
    }
    assert NotificationIdsIn(db, batches) == set id | id in NotificationsIn(db, batches) :: db.notifications[id].notificationId;
    assert NotificationIdsIn(db, {b}) == set id | id in NotificationsIn(db, {b}) :: db.notifications[id].notificationId;
  }

  // ---------- stored groups list the rows of their batches

  ghost function StoredIds(db: Database, batches: set<Text>, kind: Kind): set<Text> {
    match kind
    case BatchKind => batches
    case MessageKind => MessagesIn(db, batches)
    case ErrorKind => ErrorsIn(db, batches)
    case NotificationKind => NotificationsIn(db, batches)
  }

  ghost function StoredKeys(db: Database, batches: set<Text>, kind: Kind): set<Text> {
    match kind
    case BatchKind => {}
    case MessageKind => MessageIdsIn(db, batches)
    case ErrorKind => ErrorMessageIdsIn(db, batches)
    case NotificationKind => NotificationIdsIn(db, batches)
  }

  lemma StoredApart(db: Database, batches: set<Text>, b: Text)
    requires Consistent(db) && b !in batches
    ensures forall kind :: StoredIds(db, batches, kind) !! StoredIds(db, {b}, kind) && StoredKeys(db, batches, kind) !! StoredKeys(db, {b}, kind)
    ensures forall kind :: StoredIds(db, batches + {b}, kind) == StoredIds(db, batches, kind) + StoredIds(db, {b}, kind)
    ensures forall kind :: StoredKeys(db, batches + {b}, kind) == StoredKeys(db, batches, kind) + StoredKeys(db, {b}, kind)
  {
    hide Consistent, MessagesIn, ErrorsIn, NotificationsIn, MessageIdsIn, ErrorMessageIdsIn, NotificationIdsIn;
    OneMoreBatch(db, batches, b);
    MessageIdsApart(db, batches, b);
    ErrorIdsApart(db, batches, b);
    NotificationIdsApart(db, batches, b);
  }

  lemma ErrorKeysAre(db: Database, g: Group)
    requires GroupStored(db, g)
    ensures AsSet(ErrorKeys(g.errors)) == ErrorMessageIdsIn(db, {g.parent.id})
  {
    forall id | id in ChildErrors(db, g.parent.id)
      ensures db.errors[id].messageId in AsSet(ErrorKeys(g.errors))
    {
      assert id in AsSet(ErrorRowIds(g.errors));
      var i :| 0 <= i < |g.errors| && ErrorRowIds(g.errors)[i] == id;
      assert g.errors[i] in g.errors && ErrorKeys(g.errors)[i] == g.errors[i].messageId;
    }
    forall i | 0 <= i < |g.errors|
      ensures g.errors[i].messageId in ErrorMessageIdsIn(db, {g.parent.id})
    {
      assert g.errors[i] in g.errors && ErrorRowIds(g.errors)[i] in AsSet(ErrorRowIds(g.errors));
    }
  }

  lemma NotificationKeysAre(db: Database, g: Group)
    requires GroupStored(db, g)
    ensures AsSet(NotificationIds(g.notifications)) == NotificationIdsIn(db, {g.parent.id})
  {
    hide ChildMessageIds, MessageIdsIn;
    OneBatch(db, g.parent.id);
    forall id | id in NotificationsOf(db, ChildMessageIds(db, g.parent.id))
      ensures db.notifications[id].notificationId in AsSet(NotificationIds(g.notifications))
    {
      assert id in AsSet(NotificationRowIds(g.notifications));
      var i :| 0 <= i < |g.notifications| && NotificationRowIds(g.notifications)[i] == id;
      assert g.notifications[i] in g.notifications && NotificationIds(g.notifications)[i] == g.notifications[i].notificationId;
    }
    forall i | 0 <= i < |g.notifications|
      ensures g.notifications[i].notificationId in NotificationIdsIn(db, {g.parent.id})
    {
      assert g.notifications[i] in g.notifications && NotificationRowIds(g.notifications)[i] in AsSet(NotificationRowIds(g.notifications));
    }
  }

  lemma GroupListsBatch(db: Database, g: Group)
    requires GroupStored(db, g)
    ensures forall kind :: GroupIds(g, kind) == StoredIds(db, {g.parent.id}, kind) && GroupKeys(g, kind) == StoredKeys(db, {g.parent.id}, kind)
  {
    hide AsSet, MessagesIn, ErrorsIn, NotificationsIn, MessageIdsIn, ErrorMessageIdsIn, NotificationIdsIn, ChildMessages, ChildErrors, ChildMessageIds, NotificationsOf;
    OneBatch(db, g.parent.id);
    KeysAreChildIds(db, g);
    ErrorKeysAre(db, g);
    NotificationKeysAre(db, g);
  }

  function ParentIds(groups: seq<Group>): seq<Text> { seq(|groups|, i requires 0 <= i < |groups| => groups[i].parent.id) }

  /** The groups of different batches hold the rows of these batches, and each row once. */
  lemma {:induction false} GroupsListBatches(db: Database, groups: seq<Group>)
    requires Consistent(db) && DifferentBatches(groups) && forall i :: 0 <= i < |groups| ==> GroupStored(db, groups[i]) && UniqueInGroup(groups[i])
    ensures UniqueRows(Flatten(groups))
    ensures forall kind :: Ids(Flatten(groups), kind) == StoredIds(db, AsSet(ParentIds(groups)), kind)
    ensures forall kind :: EscrowGroups.Keys(Flatten(groups), kind) == StoredKeys(db, AsSet(ParentIds(groups)), kind)
  {
    hide Consistent, GroupStored, UniqueInGroup, GroupIds, GroupKeys, StoredIds, StoredKeys, Ids, EscrowGroups.Keys, UniqueRows, Flatten;
    if groups == [] {
      assert ParentIds(groups) == [] && AsSet(ParentIds(groups)) == {};
      NothingListed(db);
    } else {
      var n := |groups| - 1;
      var front, g := groups[..n], groups[n];
      assert groups == front + [g];
      GroupsListBatches(db, front);
      ParentsSnoc(front, g);
      UniqueWithGroup(front, g);
      GroupListsBatch(db, g);
      StoredApart(db, AsSet(ParentIds(front)), g.parent.id);
    }
  }

  lemma NothingListed(db: Database)
    ensures UniqueRows(Flatten([])) && forall kind :: Ids(Flatten([]), kind) == StoredIds(db, {}, kind) && EscrowGroups.Keys(Flatten([]), kind) == StoredKeys(db, {}, kind)
  {
  }

  lemma ParentsSnoc(front: seq<Group>, g: Group)
    requires DifferentBatches(front + [g])
    ensures DifferentBatches(front) && g.parent.id !in AsSet(ParentIds(front)) && AsSet(ParentIds(front + [g])) == AsSet(ParentIds(front)) + {g.parent.id}
  {
    var all := front + [g];
    assert ParentIds(all) == ParentIds(front) + [g.parent.id];
    forall i | 0 <= i < |front|
      ensures front[i].parent.id != g.parent.id && all[i] == front[i]
    {
      assert all[i].parent.id != all[|front|].parent.id;
    }
  }

  /** Removing all groups is removing the batches with all their rows. */
  lemma {:induction false} MinusIsWithout(db: Database, groups: seq<Group>)
    requires Consistent(db) && DifferentBatches(groups) && forall i :: 0 <= i < |groups| ==> GroupStored(db, groups[i]) && UniqueInGroup(groups[i])
    ensures Minus(db, Flatten(groups)) == WithoutBatches(db, AsSet(ParentIds(groups)))
  {
    hide Consistent, GroupStored, UniqueInGroup, Ids, UniqueRows, Flatten, AsSet, MessagesIn, ErrorsIn, NotificationsIn, DifferentBatches;
    GroupsListBatches(db, groups);
    assert Ids(Flatten(groups), BatchKind) == StoredIds(db, AsSet(ParentIds(groups)), BatchKind);
    assert Ids(Flatten(groups), MessageKind) == StoredIds(db, AsSet(ParentIds(groups)), MessageKind);
    assert Ids(Flatten(groups), ErrorKind) == StoredIds(db, AsSet(ParentIds(groups)), ErrorKind);
    assert Ids(Flatten(groups), NotificationKind) == StoredIds(db, AsSet(ParentIds(groups)), NotificationKind);
  }

  // ---------- the totals of the candidates are those of the tables

  lemma {:induction false} TotalsOfStored(db: Database, cs: seq<Candidate>)
    requires Consistent(db) && NoDuplicates(RecordIds(cs)) && forall c <- cs :: Counted(db, c)
    ensures var due := AsSet(RecordIds(cs));
            && |due| == |cs| && SumMessages(cs) == |MessagesIn(db, due)|
            && SumRecords(cs) == |due| + |MessagesIn(db, due)| + |ErrorsIn(db, due)| + |NotificationsIn(db, due)|
    ensures var due, t := AsSet(RecordIds(cs)), TotalCounts(Published(cs));
            t.batches == |due| && t.messages == |MessagesIn(db, due)| && t.errors == |ErrorsIn(db, due)| && t.notifications == |NotificationsIn(db, due)|
  {
    hide Consistent, MessagesIn, ErrorsIn, NotificationsIn, Counted, TotalCounts, Published;
    if cs == [] {
      NothingPublished();
      assert RecordIds(cs) == [] && AsSet(RecordIds(cs)) == {};
      NoBatches(db);
    } else {
      var n := |cs| - 1;
      var front, c := cs[..n], cs[n];
      assert cs == front + [c] && RecordIds(cs) == RecordIds(front) + [c.batchRecordId];
      NoDuplicatesSnoc(RecordIds(front), c.batchRecordId);
      TotalsOfStored(db, front);
      assert Counted(db, c);
      CountedNumbers(db, c);
      PublishedOneMore(front, c);
      CountedOneMore(front, c);
      assert AsSet(RecordIds(cs)) == AsSet(RecordIds(front)) + {c.batchRecordId};
      OneMoreBatch(db, AsSet(RecordIds(front)), c.batchRecordId);
    }
  }

  lemma CountedNumbers(db: Database, c: Candidate)
    requires Counted(db, c)
    ensures c.messageCount == |MessagesIn(db, {c.batchRecordId})| && c.errorCount == |ErrorsIn(db, {c.batchRecordId})|
    ensures c.notificationCount == |NotificationsIn(db, {c.batchRecordId})|
  {
    hide MessagesIn, ErrorsIn, NotificationsIn, ChildMessages, ChildErrors, ChildMessageIds, NotificationsOf, OpenOrphans;
    OneBatch(db, c.batchRecordId);
  }

  lemma PublishedOneMore(front: seq<Candidate>, c: Candidate)
    ensures var t, u := TotalCounts(Published(front)), TotalCounts(Published(front + [c]));
            && u.batches == t.batches + 1 && u.messages == t.messages + c.messageCount
            && u.errors == t.errors + c.errorCount && u.notifications == t.notifications + c.notificationCount
  {
    assert Published(front + [c])[..|front|] == Published(front);
  }

  lemma {:induction false} CountedOneMore(front: seq<Candidate>, c: Candidate)
    ensures SumMessages(front + [c]) == SumMessages(front) + c.messageCount
    ensures SumRecords(front + [c]) == SumRecords(front) + 1 + c.messageCount + c.errorCount + c.notificationCount
  {
    assert (front + [c])[..|front|] == front;
  }

  lemma NothingPublished()
    ensures TotalCounts(Published([])) == Counts(0, 0, 0, 0)
  {
  }

  lemma NoBatches(db: Database)
    ensures MessagesIn(db, {}) == {} && ErrorsIn(db, {}) == {} && NotificationsIn(db, {}) == {} && MessageIdsIn(db, {}) == {}
  {
  }

  lemma {:induction false} TotalOfSummaries(db: Database, ss: seq<BatchSummary>)
    requires Consistent(db) && NoDuplicates(SummaryRowIds(ss)) && forall s <- ss :: SummaryOf(db, s)
    ensures SummaryMessages(ss) == |MessagesIn(db, AsSet(SummaryRowIds(ss)))|
  {
    hide Consistent, MessagesIn, ErrorsIn, NotificationsIn, ChildMessages, ChildErrors, ChildMessageIds, NotificationsOf;
    if ss == [] {
      assert SummaryRowIds(ss) == [] && AsSet(SummaryRowIds(ss)) == {};
      NoBatches(db);
    } else {
      var n := |ss| - 1;
      var front, s := ss[..n], ss[n];
      assert ss == front + [s] && SummaryRowIds(ss) == SummaryRowIds(front) + [s.id];
      NoDuplicatesSnoc(SummaryRowIds(front), s.id);
      TotalOfSummaries(db, front);
      assert SummaryOf(db, s);
      assert AsSet(SummaryRowIds(ss)) == AsSet(SummaryRowIds(front)) + {s.id};
      OneMoreBatch(db, AsSet(SummaryRowIds(front)), s.id);
      OneBatch(db, s.id);
    }
  }
}
