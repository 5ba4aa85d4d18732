/** What a run of apply does to the database as a whole. */
module RetentionExact {
  import opened Utf16
  import opened Options
  import opened StableSort
  import opened Utf8
  import opened EscrowRecords
  import opened EscrowGroups
  import opened EscrowStages
  import opened EscrowAccumulator
  import opened EscrowLines
  import opened EscrowSource
  import opened RetentionPolicy
  import opened RetentionApply
  import opened EscrowLoader
  import opened SnapshotKeys
  import opened RetentionDatabase
  import opened RetentionApplier

  /** Rows under their ids, and the unique columns and foreign keys of the schema. */
  ghost predicate Consistent(db: Database) {
    && (forall id <- db.batches :: db.batches[id].id == id)
    && (forall id <- db.messages :: db.messages[id].id == id && db.messages[id].newsletterBatchId in db.batches)
    && (forall id <- db.errors :: db.errors[id].id == id && db.errors[id].newsletterBatchId in db.batches)
    && (forall id <- db.notifications :: db.notifications[id].id == id && HasMessage(db, db.notifications[id].messageId))
    && (forall a, b :: a in db.messages && b in db.messages && db.messages[a].messageId == db.messages[b].messageId ==> a == b)
    && (forall a, b :: a in db.errors && b in db.errors && db.errors[a].messageId == db.errors[b].messageId ==> a == b)
    && (forall a, b :: a in db.notifications && b in db.notifications && db.notifications[a].notificationId == db.notifications[b].notificationId ==> a == b)
  }

  ghost predicate HasMessage(db: Database, messageId: Text) {
    exists id :: id in db.messages && db.messages[id].messageId == messageId
  }

  lemma ChildrenUntouched(db: Database, g: Group, other: Text)
    requires Consistent(db) && GroupStored(db, g) && other != g.parent.id
    ensures ChildMessages(Without(db, g), other) == ChildMessages(db, other) && ChildErrors(Without(db, g), other) == ChildErrors(db, other)
    ensures ChildMessageIds(Without(db, g), other) == ChildMessageIds(db, other)
    ensures NotificationsOf(Without(db, g), ChildMessageIds(db, other)) == NotificationsOf(db, ChildMessageIds(db, other))
  {
    assert ChildMessages(Without(db, g), other) == ChildMessages(db, other);
    assert ChildMessageIds(db, other) !! ChildMessageIds(db, g.parent.id);
    forall id | id in NotificationsOf(db, ChildMessageIds(db, other))
      ensures id !in NotificationsOf(db, ChildMessageIds(db, g.parent.id))
    {
    }
  }

  /** A batch that is stored after another one was removed was stored before. */
  lemma StoredBefore(db: Database, g: Group, h: Group)
    requires Consistent(db) && GroupStored(db, g) && GroupStored(Without(db, g), h)
    ensures GroupStored(db, h) && h.parent.id != g.parent.id
  {
    hide ChildMessages, ChildErrors, ChildMessageIds, NotificationsOf, AsSet;
    ChildrenUntouched(db, g, h.parent.id);
  }

  /** A notification that stays has its message still. */
  lemma OwnersStay(db: Database, g: Group)
    requires Consistent(db) && GroupStored(db, g)
    ensures var after := Without(db, g); forall id <- after.notifications :: HasMessage(after, after.notifications[id].messageId)
  {
    hide MessageRowIds, ErrorRowIds, NotificationRowIds;
    var after := Without(db, g);
    forall id | id in after.notifications
      ensures HasMessage(after, after.notifications[id].messageId)
    {
      assert HasMessage(db, db.notifications[id].messageId);
      var owner :| owner in db.messages && db.messages[owner].messageId == db.notifications[id].messageId;
      assert owner in ChildMessages(db, g.parent.id) ==> id in NotificationsOf(db, ChildMessageIds(db, g.parent.id));
      assert owner in after.messages;
    }
  }

  /** A message or an error that stays has its batch still. */
  lemma ParentsStay(db: Database, g: Group)
    requires Consistent(db) && GroupStored(db, g)
    ensures var after := Without(db, g);
            && (forall id <- after.messages :: after.messages[id].newsletterBatchId in after.batches)
            && (forall id <- after.errors :: after.errors[id].newsletterBatchId in after.batches)
  {
    hide MessageRowIds, ErrorRowIds, NotificationRowIds, HasMessage;
    var after := Without(db, g);
    assert forall id <- after.messages :: id !in ChildMessages(db, g.parent.id);
    assert forall id <- after.errors :: id !in ChildErrors(db, g.parent.id);
  }

  lemma StaysConsistent(db: Database, g: Group)
    requires Consistent(db) && GroupStored(db, g)
    ensures Consistent(Without(db, g))
  {
    hide GroupStored, HasMessage, MessageRowIds, ErrorRowIds, NotificationRowIds, AsSet;
    OwnersStay(db, g);
    ParentsStay(db, g);
  }

  ghost predicate StoredInTurn(db: Database, groups: seq<Group>, k: nat)
    requires k <= |groups|
  {
    forall i :: 0 <= i < k ==> GroupStored(WithoutAll(db, groups[..i]), groups[i])
  }

  lemma {:induction false} ConsistentInTurn(db: Database, groups: seq<Group>, k: nat)
    requires k <= |groups| && Consistent(db) && StoredInTurn(db, groups, k)
    ensures Consistent(WithoutAll(db, groups[..k]))
  {
    hide Consistent, GroupStored, Without;
    if k > 0 {
      ConsistentInTurn(db, groups, k - 1);
      assert groups[..k][..k - 1] == groups[..k - 1];
      StaysConsistent(WithoutAll(db, groups[..k - 1]), groups[k - 1]);
    }
  }

  /** Going back over the removals one by one. */
  lemma {:induction false} StoredAtStart(db: Database, groups: seq<Group>, k: nat, h: Group)
    requires k <= |groups| && Consistent(db) && StoredInTurn(db, groups, k) && GroupStored(WithoutAll(db, groups[..k]), h)
    ensures GroupStored(db, h)
  {
    hide Consistent, GroupStored, Without;
    if k > 0 {
      assert groups[..k][..k - 1] == groups[..k - 1];
      ConsistentInTurn(db, groups, k - 1);
      StoredBefore(WithoutAll(db, groups[..k - 1]), groups[k - 1], h);
      StoredAtStart(db, groups, k - 1, h);
    } else {
      assert groups[..k] == [];
    }
  }

  /** The database without these rows. */
  ghost function Minus(db: Database, records: seq<Record>): Database {
    Database(db.batches - Ids(records, BatchKind), db.messages - Ids(records, MessageKind), db.errors - Ids(records, ErrorKind),
             db.notifications - Ids(records, NotificationKind), db.orphans)
  }

  lemma MinusTwice<V>(m: map<Text, V>, a: set<Text>, b: set<Text>)
    ensures (m - a) - b == m - (a + b)
  {
  }

  /** Removing a group more. */
  lemma {:induction false} MinusGroup(db: Database, front: seq<Group>, g: Group)
    ensures Without(Minus(db, Flatten(front)), g) == Minus(db, Flatten(front + [g]))
  {
    hide Flatten, Ids, EscrowGroups.Keys, UniqueRows, UniqueInGroup, GroupKeys, AsSet;
    UniqueWithGroup(front, g);
    MinusTwice(db.batches, Ids(Flatten(front), BatchKind), GroupIds(g, BatchKind));
    MinusTwice(db.messages, Ids(Flatten(front), MessageKind), GroupIds(g, MessageKind));
    MinusTwice(db.errors, Ids(Flatten(front), ErrorKind), GroupIds(g, ErrorKind));
    MinusTwice(db.notifications, Ids(Flatten(front), NotificationKind), GroupIds(g, NotificationKind));
  }

  lemma {:induction false} RemovedRows(db: Database, groups: seq<Group>)
    ensures WithoutAll(db, groups) == Minus(db, Flatten(groups))
  {
    hide Flatten, Ids, Without, Minus;
    if groups != [] {
      var front, g := groups[..|groups| - 1], groups[|groups| - 1];
      assert groups == front + [g];
      RemovedRows(db, front);
      MinusGroup(db, front, g);
    } else {
      MinusNothing(db);
    }
  }

  lemma MinusNothing(db: Database)
    ensures Minus(db, Flatten([])) == db
  {
    hide Flatten, Ids;
    NoIds();
    NothingRemoved(db.batches);
    NothingRemoved(db.messages);
    NothingRemoved(db.errors);
    NothingRemoved(db.notifications);
  }

  lemma NoIds()
    ensures forall kind :: Ids(Flatten([]), kind) == {}
  {
  }

  /** The first k commits removed exactly the rows that the escrow lists for its first k batches.
      Each of them was in the database at the start with all its columns, the rows of these batches
      are all listed, and nothing else changed. */
  lemma {:induction false} ExactDeletion(queries: Queries, c: Context, groups: seq<Group>, k: nat, db: Database)
    requires Consistent(db) && AppliedInTurn(queries, c, groups, k, db)
    ensures forall i :: 0 <= i < k ==> GroupStored(db, groups[i])
    ensures WithoutAll(db, groups[..k]) == Minus(db, Flatten(groups[..k]))
    ensures Consistent(WithoutAll(db, groups[..k]))
  {
    hide Consistent, GroupStored, WithoutAll, Applicable, Minus;
    assert StoredInTurn(db, groups, k);
    forall i | 0 <= i < k
      ensures GroupStored(db, groups[i])
    {
      assert StoredInTurn(db, groups, i);
      StoredAtStart(db, groups, i, groups[i]);
    }
    ConsistentInTurn(db, groups, k);
    RemovedRows(db, groups[..k]);
  }

  /** A completed run removes the whole escrow. */
  lemma WholeEscrow(input: PolicyInput, e: Evidence, m: Manifest, a: Artifact, c: Context, file: Bytes, groups: seq<Group>, digest: Digest)
    requires ContextParses(input, e, m, a, c, digest) && IsVerified(file, a.escrow, groups, digest)
    ensures |a.bindings| == |groups|
  {
    hide ArtifactParses, NormalizeManifest, ReadAll, Split, BytesOk, OpenOk, ParsePolicy, EvidenceOk;
    BatchesTotal(c.manifest.batches);
  }

  /** Once a batch is committed, its parent row is gone for good. */
  lemma {:induction false} FirstBatchGone(db: Database, groups: seq<Group>, k: nat)
    requires 0 < k <= |groups|
    ensures groups[0].parent.id !in WithoutAll(db, groups[..k]).batches
  {
    assert groups[..k][..k - 1] == groups[..k - 1];
    if k > 1 { FirstBatchGone(db, groups, k - 1); }
  }

  /** A repeat run on the database that at least one commit has left removes nothing and fails at
      index 0, whichever escrow source it is given for the same artifact. */
  lemma {:induction false} RepeatRunFails(first: Queries, again: Queries, c: Context, groups: seq<Group>, k: nat, db: Database,
                       groups': seq<Group>, k': nat, outcome: ApplyOutcome, releaseThrows: bool)
    requires AppliedInTurn(first, c, groups, k, db) && k > 0
    requires RunReport(again, c, groups', k', WithoutAll(db, groups[..k]), outcome, releaseThrows)
    ensures k' == 0 && WithoutAll(WithoutAll(db, groups[..k]), groups'[..k']) == WithoutAll(db, groups[..k])
    ensures outcome == ApplyOutcome.Failed(0, Some(0))
  {
    hide Applicable, WithoutAll;
    FirstBatchGone(db, groups, k);
    var after := WithoutAll(db, groups[..k]);
    NothingRemovedYet(after, groups');
  }
}
