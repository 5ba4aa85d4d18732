/** Dry run and apply together: when a dry run must succeed, and that an apply run on what it
    issued, with the database unchanged in between, removes the whole escrow. */
module RetentionEndToEnd {
  import opened Utf16
  import opened Options
  import opened StableSort
  import opened EscrowRecords
  import opened EscrowGroups
  import opened EscrowStages
  import opened EscrowWriter
  import opened Utf8
  import opened EscrowLines
  import opened EscrowSource
  import opened EscrowRoundTrip
  import opened RetentionPolicy
  import opened EscrowLoader
  import opened SnapshotKeys
  import opened EscrowStream
  import opened RetentionApply
  import opened RetentionDatabase
  import opened RetentionApplier
  import opened RetentionExact
  import opened RetentionCandidates
  import opened RetentionDryRun

  // ---------- queries that answer

  /** No query throws, and rows come in the order of their ids, as the queries ask for. */
  ghost predicate Answers(d: Delegate, db: Database) {
    && Faithful(d, db)
    && (forall id, siteId :: d.findBatch(id, siteId).Some?)
    && (forall batch, take :: take >= 1 ==> d.findMessages(batch, take).Some? && Ascending(MessageRowIds(d.findMessages(batch, take).value)))
    && (forall batch, take :: take >= 1 ==> d.findErrors(batch, take).Some? && Ascending(ErrorRowIds(d.findErrors(batch, take).value)))
    && (forall batch, take :: take >= 1 ==> d.findNotifications(batch, take).Some? && Ascending(NotificationRowIds(d.findNotifications(batch, take).value)))
    && (forall ids :: d.countOrphans(ids).Some?)
  }

  /** A set of ids has one ascending listing. */
  lemma AscendingListing(a: seq<Text>, b: seq<Text>)
    requires Ascending(a) && Ascending(b) && AsSet(a) == AsSet(b)
    ensures a == b
  {
    AscendingUnique(a);
    AscendingUnique(b);
    assert forall x :: x in a <==> x in AsSet(a);
    assert forall x :: x in b <==> x in AsSet(b);
    SameMultiset(a, b);
    AscendingSorted(a);
    AscendingSorted(b);
    SortedUnique(Less, a, b);
  }

  lemma AscendingSorted(a: seq<Text>)
    requires Ascending(a)
    ensures Sorted(Less, a) && Separates(Less, a)
  {
    forall i, j | 0 <= i < j < |a|
      ensures !Less(a[j], a[i])
    {
      LessAsymmetric(a[i], a[j]);
    }
    forall x, y | x in a && y in a && x != y
      ensures Less(x, y) || Less(y, x)
    {
      LessTotal(x, y);
    }
  }

  /** All rows of a batch, asked for with room for one more. */
  lemma WholeAnswer(ids: seq<Text>, all: set<Text>, known: seq<Text>, take: int)
    requires IsAnswer(ids, all, take) && Ascending(ids) && Ascending(known) && AsSet(known) == all && take == |known| + 1
    ensures ids == known
  {
    AscendingUnique(known);
    SetOfDistinct(known);
    SetOfDistinct(ids);
    SubsetOfSameSize(AsSet(ids), all);
    AscendingListing(ids, known);
  }

  // ---------- the same group loads again

  lemma SameMessages(db: Database, g: Group, rows: seq<MessageRow>)
    requires GroupStored(db, g) && MessagesAnswer(db, g.parent.id, |g.messages| + 1, rows)
    requires Ascending(MessageRowIds(rows)) && Ascending(MessageRowIds(g.messages))
    ensures rows == g.messages
  {
    hide IsAnswer, Ascending, AsSet, ChildMessages, ChildErrors, ChildMessageIds, NotificationsOf;
    WholeAnswer(MessageRowIds(rows), ChildMessages(db, g.parent.id), MessageRowIds(g.messages), |g.messages| + 1);
    forall i | 0 <= i < |rows|
      ensures rows[i] == g.messages[i]
    {
      assert rows[i] in rows && g.messages[i] in g.messages && MessageRowIds(rows)[i] == MessageRowIds(g.messages)[i];
    }
  }

  lemma SameErrors(db: Database, g: Group, rows: seq<ErrorRow>)
    requires GroupStored(db, g) && ErrorsAnswer(db, g.parent.id, |g.errors| + 1, rows)
    requires Ascending(ErrorRowIds(rows)) && Ascending(ErrorRowIds(g.errors))
    ensures rows == g.errors
  {
    hide IsAnswer, Ascending, AsSet, ChildMessages, ChildErrors, ChildMessageIds, NotificationsOf;
    WholeAnswer(ErrorRowIds(rows), ChildErrors(db, g.parent.id), ErrorRowIds(g.errors), |g.errors| + 1);
    forall i | 0 <= i < |rows|
      ensures rows[i] == g.errors[i]
    {
      assert rows[i] in rows && g.errors[i] in g.errors && ErrorRowIds(rows)[i] == ErrorRowIds(g.errors)[i];
    }
  }

  lemma SameNotifications(db: Database, g: Group, rows: seq<NotificationRow>)
    requires GroupStored(db, g) && NotificationsAnswer(db, g.parent.id, |g.notifications| + 1, rows)
    requires Ascending(NotificationRowIds(rows)) && Ascending(NotificationRowIds(g.notifications))
    ensures rows == g.notifications
  {
    hide IsAnswer, Ascending, AsSet, ChildMessages, ChildErrors, ChildMessageIds, NotificationsOf;
    WholeAnswer(NotificationRowIds(rows), NotificationsOf(db, ChildMessageIds(db, g.parent.id)), NotificationRowIds(g.notifications), |g.notifications| + 1);
    forall i | 0 <= i < |rows|
      ensures rows[i] == g.notifications[i]
    {
      assert rows[i] in rows && g.notifications[i] in g.notifications && NotificationRowIds(rows)[i] == NotificationRowIds(g.notifications)[i];
    }
  }

  /** Rows that pass the row loops ascend. */
  lemma RowsAscend(c: Candidate, p: Policy, g: Group)
    requires RowsMatch(c, p, g)
    ensures Ascending(MessageRowIds(g.messages)) && Ascending(ErrorRowIds(g.errors)) && Ascending(NotificationRowIds(g.notifications))
  {
    hide Ascending, NoDuplicates, StrictMessage, StrictError, StrictNotification, ParentMatches;
    assert IdsOf(MessageChecks(g.messages, c.batchRecordId)) == MessageRowIds(g.messages);
    assert IdsOf(ErrorChecks(g.errors, c.batchRecordId)) == ErrorRowIds(g.errors);
    assert IdsOf(NotificationChecks(g.notifications, MessageIds(g.messages))) == NotificationRowIds(g.notifications);
  }

  /** A stored group loads from every database that stores it, when its queries answer and no open
      orphan refers to it. */
  lemma StoredGroupLoads(d: Delegate, db: Database, c: Candidate, p: Policy, g: Group)
    requires Answers(d, db) && GroupStored(db, g) && CandidateOk(c, p) && RowsMatch(c, p, g)
    requires c.messageCount > 0 ==> OpenOrphans(db, AsSet(MessageKeys(g.messages))) == {}
    ensures GroupLoads(d, c, p, g)
  {
    hide GroupStored, MessagesAnswer, ErrorsAnswer, NotificationsAnswer, Ascending, AsSet, OpenOrphans, MessageKeys, ChecksOk, StrictBatch, Less, IsStrict, IsUtcMillis;
    RowsAscend(c, p, g);
    ParentFound(db, c, p, g);
    SameMessages(db, g, d.findMessages(c.batchRecordId, c.messageCount + 1).value);
    SameErrors(db, g, d.findErrors(c.batchRecordId, c.errorCount + 1).value);
    if c.messageCount > 0 {
      SameNotifications(db, g, d.findNotifications(c.batchRecordId, c.notificationCount + 1).value);
    }
  }

  lemma ParentFound(db: Database, c: Candidate, p: Policy, g: Group)
    requires GroupStored(db, g) && RowsMatch(c, p, g)
    ensures FoundBatch(db, c.batchRecordId, c.siteId) == Some(g.parent) && g.parent.id == c.batchRecordId
  {
    hide ChecksOk, StrictBatch, Less;
  }

  // ---------- removing batches leaves the others as they are

  lemma StoredAfter(db: Database, g: Group, h: Group)
    requires Consistent(db) && GroupStored(db, g) && GroupStored(db, h) && h.parent.id != g.parent.id
    ensures GroupStored(Without(db, g), h)
  {
    hide Consistent, ChildMessageIds, NotificationsOf, AsSet;
    ChildrenUntouched(db, g, h.parent.id);
    var after := Without(db, g);
    forall r | r in h.messages
      ensures r.id in after.messages && after.messages[r.id] == r
    {
      RowIdListed(h, r.id);
      assert r.id in ChildMessages(after, h.parent.id);
    }
    forall r | r in h.errors
      ensures r.id in after.errors && after.errors[r.id] == r
    {
      RowIdListed(h, r.id);
      assert r.id in ChildErrors(after, h.parent.id);
    }
    forall r | r in h.notifications
      ensures r.id in after.notifications && after.notifications[r.id] == r
    {
      RowIdListed(h, r.id);
      StillThere(after, ChildMessageIds(db, h.parent.id), r.id);
    }
  }

  lemma StillThere(db: Database, messageIds: set<Text>, id: Text)
    requires id in NotificationsOf(db, messageIds)
    ensures id in db.notifications
  {
  }

  lemma RowIdListed(h: Group, id: Text)
    ensures (exists r <- h.messages :: r.id == id) ==> id in AsSet(MessageRowIds(h.messages))
    ensures (exists r <- h.errors :: r.id == id) ==> id in AsSet(ErrorRowIds(h.errors))
    ensures (exists r <- h.notifications :: r.id == id) ==> id in AsSet(NotificationRowIds(h.notifications))
  {
    if r :| r in h.messages && r.id == id {
      var i :| 0 <= i < |h.messages| && h.messages[i] == r;
      assert MessageRowIds(h.messages)[i] == id;
    }
    if r :| r in h.errors && r.id == id {
      var i :| 0 <= i < |h.errors| && h.errors[i] == r;
      assert ErrorRowIds(h.errors)[i] == id;
    }
    if r :| r in h.notifications && r.id == id {
      var i :| 0 <= i < |h.notifications| && h.notifications[i] == r;
      assert NotificationRowIds(h.notifications)[i] == id;
    }
  }

  ghost predicate DifferentBatches(groups: seq<Group>) {
    forall i, j :: 0 <= i < j < |groups| ==> groups[i].parent.id != groups[j].parent.id
  }

  lemma {:induction false} RestStaysStored(db: Database, groups: seq<Group>, k: nat)
    requires k <= |groups| && Consistent(db) && DifferentBatches(groups) && forall i :: 0 <= i < |groups| ==> GroupStored(db, groups[i])
    ensures Consistent(WithoutAll(db, groups[..k])) && WithoutAll(db, groups[..k]).orphans == db.orphans
    ensures forall j :: k <= j < |groups| ==> GroupStored(WithoutAll(db, groups[..k]), groups[j])
  {
    hide Consistent, GroupStored;
    if k > 0 {
      RestStaysStored(db, groups, k - 1);
      assert groups[..k][..k - 1] == groups[..k - 1] && groups[..k][k - 1] == groups[k - 1];
      var before, g := WithoutAll(db, groups[..k - 1]), groups[k - 1];
      StaysConsistent(before, g);
      forall j | k <= j < |groups|
        ensures GroupStored(Without(before, g), groups[j])
      {
        StoredAfter(before, g, groups[j]);
      }
    } else {
      assert groups[..0] == [];
    }
  }

  // ---------- a batch of the dry run applies

  /** What the escrow holds is what the dry run's queries gave for its candidates. */
  lemma {:induction false} CoordinatedLoads(input: PolicyInput, e: Evidence, cs: seq<Candidate>, d: Delegate, schemaFingerprint: Text,
                         r: DryRunResult, groups: seq<Group>, digest: Digest)
    requires Coordinated(input, e, cs, d, schemaFingerprint, r, groups, digest) && Sorted(CandidateBefore, cs)
    ensures ParsePolicy(input).Some?
    ensures var p := ParsePolicy(input).value;
            ValidPolicy(p) && p.dryRun && CandidatesOk(cs, p) && Snapshot(d, cs, groups, p)
    ensures AllValid(HeaderFor(ParsePolicy(input).value, r.manifest, schemaFingerprint), Flatten(groups))
  {
    hide Snapshot, CandidatesOk, BuildPlan, BuildManifest, EscrowMatchesPlan, ResultFor, Flatten, Sort, CandidateBefore, ParsePolicy, ValidPolicy, BytesOk, OpenOk, FileLines;
    ParsePolicyAgain(input);
    var p := ParsePolicy(input).value;
    LoadedInOrder(d, p, cs, groups);
    WritableValid(HeaderFor(p, r.manifest, schemaFingerprint), Flatten(groups), digest);
  }

  lemma OneCandidateOk(cs: seq<Candidate>, i: nat, p: Policy)
    requires i < |cs| && CandidatesOk(cs, p) && ValidPolicy(p)
    ensures CandidateOk(cs[i], p) && CandidatesOk([cs[i]], p)
  {
    hide CandidateOk;
    CandidatesSnoc(cs, i, p);
    assert cs[..|cs|] == cs;
    CandidatesPrefix(cs, i, |cs|, p);
    CandidatesPrefix(cs, i + 1, |cs|, p);
    CandidatesSnoc([cs[i]], 0, p);
    EmptyCandidates(p);
    assert [cs[i]][..0] == [] && [cs[i]][..1] == [cs[i]] && RecordIds([cs[i]]) == [cs[i].batchRecordId];
  }

  lemma UniqueAlone(g: Group)
    requires UniqueInGroup(g)
    ensures UniqueRows(Flatten([g]))
  {
    hide UniqueInGroup, GroupKeys, GroupIds;
    UniqueWithGroup([], g);
    assert [] + [g] == [g];
    NoIds();
  }

  lemma SortOne(c: Candidate)
    ensures Sort(CandidateBefore, [c]) == [c]
  {
    assert Sorted(CandidateBefore, [c]);
    SortOfSorted(CandidateBefore, [c]);
  }

  lemma StoredGroupApplies(d: Delegate, db: Database, c: Candidate, p: Policy, k: int, g: Group)
    requires Answers(d, db) && GroupStored(db, g) && ValidPolicy(p) && p.dryRun && CandidateOk(c, p) && CandidatesOk([c], p) && RowsMatch(c, p, g)
    requires c.messageCount > 0 ==> OpenOrphans(db, AsSet(MessageKeys(g.messages))) == {}
    requires RecordsValid(GroupRecords(k, g))
    ensures Applicable(d, p.(dryRun := false), c, k, g)
  {
    hide Answers, GroupStored, CandidateOk, CandidatesOk, RowsMatch, OpenOrphans, Flatten, GroupRecords, Sort, CandidateBefore, ValidRecord, IsStrict, IsUtcMillis, UniqueRows, UniqueInGroup;
    StoredGroupLoads(d, db, c, p, g);
    MatchingGroupOk(c, p, g);
    UniqueAlone(g);
    SortOne(c);
    ParsedAsInput(p.(dryRun := false));
    assert p.(dryRun := false).(dryRun := true) == p;
    assert [c][0] == c && [g][0] == g;
  }

  lemma {:induction false} GroupIsValid(groups: seq<Group>, k: nat)
    requires k < |groups| && forall i :: 0 <= i < |Flatten(groups)| ==> ValidRecord(Flatten(groups)[i])
    ensures RecordsValid(GroupRecords(k, groups[k]))
  {
    hide Flatten, GroupRecords, ValidRecord, TailRecords;
    FlattenIsTail(groups, k);
    TailSplits(groups, k);
    var front, own := Flatten(groups[..k]), BatchRecords(groups, k);
    forall i | 0 <= i < |own|
      ensures ValidRecord(own[i])
    {
      assert Flatten(groups)[|front| + i] == own[i];
    }
  }

  /** Every batch of a dry run is stored as the escrow says, each is a different batch, and no open
      orphan refers to it. */
  lemma DryRunStored(d: Delegate, db: Database, cs: seq<Candidate>, groups: seq<Group>, p: Policy)
    requires Faithful(d, db) && CandidatesOk(cs, p) && Snapshot(d, cs, groups, p)
    ensures DifferentBatches(groups)
    ensures forall i :: 0 <= i < |cs| ==> GroupStored(db, groups[i]) && RowsMatch(cs[i], p, groups[i]) && groups[i].parent.id == cs[i].batchRecordId
    ensures forall i :: 0 <= i < |cs| && cs[i].messageCount > 0 ==> OpenOrphans(db, AsSet(MessageKeys(groups[i].messages))) == {}
  {
    hide Faithful, GroupStored, Answered, CandidateOk, RowsMatch, OpenOrphans, UniqueRows, Flatten, MessageKeys;
    forall i | 0 <= i < |cs|
      ensures GroupStored(db, groups[i]) && RowsMatch(cs[i], p, groups[i]) && groups[i].parent.id == cs[i].batchRecordId
      ensures cs[i].messageCount > 0 ==> OpenOrphans(db, AsSet(MessageKeys(groups[i].messages))) == {}
    {
      assert GroupLoads(d, cs[i], p, groups[i]);
      LoadedGroupStored(d, db, cs[i], p, groups[i]);
      LoadedParent(d, cs[i], p, groups[i]);
      if cs[i].messageCount > 0 { NoOpenOrphans(d, db, groups[i].messages); }
    }
    forall i, j | 0 <= i < j < |groups|
      ensures groups[i].parent.id != groups[j].parent.id
    {
      assert RecordIds(cs)[i] != RecordIds(cs)[j];
    }
  }

  lemma OrphansOnly(a: Database, b: Database, messageIds: set<Text>)
    requires a.orphans == b.orphans
    ensures OpenOrphans(a, messageIds) == OpenOrphans(b, messageIds)
  {
  }

  /** What the context of apply holds, given what the dry run issued. */
  lemma IssuedContext(input: PolicyInput, e: Evidence, cs: seq<Candidate>, d: Delegate, schemaFingerprint: Text, r: DryRunResult,
                      groups: seq<Group>, later: Evidence, c: Context, digest: Digest)
    requires Coordinated(input, e, cs, d, schemaFingerprint, r, groups, digest) && Sorted(CandidateBefore, cs) && cs != []
    requires forall t :: IsHash(digest(t))
    requires ContextParses(input.(apply := true), later, r.manifest, ArtifactFor(r.manifest.siteId, r.manifest.hash, r.escrow, cs, digest), c, digest)
    ensures ParsePolicy(input).Some? && c.policy == ParsePolicy(input).value.(dryRun := false) && c.manifest == r.manifest
    ensures |c.manifest.batches| == |c.artifact.bindings| == |groups| == |cs|
    ensures forall k :: 0 <= k < |cs| && CandidateOk(cs[k], ParsePolicy(input).value) ==>
            c.manifest.batches[k] == Publish(cs[k])
            && CandidateFor(c.manifest.siteId, c.manifest.batches[k], c.artifact.bindings[k].batchRecordId) == cs[k]
  {
    hide Coordinated, Sort, CandidateBefore, IsHash, ArtifactHash, ArtifactParses, EscrowMatches, NormalizeManifest, EvidenceOk, ValidVerification, ManifestHash,
         TotalCounts, IsStrict, IsUtcMillis, Less, ArtifactBuildable;
    PolicyOf(input, e, cs, d, schemaFingerprint, r, groups, digest);
    SortsAgree(input, e, cs, d, schemaFingerprint, r, groups, digest);
    ArtifactCanBeBuilt(input, e, cs, d, schemaFingerprint, r, groups, digest);
  }

  /** Batch k of what the dry run loaded applies to the database that the batches before it leave. */
  lemma {:induction false} StoredBatchApplies(d: Delegate, db: Database, cs: seq<Candidate>, groups: seq<Group>, p: Policy, h: Header, again: Delegate, k: nat)
    requires Faithful(d, db) && Consistent(db) && CandidatesOk(cs, p) && Snapshot(d, cs, groups, p) && k < |cs| == |groups|
    requires ValidPolicy(p) && p.dryRun && AllValid(h, Flatten(groups))
    requires Answers(again, WithoutAll(db, groups[..k]))
    ensures CandidateOk(cs[k], p) && Applicable(again, p.(dryRun := false), cs[k], k, groups[k]) && Readable(k, groups[k], Publish(cs[k]))
  {
    hide Answers, Faithful, Consistent, GroupStored, Applicable, CandidatesOk, CandidateOk, RowsMatch, Snapshot, OpenOrphans, GroupRecords, RecordsValid,
         Readable, Flatten, ValidPolicy, AllValid, MessageKeys, AsSet, WithoutAll;
    var base := WithoutAll(db, groups[..k]);
    OneCandidateOk(cs, k, p);
    DryRunStored(d, db, cs, groups, p);
    RestStaysStored(db, groups, k);
    OrphansOnly(base, db, AsSet(MessageKeys(groups[k].messages)));
    ValidGroups(h, groups, k);
    StoredGroupApplies(again, base, cs[k], p, k, groups[k]);
    ApplyPolicyIsValid(p);
    ReadsBack(again, p.(dryRun := false), cs[k], k, groups[k], Publish(cs[k]));
  }

  lemma ApplyPolicyIsValid(p: Policy)
    ensures ValidPolicy(p.(dryRun := false)) <==> ValidPolicy(p)
  {
  }

  /** Dry run and apply on one database: if nothing changes in between and no query fails, every
      batch of the escrow applies, in the database that the batches before it leave. */
  lemma {:induction false} EveryBatchApplies(input: PolicyInput, e: Evidence, cs: seq<Candidate>, d: Delegate, schemaFingerprint: Text, r: DryRunResult,
                          groups: seq<Group>, later: Evidence, c: Context, db: Database, queries: Queries, k: nat, digest: Digest)
    requires Coordinated(input, e, cs, d, schemaFingerprint, r, groups, digest) && Sorted(CandidateBefore, cs) && cs != []
    requires forall t :: IsHash(digest(t))
    requires ContextParses(input.(apply := true), later, r.manifest, ArtifactFor(r.manifest.siteId, r.manifest.hash, r.escrow, cs, digest), c, digest)
    requires Consistent(db) && Faithful(d, db) && k < |groups|
    requires Answers(queries(k, WithoutAll(db, groups[..k])), WithoutAll(db, groups[..k]))
    ensures k < |c.manifest.batches| && k < |c.artifact.bindings|
    ensures BatchApplies(queries, c, groups, k, WithoutAll(db, groups[..k]))
  {
    hide Coordinated, ContextParses, Answers, Faithful, Consistent, Applicable, CandidatesOk, CandidateOk, Snapshot, Sort, CandidateBefore,
         IsHash, Readable, Flatten, ValidPolicy, AllValid, ParsePolicy, WithoutAll, Sorted;
    IssuedContext(input, e, cs, d, schemaFingerprint, r, groups, later, c, digest);
    CoordinatedLoads(input, e, cs, d, schemaFingerprint, r, groups, digest);
    var p := ParsePolicy(input).value;
    StoredBatchApplies(d, db, cs, groups, p, HeaderFor(p, r.manifest, schemaFingerprint), queries(k, WithoutAll(db, groups[..k])), k);
  }

  lemma {:induction false} ValidGroups(h: Header, groups: seq<Group>, k: nat)
    requires AllValid(h, Flatten(groups)) && k < |groups|
    ensures RecordsValid(GroupRecords(k, groups[k]))
  {
    GroupIsValid(groups, k);
  }

  lemma ReadsBack(d: Delegate, p: Policy, c: Candidate, k: int, g: Group, b: PublicBatch)
    requires ValidPolicy(p) && Applicable(d, p, c, k, g) && b == Publish(c)
    ensures Readable(k, g, b)
  {
    hide Flatten, GroupRecords, Sort, CandidateBefore, CandidateOk, Answered, OrphansOk, ChecksOk, UniqueRows, RecordsValid, CountsAre, IsStrict, IsUtcMillis, StrictBatch, Less;
    LoadsOne(d, p, c, [g]);
    LoadedCounts(d, p, c, k, g, b);
    GroupSize(c, p.(dryRun := true), k, g);
    OneRecordCount(c, p);
  }

  lemma OneRecordCount(c: Candidate, p: Policy)
    ensures SumRecords([c]) == RecordCount(c)
  {
    CandidatesSnoc([c], 0, p);
    assert [c][..1] == [c] && [c][..0] == [];
  }

  /** What an apply run then reports and leaves, if it only stops where a batch does not apply. */
  lemma {:induction false} UndisturbedApply(input: PolicyInput, e: Evidence, cs: seq<Candidate>, d: Delegate, schemaFingerprint: Text, r: DryRunResult,
                         groups: seq<Group>, later: Evidence, c: Context, db: Database, queries: Queries, k: nat, outcome: ApplyOutcome, digest: Digest)
    requires Coordinated(input, e, cs, d, schemaFingerprint, r, groups, digest) && Sorted(CandidateBefore, cs) && cs != []
    requires forall t :: IsHash(digest(t))
    requires ContextParses(input.(apply := true), later, r.manifest, ArtifactFor(r.manifest.siteId, r.manifest.hash, r.escrow, cs, digest), c, digest)
    requires Consistent(db) && Faithful(d, db)
    requires forall i: nat :: i < |groups| ==> Answers(queries(i, WithoutAll(db, groups[..i])), WithoutAll(db, groups[..i]))
    requires RunReport(queries, c, groups, k, db, outcome, false)
    requires k <= |groups| && DoesNotApply(queries, c, groups, k, WithoutAll(db, groups[..k]))
    ensures outcome == Completed(ReceiptOf(c)) && k == |groups|
    ensures WithoutAll(db, groups[..k]) == Minus(db, Flatten(groups))
  {
    hide Coordinated, ContextParses, Answers, Faithful, Consistent, Sort, CandidateBefore, IsHash, Flatten, BatchApplies, WithoutAll, Sorted, ParsePolicy, Minus,
         Applicable, GroupStored, ReceiptOf;
    IssuedContext(input, e, cs, d, schemaFingerprint, r, groups, later, c, digest);
    if k < |groups| {
      EveryBatchApplies(input, e, cs, d, schemaFingerprint, r, groups, later, c, db, queries, k, digest);
      assert false;
    }
    assert groups[..k] == groups;
    RemovedRows(db, groups);
  }

  /** The file that the dry run wrote opens with its own result and groups, and with no others. */
  lemma {:induction false} IssuedFileOpens(input: PolicyInput, e: Evidence, cs: seq<Candidate>, d: Delegate, schemaFingerprint: Text, r: DryRunResult,
                        groups: seq<Group>, file: Bytes, digest: Digest)
    requires Coordinated(input, e, cs, d, schemaFingerprint, r, groups, digest) && forall t :: IsHash(digest(t))
    requires file == FileBytes(ChunksOf(FileLines(HeaderFor(ParsePolicy(input).value, r.manifest, schemaFingerprint), Flatten(groups), digest)))
    ensures 0 < |file| <= HARD_FILE_BYTES
    ensures forall v, gs :: IsVerified(file, v, gs, digest) <==> v == r.escrow && gs == groups
  {
    hide Flatten, FileBytes, ChunksOf, FileLines, ResultFor, IsVerified, Writable, BuildPlan, BuildManifest, LoadsAs, EscrowMatchesPlan, ParsePolicy, IsHash, Content, RawsOf;
    var h := HeaderFor(ParsePolicy(input).value, r.manifest, schemaFingerprint);
    WrittenFileIsVerified(h, Flatten(groups), groups, digest);
    forall v, gs
      ensures IsVerified(file, v, gs, digest) <==> v == r.escrow && gs == groups
    {
      if IsVerified(file, v, gs, digest) { VerifiedUnique(file, v, r.escrow, gs, groups, digest); }
    }
  }

  // ---------- when a dry run succeeds

  function IssuedManifest(p: Policy, cs: seq<Candidate>, digest: Digest): Manifest {
    var bs := Published(cs);
    Manifest(p.siteId, p.cutoff, p.policyVersion, bs, ManifestHash(p.siteId, p.cutoff, p.policyVersion, bs, digest))
  }

  lemma SelectedIfLoadable(cs: seq<Candidate>, p: Policy)
    requires CandidatesOk(cs, p)
    ensures forall i :: 0 <= i < |cs| ==> SelectionOk(cs[i], p) && PublicBatchOk(Published(cs)[i])
  {
    hide RecordIds, IsUtcMillis, Less;
    forall i | 0 <= i < |cs|
      ensures SelectionOk(cs[i], p) && PublicBatchOk(Published(cs)[i])
    {
      assert CandidateOk(cs[i], p);
      assert !IsSpace(cs[i].batchId[0]);
    }
  }

  lemma {:induction false} CountsOfPublished(cs: seq<Candidate>, p: Policy)
    requires forall i :: 0 <= i < |cs| ==> CandidateOk(cs[i], p)
    ensures var t := TotalCounts(Published(cs));
            && t.batches == |cs| && t.messages == SumMessages(cs) && t.batches + t.messages + t.errors + t.notifications == SumRecords(cs)
            && t.messages >= 0 && t.errors >= 0 && t.notifications >= 0
  {
    hide IsStrict, IsUtcMillis, Less;
    if cs != [] {
      var n := |cs| - 1;
      CountsOfPublished(cs[..n], p);
      assert Published(cs)[..n] == Published(cs[..n]);
      assert CandidateOk(cs[n], p);
    }
  }

  lemma PlanExists(p: Policy, e: Evidence, cs: seq<Candidate>)
    requires CandidatesOk(cs, p) && Sorted(CandidateBefore, cs) && EvidenceOk(e) && ValidPolicy(p)
    ensures BuildPlan(p, e, true, true, cs) == Some(Plan(p.siteId, p.cutoff, TotalCounts(Published(cs)), Published(cs)))
  {
    hide SelectionOk, CandidateOk, PublicBefore, CandidateBefore, Published, TotalCounts, EvidenceOk, RecordIds, IsStrict, IsUtcMillis, Less;
    SelectedIfLoadable(cs, p);
    PublishedSorted(cs);
    SortOfSorted(PublicBefore, Published(cs));
    CountsOfPublished(cs, p);
    PublishedLength(cs);
  }

  lemma PublishedLength(cs: seq<Candidate>)
    ensures |Published(cs)| == |cs|
  {
  }

  lemma ManifestExists(p: Policy, cs: seq<Candidate>, digest: Digest)
    requires CandidatesOk(cs, p) && Sorted(CandidateBefore, cs) && ValidPolicy(p)
    ensures BuildManifest(p.siteId, p.cutoff, p.policyVersion, Published(cs), digest) == Some(IssuedManifest(p, cs, digest))
  {
    hide SelectionOk, CandidateOk, PublicBefore, CandidateBefore, Published, PublicBatchOk, ManifestHash, RecordIds, IsStrict, IsUtcMillis, Less;
    SelectedIfLoadable(cs, p);
    PublishedSorted(cs);
    SortOfSorted(PublicBefore, Published(cs));
    PublishedLength(cs);
  }

  /** The escrow of a snapshot has the counts of the candidates. */
  lemma {:induction false} CountsOfSnapshot(d: Delegate, cs: seq<Candidate>, groups: seq<Group>, n: nat, p: Policy)
    requires Snapshot(d, cs, groups, p) && n <= |cs|
    ensures CountsOf(groups[..n]) == TotalCounts(Published(cs[..n]))
  {
    hide Answered, OrphansOk, ChecksOk, ParentMatches, UniqueRows, Flatten, IsStrict;
    if n > 0 {
      CountsOfSnapshot(d, cs, groups, n - 1, p);
      assert groups[..n] == groups[..n - 1] + [groups[n - 1]];
      CountsSnoc(groups[..n - 1], groups[n - 1]);
      assert Published(cs[..n])[..n - 1] == Published(cs[..n - 1]) && Published(cs[..n])[n - 1] == Publish(cs[n - 1]);
      assert GroupLoads(d, cs[n - 1], p, groups[n - 1]);
    }
  }

  /** The coordinator's comparison of escrow and plan never fails. */
  lemma {:induction false} PlanAlwaysMatches(d: Delegate, cs: seq<Candidate>, groups: seq<Group>, p: Policy, schemaFingerprint: Text, digest: Digest)
    requires Snapshot(d, cs, groups, p) && ValidPolicy(p)
    ensures var m := IssuedManifest(p, cs, digest);
            EscrowMatchesPlan(ResultFor(HeaderFor(p, m, schemaFingerprint), Flatten(groups), digest), Plan(p.siteId, p.cutoff, TotalCounts(Published(cs)), Published(cs)), m)
  {
    hide Flatten, Snapshot, ManifestHash, Published, TotalCounts, FileLines, BodyLines, Content, RawsOf;
    CountsOfSnapshot(d, cs, groups, |cs|, p);
    SnapshotLength(d, cs, groups, p);
    assert groups[..|cs|] == groups && cs[..|cs|] == cs;
    GroupsCounted(groups);
    PublishedLength(cs);
  }

  lemma SnapshotLength(d: Delegate, cs: seq<Candidate>, groups: seq<Group>, p: Policy)
    requires Snapshot(d, cs, groups, p)
    ensures |groups| == |cs|
  {
  }

  lemma HeaderIsValid(p: Policy, cs: seq<Candidate>, schemaFingerprint: Text, digest: Digest)
    requires ValidPolicy(p) && IsHash(schemaFingerprint) && forall t :: IsHash(digest(t))
    ensures ValidHeader(HeaderFor(p, IssuedManifest(p, cs, digest), schemaFingerprint))
  {
    hide IsStrict, IsUtcMillis, Published;
    HashesAreHashes(p.siteId, p.cutoff, p.policyVersion, Published(cs), digest);
  }

  lemma LoadedSnapshot(d: Delegate, input: PolicyInput, cs: seq<Candidate>, groups: seq<Group>)
    requires ParsePolicy(input).Some? && !input.apply && Sorted(CandidateBefore, cs) && LoadsAs(d, AsInput(ParsePolicy(input).value), cs, groups)
    ensures var p := ParsePolicy(input).value;
            ValidPolicy(p) && p.dryRun && CandidatesOk(cs, p) && Snapshot(d, cs, groups, p) && p.siteId == input.siteId
  {
    hide Snapshot, CandidatesOk, Sort, CandidateBefore, Sorted;
    ParsePolicyAgain(input);
    LoadedInOrder(d, ParsePolicy(input).value, cs, groups);
  }

  /** With good evidence and candidates that load, a dry run succeeds exactly when the dates of the
      rows lie in years 0000 to 9999 and the file keeps the byte limits. */
  lemma {:induction false} DryRunExactly(input: PolicyInput, e: Evidence, cs: seq<Candidate>, d: Delegate, schemaFingerprint: Text, groups: seq<Group>, digest: Digest)
    requires ParsePolicy(input).Some? && !input.apply && EvidenceOk(e) && Sorted(CandidateBefore, cs)
    requires LoadsAs(d, AsInput(ParsePolicy(input).value), cs, groups) && IsHash(schemaFingerprint) && forall t :: IsHash(digest(t))
    ensures var p := ParsePolicy(input).value;
            var h := HeaderFor(p, IssuedManifest(p, cs, digest), schemaFingerprint);
            (exists r :: Coordinated(input, e, cs, d, schemaFingerprint, r, groups, digest)) <==>
            DatesOk(Flatten(groups)) && BytesOk(RawsOf(FileLines(h, Flatten(groups), digest)), HARD_LIMITS)
  {
    hide Snapshot, CandidatesOk, Sort, CandidateBefore, Sorted, LoadsAs, ParsePolicy, ValidPolicy, IsHash, BuildPlan, BuildManifest, EscrowMatchesPlan, Writable,
         ResultFor, IssuedManifest, FileLines, Flatten, BytesOk, DatesOk, TotalCounts, Published, EvidenceOk, RawsOf;
    LoadedSnapshot(d, input, cs, groups);
    var p := ParsePolicy(input).value;
    var m := IssuedManifest(p, cs, digest);
    var h := HeaderFor(p, m, schemaFingerprint);
    IssuedFor(p, cs, digest);
    PlanExists(p, e, cs);
    ManifestExists(p, cs, digest);
    HeaderIsValid(p, cs, schemaFingerprint, digest);
    PlanAlwaysMatches(d, cs, groups, p, schemaFingerprint, digest);
    LoadedIsWritable(d, AsInput(p), cs, groups, h, digest);
    var plan := Plan(p.siteId, p.cutoff, TotalCounts(Published(cs)), Published(cs));
    if Writable(h, Flatten(groups), digest) {
      assert Coordinated(input, e, cs, d, schemaFingerprint, DryRunResult(plan, m, ResultFor(h, Flatten(groups), digest)), groups, digest);
    }
    if r :| Coordinated(input, e, cs, d, schemaFingerprint, r, groups, digest) {
      assert r.plan == plan && r.manifest == m;
    }
  }

  lemma IssuedFor(p: Policy, cs: seq<Candidate>, digest: Digest)
    ensures var m := IssuedManifest(p, cs, digest); m.siteId == p.siteId && m.cutoff == p.cutoff && m.policyVersion == p.policyVersion
  {
  }

  // ---------- one run after the other

  /** Queries answer about every database that keeps the schema's constraints. */
  lemma {:induction false} AnswersInTurn(queries: Queries, db: Database, groups: seq<Group>)
    requires Consistent(db) && DifferentBatches(groups) && forall i :: 0 <= i < |groups| ==> GroupStored(db, groups[i])
    requires forall i, base :: Consistent(base) ==> Answers(queries(i, base), base)
    ensures FaithfulInTurn(queries, groups, db)
    ensures forall i: nat :: i < |groups| ==> Answers(queries(i, WithoutAll(db, groups[..i])), WithoutAll(db, groups[..i]))
  {
    hide Consistent, GroupStored, WithoutAll, Faithful, Ascending;
    forall i: nat | i < |groups|
      ensures Answers(queries(i, WithoutAll(db, groups[..i])), WithoutAll(db, groups[..i]))
    {
      RestStaysStored(db, groups, i);
    }
  }

  lemma CoordinatedStored(input: PolicyInput, e: Evidence, cs: seq<Candidate>, d: Delegate, schemaFingerprint: Text, r: DryRunResult,
                          groups: seq<Group>, db: Database, digest: Digest)
    requires Coordinated(input, e, cs, d, schemaFingerprint, r, groups, digest) && Sorted(CandidateBefore, cs) && Faithful(d, db)
    ensures DifferentBatches(groups) && forall i :: 0 <= i < |groups| ==> GroupStored(db, groups[i])
  {
    hide Coordinated, Sorted, CandidateBefore, Faithful, Snapshot, CandidatesOk, GroupStored, RowsMatch, AllValid, ParsePolicy, ValidPolicy, Flatten, OpenOrphans;
    CoordinatedLoads(input, e, cs, d, schemaFingerprint, r, groups, digest);
    DryRunStored(d, db, cs, groups, ParsePolicy(input).value);
    SnapshotLength(d, cs, groups, ParsePolicy(input).value);
  }

  /** Such a run applies all batches in turn, so its complete report is a possible one. */
  lemma {:induction false} RunCompletes(input: PolicyInput, e: Evidence, cs: seq<Candidate>, d: Delegate, schemaFingerprint: Text, r: DryRunResult,
                                        groups: seq<Group>, later: Evidence, c: Context, db: Database, queries: Queries, digest: Digest)
    requires Coordinated(input, e, cs, d, schemaFingerprint, r, groups, digest) && Sorted(CandidateBefore, cs) && cs != []
    requires forall t :: IsHash(digest(t))
    requires ContextParses(input.(apply := true), later, r.manifest, ArtifactFor(r.manifest.siteId, r.manifest.hash, r.escrow, cs, digest), c, digest)
    requires Consistent(db) && Faithful(d, db)
    requires forall i: nat :: i < |groups| ==> Answers(queries(i, WithoutAll(db, groups[..i])), WithoutAll(db, groups[..i]))
    ensures RunReport(queries, c, groups, |groups|, db, Completed(ReceiptOf(c)), false)
  {
    hide Coordinated, ContextParses, Answers, Faithful, Consistent, Sort, CandidateBefore, IsHash, Flatten, WithoutAll, Sorted, ParsePolicy, Applicable, GroupStored,
         ReceiptOf, Readable, DifferentBatches;
    IssuedContext(input, e, cs, d, schemaFingerprint, r, groups, later, c, digest);
    CoordinatedStored(input, e, cs, d, schemaFingerprint, r, groups, db, digest);
    forall i | 0 <= i < |groups|
      ensures Applicable(queries(i, WithoutAll(db, groups[..i])), c.policy,
                         CandidateFor(c.manifest.siteId, c.manifest.batches[i], c.artifact.bindings[i].batchRecordId), i, groups[i])
      ensures GroupStored(WithoutAll(db, groups[..i]), groups[i]) && groups[i].parent.id == c.artifact.bindings[i].batchRecordId
    {
      EveryBatchApplies(input, e, cs, d, schemaFingerprint, r, groups, later, c, db, queries, i, digest);
      RestStaysStored(db, groups, i);
      PolicyIsValid(input.(apply := true), later, r.manifest, ArtifactFor(r.manifest.siteId, r.manifest.hash, r.escrow, cs, digest), c, digest);
      ApplicableParent(queries(i, WithoutAll(db, groups[..i])), c.policy,
                       CandidateFor(c.manifest.siteId, c.manifest.batches[i], c.artifact.bindings[i].batchRecordId), i, groups[i]);
    }
  }

  lemma PolicyIsValid(input: PolicyInput, e: Evidence, m: Manifest, a: Artifact, c: Context, digest: Digest)
    requires ContextParses(input, e, m, a, c, digest)
    ensures ValidPolicy(c.policy)
  {
    ContextIsUnique(input, e, m, a, c, digest);
  }

  /** A dry run, and then an apply run on what it issued, while nobody else writes to the database, no
      query fails and the lock is free: if the dry run gives output, apply completes and removes
      exactly the rows of the escrow. */
  method DryRunThenApply(input: PolicyInput, e: Evidence, later: Evidence, q: CandidateQueries, d: Delegate, schemaFingerprint: Text,
                         sink: Sink, locks: HeldLocks, lock: ApplyLock, store: Store, queries: Queries, digest: Digest)
    returns (output: Option<DryRunOutput>, outcome: ApplyOutcome, ghost cs: seq<Candidate>, ghost groups: seq<Group>)
    requires (forall t :: IsHash(digest(t))) && sink.chunks == []
    requires EvidenceOk(later) && lock.answer.Granted? && !lock.releaseThrows
    requires Consistent(store.db) && Faithful(d, store.db)
    requires forall i, base :: Consistent(base) ==> Answers(queries(i, base), base)
    modifies sink, locks, lock`acquired, lock`released, store
    ensures locks.tokens == old(locks.tokens)
    ensures output.Some? ==> Issued(q, input, e, d, schemaFingerprint, output.value, cs, groups, sink.chunks, digest)
    ensures output.Some? ==> Sorted(CandidateBefore, cs) && |Flatten(groups)| + 2 <= sink.capacity
    ensures output.Some? ==> outcome.Completed? && store.db == Minus(old(store.db), Flatten(groups))
    ensures output.Some? ==> ReceiptTells(outcome.receipt, input, output.value.result.manifest, output.value.artifact, output.value.result.escrow, groups)
    ensures output.None? ==> outcome.Refused? && store.db == old(store.db)
    ensures output.None? && EvidenceOk(e) && input.siteId !in locks.tokens ==> NothingFits(q, input, e, d, schemaFingerprint, sink.capacity, digest)
  {
    hide Consistent, Faithful, Answers, Coordinated, ContextParses, IsHash, Sorted, CandidateBefore, Flatten, Minus, WithoutAll, FaithfulInTurn, ChunksOf, FileLines,
         FileBytes, IsVerified, RunReport, ReceiptTells, NothingFits, BatchApplies, ArtifactHash, BindingsFor, LoadsCandidates, EvidenceOk, GroupStored, DifferentBatches, BindsGroups, RecordIterator.Valid;
    output, cs, groups := ExecuteDryRun(input, e, q, d, schemaFingerprint, sink, locks, digest);
    outcome := Refused;
    if output.None? { return; }
    ghost var db := store.db;
    var result := output.value.result;
    CoordinatedStored(input, e, cs, d, schemaFingerprint, result, groups, db, digest);
    AnswersInTurn(queries, db, groups);
    var file := FileBytes(sink.chunks);
    IssuedFileOpens(input, e, cs, d, schemaFingerprint, result, groups, file, digest);
    var found := OpenSource(file, digest);
    assert IsVerified(file, result.escrow, groups, digest);
    var source := found.value;
    ghost var c :| ContextParses(input.(apply := true), later, result.manifest, output.value.artifact, c, digest);
    ContextIsUnique(input.(apply := true), later, result.manifest, output.value.artifact, c, digest);
    ghost var k: nat;
    outcome, k := ExecuteApply(input.(apply := true), later, result.manifest, output.value.artifact, source, lock, store, queries, false, digest);
    assert Starts(input.(apply := true), later, result.manifest, output.value.artifact, source.verification, digest);
    UndisturbedApply(input, e, cs, d, schemaFingerprint, result, groups, later, c, db, queries, k, outcome, digest);
    ReceiptWithoutMode(outcome.receipt, input, result.manifest, output.value.artifact, result.escrow, groups, k);
  }

  lemma {:induction false} ReceiptWithoutMode(r: Receipt, input: PolicyInput, m: Manifest, a: Artifact, v: Verification, groups: seq<Group>, k: nat)
    requires k == |groups| && ReceiptTells(r, input.(apply := true), m, a, v, groups[..k])
    ensures ReceiptTells(r, input, m, a, v, groups)
  {
    hide CountsGroup;
    assert groups[..k] == groups;
  }
}
