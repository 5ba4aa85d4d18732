/** A dry run over a database succeeds exactly when the due batches can be retired, and with an apply
    run behind it the database loses exactly these batches. */
module RetentionComplete {
  import opened Utf16
  import opened Options
  import opened StableSort
  import opened Utf8
  import opened EscrowRecords
  import opened EscrowGroups
  import opened EscrowStages
  import opened EscrowWriter
  import opened RetentionPolicy
  import opened EscrowLoader
  import opened SnapshotKeys
  import opened EscrowStream
  import opened RetentionApply
  import opened RetentionDatabase
  import opened RetentionApplier
  import opened RetentionExact
  import opened RetentionCandidates
  import opened RetentionDryRun
  import opened RetentionEndToEnd
  import opened RetentionDue

  // ---------- when batches can be retired

  /** The escrow can hold every row of these batches: ids and references are trimmed and not empty,
      dates lie in years 0000 to 9999. */
  ghost predicate RowsFit(db: Database, batches: set<Text>) {
    && (forall id <- batches :: id in db.batches && ValidBatch(db.batches[id]))
    && (forall id <- MessagesIn(db, batches) :: ValidMessage(db.messages[id]))
    && (forall id <- ErrorsIn(db, batches) :: ValidError(db.errors[id]))
    && (forall id <- NotificationsIn(db, batches) :: ValidNotification(db.notifications[id]))
  }

  /** There are due batches, not too many of them and not too many rows, no row is malformed, and no
      open orphan refers to them. */
  ghost predicate Retirable(db: Database, p: Policy) {
    var due := Due(db, p.siteId, p.cutoff);
    && 0 < |due| <= p.maxBatches && |MessagesIn(db, due)| <= p.maxMessages
    && |due| + |MessagesIn(db, due)| + |ErrorsIn(db, due)| + |NotificationsIn(db, due)| <= 250_000
    && RowsFit(db, due) && OpenOrphans(db, MessageIdsIn(db, due)) == {}
  }

  // ---------- the candidates load

  lemma FewerRows(a: set<Text>, b: set<Text>)
    requires a <= b
    ensures |a| <= |b|
  {
    assert b == a + (b - a);
  }

  lemma RowsAmong(db: Database, batches: set<Text>, b: Text)
    requires b in batches
    ensures ChildMessages(db, b) <= MessagesIn(db, batches) && |ChildMessages(db, b)| <= |MessagesIn(db, batches)|
    ensures ChildErrors(db, b) <= ErrorsIn(db, batches) && |ChildErrors(db, b)| <= |ErrorsIn(db, batches)|
    ensures ChildMessageIds(db, b) <= MessageIdsIn(db, batches)
    ensures NotificationsOf(db, ChildMessageIds(db, b)) <= NotificationsIn(db, batches)
    ensures |NotificationsOf(db, ChildMessageIds(db, b))| <= |NotificationsIn(db, batches)|
    ensures OpenOrphans(db, ChildMessageIds(db, b)) <= OpenOrphans(db, MessageIdsIn(db, batches))
  {
    FewerRows(ChildMessages(db, b), MessagesIn(db, batches));
    FewerRows(ChildErrors(db, b), ErrorsIn(db, batches));
    assert ChildMessageIds(db, b) <= MessageIdsIn(db, batches);
    FewerRows(NotificationsOf(db, ChildMessageIds(db, b)), NotificationsIn(db, batches));
  }

  /** Distinct rows have distinct message ids. */
  lemma SummariesDistinct(db: Database, ids: seq<Text>, rows: seq<MessageSummary>)
    requires Consistent(db) && NoDuplicates(ids) && SummariesOf(db, ids, rows)
    ensures NoDuplicates(SummaryIds(rows))
  {
  }

  /** The message ids of a batch, summarized, pass the loader's checks. */
  lemma SummariesPass(db: Database, batch: Text, batches: set<Text>, ids: seq<Text>, rows: seq<MessageSummary>)
    requires Consistent(db) && batch in batches && RowsFit(db, batches) && |NotificationsIn(db, batches)| <= 250_000
    requires IsAnswer(ids, ChildMessages(db, batch), |ChildMessages(db, batch)| + 1) && SummariesOf(db, ids, rows)
    ensures MessageSummariesOk(rows, |ChildMessages(db, batch)|) && AsSet(SummaryIds(rows)) == ChildMessageIds(db, batch)
  {
    hide Consistent, MessagesIn, ErrorsIn, NotificationsIn, ChildMessages, ChildMessageIds, NotificationsOf, NoDuplicates, SumEvents, SummaryIds, IsNotBlank;
    TakeOneMore(ids, ChildMessages(db, batch), |ChildMessages(db, batch)|);
    ListedMessageIds(db, batch, ids, rows);
    SummariesDistinct(db, ids, rows);
    EventsAddUp(db, rows);
    RowsAmong(db, batches, batch);
    forall i | 0 <= i < |rows|
      ensures IsNotBlank(rows[i].messageId) && IsCount(rows[i].notificationEvents)
    {
      assert ids[i] in AsSet(ids) && ids[i] in MessagesIn(db, batches);
      StrictNotBlank(rows[i].messageId);
      assert SummaryIds(rows)[i] == rows[i].messageId by { SummaryIdAt(rows, i); }
      FewerRows(NotificationsOf(db, {rows[i].messageId}), NotificationsOf(db, ChildMessageIds(db, batch))) by {
        NotificationsAmong(db, rows[i].messageId, ChildMessageIds(db, batch));
      }
    }
  }

  lemma SummaryIdAt(rows: seq<MessageSummary>, i: nat)
    requires i < |rows|
    ensures i < |SummaryIds(rows)| && SummaryIds(rows)[i] == rows[i].messageId && rows[i].messageId in AsSet(SummaryIds(rows))
  {
    assert SummaryIds(rows)[i] in SummaryIds(rows);
  }

  lemma NotificationsAmong(db: Database, messageId: Text, messageIds: set<Text>)
    requires messageId in messageIds
    ensures NotificationsOf(db, {messageId}) <= NotificationsOf(db, messageIds)
  {
  }

  lemma StrictNotBlank(t: Text)
    requires IsStrict(t)
    ensures IsNotBlank(t)
  {
    assert !IsSpace(t[0]);
  }

  lemma OneDueLoads(q: CandidateQueries, db: Database, siteId: Text, s: BatchSummary, due: set<Text>)
    requires Consistent(db) && Truthful(q, db) && NeverThrows(q) && SummaryOf(db, s) && s.id in due && RowsFit(db, due)
    requires |MessagesIn(db, due)| <= 250_000 && |ErrorsIn(db, due)| <= 250_000 && |NotificationsIn(db, due)| <= 250_000
    requires OpenOrphans(db, MessageIdsIn(db, due)) == {}
    ensures SummaryOk(s) && Loaded(q, siteId, s).Some?
  {
    hide Consistent, MessagesIn, ErrorsIn, NotificationsIn, MessageIdsIn, ChildMessages, ChildErrors, ChildMessageIds, NotificationsOf, OpenOrphans, MessageSummariesOk,
         IsAnswer, SummariesOf, IsNotBlank, IsStrict, IsUtcMillis, AsSet, SummaryIds;
    RowsAmong(db, due, s.id);
    StrictNotBlank(s.batchId) by { BatchFits(db, due, s.id); }
    BatchFits(db, due, s.id);
    if s.messageCount != 0 {
      var rows := q.findMessages(s.id, s.messageCount + 1).value;
      var ids :| IsAnswer(ids, ChildMessages(db, s.id), s.messageCount + 1) && SummariesOf(db, ids, rows);
      SummariesPass(db, s.id, due, ids, rows);
    }
  }

  lemma BatchFits(db: Database, due: set<Text>, id: Text)
    requires RowsFit(db, due) && id in due
    ensures id in db.batches && IsStrict(db.batches[id].batchId) && ValidBatch(db.batches[id])
    ensures Consistent(db) ==> IsStrict(id) && id != []
  {
  }

  /** The candidate loader takes every due batch. */
  lemma DueAreLoadable(q: CandidateQueries, db: Database, p: Policy)
    requires Consistent(db) && Truthful(q, db) && NeverThrows(q) && ValidPolicy(p) && Retirable(db, p)
    ensures Loadable(q, p)
  {
    hide Consistent, MessagesIn, ErrorsIn, NotificationsIn, MessageIdsIn, OpenOrphans, Loaded, SummaryOk, SummaryOf, RowsFit, Due, Truthful;
    var due, take := Due(db, p.siteId, p.cutoff), p.maxBatches + 1;
    var ss := q.findBatches(p.siteId, p.cutoff, take).value;
    BatchesTrue(q, db, p.siteId, p.cutoff, take);
    AllBatches(ss, due, p.maxBatches);
    TotalOfSummaries(db, ss);
    forall i | 0 <= i < |ss|
      ensures SummaryOk(ss[i]) && Loaded(q, p.siteId, ss[i]).Some?
    {
      assert ss[i] in ss && SummaryRowIds(ss)[i] in AsSet(SummaryRowIds(ss));
      OneDueLoads(q, db, p.siteId, ss[i], due);
    }
  }

  lemma LoadablesLoad(q: CandidateQueries, input: PolicyInput) returns (cs: seq<Candidate>)
    requires ParsePolicy(input).Some? && Loadable(q, ParsePolicy(input).value)
    ensures LoadsCandidates(q, input, cs) && Sorted(CandidateBefore, cs)
  {
    hide Loaded, SummaryOk, Sort, CandidateBefore, Sorted, ParsePolicy;
    var p := ParsePolicy(input).value;
    var ss := q.findBatches(p.siteId, p.cutoff, p.maxBatches + 1).value;
    var loaded := seq(|ss|, i requires 0 <= i < |ss| => Loaded(q, p.siteId, ss[i]).value);
    assert IsLoaded(q, p, ss, loaded);
    cs := Sort(CandidateBefore, loaded);
    LoadedSorted(cs);
  }

  lemma LoadedCandidatesAreDue(q: CandidateQueries, db: Database, input: PolicyInput, cs: seq<Candidate>)
    requires Truthful(q, db) && LoadsCandidates(q, input, cs)
    ensures DueCandidates(db, input.siteId, input.cutoff, cs) && Sorted(CandidateBefore, cs)
  {
    hide Loaded, SummaryOk, Sort, CandidateBefore, Sorted, Truthful, DueCandidates;
    var p := ParsePolicy(input).value;
    var ss := q.findBatches(p.siteId, p.cutoff, p.maxBatches + 1).value;
    var loaded :| IsLoaded(q, p, ss, loaded) && cs == Sort(CandidateBefore, loaded);
    LoadedAreDue(q, db, p, ss, loaded);
    SortedAreDue(db, p.siteId, p.cutoff, loaded);
    LoadedSorted(cs);
  }

  // ---------- the escrow loader takes them too

  lemma OneDueOk(db: Database, p: Policy, c: Candidate, due: set<Text>)
    requires Consistent(db) && ValidPolicy(p) && due == Due(db, p.siteId, p.cutoff) && Counted(db, c) && c.batchRecordId in due && RowsFit(db, due)
    requires |MessagesIn(db, due)| <= 250_000 && |ErrorsIn(db, due)| <= 250_000 && |NotificationsIn(db, due)| <= 250_000
    requires OpenOrphans(db, MessageIdsIn(db, due)) == {}
    ensures CandidateOk(c, p) && OpenOrphans(db, ChildMessageIds(db, c.batchRecordId)) == {}
  {
    hide MessagesIn, ErrorsIn, NotificationsIn, MessageIdsIn, ChildMessages, ChildErrors, ChildMessageIds, NotificationsOf, OpenOrphans, IsStrict, IsUtcMillis, Less, RowsFit, Consistent;
    RowsAmong(db, due, c.batchRecordId);
    BatchFits(db, due, c.batchRecordId);
    if c.messageCount == 0 { NoMessagesNoNotifications(db, c.batchRecordId); }
  }

  lemma DueCandidatesOk(db: Database, p: Policy, cs: seq<Candidate>)
    requires Consistent(db) && ValidPolicy(p) && Retirable(db, p) && DueCandidates(db, p.siteId, p.cutoff, cs)
    ensures CandidatesOk(cs, p) && cs != []
    ensures forall c <- cs :: OpenOrphans(db, ChildMessageIds(db, c.batchRecordId)) == {}
  {
    hide Consistent, MessagesIn, ErrorsIn, NotificationsIn, MessageIdsIn, ChildMessageIds, OpenOrphans, Counted, CandidateOk, Due, RowsFit, ValidPolicy;
    TotalsOfStored(db, cs);
    PolicyLimits(p);
    forall i | 0 <= i < |cs|
      ensures CandidateOk(cs[i], p) && OpenOrphans(db, ChildMessageIds(db, cs[i].batchRecordId)) == {}
    {
      assert cs[i] in cs && RecordIds(cs)[i] in AsSet(RecordIds(cs));
      OneDueOk(db, p, cs[i], Due(db, p.siteId, p.cutoff));
    }
  }

  lemma PolicyLimits(p: Policy)
    requires ValidPolicy(p)
    ensures p.maxBatches <= 100 && p.maxMessages <= 10_000
  {
  }

  // ---------- the rows of a due batch

  lemma MessagesPass(db: Database, batch: Text, batches: set<Text>, rows: seq<MessageRow>)
    requires Consistent(db) && batch in batches && RowsFit(db, batches)
    requires MessagesAnswer(db, batch, |ChildMessages(db, batch)| + 1, rows) && Ascending(MessageRowIds(rows))
    ensures |rows| == |ChildMessages(db, batch)| && ChecksOk(MessageChecks(rows, batch)) && MessageIds(rows) == ChildMessageIds(db, batch)
    ensures AsSet(MessageKeys(rows)) == ChildMessageIds(db, batch)
  {
    hide Consistent, IsStrict, IsUtcMillis, Ascending, ChildMessageIds, MessageIdsIn, NotificationsIn, ErrorsIn;
    var checks := MessageChecks(rows, batch);
    assert IdsOf(checks) == MessageRowIds(rows) && KeysOf(checks) == MessageKeys(rows);
    TakeOneMore(MessageRowIds(rows), ChildMessages(db, batch), |ChildMessages(db, batch)|);
    forall i | 0 <= i < |rows|
      ensures checks[i].good
    {
      assert rows[i] in rows && MessageRowIds(rows)[i] in AsSet(MessageRowIds(rows));
      assert rows[i].id in MessagesIn(db, batches);
    }
    MessageKeysDiffer(db, rows);
    ChildKeysListed(db, batch, rows);
  }

  lemma MessageKeysDiffer(db: Database, rows: seq<MessageRow>)
    requires Consistent(db) && NoDuplicates(MessageRowIds(rows)) && forall r <- rows :: r.id in db.messages && db.messages[r.id] == r
    ensures NoDuplicates(MessageKeys(rows))
  {
    forall i, j | 0 <= i < j < |rows|
      ensures rows[i].messageId != rows[j].messageId
    {
      assert rows[i] in rows && rows[j] in rows && MessageRowIds(rows)[i] != MessageRowIds(rows)[j];
    }
  }

  lemma ChildKeysListed(db: Database, batch: Text, rows: seq<MessageRow>)
    requires AsSet(MessageRowIds(rows)) == ChildMessages(db, batch) && forall r <- rows :: r.id in db.messages && db.messages[r.id] == r
    ensures MessageIds(rows) == ChildMessageIds(db, batch) && AsSet(MessageKeys(rows)) == ChildMessageIds(db, batch)
  {
    forall id | id in ChildMessages(db, batch)
      ensures db.messages[id].messageId in MessageIds(rows) && db.messages[id].messageId in AsSet(MessageKeys(rows))
    {
      assert id in AsSet(MessageRowIds(rows));
      var i :| 0 <= i < |rows| && MessageRowIds(rows)[i] == id;
      assert rows[i] in rows && MessageKeys(rows)[i] == rows[i].messageId;
    }
    forall i | 0 <= i < |rows|
      ensures rows[i].messageId in ChildMessageIds(db, batch)
    {
      assert rows[i] in rows && MessageRowIds(rows)[i] in AsSet(MessageRowIds(rows));
    }
  }

  lemma ErrorsPass(db: Database, batch: Text, batches: set<Text>, rows: seq<ErrorRow>)
    requires Consistent(db) && batch in batches && RowsFit(db, batches)
    requires ErrorsAnswer(db, batch, |ChildErrors(db, batch)| + 1, rows) && Ascending(ErrorRowIds(rows))
    ensures |rows| == |ChildErrors(db, batch)| && ChecksOk(ErrorChecks(rows, batch))
  {
    hide Consistent, IsStrict, IsUtcMillis, Ascending, MessageIdsIn, NotificationsIn, MessagesIn;
    var checks := ErrorChecks(rows, batch);
    assert IdsOf(checks) == ErrorRowIds(rows) && KeysOf(checks) == ErrorKeys(rows);
    TakeOneMore(ErrorRowIds(rows), ChildErrors(db, batch), |ChildErrors(db, batch)|);
    forall i | 0 <= i < |rows|
      ensures checks[i].good
    {
      assert rows[i] in rows && ErrorRowIds(rows)[i] in AsSet(ErrorRowIds(rows));
      assert rows[i].id in ErrorsIn(db, batches);
    }
    ErrorKeysDiffer(db, rows);
  }

  lemma ErrorKeysDiffer(db: Database, rows: seq<ErrorRow>)
    requires Consistent(db) && NoDuplicates(ErrorRowIds(rows)) && forall r <- rows :: r.id in db.errors && db.errors[r.id] == r
    ensures NoDuplicates(ErrorKeys(rows))
  {
    forall i, j | 0 <= i < j < |rows|
      ensures rows[i].messageId != rows[j].messageId
    {
      assert rows[i] in rows && rows[j] in rows && ErrorRowIds(rows)[i] != ErrorRowIds(rows)[j];
    }
  }

  lemma NotificationsPass(db: Database, batch: Text, batches: set<Text>, rows: seq<NotificationRow>)
    requires Consistent(db) && batch in batches && RowsFit(db, batches)
    requires NotificationsAnswer(db, batch, |NotificationsOf(db, ChildMessageIds(db, batch))| + 1, rows) && Ascending(NotificationRowIds(rows))
    ensures |rows| == |NotificationsOf(db, ChildMessageIds(db, batch))| && ChecksOk(NotificationChecks(rows, ChildMessageIds(db, batch)))
  {
    hide Consistent, IsStrict, IsUtcMillis, Ascending, ChildMessageIds, MessageIdsIn, NotificationsIn, MessagesIn, ErrorsIn;
    var ids := ChildMessageIds(db, batch);
    var checks := NotificationChecks(rows, ids);
    assert IdsOf(checks) == NotificationRowIds(rows) && KeysOf(checks) == NotificationIds(rows);
    TakeOneMore(NotificationRowIds(rows), NotificationsOf(db, ids), |NotificationsOf(db, ids)|);
    RowsAmong(db, batches, batch);
    forall i | 0 <= i < |rows|
      ensures checks[i].good
    {
      assert rows[i] in rows && NotificationRowIds(rows)[i] in AsSet(NotificationRowIds(rows));
      assert rows[i].id in NotificationsIn(db, batches);
    }
    NotificationKeysDiffer(db, rows);
  }

  lemma NotificationKeysDiffer(db: Database, rows: seq<NotificationRow>)
    requires Consistent(db) && NoDuplicates(NotificationRowIds(rows)) && forall r <- rows :: r.id in db.notifications && db.notifications[r.id] == r
    ensures NoDuplicates(NotificationIds(rows))
  {
    forall i, j | 0 <= i < j < |rows|
      ensures rows[i].notificationId != rows[j].notificationId
    {
      assert rows[i] in rows && rows[j] in rows && NotificationRowIds(rows)[i] != NotificationRowIds(rows)[j];
    }
  }

  /** The queries give a group for a due candidate. */
  lemma DueGroupLoads(d: Delegate, db: Database, c: Candidate, p: Policy, due: set<Text>) returns (g: Group)
    requires Consistent(db) && Answers(d, db) && Counted(db, c) && CandidateOk(c, p) && c.batchRecordId in due && RowsFit(db, due)
    requires OpenOrphans(db, ChildMessageIds(db, c.batchRecordId)) == {}
    ensures GroupLoads(d, c, p, g)
  {
    hide Consistent, MessagesAnswer, ErrorsAnswer, NotificationsAnswer, ChecksOk, Ascending, RowsFit, ChildMessages, ChildErrors, ChildMessageIds, NotificationsOf,
         OpenOrphans, IsStrict, IsUtcMillis, Less, AsSet;
    var id := c.batchRecordId;
    var messages := d.findMessages(id, c.messageCount + 1).value;
    var errors := d.findErrors(id, c.errorCount + 1).value;
    MessagesPass(db, id, due, messages);
    ErrorsPass(db, id, due, errors);
    ParentPasses(db, c, p, due);
    if c.messageCount > 0 {
      var notifications := d.findNotifications(id, c.notificationCount + 1).value;
      NotificationsPass(db, id, due, notifications);
      g := Group(db.batches[id], messages, errors, notifications);
    } else {
      g := Group(db.batches[id], messages, errors, []);
      NothingToCheck(MessageIds(messages));
    }
  }

  lemma NothingToCheck(messageIds: set<Text>)
    ensures ChecksOk(NotificationChecks([], messageIds))
  {
  }

  lemma ParentPasses(db: Database, c: Candidate, p: Policy, due: set<Text>)
    requires Consistent(db) && Counted(db, c) && CandidateOk(c, p) && c.batchRecordId in due && RowsFit(db, due)
    ensures ParentMatches(c, p, db.batches[c.batchRecordId]) && FoundBatch(db, c.batchRecordId, c.siteId) == Some(db.batches[c.batchRecordId])
  {
    hide IsUtcMillis, IsStrict, Less;
  }

  // ---------- the whole run

  /** The manifest's view of a stored batch. */
  function CandidateOf(g: Group): Candidate {
    Candidate(g.parent.siteId, g.parent.id, g.parent.batchId, g.parent.created, |g.messages|, |g.notifications|, |g.errors|, 0, true)
  }

  function CandidatesOf(groups: seq<Group>): seq<Candidate> { seq(|groups|, i requires 0 <= i < |groups| => CandidateOf(groups[i])) }

  /** The due batches in the order of publication, each with all its rows in the order of their ids. */
  ghost predicate Listed(db: Database, p: Policy, groups: seq<Group>) {
    && (forall i :: 0 <= i < |groups| ==> && GroupStored(db, groups[i]) && Ascending(MessageRowIds(groups[i].messages))
                                          && Ascending(ErrorRowIds(groups[i].errors)) && Ascending(NotificationRowIds(groups[i].notifications)))
    && DifferentBatches(groups) && AsSet(ParentIds(groups)) == Due(db, p.siteId, p.cutoff)
    && Sorted(CandidateBefore, CandidatesOf(groups))
  }

  /** The groups of due candidates. */
  lemma {:induction false} DueGroupsLoad(d: Delegate, db: Database, cs: seq<Candidate>, p: Policy, due: set<Text>) returns (groups: seq<Group>)
    requires Consistent(db) && Answers(d, db) && RowsFit(db, due)
    requires forall c <- cs :: Counted(db, c) && CandidateOk(c, p) && c.batchRecordId in due && OpenOrphans(db, ChildMessageIds(db, c.batchRecordId)) == {}
    ensures |groups| == |cs| && forall i :: 0 <= i < |cs| ==> GroupLoads(d, cs[i], p, groups[i])
  {
    hide Consistent, Answers, RowsFit, Counted, CandidateOk, OpenOrphans, ChildMessageIds, GroupLoads;
    groups := [];
    while |groups| < |cs|
      invariant |groups| <= |cs| && forall i :: 0 <= i < |groups| ==> GroupLoads(d, cs[i], p, groups[i])
    {
      assert cs[|groups|] in cs;
      var g := DueGroupLoads(d, db, cs[|groups|], p, due);
      groups := groups + [g];
    }
  }

  /** What a loaded group says about its candidate. */
  lemma LoadedCandidate(d: Delegate, db: Database, c: Candidate, p: Policy, g: Group)
    requires Faithful(d, db) && CandidateOk(c, p) && GroupLoads(d, c, p, g)
    ensures c == CandidateOf(g) && GroupStored(db, g) && UniqueInGroup(g)
    ensures Ascending(MessageRowIds(g.messages)) && Ascending(ErrorRowIds(g.errors)) && Ascending(NotificationRowIds(g.notifications))
  {
    hide Faithful, Answered, OrphansOk, ChecksOk, GroupStored, Ascending, UniqueInGroup, IsStrict, IsUtcMillis, Less, StrictBatch;
    LoadedGroupStored(d, db, c, p, g);
    MatchingGroupOk(c, p, g);
    RowsAscend(c, p, g);
  }

  lemma LoadedCandidatesAre(d: Delegate, db: Database, cs: seq<Candidate>, p: Policy, groups: seq<Group>)
    requires Faithful(d, db) && CandidatesGood(cs, p) && |groups| == |cs| && forall i :: 0 <= i < |cs| ==> GroupLoads(d, cs[i], p, groups[i])
    ensures cs == CandidatesOf(groups) && DifferentBatches(groups) && RecordIds(cs) == ParentIds(groups)
    ensures forall i :: 0 <= i < |groups| ==> GroupStored(db, groups[i]) && UniqueInGroup(groups[i])
    ensures forall i :: 0 <= i < |groups| ==> && Ascending(MessageRowIds(groups[i].messages))
                                              && Ascending(ErrorRowIds(groups[i].errors)) && Ascending(NotificationRowIds(groups[i].notifications))
  {
    hide Faithful, CandidateOk, GroupLoads, GroupStored, UniqueInGroup, Ascending;
    forall i | 0 <= i < |cs|
      ensures cs[i] == CandidateOf(groups[i]) && GroupStored(db, groups[i]) && UniqueInGroup(groups[i])
      ensures Ascending(MessageRowIds(groups[i].messages)) && Ascending(ErrorRowIds(groups[i].errors)) && Ascending(NotificationRowIds(groups[i].notifications))
    {
      LoadedCandidate(d, db, cs[i], p, groups[i]);
    }
    forall i, j | 0 <= i < j < |groups|
      ensures groups[i].parent.id != groups[j].parent.id
    {
      assert RecordIds(cs)[i] != RecordIds(cs)[j];
    }
  }

  /** Due batches load, as candidates and as groups. */
  lemma DueBatchesLoad(q: CandidateQueries, d: Delegate, db: Database, input: PolicyInput) returns (cs: seq<Candidate>, groups: seq<Group>)
    requires Consistent(db) && Truthful(q, db) && NeverThrows(q) && Answers(d, db)
    requires ParsePolicy(input).Some? && !input.apply && Retirable(db, ParsePolicy(input).value)
    ensures cs != [] && LoadsCandidates(q, input, cs) && Sorted(CandidateBefore, cs) && LoadsAs(d, AsInput(ParsePolicy(input).value), cs, groups)
    ensures cs == CandidatesOf(groups) && Listed(db, ParsePolicy(input).value, groups)
  {
    hide Consistent, Truthful, NeverThrows, Faithful, Loadable, Sort, Sorted, CandidateBefore, LoadsCandidates, Counted, CandidateOk, GroupLoads, RowsFit, MessagesIn, ErrorsIn,
         NotificationsIn, MessageIdsIn, ChildMessageIds, OpenOrphans, GroupStored, UniqueInGroup, Ascending, DifferentBatches, UniqueRows, Flatten, ValidPolicy, ParsePolicy, Due;
    ParsePolicyAgain(input);
    var p := ParsePolicy(input).value;
    var due := Due(db, p.siteId, p.cutoff);
    SiteOfPolicy(input);
    DueAreLoadable(q, db, p);
    cs := LoadablesLoad(q, input);
    LoadedCandidatesAreDue(q, db, input, cs);
    DueCandidatesOk(db, p, cs);
    forall c | c in cs
      ensures CandidateOk(c, p) && c.batchRecordId in due
    {
      var i :| 0 <= i < |cs| && cs[i] == c;
      assert RecordIds(cs)[i] in AsSet(RecordIds(cs));
    }
    groups := DueGroupsLoad(d, db, cs, p, due);
    LoadedCandidatesAre(d, db, cs, p, groups);
    GroupsListBatches(db, groups);
    SortedStay(cs);
    assert p == p.(dryRun := true);
  }

  lemma SiteOfPolicy(input: PolicyInput)
    requires ParsePolicy(input).Some?
    ensures var p := ParsePolicy(input).value; p.siteId == input.siteId && p.cutoff == input.cutoff
  {
  }

  lemma {:induction false} SortedStay(cs: seq<Candidate>)
    requires Sorted(CandidateBefore, cs)
    ensures Sort(CandidateBefore, cs) == cs
  {
    hide CandidateBefore;
    SortOfSorted(CandidateBefore, cs);
  }

  // ---------- exactly when a run succeeds

  ghost predicate StoredRow(db: Database, row: Row) {
    match row
    case Batch(r) => r.id in db.batches && db.batches[r.id] == r
    case Message(r) => r.id in db.messages && db.messages[r.id] == r
    case Failed(r) => r.id in db.errors && db.errors[r.id] == r
    case Notification(r) => r.id in db.notifications && db.notifications[r.id] == r
  }

  lemma {:induction false} RecordsAreStored(db: Database, groups: seq<Group>)
    requires forall i :: 0 <= i < |groups| ==> GroupStored(db, groups[i])
    ensures forall r <- Flatten(groups) :: StoredRow(db, r.row)
  {
    hide StoredRow, GroupStored, GroupRecords;
    if groups != [] {
      var n := |groups| - 1;
      RecordsAreStored(db, groups[..n]);
      GroupRowsAreStored(db, n, groups[n]);
    }
  }

  lemma GroupRowsAreStored(db: Database, k: int, g: Group)
    requires GroupStored(db, g)
    ensures forall r <- GroupRecords(k, g) :: StoredRow(db, r.row)
  {
  }

  /** The records of the due batches are valid exactly when the tables' rows are. */
  lemma {:induction false} FitExactly(db: Database, groups: seq<Group>)
    requires Consistent(db) && DifferentBatches(groups) && forall i :: 0 <= i < |groups| ==> GroupStored(db, groups[i]) && UniqueInGroup(groups[i])
    ensures RowsFit(db, AsSet(ParentIds(groups))) <==> forall r <- Flatten(groups) :: ValidRow(r.row)
  {
    hide Consistent, GroupStored, UniqueInGroup, DifferentBatches, Flatten, AsSet, ParentIds, UniqueRows, MessagesIn, ErrorsIn, NotificationsIn,
         ValidBatch, ValidMessage, ValidError, ValidNotification;
    var due, records := AsSet(ParentIds(groups)), Flatten(groups);
    RecordsAreStored(db, groups);
    GroupsListBatches(db, groups);
    assert Ids(records, BatchKind) == due && Ids(records, MessageKind) == MessagesIn(db, due);
    assert Ids(records, ErrorKind) == ErrorsIn(db, due) && Ids(records, NotificationKind) == NotificationsIn(db, due);
    if RowsFit(db, due) {
      forall r | r in records
        ensures ValidRow(r.row)
      {
        assert StoredRow(db, r.row) && RowId(r.row) in Ids(records, KindOfRow(r.row));
      }
    }
    if forall r <- records :: ValidRow(r.row) {
      forall kind, id | id in Ids(records, kind)
        ensures exists r <- records :: KindOfRow(r.row) == kind && RowId(r.row) == id && StoredRow(db, r.row) && ValidRow(r.row)
      {
      }
    }
  }

  lemma OrphansApart(db: Database, groups: seq<Group>)
    requires forall i :: 0 <= i < |groups| ==> GroupStored(db, groups[i])
    requires forall i :: 0 <= i < |groups| && groups[i].messages != [] ==> OpenOrphans(db, AsSet(MessageKeys(groups[i].messages))) == {}
    ensures OpenOrphans(db, MessageIdsIn(db, AsSet(ParentIds(groups)))) == {}
  {
    hide GroupStored, MessageKeys;
    forall o | o in db.orphans && db.orphans[o].reconciledAt == None
      ensures db.orphans[o].messageId !in MessageIdsIn(db, AsSet(ParentIds(groups)))
    {
      forall id | id in MessagesIn(db, AsSet(ParentIds(groups)))
        ensures db.messages[id].messageId != db.orphans[o].messageId
      {
        var i :| 0 <= i < |groups| && ParentIds(groups)[i] == db.messages[id].newsletterBatchId;
        MessageListed(db, groups[i], id);
        assert o in OpenOrphans(db, AsSet(MessageKeys(groups[i].messages))) <==> db.orphans[o].messageId in AsSet(MessageKeys(groups[i].messages));
      }
    }
  }

  lemma MessageListed(db: Database, g: Group, id: Text)
    requires GroupStored(db, g) && id in db.messages && db.messages[id].newsletterBatchId == g.parent.id
    ensures db.messages[id].messageId in AsSet(MessageKeys(g.messages)) && g.messages != []
  {
    KeysAreChildIds(db, g);
    assert id in ChildMessages(db, g.parent.id);
    NoKeys(g.messages);
  }

  /** The due batches are listed in one way only. */
  lemma ListedOnce(db: Database, p: Policy, a: seq<Group>, b: seq<Group>)
    requires Listed(db, p, a) && Listed(db, p, b)
    ensures a == b
  {
    hide GroupStored, Ascending, Due, CandidateBefore, Sorted;
    ListedCandidates(db, p, a);
    ListedCandidates(db, p, b);
    SameCandidates(db, p, a, b);
    SameCandidates(db, p, b, a);
    SameMultiset(CandidatesOf(a), CandidatesOf(b));
    IdsSeparate(CandidatesOf(a));
    SortedUnique(CandidateBefore, CandidatesOf(a), CandidatesOf(b));
    assert |a| == |CandidatesOf(a)| == |b|;
    forall i | 0 <= i < |a|
      ensures a[i] == b[i]
    {
      assert CandidatesOf(a)[i] == CandidatesOf(b)[i];
      SameGroup(db, a[i], b[i]);
    }
  }

  lemma ListedCandidates(db: Database, p: Policy, groups: seq<Group>)
    requires Listed(db, p, groups)
    ensures NoDuplicates(CandidatesOf(groups)) && NoDuplicates(RecordIds(CandidatesOf(groups)))
  {
    hide GroupStored, Ascending, Due, CandidateBefore, Sorted;
    forall i, j | 0 <= i < j < |groups|
      ensures CandidatesOf(groups)[i].batchRecordId != CandidatesOf(groups)[j].batchRecordId
    {
      assert groups[i].parent.id != groups[j].parent.id;
    }
  }

  lemma SameGroup(db: Database, g: Group, h: Group)
    requires GroupStored(db, g) && GroupStored(db, h) && g.parent.id == h.parent.id
    requires Ascending(MessageRowIds(g.messages)) && Ascending(ErrorRowIds(g.errors)) && Ascending(NotificationRowIds(g.notifications))
    requires Ascending(MessageRowIds(h.messages)) && Ascending(ErrorRowIds(h.errors)) && Ascending(NotificationRowIds(h.notifications))
    ensures g == h
  {
    hide Ascending, AsSet, ChildMessages, ChildErrors, ChildMessageIds, NotificationsOf;
    AscendingListing(MessageRowIds(g.messages), MessageRowIds(h.messages));
    AscendingListing(ErrorRowIds(g.errors), ErrorRowIds(h.errors));
    AscendingListing(NotificationRowIds(g.notifications), NotificationRowIds(h.notifications));
    assert |g.messages| == |MessageRowIds(g.messages)| == |h.messages|;
    forall i | 0 <= i < |g.messages|
      ensures g.messages[i] == h.messages[i]
    {
      assert g.messages[i] in g.messages && h.messages[i] in h.messages && MessageRowIds(g.messages)[i] == MessageRowIds(h.messages)[i];
    }
    assert |g.errors| == |ErrorRowIds(g.errors)| == |h.errors|;
    forall i | 0 <= i < |g.errors|
      ensures g.errors[i] == h.errors[i]
    {
      assert g.errors[i] in g.errors && h.errors[i] in h.errors && ErrorRowIds(g.errors)[i] == ErrorRowIds(h.errors)[i];
    }
    assert |g.notifications| == |NotificationRowIds(g.notifications)| == |h.notifications|;
    forall i | 0 <= i < |g.notifications|
      ensures g.notifications[i] == h.notifications[i]
    {
      assert g.notifications[i] in g.notifications && h.notifications[i] in h.notifications
          && NotificationRowIds(g.notifications)[i] == NotificationRowIds(h.notifications)[i];
    }
  }

  lemma SameCandidates(db: Database, p: Policy, a: seq<Group>, b: seq<Group>)
    requires Listed(db, p, a) && Listed(db, p, b)
    ensures forall c :: c in CandidatesOf(a) ==> c in CandidatesOf(b)
  {
    hide GroupStored, Ascending, Due, CandidateBefore, Sorted, DifferentBatches;
    forall i | 0 <= i < |a|
      ensures CandidatesOf(a)[i] in CandidatesOf(b)
    {
      assert ParentIds(a)[i] in AsSet(ParentIds(a));
      var j :| 0 <= j < |b| && ParentIds(b)[j] == ParentIds(a)[i];
      SameGroup(db, a[i], b[j]);
      assert CandidatesOf(b)[j] == CandidatesOf(a)[i];
    }
  }

  lemma IdsSeparate(cs: seq<Candidate>)
    requires NoDuplicates(RecordIds(cs))
    ensures Separates(CandidateBefore, cs)
  {
    hide CandidateBefore;
    forall x, y | x in cs && y in cs && x != y
      ensures CandidateBefore(x, y) || CandidateBefore(y, x)
    {
      var i :| 0 <= i < |cs| && cs[i] == x;
      var j :| 0 <= j < |cs| && cs[j] == y;
      assert RecordIds(cs)[i] == x.batchRecordId && RecordIds(cs)[j] == y.batchRecordId;
      CandidateOrder(x, y, x);
    }
  }

  /** The escrow of these groups keeps the byte limits. */
  ghost predicate FileFits(p: Policy, groups: seq<Group>, schemaFingerprint: Text, digest: Digest) {
    BytesOk(RawsOf(FileLines(HeaderFor(p, IssuedManifest(p, CandidatesOf(groups), digest), schemaFingerprint), Flatten(groups), digest)), HARD_LIMITS)
  }

  /** These are the due batches, they can be retired, and their escrow can be written. */
  ghost predicate Retires(db: Database, input: PolicyInput, groups: seq<Group>, schemaFingerprint: Text, capacity: nat, digest: Digest) {
    && ParsePolicy(input).Some?
    && var p := ParsePolicy(input).value;
       Retirable(db, p) && Listed(db, p, groups) && FileFits(p, groups, schemaFingerprint, digest) && |Flatten(groups)| + 2 <= capacity
  }

  /** Nothing but this stands in the way of a run: it exists if the due batches can be retired. */
  lemma RetirableRuns(q: CandidateQueries, d: Delegate, db: Database, input: PolicyInput, e: Evidence, groups: seq<Group>, schemaFingerprint: Text, capacity: nat,
                      digest: Digest)
    requires Consistent(db) && Truthful(q, db) && NeverThrows(q) && Answers(d, db)
    requires !input.apply && EvidenceOk(e) && IsHash(schemaFingerprint) && forall t :: IsHash(digest(t))
    requires Retires(db, input, groups, schemaFingerprint, capacity, digest)
    ensures !NothingFits(q, input, e, d, schemaFingerprint, capacity, digest)
  {
    hide Consistent, Truthful, NeverThrows, Answers, Retirable, Listed, LoadsCandidates, Coordinated, LoadsAs, Sorted, CandidateBefore, BytesOk, FileLines, RawsOf, Flatten,
         IssuedManifest, HeaderFor, EvidenceOk, IsHash, DatesOk, ParsePolicy, CandidatesOf;
    var p := ParsePolicy(input).value;
    var cs, own := DueBatchesLoad(q, d, db, input);
    ListedOnce(db, p, groups, own);
    DatesFit(d, db, p, own);
    DryRunExactly(input, e, cs, d, schemaFingerprint, groups, digest);
  }

  lemma {:induction false} DatesFit(d: Delegate, db: Database, p: Policy, groups: seq<Group>)
    requires Consistent(db) && Answers(d, db) && Retirable(db, p) && Listed(db, p, groups)
    ensures DatesOk(Flatten(groups))
  {
    hide Consistent, Answers, RowsFit, GroupStored, Ascending, Due, CandidateBefore, Sorted, DifferentBatches, Flatten, MessagesIn, ErrorsIn, NotificationsIn, MessageIdsIn,
         OpenOrphans, ParentIds, UniqueInGroup, RowDatesOk, StrictRow, ValidRow;
    forall i | 0 <= i < |groups|
      ensures UniqueInGroup(groups[i])
    {
      StoredIsUnique(db, groups[i]);
    }
    FitExactly(db, groups);
    forall i | 0 <= i < |Flatten(groups)|
      ensures RowDatesOk(Flatten(groups)[i].row)
    {
      assert Flatten(groups)[i] in Flatten(groups);
      ValidIsStrictAndDated(Flatten(groups)[i].row);
    }
  }

  lemma StoredIsUnique(db: Database, g: Group)
    requires Consistent(db) && GroupStored(db, g)
    requires Ascending(MessageRowIds(g.messages)) && Ascending(ErrorRowIds(g.errors)) && Ascending(NotificationRowIds(g.notifications))
    ensures UniqueInGroup(g)
  {
    hide Consistent, Ascending, NoDuplicates, AsSet, ChildMessages, ChildErrors, ChildMessageIds, NotificationsOf;
    AscendingUnique(MessageRowIds(g.messages));
    AscendingUnique(ErrorRowIds(g.errors));
    AscendingUnique(NotificationRowIds(g.notifications));
    MessageKeysDiffer(db, g.messages);
    ErrorKeysDiffer(db, g.errors);
    NotificationKeysDiffer(db, g.notifications);
  }

  /** And a run shows that they could be retired. */
  lemma RunRetires(q: CandidateQueries, d: Delegate, db: Database, input: PolicyInput, e: Evidence, cs: seq<Candidate>, schemaFingerprint: Text, r: DryRunResult,
                   groups: seq<Group>, digest: Digest)
    requires Consistent(db) && Truthful(q, db) && Faithful(d, db) && IsHash(schemaFingerprint) && (forall t :: IsHash(digest(t))) && EvidenceOk(e) && !input.apply
    requires cs != [] && LoadsCandidates(q, input, cs) && Coordinated(input, e, cs, d, schemaFingerprint, r, groups, digest)
    ensures ParsePolicy(input).Some?
    ensures var p := ParsePolicy(input).value; Retirable(db, p) && Listed(db, p, groups) && FileFits(p, groups, schemaFingerprint, digest)
  {
    hide Consistent, Truthful, Faithful, LoadsCandidates, Coordinated, Snapshot, Sorted, CandidateBefore, BytesOk, FileLines, RawsOf, Flatten, IssuedManifest, HeaderFor,
         IsHash, DatesOk, ParsePolicy, Counted, CandidateOk, AllValid, ValidPolicy, EvidenceOk, RowsFit, MessagesIn, ErrorsIn, NotificationsIn, MessageIdsIn, OpenOrphans,
         GroupStored, Ascending, DifferentBatches, UniqueInGroup, Due, LoadsAs;
    LoadedCandidatesAreDue(q, db, input, cs);
    CoordinatedLoads(input, e, cs, d, schemaFingerprint, r, groups, digest);
    var p := ParsePolicy(input).value;
    SiteOfPolicy(input);
    SnapshotGroups(d, cs, groups, p);
    LoadedCandidatesAre(d, db, cs, p, groups);
    TotalsOfStored(db, cs);
    AllRowsValid(HeaderFor(p, r.manifest, schemaFingerprint), groups);
    FitExactly(db, groups);
    NoOpenOrphansAtAll(d, db, cs, groups, p);
    CoordinatedSnapshot(input, e, cs, d, schemaFingerprint, r, groups, digest);
    DryRunExactly(input, e, cs, d, schemaFingerprint, groups, digest);
  }

  lemma SnapshotGroups(d: Delegate, cs: seq<Candidate>, groups: seq<Group>, p: Policy)
    requires Snapshot(d, cs, groups, p)
    ensures |groups| == |cs| && forall i :: 0 <= i < |cs| ==> GroupLoads(d, cs[i], p, groups[i])
  {
  }

  lemma {:induction false} AllRowsValid(h: Header, groups: seq<Group>)
    requires AllValid(h, Flatten(groups))
    ensures forall r <- Flatten(groups) :: ValidRow(r.row)
  {
    hide ValidRow, ValidHeader, Flatten;
  }

  lemma NoOpenOrphansAtAll(d: Delegate, db: Database, cs: seq<Candidate>, groups: seq<Group>, p: Policy)
    requires Faithful(d, db) && CandidatesOk(cs, p) && Snapshot(d, cs, groups, p)
    ensures OpenOrphans(db, MessageIdsIn(db, AsSet(ParentIds(groups)))) == {}
  {
    hide Faithful, GroupStored, CandidateOk, OpenOrphans, MessageKeys, MessageIdsIn, ParentIds, DifferentBatches, GroupLoads, UniqueRows, Flatten, RecordIds, ChecksOk, ParentMatches;
    DryRunStored(d, db, cs, groups, p);
    OrphansApart(db, groups);
  }

  lemma {:induction false} CoordinatedSnapshot(input: PolicyInput, e: Evidence, cs: seq<Candidate>, d: Delegate, schemaFingerprint: Text, r: DryRunResult,
                                               groups: seq<Group>, digest: Digest)
    requires Coordinated(input, e, cs, d, schemaFingerprint, r, groups, digest)
    ensures ParsePolicy(input).Some? && LoadsAs(d, AsInput(ParsePolicy(input).value), cs, groups)
  {
    hide LoadsAs, Writable, BuildPlan, BuildManifest, ParsePolicy, ResultFor, EscrowMatchesPlan;
  }

  /** The manifest publishes each batch with the numbers of its rows, and the plan's totals are those
      of the tables. */
  ghost predicate OutputTells(r: DryRunResult, input: PolicyInput, db: Database, groups: seq<Group>) {
    var due := Due(db, input.siteId, input.cutoff);
    && r.manifest.siteId == r.plan.siteId == input.siteId && r.manifest.cutoff == r.plan.cutoff == input.cutoff && r.manifest.policyVersion == 1
    && |r.manifest.batches| == |groups| && r.plan.batches == r.manifest.batches
    && (forall i :: 0 <= i < |groups| ==>
          && r.manifest.batches[i].batchId == groups[i].parent.batchId && r.manifest.batches[i].createdAt == groups[i].parent.created
          && r.manifest.batches[i].messageCount == |groups[i].messages| && r.manifest.batches[i].errorCount == |groups[i].errors|
          && r.manifest.batches[i].notificationCount == |groups[i].notifications|)
    && r.plan.totals.batches == |due| && r.plan.totals.messages == |MessagesIn(db, due)|
    && r.plan.totals.errors == |ErrorsIn(db, due)| && r.plan.totals.notifications == |NotificationsIn(db, due)|
  }

  lemma IssuedOutputTells(q: CandidateQueries, d: Delegate, db: Database, input: PolicyInput, e: Evidence, cs: seq<Candidate>, schemaFingerprint: Text,
                          r: DryRunResult, groups: seq<Group>, digest: Digest)
    requires Consistent(db) && Truthful(q, db) && Faithful(d, db)
    requires LoadsCandidates(q, input, cs) && Coordinated(input, e, cs, d, schemaFingerprint, r, groups, digest)
    ensures OutputTells(r, input, db, groups)
  {
    hide Consistent, Truthful, Faithful, LoadsCandidates, Coordinated, Snapshot, Sorted, CandidateBefore, ParsePolicy, Counted, AllValid, ValidPolicy, CandidatesOk, PublicBatchOk,
         MessagesIn, ErrorsIn, NotificationsIn, GroupStored, Ascending, DifferentBatches, UniqueInGroup, Due, LoadsAs, TotalCounts, Sort;
    LoadedCandidatesAreDue(q, db, input, cs);
    CoordinatedLoads(input, e, cs, d, schemaFingerprint, r, groups, digest);
    SortsAgree(input, e, cs, d, schemaFingerprint, r, groups, digest);
    var p := ParsePolicy(input).value;
    SnapshotGroups(d, cs, groups, p);
    LoadableIsGood(cs, p);
    LoadedCandidatesAre(d, db, cs, p, groups);
    TotalsOfStored(db, cs);
  }

  lemma LoadableIsGood(cs: seq<Candidate>, p: Policy)
    requires CandidatesOk(cs, p)
    ensures CandidatesGood(cs, p)
  {
  }

  /** A dry run on a database that nobody else writes to, with queries that answer: it puts out an
      escrow and an artifact exactly when there are due batches and they can be retired. */
  method DryRunOnDatabase(input: PolicyInput, e: Evidence, q: CandidateQueries, d: Delegate, schemaFingerprint: Text,
                          sink: Sink, locks: HeldLocks, ghost db: Database, digest: Digest)
    returns (output: Option<DryRunOutput>, ghost groups: seq<Group>)
    requires (forall t :: IsHash(digest(t))) && IsHash(schemaFingerprint) && sink.chunks == []
    requires Consistent(db) && Truthful(q, db) && NeverThrows(q) && Answers(d, db)
    requires !input.apply && EvidenceOk(e) && input.siteId !in locks.tokens
    modifies sink, locks
    ensures locks.tokens == old(locks.tokens)
    ensures output.Some? <==> exists gs :: Retires(db, input, gs, schemaFingerprint, sink.capacity, digest)
    ensures output.Some? ==> Retires(db, input, groups, schemaFingerprint, sink.capacity, digest) && BindsGroups(output.value, groups)
    ensures output.Some? ==> AcceptedByApply(input, output.value, digest) && OutputTells(output.value.result, input, db, groups)
  {
    hide *;
    ghost var cs;
    output, cs, groups := ExecuteDryRun(input, e, q, d, schemaFingerprint, sink, locks, digest);
    AnswersAreFaithful(d, db);
    if output.Some? {
      IssuedRuns(q, input, e, d, schemaFingerprint, output.value, cs, groups, sink.chunks, digest);
      RunRetires(q, d, db, input, e, cs, schemaFingerprint, output.value.result, groups, digest);
      IssuedOutputTells(q, d, db, input, e, cs, schemaFingerprint, output.value.result, groups, digest);
      RetiresNow(db, input, groups, schemaFingerprint, sink.capacity, digest);
    } else if gs :| Retires(db, input, gs, schemaFingerprint, sink.capacity, digest) {
      RetirableRuns(q, d, db, input, e, gs, schemaFingerprint, sink.capacity, digest);
      assert false;
    }
  }

  lemma AnswersAreFaithful(d: Delegate, db: Database)
    requires Answers(d, db)
    ensures Faithful(d, db)
  {
  }

  lemma {:induction false} IssuedRuns(q: CandidateQueries, input: PolicyInput, e: Evidence, d: Delegate, schemaFingerprint: Text, output: DryRunOutput,
                                      cs: seq<Candidate>, groups: seq<Group>, chunks: seq<Bytes>, digest: Digest)
    requires Issued(q, input, e, d, schemaFingerprint, output, cs, groups, chunks, digest)
    ensures cs != [] && LoadsCandidates(q, input, cs) && Coordinated(input, e, cs, d, schemaFingerprint, output.result, groups, digest)
  {
    hide LoadsCandidates, Coordinated, ChunksOf, FileLines, ArtifactFor;
  }

  lemma {:induction false} RetiresNow(db: Database, input: PolicyInput, groups: seq<Group>, schemaFingerprint: Text, capacity: nat, digest: Digest)
    requires ParsePolicy(input).Some? && |Flatten(groups)| + 2 <= capacity
    requires var p := ParsePolicy(input).value; Retirable(db, p) && Listed(db, p, groups) && FileFits(p, groups, schemaFingerprint, digest)
    ensures Retires(db, input, groups, schemaFingerprint, capacity, digest)
  {
  }

  /** Dry run and apply run together: exactly when the due batches can be retired, the database
      loses them with all their rows, and nothing else, and the receipt counts them. */
  method RetireDueBatches(input: PolicyInput, e: Evidence, later: Evidence, q: CandidateQueries, d: Delegate, schemaFingerprint: Text,
                          sink: Sink, locks: HeldLocks, lock: ApplyLock, store: Store, queries: Queries, digest: Digest)
    returns (output: Option<DryRunOutput>, outcome: ApplyOutcome, ghost groups: seq<Group>)
    requires (forall t :: IsHash(digest(t))) && IsHash(schemaFingerprint) && sink.chunks == []
    requires !input.apply && EvidenceOk(e) && EvidenceOk(later) && input.siteId !in locks.tokens && lock.answer.Granted? && !lock.releaseThrows
    requires Consistent(store.db) && Truthful(q, store.db) && NeverThrows(q) && Answers(d, store.db)
    requires forall i, base :: Consistent(base) ==> Answers(queries(i, base), base)
    modifies sink, locks, lock`acquired, lock`released, store
    ensures output.Some? <==> exists gs :: Retires(old(store.db), input, gs, schemaFingerprint, sink.capacity, digest)
    ensures output.Some? ==> outcome.Completed? && store.db == WithoutBatches(old(store.db), Due(old(store.db), input.siteId, input.cutoff))
    ensures output.Some? ==> Retires(old(store.db), input, groups, schemaFingerprint, sink.capacity, digest)
    ensures output.Some? ==> OutputTells(output.value.result, input, old(store.db), groups)
    ensures output.Some? ==>
            ReceiptTells(outcome.receipt, input, output.value.result.manifest, output.value.artifact, output.value.result.escrow, groups)
    ensures output.None? ==> outcome.Refused? && store.db == old(store.db)
  {
    hide *;
    ghost var db, cs := store.db, [];
    AnswersAreFaithful(d, db);
    output, outcome, cs, groups := DryRunThenApply(input, e, later, q, d, schemaFingerprint, sink, locks, lock, store, queries, digest);
    if output.Some? {
      IssuedRuns(q, input, e, d, schemaFingerprint, output.value, cs, groups, sink.chunks, digest);
      RunRetires(q, d, db, input, e, cs, schemaFingerprint, output.value.result, groups, digest);
      IssuedOutputTells(q, d, db, input, e, cs, schemaFingerprint, output.value.result, groups, digest);
      RetiresNow(db, input, groups, schemaFingerprint, sink.capacity, digest);
      DueAreGone(db, input, groups);
    } else if gs :| Retires(db, input, gs, schemaFingerprint, sink.capacity, digest) {
      RetirableRuns(q, d, db, input, e, gs, schemaFingerprint, sink.capacity, digest);
      assert false;
    }
  }

  lemma {:induction false} DueAreGone(db: Database, input: PolicyInput, groups: seq<Group>)
    requires Consistent(db) && ParsePolicy(input).Some? && Listed(db, ParsePolicy(input).value, groups)
    ensures Minus(db, Flatten(groups)) == WithoutBatches(db, Due(db, input.siteId, input.cutoff))
  {
    hide Consistent, GroupStored, Ascending, Due, CandidateBefore, Sorted, DifferentBatches, Flatten, Minus, WithoutBatches, ParsePolicy, UniqueInGroup;
    SiteOfPolicy(input);
    forall i | 0 <= i < |groups|
      ensures UniqueInGroup(groups[i])
    {
      StoredIsUnique(db, groups[i]);
    }
    MinusIsWithout(db, groups);
  }

  /** Afterwards nothing is due, and what stays is what did not belong to a due batch. */
  lemma {:induction false} NothingDueAfter(db: Database, siteId: Text, cutoff: Text)
    ensures var after := WithoutBatches(db, Due(db, siteId, cutoff));
            && Due(after, siteId, cutoff) == {} && after.orphans == db.orphans
            && (forall id <- db.batches :: id in after.batches <==> db.batches[id].siteId != siteId || !Less(db.batches[id].created, cutoff))
            && (forall id <- after.batches :: after.batches[id] == db.batches[id])
  {
  }
}
