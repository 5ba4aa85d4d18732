/** The record stream of the escrow loader, and why the verifier takes everything it yields. */
module EscrowStream {
  import opened Utf16
  import opened Options
  import opened StableSort
  import opened EscrowRecords
  import opened EscrowGroups
  import opened EscrowStages
  import opened EscrowAccumulator
  import opened EscrowWriter
  import opened RetentionPolicy
  import opened EscrowLoader
  import opened SnapshotKeys

  // ---------- what the queries must answer

  /** The rows of `g` are what the queries for this candidate return. */
  ghost predicate Answered(d: Delegate, c: Candidate, g: Group) {
    && d.findBatch(c.batchRecordId, c.siteId) == Some(Some(g.parent))
    && d.findMessages(c.batchRecordId, c.messageCount + 1) == Some(g.messages)
    && d.findErrors(c.batchRecordId, c.errorCount + 1) == Some(g.errors)
    && (if c.messageCount > 0 then d.findNotifications(c.batchRecordId, c.notificationCount + 1) == Some(g.notifications) else g.notifications == [])
  }

  predicate ParentMatches(c: Candidate, p: Policy, b: BatchRow) {
    && StrictBatch(b) && b.id == c.batchRecordId && b.siteId == c.siteId && b.batchId == c.batchId
    && b.created == c.createdAt && Less(b.created, p.cutoff)
  }

  /** The rows are well formed, belong together, ascend, and are as many as the candidate says. */
  ghost predicate RowsMatch(c: Candidate, p: Policy, g: Group) {
    && ParentMatches(c, p, g.parent)
    && |g.messages| == c.messageCount && ChecksOk(MessageChecks(g.messages, c.batchRecordId))
    && |g.errors| == c.errorCount && ChecksOk(ErrorChecks(g.errors, c.batchRecordId))
    && |g.notifications| == c.notificationCount && ChecksOk(NotificationChecks(g.notifications, MessageIds(g.messages)))
  }

  ghost predicate OrphansOk(d: Delegate, c: Candidate, g: Group) {
    c.messageCount > 0 ==> d.countOrphans(MessageKeys(g.messages)) == Some(0)
  }

  ghost predicate GroupLoads(d: Delegate, c: Candidate, p: Policy, g: Group) {
    Answered(d, c, g) && RowsMatch(c, p, g) && OrphansOk(d, c, g)
  }

  ghost predicate Snapshot(d: Delegate, cs: seq<Candidate>, groups: seq<Group>, p: Policy) {
    && |groups| == |cs| && (forall k :: 0 <= k < |cs| ==> GroupLoads(d, cs[k], p, groups[k]))
    && UniqueRows(Flatten(groups))
  }

  /** The whole run: policy and candidates are good and every batch is there as expected. */
  ghost predicate LoadsAs(d: Delegate, input: PolicyInput, candidates: seq<Candidate>, groups: seq<Group>) {
    && ParsePolicy(input).Some?
    && CandidatesOk(candidates, ParsePolicy(input).value)
    && Snapshot(d, Sort(CandidateBefore, candidates), groups, ParsePolicy(input).value)
  }

  lemma AscendingUnique(ids: seq<Text>)
    requires Ascending(ids)
    ensures NoDuplicates(ids)
  {
    forall i, j | 0 <= i < j < |ids|
      ensures ids[i] != ids[j]
    {
      LessIrreflexive(ids[j]);
    }
  }

  /** The loader's own checks of a batch imply the verifier's checks of a group. */
  lemma MatchingGroupOk(c: Candidate, p: Policy, g: Group)
    requires CandidateOk(c, p) && RowsMatch(c, p, g)
    ensures GroupOk(g, p.siteId) && UniqueInGroup(g)
  {
    hide StrictMessage, StrictError, StrictNotification, StrictBatch, IsStrict, IsUtcMillis, Less;
    var m, e, n := MessageChecks(g.messages, c.batchRecordId), ErrorChecks(g.errors, c.batchRecordId), NotificationChecks(g.notifications, MessageIds(g.messages));
    assert MessageRowIds(g.messages) == IdsOf(m) && MessageKeys(g.messages) == KeysOf(m);
    assert ErrorRowIds(g.errors) == IdsOf(e) && ErrorKeys(g.errors) == KeysOf(e);
    assert NotificationRowIds(g.notifications) == IdsOf(n) && NotificationIds(g.notifications) == KeysOf(n);
    AscendingUnique(IdsOf(m));
    AscendingUnique(IdsOf(e));
    AscendingUnique(IdsOf(n));
    GoodMessages(m, g.messages, c.batchRecordId);
    GoodErrors(e, g.errors, c.batchRecordId);
    GoodNotifications(n, g.notifications, MessageIds(g.messages));
  }

  lemma GoodMessages(checks: seq<RowCheck>, rows: seq<MessageRow>, batchRecordId: Text)
    requires checks == MessageChecks(rows, batchRecordId) && ChecksOk(checks)
    ensures forall r <- rows :: StrictMessage(r) && r.newsletterBatchId == batchRecordId
  {
    hide StrictMessage;
    forall i | 0 <= i < |rows| ensures StrictMessage(rows[i]) && rows[i].newsletterBatchId == batchRecordId { assert checks[i].good; }
  }

  lemma GoodErrors(checks: seq<RowCheck>, rows: seq<ErrorRow>, batchRecordId: Text)
    requires checks == ErrorChecks(rows, batchRecordId) && ChecksOk(checks)
    ensures forall r <- rows :: StrictError(r) && r.newsletterBatchId == batchRecordId
  {
    hide StrictError;
    forall i | 0 <= i < |rows| ensures StrictError(rows[i]) && rows[i].newsletterBatchId == batchRecordId { assert checks[i].good; }
  }

  lemma GoodNotifications(checks: seq<RowCheck>, rows: seq<NotificationRow>, messageIds: set<Text>)
    requires checks == NotificationChecks(rows, messageIds) && ChecksOk(checks)
    ensures forall r <- rows :: StrictNotification(r) && r.messageId in messageIds
  {
    hide StrictNotification;
    forall i | 0 <= i < |rows| ensures StrictNotification(rows[i]) && rows[i].messageId in messageIds { assert checks[i].good; }
  }

  // ---------- reading one batch

  method LoadBatchRow(d: Delegate, c: Candidate, p: Policy) returns (r: Option<BatchRow>)
    ensures r.Some? <==> exists b :: d.findBatch(c.batchRecordId, c.siteId) == Some(Some(b)) && ParentMatches(c, p, b)
    ensures r.Some? ==> d.findBatch(c.batchRecordId, c.siteId) == Some(Some(r.value)) && ParentMatches(c, p, r.value)
  {
    hide StrictBatch, Less;
    var found := d.findBatch(c.batchRecordId, c.siteId);
    if found.None? || found.value.None? { return None; }
    var b := found.value.value;
    if !StrictBatch(b) || b.id != c.batchRecordId || b.siteId != c.siteId || b.batchId != c.batchId || b.created != c.createdAt
    {
      return None;
    }
    if !Less(b.created, p.cutoff) { return None; }
    r := Some(b);
  }

  /** The queries of one round of the stream, up to the notifications. */
  method LoadGroup(d: Delegate, c: Candidate, p: Policy) returns (r: Option<Group>)
    requires CandidateOk(c, p)
    ensures r.Some? ==> Answered(d, c, r.value) && RowsMatch(c, p, r.value)
    ensures r.None? ==> forall g :: !(Answered(d, c, g) && RowsMatch(c, p, g))
  {
    hide ParentMatches, ChecksOk, IsStrict, IsUtcMillis, Less;
    r := None;
    var parent := LoadBatchRow(d, c, p);
    if parent.None? { return; }
    var messages := d.findMessages(c.batchRecordId, c.messageCount + 1);
    if messages.None? { return; }
    var ok := NormalizeMessageRows(messages.value, c.messageCount, c.batchRecordId);
    if !ok { return; }
    var errors := d.findErrors(c.batchRecordId, c.errorCount + 1);
    if errors.None? { return; }
    ok := NormalizeErrorRows(errors.value, c.errorCount, c.batchRecordId);
    if !ok { return; }
    var notifications: Option<seq<NotificationRow>> := Some([]);
    if c.messageCount > 0 {
      notifications := d.findNotifications(c.batchRecordId, c.notificationCount + 1);
      if notifications.None? { return; }
      ok := NormalizeNotificationRows(notifications.value, c.notificationCount, MessageIds(messages.value));
      if !ok { return; }
    } else {
      NoChecks();
    }
    r := Some(Group(parent.value, messages.value, errors.value, notifications.value));
  }

  lemma NoChecks()
    ensures forall ids :: ChecksOk(NotificationChecks([], ids))
  {
    assert forall ids :: NotificationChecks([], ids) == [];
    assert ChecksOk([]);
  }

  /** `validateOrphanCount`. */
  method ValidateOrphanCount(d: Delegate, messages: seq<MessageRow>) returns (ok: bool)
    ensures ok <==> messages == [] || d.countOrphans(MessageKeys(messages)) == Some(0)
  {
    if messages == [] { return true; }
    var count := d.countOrphans(MessageKeys(messages));
    ok := count.Some? && IsCount(count.value) && count.value == 0;
  }

  // ---------- the stream

  lemma AnswersUnique(d: Delegate, c: Candidate, p: Policy, g: Group)
    requires Answered(d, c, g)
    ensures forall h :: GroupLoads(d, c, p, h) ==> h == g
  {
    hide RowsMatch, OrphansOk;
  }

  lemma SnapshotUnique(d: Delegate, cs: seq<Candidate>, gs: seq<Group>, hs: seq<Group>, p: Policy)
    requires Snapshot(d, cs, gs, p) && Snapshot(d, cs, hs, p)
    ensures gs == hs
  {
    hide RowsMatch, OrphansOk, UniqueRows, Flatten;
    forall k | 0 <= k < |cs|
      ensures gs[k] == hs[k]
    {
      assert GroupLoads(d, cs[k], p, gs[k]) && GroupLoads(d, cs[k], p, hs[k]);
      AnswersUnique(d, cs[k], p, gs[k]);
    }
  }

  lemma {:induction false} UniquePrefix(groups: seq<Group>, n: nat)
    requires n <= |groups| && UniqueRows(Flatten(groups))
    ensures UniqueRows(Flatten(groups[..n]))
    decreases |groups|
  {
    hide UniqueRows, Flatten, Ids, EscrowGroups.Keys, GroupIds, GroupKeys, UniqueInGroup;
    if n == |groups| {
      assert groups[..n] == groups;
    } else {
      assert groups == Init(groups) + [Last(groups)];
      UniqueWithGroup(Init(groups), Last(groups));
      assert Init(groups)[..n] == groups[..n];
      UniquePrefix(Init(groups), n);
    }
  }

  /** A snapshot of all candidates starts with the one of the first of them. */
  lemma SnapshotPrefix(d: Delegate, cs: seq<Candidate>, groups: seq<Group>, n: nat, p: Policy)
    requires n <= |cs| && Snapshot(d, cs, groups, p)
    ensures Snapshot(d, cs[..n], groups[..n], p)
  {
    hide GroupLoads, UniqueRows, Flatten;
    UniquePrefix(groups, n);
  }

  /** What the groups read so far say about any snapshot of all candidates. */
  lemma {:induction false} NextOfSnapshot(d: Delegate, cs: seq<Candidate>, done: seq<Group>, groups: seq<Group>, n: nat, p: Policy)
    requires n < |cs| && Snapshot(d, cs[..n], done, p) && Snapshot(d, cs, groups, p)
    ensures |groups| == |cs| && groups[..n + 1] == done + [groups[n]] && GroupLoads(d, cs[n], p, groups[n]) && UniqueRows(Flatten(done + [groups[n]]))
  {
    hide GroupLoads, UniqueRows, Flatten;
    SnapshotPrefix(d, cs, groups, n, p);
    SnapshotUnique(d, cs[..n], done, groups[..n], p);
    UniquePrefix(groups, n + 1);
    assert groups[..n + 1] == groups[..n] + [groups[n]];
  }

  /** Whatever stops the run in round n, no snapshot exists. */
  lemma {:induction false} NoSnapshot(d: Delegate, cs: seq<Candidate>, done: seq<Group>, n: nat, p: Policy)
    requires n < |cs| && Snapshot(d, cs[..n], done, p)
    requires forall g :: GroupLoads(d, cs[n], p, g) ==> !UniqueRows(Flatten(done + [g]))
    ensures forall groups :: !Snapshot(d, cs, groups, p)
  {
    hide GroupLoads, UniqueRows, Flatten, Snapshot;
    forall groups
      ensures !Snapshot(d, cs, groups, p)
    {
      if Snapshot(d, cs, groups, p) { NextOfSnapshot(d, cs, done, groups, n, p); }
    }
  }

  /** One round: the next group, if it loads and keeps the snapshot unique. */
  method LoadNext(d: Delegate, cs: seq<Candidate>, n: nat, p: Policy, seen: SnapshotUniqueKeys, ghost done: seq<Group>) returns (r: Option<Group>)
    requires n < |cs| && CandidatesGood(cs, p) && Snapshot(d, cs[..n], done, p) && seen.Holds(Flatten(done))
    requires Ids(Flatten(done), BatchKind) == AsSet(RecordIds(cs[..n]))
    modifies seen
    ensures r.Some? ==> Snapshot(d, cs[..n + 1], done + [r.value], p) && seen.Holds(Flatten(done + [r.value]))
    ensures r.Some? ==> GroupOk(r.value, p.siteId) && Ids(Flatten(done + [r.value]), BatchKind) == AsSet(RecordIds(cs[..n + 1]))
    ensures r.None? ==> forall groups :: !Snapshot(d, cs, groups, p)
  {
    hide Answered, RowsMatch, Snapshot, UniqueRows, Flatten, Ids, EscrowGroups.Keys, CandidateOk, CandidatesGood, RecordIds, AsSet;
    CandidateAt(cs, n, p);
    SnapshotUniqueSoFar(d, cs[..n], done, p);
    r := LoadGroup(d, cs[n], p);
    if r.None? {
      NoSnapshot(d, cs, done, n, p);
      return;
    }
    var g := r.value;
    AnswersUnique(d, cs[n], p, g);
    MatchingGroupOk(cs[n], p, g);
    ParentIsNew(cs, n, p, g);
    UniqueWithGroup(done, g);
    SnapshotGrows(d, cs, n, p, done, g);
    var unique := seen.AssertUnique(g, done);
    var orphansOk := true;
    if unique && cs[n].messageCount > 0 { orphansOk := ValidateOrphanCount(d, g.messages); }
    if !unique || !orphansOk {
      NoSnapshot(d, cs, done, n, p);
      return None;
    }
  }

  lemma CandidateAt(cs: seq<Candidate>, n: nat, p: Policy)
    requires n < |cs| && CandidatesGood(cs, p)
    ensures CandidateOk(cs[n], p) && cs[n].batchRecordId !in AsSet(RecordIds(cs[..n]))
    ensures AsSet(RecordIds(cs[..n + 1])) == AsSet(RecordIds(cs[..n])) + {cs[n].batchRecordId}
  {
    hide CandidateOk;
    forall i | 0 <= i < n
      ensures RecordIds(cs[..n])[i] != cs[n].batchRecordId
    {
      assert RecordIds(cs)[i] != RecordIds(cs)[n];
    }
    SeenNext(cs, n);
  }

  lemma {:induction false} SnapshotUniqueSoFar(d: Delegate, cs: seq<Candidate>, groups: seq<Group>, p: Policy)
    requires Snapshot(d, cs, groups, p)
    ensures UniqueRows(Flatten(groups)) && |groups| == |cs|
  {
  }

  lemma ParentIsNew(cs: seq<Candidate>, n: nat, p: Policy, g: Group)
    requires n < |cs| && CandidatesGood(cs, p) && RowsMatch(cs[n], p, g)
    ensures g.parent.id == cs[n].batchRecordId && |g.messages| == cs[n].messageCount
  {
  }

  lemma {:induction false} SnapshotGrows(d: Delegate, cs: seq<Candidate>, n: nat, p: Policy, done: seq<Group>, g: Group)
    requires n < |cs| && Snapshot(d, cs[..n], done, p)
    ensures Snapshot(d, cs[..n + 1], done + [g], p) <==> GroupLoads(d, cs[n], p, g) && UniqueRows(Flatten(done + [g]))
  {
    hide GroupLoads, UniqueRows, Flatten;
    var all, groups := cs[..n + 1], done + [g];
    assert all[n] == cs[n] && groups[n] == g;
    assert forall k :: 0 <= k < n ==> all[k] == cs[..n][k] && groups[k] == done[k];
  }

  /** `streamNewsletterRetentionEscrowRecords`, run to its end or to its error. Everything it yields
      is a valid list of groups; it ends exactly when there is a snapshot, and yields that. */
  method StreamRecords(d: Delegate, input: PolicyInput, candidates: seq<Candidate>)
    returns (records: seq<Record>, ends: bool, ghost groups: seq<Group>)
    ensures records == Flatten(groups)
    ensures records != [] ==> ParsePolicy(input).Some? && GroupsOk(groups, ParsePolicy(input).value.siteId)
    ensures ends ==> LoadsAs(d, input, candidates, groups)
    ensures !ends ==> forall all :: !LoadsAs(d, input, candidates, all)
  {
    hide Snapshot, UniqueRows, Ids, EscrowGroups.Keys, CandidateOk, CandidatesGood, GroupOk, RecordIds, Sort, CandidateBefore;
    records, ends, groups := [], false, [];
    var policy := ParsePolicy(input);
    if policy.None? { return; }
    var p := policy.value;
    ParsePolicyAgain(input);
    var sorted := NormalizeCandidates(candidates, p);
    if sorted.None? { return; }
    SortKeepsOk(candidates, p);
    var cs := sorted.value;
    var seen := new SnapshotUniqueKeys();
    var k := 0;
    NothingLoaded(d, cs, p);
    while k < |cs|
      invariant 0 <= k <= |cs| && |groups| == k && records == Flatten(groups) && fresh(seen)
      invariant Snapshot(d, cs[..k], groups, p) && seen.Holds(records)
      invariant Ids(records, BatchKind) == AsSet(RecordIds(cs[..k]))
      invariant forall i :: 0 <= i < k ==> GroupOk(groups[i], p.siteId)
      invariant GroupsOk(groups, p.siteId)
    {
      var g := LoadNext(d, cs, k, p, seen, groups);
      if g.None? { return; }
      FlattenSnoc(groups, g.value);
      groups := groups + [g.value];
      SnapshotUniqueSoFar(d, cs[..k + 1], groups, p);
      records := records + GroupRecords(k, g.value);
      k := k + 1;
    }
    assert cs[..k] == cs;
    ends := true;
  }

  lemma NothingLoaded(d: Delegate, cs: seq<Candidate>, p: Policy)
    ensures Snapshot(d, cs[..0], [], p) && Ids([], BatchKind) == AsSet(RecordIds(cs[..0])) && GroupsOk([], p.siteId) && Flatten([]) == []
  {
  }

  // ---------- the verifier takes what the loader yields

  predicate RowDatesOk(row: Row) {
    match row
    case Batch(r) => IsUtcMillis(r.created)
    case Message(r) => IsUtcMillis(r.created)
    case Failed(r) => IsUtcMillis(r.created)
    case Notification(r) => IsUtcMillis(r.timestamp) && IsUtcMillis(r.created)
  }

  /** Every stored date is in the years 0000 to 9999, where a date's text has the escrow's shape. */
  predicate DatesOk(records: seq<Record>) {
    forall i :: 0 <= i < |records| ==> RowDatesOk(records[i].row)
  }

  predicate StrictRow(row: Row) {
    match row
    case Batch(r) => StrictBatch(r)
    case Message(r) => StrictMessage(r)
    case Failed(r) => StrictError(r)
    case Notification(r) => StrictNotification(r)
  }

  lemma ValidIsStrictAndDated(row: Row)
    ensures ValidRow(row) <==> StrictRow(row) && RowDatesOk(row)
  {
    hide IsStrict, IsUtcMillis;
  }

  lemma MatchingRowsStrict(c: Candidate, p: Policy, k: int, g: Group)
    requires RowsMatch(c, p, g)
    ensures forall r <- GroupRecords(k, g) :: StrictRow(r.row) && r.manifestIndex == k
  {
    hide ChecksOk, StrictMessage, StrictError, StrictNotification, StrictBatch, Less;
    GoodMessages(MessageChecks(g.messages, c.batchRecordId), g.messages, c.batchRecordId);
    GoodErrors(ErrorChecks(g.errors, c.batchRecordId), g.errors, c.batchRecordId);
    GoodNotifications(NotificationChecks(g.notifications, MessageIds(g.messages)), g.notifications, MessageIds(g.messages));
  }

  lemma GroupSize(c: Candidate, p: Policy, k: int, g: Group)
    requires RowsMatch(c, p, g)
    ensures |GroupRecords(k, g)| == RecordCount(c) && |g.messages| == c.messageCount
  {
    hide ChecksOk, ParentMatches;
  }

  lemma {:induction false} LoadedRecords(d: Delegate, cs: seq<Candidate>, groups: seq<Group>, n: nat, p: Policy)
    requires Snapshot(d, cs, groups, p) && n <= |cs|
    ensures forall r <- Flatten(groups[..n]) :: StrictRow(r.row) && 0 <= r.manifestIndex < n
    ensures |Flatten(groups[..n])| == SumRecords(cs[..n]) && MessageCount(groups[..n]) == SumMessages(cs[..n])
  {
    hide StrictRow, UniqueRows, GroupRecords, Answered, RowsMatch, OrphansOk, RecordCount;
    if n > 0 {
      var k := n - 1;
      LoadedRecords(d, cs, groups, k, p);
      assert groups[..n] == groups[..k] + [groups[k]];
      assert cs[..n][..k] == cs[..k];
      FlattenSnoc(groups[..k], groups[k]);
      assert groups[..n][..k] == groups[..k];
      assert GroupLoads(d, cs[k], p, groups[k]);
      MatchingRowsStrict(cs[k], p, k, groups[k]);
      GroupSize(cs[k], p, k, groups[k]);
    }
  }

  /** A stream that ends is taken by the verifier, under a valid header for the policy's site,
      unless the byte limits or a date outside the years 0000 to 9999 stand in the way. */
  lemma {:induction false} LoadedIsWritable(d: Delegate, input: PolicyInput, candidates: seq<Candidate>, groups: seq<Group>, h: Header, digest: Digest)
    requires LoadsAs(d, input, candidates, groups) && ValidHeader(h) && h.siteId == input.siteId
    ensures Writable(h, Flatten(groups), digest) <==>
            DatesOk(Flatten(groups)) && BytesOk(RawsOf(FileLines(h, Flatten(groups), digest)), HARD_LIMITS)
  {
    hide ValidRow, StrictRow, DatesOk, AllValid, RawsOf, FileLines, BytesOk, ValidHeader, Snapshot, Sort, CandidateBefore, CandidatesGood;
    var p, cs, records := ParsePolicy(input).value, Sort(CandidateBefore, candidates), Flatten(groups);
    SortKeepsOk(candidates, p);
    SnapshotUniqueSoFar(d, cs, groups, p);
    LoadedRecords(d, cs, groups, |cs|, p);
    assert groups[..|cs|] == groups && cs[..|cs|] == cs;
    LoadedGroupsOk(d, cs, groups, p);
    ParsePolicyAgain(input);
    DatedIsValid(h, records);
    assert OpenOk(h, groups, HARD_LIMITS);
  }

  lemma DatedIsValid(h: Header, records: seq<Record>)
    requires ValidHeader(h) && forall r <- records :: StrictRow(r.row) && IsCount(r.manifestIndex)
    ensures AllValid(h, records) <==> DatesOk(records)
  {
    hide ValidRow, StrictRow, RowDatesOk, ValidHeader;
    forall i | 0 <= i < |records|
      ensures ValidRecord(records[i]) <==> RowDatesOk(records[i].row)
    {
      assert records[i] in records;
      ValidIsStrictAndDated(records[i].row);
    }
  }

  lemma LoadedGroupsOk(d: Delegate, cs: seq<Candidate>, groups: seq<Group>, p: Policy)
    requires CandidatesGood(cs, p) && Snapshot(d, cs, groups, p)
    ensures GroupsOk(groups, p.siteId)
  {
    hide UniqueRows, RowsMatch, GroupOk, CandidateOk;
    forall k | 0 <= k < |groups|
      ensures GroupOk(groups[k], p.siteId)
    {
      assert GroupLoads(d, cs[k], p, groups[k]);
      MatchingGroupOk(cs[k], p, groups[k]);
    }
  }
}
