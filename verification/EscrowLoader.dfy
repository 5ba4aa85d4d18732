/** The escrow loader: it reads the candidate batches back from the database, checks every row,
    and yields the escrow's records. Its queries are arbitrary functions. */
module EscrowLoader {
  import opened Utf16
  import opened Options
  import opened StableSort
  import opened EscrowRecords
  import opened EscrowGroups
  import opened RetentionPolicy

  const MAX_STREAM_RECORDS: int := 250_000

  /** The database queries; None is a query that throws. */
  datatype Delegate = Delegate(
    findBatch: (Text, Text) -> Option<Option<BatchRow>>,
    findMessages: (Text, int) -> Option<seq<MessageRow>>,
    findErrors: (Text, int) -> Option<seq<ErrorRow>>,
    findNotifications: (Text, int) -> Option<seq<NotificationRow>>,
    countOrphans: seq<Text> -> Option<int>)

  // ---------- candidates

  predicate CandidateOk(c: Candidate, p: Policy) {
    && IsStrict(c.siteId) && c.siteId == p.siteId
    && IsUtcMillis(c.createdAt) && Less(c.createdAt, p.cutoff)
    && IsCount(c.messageCount) && IsCount(c.notificationCount) && IsCount(c.errorCount) && IsCount(c.orphanCount)
    && c.correlationComplete && c.orphanCount == 0
    && (c.messageCount == 0 ==> c.notificationCount == 0)
    && IsStrict(c.batchRecordId) && IsStrict(c.batchId)
  }

  /** What keeps a candidate out. */
  lemma CandidateRefused(c: Candidate, p: Policy)
    ensures c.siteId != p.siteId || !Less(c.createdAt, p.cutoff) || !IsUtcMillis(c.createdAt) ==> !CandidateOk(c, p)
    ensures c.orphanCount != 0 || !c.correlationComplete || (c.messageCount == 0 && c.notificationCount != 0) ==> !CandidateOk(c, p)
    ensures c.messageCount < 0 || c.notificationCount < 0 || c.errorCount < 0 ==> !CandidateOk(c, p)
    ensures c.messageCount > 9007199254740991 || c.notificationCount > 9007199254740991 || c.errorCount > 9007199254740991 ==> !CandidateOk(c, p)
    ensures c.batchRecordId == [] || c.batchId == [] || !IsStrict(c.batchRecordId) || !IsStrict(c.batchId) || !IsStrict(c.siteId) ==> !CandidateOk(c, p)
  {
  }

  /** And a list of them: more batches or messages than the policy allows, more than 250000 records, or
      a record id twice. */
  lemma {:induction false} CandidatesRefused(cs: seq<Candidate>, p: Policy)
    ensures |cs| > p.maxBatches || SumMessages(cs) > p.maxMessages || SumRecords(cs) > 250_000 ==> !CandidatesOk(cs, p)
    ensures (exists i, j :: 0 <= i < j < |cs| && cs[i].batchRecordId == cs[j].batchRecordId) ==> !CandidatesOk(cs, p)
    ensures (exists c <- cs :: !CandidateOk(c, p)) ==> !CandidatesOk(cs, p)
  {
    hide CandidateOk;
    if i, j :| 0 <= i < j < |cs| && cs[i].batchRecordId == cs[j].batchRecordId {
      assert RecordIds(cs)[i] == RecordIds(cs)[j];
    }
  }

  function SumMessages(cs: seq<Candidate>): int {
    if cs == [] then 0 else SumMessages(cs[..|cs| - 1]) + cs[|cs| - 1].messageCount
  }

  function RecordCount(c: Candidate): int { 1 + c.messageCount + c.errorCount + c.notificationCount }

  function SumRecords(cs: seq<Candidate>): int {
    if cs == [] then 0 else SumRecords(cs[..|cs| - 1]) + RecordCount(cs[|cs| - 1])
  }

  function RecordIds(cs: seq<Candidate>): seq<Text> {
    seq(|cs|, i requires 0 <= i < |cs| => cs[i].batchRecordId)
  }

  function AsSet(s: seq<Text>): set<Text> { set x | x in s }

  ghost predicate CandidatesGood(cs: seq<Candidate>, p: Policy) {
    (forall i :: 0 <= i < |cs| ==> CandidateOk(cs[i], p)) && NoDuplicates(RecordIds(cs))
  }

  ghost predicate CandidatesOk(cs: seq<Candidate>, p: Policy) {
    && |cs| <= p.maxBatches && CandidatesGood(cs, p)
    && SumMessages(cs) <= p.maxMessages && SumRecords(cs) <= MAX_STREAM_RECORDS
  }

  method SafeAdd(left: int, right: int) returns (r: Option<int>)
    requires left >= 0 && right >= 0
    ensures r == if left + right <= MAX_SAFE_INTEGER then Some(left + right) else None
  {
    if left > MAX_SAFE_INTEGER || right > MAX_SAFE_INTEGER || left > MAX_SAFE_INTEGER - right { return None; }
    r := Some(left + right);
  }

  lemma NoDuplicatesSnoc<T(!new)>(s: seq<T>, x: T)
    ensures NoDuplicates(s + [x]) <==> NoDuplicates(s) && x !in s
  {
    var all := s + [x];
    assert forall i :: 0 <= i < |s| ==> all[i] == s[i];
    if x in s {
      var i :| 0 <= i < |s| && s[i] == x;
      assert all[i] == all[|s|];
    }
  }

  lemma CandidatesSnoc(cs: seq<Candidate>, n: nat, p: Policy)
    requires n < |cs|
    ensures CandidatesGood(cs[..n + 1], p) <==>
            CandidatesGood(cs[..n], p) && CandidateOk(cs[n], p) && cs[n].batchRecordId !in RecordIds(cs[..n])
    ensures SumMessages(cs[..n + 1]) == SumMessages(cs[..n]) + cs[n].messageCount
    ensures SumRecords(cs[..n + 1]) == SumRecords(cs[..n]) + RecordCount(cs[n])
  {
    hide CandidateOk;
    assert cs[..n + 1][..n] == cs[..n] && cs[..n + 1][n] == cs[n];
    assert RecordIds(cs[..n + 1]) == RecordIds(cs[..n]) + [cs[n].batchRecordId];
    NoDuplicatesSnoc(RecordIds(cs[..n]), cs[n].batchRecordId);
    assert forall i :: 0 <= i < n ==> cs[..n + 1][i] == cs[..n][i];
  }

  /** A list of candidates is no better than its beginning. */
  lemma {:induction false} CandidatesPrefix(cs: seq<Candidate>, n: nat, m: nat, p: Policy)
    requires n <= m <= |cs| && CandidatesGood(cs[..m], p)
    ensures CandidatesGood(cs[..n], p) && 0 <= SumMessages(cs[..n]) <= SumMessages(cs[..m]) && 0 <= SumRecords(cs[..n]) <= SumRecords(cs[..m])
  {
    hide CandidatesGood, RecordIds;
    if m > 0 {
      CandidatesSnoc(cs, m - 1, p);
      if n < m {
        CandidatesPrefix(cs, n, m - 1, p);
      } else {
        CandidatesPrefix(cs, m - 1, m - 1, p);
      }
    }
  }

  /** `normalizeCandidates`. */
  method NormalizeCandidates(cs: seq<Candidate>, p: Policy) returns (r: Option<seq<Candidate>>)
    requires ValidPolicy(p)
    ensures r == if CandidatesOk(cs, p) then Some(Sort(CandidateBefore, cs)) else None
  {
    hide CandidateOk, Sort, CandidateBefore, RecordIds, ValidPolicy;
    if |cs| > p.maxBatches { return None; }
    var seen: set<Text> := {};
    var totalMessages, totalRecords := 0, 0;
    var i := 0;
    assert cs[..|cs|] == cs;
    EmptyCandidates(p);
    while i < |cs|
      invariant 0 <= i <= |cs| && CandidatesGood(cs[..i], p)
      invariant seen == AsSet(RecordIds(cs[..i]))
      invariant totalMessages == SumMessages(cs[..i]) && totalRecords == SumRecords(cs[..i])
      invariant 0 <= totalMessages <= MAX_SAFE_INTEGER && 0 <= totalRecords <= MAX_SAFE_INTEGER
    {
      var c := cs[i];
      CandidatesSnoc(cs, i, p);
      TooMuch(cs, i + 1, p);
      if !CandidateOk(c, p) || c.batchRecordId in seen { return None; }
      CountsAreCounts(c, p);
      SeenNext(cs, i);
      seen := seen + {c.batchRecordId};
      var messages := SafeAdd(totalMessages, c.messageCount);
      if messages.None? { return None; }
      totalMessages := messages.value;
      var own := SafeAdd(1, c.messageCount);
      if own.None? { return None; }
      own := SafeAdd(own.value, c.errorCount);
      if own.None? { return None; }
      var records := SafeAdd(totalRecords, own.value);
      if records.None? { return None; }
      records := SafeAdd(records.value, c.notificationCount);
      if records.None? { return None; }
      totalRecords := records.value;
      i := i + 1;
    }
    if totalMessages > p.maxMessages || totalRecords > MAX_STREAM_RECORDS { return None; }
    r := Some(Sort(CandidateBefore, cs));
  }

  lemma EmptyCandidates(p: Policy)
    ensures CandidatesGood([], p) && RecordIds([]) == []
  {
  }

  lemma SeenNext(cs: seq<Candidate>, n: nat)
    requires n < |cs|
    ensures AsSet(RecordIds(cs[..n + 1])) == AsSet(RecordIds(cs[..n])) + {cs[n].batchRecordId}
  {
    assert RecordIds(cs[..n + 1]) == RecordIds(cs[..n]) + [cs[n].batchRecordId];
  }

  lemma CountsAreCounts(c: Candidate, p: Policy)
    requires CandidateOk(c, p)
    ensures 0 <= c.messageCount && 0 <= c.errorCount && 0 <= c.notificationCount
  {
  }

  /** A bad beginning, or one whose sums are beyond the safe integers, spoils the whole. */
  lemma TooMuch(cs: seq<Candidate>, n: nat, p: Policy)
    requires n <= |cs| && ValidPolicy(p)
    ensures !CandidatesGood(cs[..n], p) || SumMessages(cs[..n]) > MAX_SAFE_INTEGER || SumRecords(cs[..n]) > MAX_SAFE_INTEGER
            ==> !CandidatesOk(cs, p)
  {
    hide CandidatesGood;
    assert cs[..|cs|] == cs;
    if CandidatesGood(cs, p) { CandidatesPrefix(cs, n, |cs|, p); }
  }

  // ---------- sorting changes nothing that is checked

  /** No id twice, said of the elements alone. */
  lemma NoIdTwice(s: seq<Candidate>)
    ensures NoDuplicates(RecordIds(s)) <==>
            && (forall x :: multiset(s)[x] <= 1)
            && forall x, y :: x in s && y in s && x.batchRecordId == y.batchRecordId ==> x == y
  {
    if NoDuplicates(RecordIds(s)) {
      assert forall i :: 0 <= i < |s| ==> RecordIds(s)[i] == s[i].batchRecordId;
      forall x
        ensures multiset(s)[x] <= 1
      {
        NoDuplicatesCount(s, x);
      }
    } else {
      var i, j :| 0 <= i < j < |s| && RecordIds(s)[i] == RecordIds(s)[j];
      if s[i] == s[j] { TwiceCounted(s, i, j); }
    }
  }

  lemma {:induction false} SumCons(c: Candidate, cs: seq<Candidate>)
    ensures SumMessages([c] + cs) == c.messageCount + SumMessages(cs)
    ensures SumRecords([c] + cs) == RecordCount(c) + SumRecords(cs)
  {
    var all := [c] + cs;
    if cs == [] {
      assert all[..0] == [];
    } else {
      var n := |cs| - 1;
      SumCons(c, cs[..n]);
      assert all[..|all| - 1] == [c] + cs[..n];
    }
  }

  lemma {:induction false} SumInsert(c: Candidate, cs: seq<Candidate>)
    ensures SumMessages(Insert(CandidateBefore, c, cs)) == c.messageCount + SumMessages(cs)
    ensures SumRecords(Insert(CandidateBefore, c, cs)) == RecordCount(c) + SumRecords(cs)
  {
    SumCons(c, cs);
    if cs != [] && CandidateBefore(cs[0], c) {
      SumInsert(c, cs[1..]);
      assert cs == [cs[0]] + cs[1..];
      SumCons(cs[0], cs[1..]);
      SumCons(cs[0], Insert(CandidateBefore, c, cs[1..]));
    }
  }

  lemma {:induction false} SumSort(cs: seq<Candidate>)
    ensures SumMessages(Sort(CandidateBefore, cs)) == SumMessages(cs) && SumRecords(Sort(CandidateBefore, cs)) == SumRecords(cs)
  {
    if cs != [] {
      SumSort(cs[1..]);
      assert cs == [cs[0]] + cs[1..];
      SumCons(cs[0], cs[1..]);
      SumInsert(cs[0], Sort(CandidateBefore, cs[1..]));
    }
  }

  lemma {:induction false} SortKeepsOk(cs: seq<Candidate>, p: Policy)
    requires CandidatesOk(cs, p)
    ensures CandidatesOk(Sort(CandidateBefore, cs), p)
  {
    hide CandidateOk, Sort, CandidateBefore, RecordIds;
    var sorted := Sort(CandidateBefore, cs);
    SumSort(cs);
    SameElements(sorted, cs);
    NoIdTwice(cs);
    NoIdTwice(sorted);
    assert forall i :: 0 <= i < |sorted| ==> sorted[i] in sorted;
  }

  // ---------- rows of one kind

  predicate StrictBatch(r: BatchRow) { IsStrict(r.id) && IsStrict(r.siteId) && IsStrict(r.fromEmail) && IsStrict(r.batchId) }

  predicate StrictMessage(r: MessageRow) {
    IsStrict(r.id) && IsStrict(r.messageId) && IsStrict(r.toEmail) && IsStrict(r.newsletterBatchId)
  }

  predicate StrictError(r: ErrorRow) {
    IsStrict(r.id) && IsStrict(r.toEmail) && IsStrict(r.newsletterBatchId) && IsStrict(r.messageId)
  }

  predicate StrictNotification(r: NotificationRow) {
    IsStrict(r.id) && IsStrict(r.kind) && IsStrict(r.notificationId) && IsStrict(r.messageId)
  }

  /** What the three row loops look at: whether the row itself is good, its id, and its second
      unique column. */
  datatype RowCheck = RowCheck(good: bool, id: Text, key: Text)

  function MessageChecks(rows: seq<MessageRow>, batchRecordId: Text): seq<RowCheck> {
    seq(|rows|, i requires 0 <= i < |rows| =>
      RowCheck(StrictMessage(rows[i]) && rows[i].newsletterBatchId == batchRecordId, rows[i].id, rows[i].messageId))
  }

  function ErrorChecks(rows: seq<ErrorRow>, batchRecordId: Text): seq<RowCheck> {
    seq(|rows|, i requires 0 <= i < |rows| =>
      RowCheck(StrictError(rows[i]) && rows[i].newsletterBatchId == batchRecordId, rows[i].id, rows[i].messageId))
  }

  function NotificationChecks(rows: seq<NotificationRow>, messageIds: set<Text>): seq<RowCheck> {
    seq(|rows|, i requires 0 <= i < |rows| =>
      RowCheck(StrictNotification(rows[i]) && rows[i].messageId in messageIds, rows[i].id, rows[i].notificationId))
  }

  function IdsOf(checks: seq<RowCheck>): seq<Text> { seq(|checks|, i requires 0 <= i < |checks| => checks[i].id) }

  function KeysOf(checks: seq<RowCheck>): seq<Text> { seq(|checks|, i requires 0 <= i < |checks| => checks[i].key) }

  ghost predicate ChecksOk(checks: seq<RowCheck>) {
    && (forall i :: 0 <= i < |checks| ==> checks[i].good)
    && Ascending(IdsOf(checks)) && NoDuplicates(KeysOf(checks))
  }

  function PreviousId(checks: seq<RowCheck>): Option<Text> {
    if checks == [] then None else Some(checks[|checks| - 1].id)
  }

  lemma ChecksSnoc(checks: seq<RowCheck>, n: nat)
    requires n < |checks|
    ensures ChecksOk(checks[..n + 1]) <==>
            && ChecksOk(checks[..n]) && checks[n].good && checks[n].key !in KeysOf(checks[..n])
            && (PreviousId(checks[..n]).Some? ==> Less(PreviousId(checks[..n]).value, checks[n].id))
    ensures ChecksOk(checks[..n]) && (PreviousId(checks[..n]).Some? ==> Less(PreviousId(checks[..n]).value, checks[n].id))
            ==> checks[n].id !in IdsOf(checks[..n])
    ensures AsSet(IdsOf(checks[..n + 1])) == AsSet(IdsOf(checks[..n])) + {checks[n].id}
    ensures AsSet(KeysOf(checks[..n + 1])) == AsSet(KeysOf(checks[..n])) + {checks[n].key}
  {
    var before, c := checks[..n], checks[n];
    assert IdsOf(checks[..n + 1]) == IdsOf(before) + [c.id] && KeysOf(checks[..n + 1]) == KeysOf(before) + [c.key];
    AscendingSnoc(IdsOf(before), c.id);
    NoDuplicatesSnoc(KeysOf(before), c.key);
    assert forall i :: 0 <= i < n ==> checks[..n + 1][i] == before[i];
    if Ascending(IdsOf(before) + [c.id]) { AscendingApart(IdsOf(before), c.id); }
  }

  lemma AscendingApart(ids: seq<Text>, id: Text)
    requires Ascending(ids + [id])
    ensures id !in ids
  {
    var all := ids + [id];
    forall i | 0 <= i < |ids|
      ensures ids[i] != id
    {
      assert Less(all[i], all[|ids|]);
      LessIrreflexive(id);
    }
  }

  lemma ChecksPrefix(checks: seq<RowCheck>, n: nat)
    requires n <= |checks| && ChecksOk(checks)
    ensures ChecksOk(checks[..n])
  {
    assert forall i :: 0 <= i < n ==> IdsOf(checks[..n])[i] == IdsOf(checks)[i] && KeysOf(checks[..n])[i] == KeysOf(checks)[i];
  }

  lemma EmptyChecks(checks: seq<RowCheck>)
    ensures ChecksOk(checks[..0]) && PreviousId(checks[..0]) == None && IdsOf(checks[..0]) == [] && KeysOf(checks[..0]) == []
    ensures checks[..|checks|] == checks
  {
  }

  /** `normalizeMessageRows`. */
  method NormalizeMessageRows(rows: seq<MessageRow>, expectedCount: int, batchRecordId: Text) returns (ok: bool)
    ensures ok <==> |rows| == expectedCount && ChecksOk(MessageChecks(rows, batchRecordId))
  {
    hide ChecksOk, StrictMessage, IdsOf, KeysOf, Less, PreviousId;
    if |rows| != expectedCount { return false; }
    ghost var checks := MessageChecks(rows, batchRecordId);
    var seenIds: set<Text>, seenMessageIds: set<Text>, previousId: Option<Text> := {}, {}, None;
    var i := 0;
    EmptyChecks(checks);
    while i < |rows|
      invariant 0 <= i <= |rows| && ChecksOk(checks[..i])
      invariant seenIds == AsSet(IdsOf(checks[..i])) && seenMessageIds == AsSet(KeysOf(checks[..i])) && previousId == PreviousId(checks[..i])
    {
      var row := rows[i];
      ChecksSnoc(checks, i);
      if ChecksOk(checks) { ChecksPrefix(checks, i + 1); }
      PreviousIs(checks, i + 1);
      if !StrictMessage(row) || row.newsletterBatchId != batchRecordId { return false; }
      if previousId.Some? && !Less(previousId.value, row.id) { return false; }
      if row.id in seenIds || row.messageId in seenMessageIds { return false; }
      seenIds, seenMessageIds, previousId := seenIds + {row.id}, seenMessageIds + {row.messageId}, Some(row.id);
      i := i + 1;
    }
    ok := true;
  }

  lemma PreviousIs(checks: seq<RowCheck>, n: nat)
    requires 0 < n <= |checks|
    ensures PreviousId(checks[..n]) == Some(checks[n - 1].id)
  {
  }

  /** `normalizeErrorRows`. */
  method NormalizeErrorRows(rows: seq<ErrorRow>, expectedCount: int, batchRecordId: Text) returns (ok: bool)
    ensures ok <==> |rows| == expectedCount && ChecksOk(ErrorChecks(rows, batchRecordId))
  {
    hide ChecksOk, StrictError, IdsOf, KeysOf, Less, PreviousId;
    if |rows| != expectedCount { return false; }
    ghost var checks := ErrorChecks(rows, batchRecordId);
    var seenIds: set<Text>, seenMessageIds: set<Text>, previousId: Option<Text> := {}, {}, None;
    var i := 0;
    EmptyChecks(checks);
    while i < |rows|
      invariant 0 <= i <= |rows| && ChecksOk(checks[..i])
      invariant seenIds == AsSet(IdsOf(checks[..i])) && seenMessageIds == AsSet(KeysOf(checks[..i])) && previousId == PreviousId(checks[..i])
    {
      var row := rows[i];
      ChecksSnoc(checks, i);
      if ChecksOk(checks) { ChecksPrefix(checks, i + 1); }
      PreviousIs(checks, i + 1);
      if !StrictError(row) || row.newsletterBatchId != batchRecordId { return false; }
      if previousId.Some? && !Less(previousId.value, row.id) { return false; }
      if row.id in seenIds || row.messageId in seenMessageIds { return false; }
      seenIds, seenMessageIds, previousId := seenIds + {row.id}, seenMessageIds + {row.messageId}, Some(row.id);
      i := i + 1;
    }
    ok := true;
  }

  /** `normalizeNotificationRows`. */
  method NormalizeNotificationRows(rows: seq<NotificationRow>, expectedCount: int, messageIds: set<Text>) returns (ok: bool)
    ensures ok <==> |rows| == expectedCount && ChecksOk(NotificationChecks(rows, messageIds))
  {
    hide ChecksOk, StrictNotification, IdsOf, KeysOf, Less, PreviousId;
    if |rows| != expectedCount { return false; }
    ghost var checks := NotificationChecks(rows, messageIds);
    var seenIds: set<Text>, seenNotificationIds: set<Text>, previousId: Option<Text> := {}, {}, None;
    var i := 0;
    EmptyChecks(checks);
    while i < |rows|
      invariant 0 <= i <= |rows| && ChecksOk(checks[..i])
      invariant seenIds == AsSet(IdsOf(checks[..i])) && seenNotificationIds == AsSet(KeysOf(checks[..i])) && previousId == PreviousId(checks[..i])
    {
      var row := rows[i];
      ChecksSnoc(checks, i);
      if ChecksOk(checks) { ChecksPrefix(checks, i + 1); }
      PreviousIs(checks, i + 1);
      if !StrictNotification(row) || row.messageId !in messageIds { return false; }
      if previousId.Some? && !Less(previousId.value, row.id) { return false; }
      if row.id in seenIds || row.notificationId in seenNotificationIds { return false; }
      seenIds, seenNotificationIds, previousId := seenIds + {row.id}, seenNotificationIds + {row.notificationId}, Some(row.id);
      i := i + 1;
    }
    ok := true;
  }
}
