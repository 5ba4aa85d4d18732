/** The candidate loader: the batches of a site from before the cutoff, and how many rows each of
    them has. */
module RetentionCandidates {
  import opened Utf16
  import opened Options
  import opened StableSort
  import opened EscrowRecords
  import opened EscrowGroups
  import opened RetentionPolicy
  import opened EscrowLoader
  import opened SnapshotKeys
  import opened EscrowStream
  import opened RetentionDatabase

  // ---------- what the loader does

  datatype BatchSummary = BatchSummary(id: Text, batchId: Text, created: Text, messageCount: int, errorCount: int)

  datatype MessageSummary = MessageSummary(messageId: Text, notificationEvents: int)

  datatype CandidateQueries = CandidateQueries(
    findBatches: (Text, Text, int) -> Option<seq<BatchSummary>>,
    findMessages: (Text, int) -> Option<seq<MessageSummary>>,
    countOrphans: seq<Text> -> Option<int>)

  predicate SummaryOk(s: BatchSummary) {
    s.id != [] && IsNotBlank(s.batchId) && IsCount(s.messageCount) && IsCount(s.errorCount)
  }

  function SummaryMessages(ss: seq<BatchSummary>): int {
    if ss == [] then 0 else SummaryMessages(ss[..|ss| - 1]) + ss[|ss| - 1].messageCount
  }

  function SummaryIds(rows: seq<MessageSummary>): seq<Text> { seq(|rows|, i requires 0 <= i < |rows| => rows[i].messageId) }

  function SumEvents(rows: seq<MessageSummary>): int {
    if rows == [] then 0 else SumEvents(rows[..|rows| - 1]) + rows[|rows| - 1].notificationEvents
  }

  ghost predicate MessageSummariesOk(rows: seq<MessageSummary>, expectedCount: int) {
    && |rows| == expectedCount && NoDuplicates(SummaryIds(rows))
    && (forall i :: 0 <= i < |rows| ==> IsNotBlank(rows[i].messageId) && IsCount(rows[i].notificationEvents))
    && SumEvents(rows) <= MAX_SAFE_INTEGER
  }

  /** What is loaded for one batch. */
  ghost function Loaded(q: CandidateQueries, siteId: Text, s: BatchSummary): Option<Candidate> {
    if s.messageCount == 0 then Some(Candidate(siteId, s.id, s.batchId, s.created, 0, 0, s.errorCount, 0, true))
    else
      var rows :- q.findMessages(s.id, s.messageCount + 1);
      var _ :- if MessageSummariesOk(rows, s.messageCount) then Some(()) else None;
      var orphans :- q.countOrphans(SummaryIds(rows));
      if !IsCount(orphans) then None
      else Some(Candidate(siteId, s.id, s.batchId, s.created, s.messageCount, SumEvents(rows), s.errorCount, orphans, orphans == 0))
  }

  lemma SummariesSnoc(rows: seq<MessageSummary>, n: nat)
    requires n < |rows|
    ensures SummaryIds(rows[..n + 1]) == SummaryIds(rows[..n]) + [rows[n].messageId]
    ensures SumEvents(rows[..n + 1]) == SumEvents(rows[..n]) + rows[n].notificationEvents
  {
    assert rows[..n + 1][..n] == rows[..n];
  }

  lemma {:induction false} SumEventsPrefix(rows: seq<MessageSummary>, n: nat, m: nat)
    requires n <= m <= |rows| && forall i :: 0 <= i < |rows| ==> rows[i].notificationEvents >= 0
    ensures SumEvents(rows[..n]) <= SumEvents(rows[..m])
  {
    if n < m {
      SummariesSnoc(rows, m - 1);
      SumEventsPrefix(rows, n, m - 1);
    }
  }

  lemma SummariesBegin(rows: seq<MessageSummary>, n: nat)
    requires n <= |rows|
    ensures NoDuplicates(SummaryIds(rows)) ==> NoDuplicates(SummaryIds(rows[..n]))
  {
    assert SummaryIds(rows[..n]) == SummaryIds(rows)[..n];
  }

  lemma NoSummaries(rows: seq<MessageSummary>)
    ensures SummaryIds(rows[..0]) == [] && SumEvents(rows[..0]) == 0 && NoDuplicates(SummaryIds(rows[..0])) && rows[..|rows|] == rows
  {
  }

  /** `normalizeMessageRows` of the candidate loader, together with the sum over its result. */
  method NormalizeMessageSummaries(rows: seq<MessageSummary>, expectedCount: int) returns (total: Option<int>)
    ensures total.Some? <==> MessageSummariesOk(rows, expectedCount)
    ensures total.Some? ==> total.value == SumEvents(rows)
  {
    hide IsNotBlank, NoDuplicates, SummaryIds, SumEvents;
    if |rows| != expectedCount { return None; }
    var seen: set<Text>, sum, i := {}, 0, 0;
    NoSummaries(rows);
    while i < |rows|
      invariant 0 <= i <= |rows| && NoDuplicates(SummaryIds(rows[..i])) && seen == AsSet(SummaryIds(rows[..i]))
      invariant forall j :: 0 <= j < i ==> IsNotBlank(rows[j].messageId) && IsCount(rows[j].notificationEvents)
      invariant 0 <= sum == SumEvents(rows[..i]) <= MAX_SAFE_INTEGER
    {
      var row := rows[i];
      SummariesSnoc(rows, i);
      NoDuplicatesSnoc(SummaryIds(rows[..i]), row.messageId);
      SummariesBegin(rows, i + 1);
      if !IsNotBlank(row.messageId) || row.messageId in seen || !IsCount(row.notificationEvents) { return None; }
      seen := seen + {row.messageId};
      if forall j :: 0 <= j < |rows| ==> IsCount(rows[j].notificationEvents) { SumEventsPrefix(rows, i + 1, |rows|); }
      var next := SafeAdd(sum, row.notificationEvents);
      if next.None? { return None; }
      sum := next.value;
      i := i + 1;
    }
    total := Some(sum);
  }

  method LoadCandidate(q: CandidateQueries, siteId: Text, s: BatchSummary) returns (r: Option<Candidate>)
    ensures r == Loaded(q, siteId, s)
  {
    if s.messageCount == 0 { return Some(Candidate(siteId, s.id, s.batchId, s.created, 0, 0, s.errorCount, 0, true)); }
    var rows := q.findMessages(s.id, s.messageCount + 1);
    if rows.None? { return None; }
    var total := NormalizeMessageSummaries(rows.value, s.messageCount);
    if total.None? { return None; }
    var orphans := q.countOrphans(SummaryIds(rows.value));
    if orphans.None? || !IsCount(orphans.value) { return None; }
    r := Some(Candidate(siteId, s.id, s.batchId, s.created, s.messageCount, total.value, s.errorCount, orphans.value, orphans.value == 0));
  }

  /** `loadNewsletterRetentionCandidateRecords`: every stored batch before the cutoff, sorted. */
  method LoadCandidateRecords(q: CandidateQueries, p: Policy) returns (r: Option<seq<Candidate>>)
    requires ValidPolicy(p)
    ensures r.Some? <==> Loadable(q, p)
    ensures r.Some? ==> exists loaded :: IsLoaded(q, p, q.findBatches(p.siteId, p.cutoff, p.maxBatches + 1).value, loaded) && r.value == Sort(CandidateBefore, loaded)
    ensures r.Some? ==> forall db :: Truthful(q, db) ==> DueCandidates(db, p.siteId, p.cutoff, r.value)
  {
    hide Sort, CandidateBefore, Loaded, SummaryOk, ValidPolicy, Truthful, DueCandidates;
    var found := q.findBatches(p.siteId, p.cutoff, p.maxBatches + 1);
    if found.None? || |found.value| > p.maxBatches { return None; }
    var ss := found.value;
    if exists i :: 0 <= i < |ss| && !SummaryOk(ss[i]) { return None; }
    if SummaryMessages(ss) > p.maxMessages { return None; }
    var loaded: seq<Candidate> := [];
    var i := 0;
    while i < |ss|
      invariant 0 <= i <= |ss| && |loaded| == i
      invariant forall j :: 0 <= j < i ==> Loaded(q, p.siteId, ss[j]) == Some(loaded[j])
    {
      var c := LoadCandidate(q, p.siteId, ss[i]);
      if c.None? { return None; }
      loaded := loaded + [c.value];
      i := i + 1;
    }
    assert IsLoaded(q, p, ss, loaded);
    forall db | Truthful(q, db)
      ensures DueCandidates(db, p.siteId, p.cutoff, Sort(CandidateBefore, loaded))
    {
      LoadedAreDue(q, db, p, ss, loaded);
      SortedAreDue(db, p.siteId, p.cutoff, loaded);
    }
    r := Some(Sort(CandidateBefore, loaded));
  }

  ghost predicate IsLoaded(q: CandidateQueries, p: Policy, ss: seq<BatchSummary>, loaded: seq<Candidate>) {
    |loaded| == |ss| && forall i :: 0 <= i < |ss| ==> Loaded(q, p.siteId, ss[i]) == Some(loaded[i])
  }

  ghost predicate Loadable(q: CandidateQueries, p: Policy) {
    && q.findBatches(p.siteId, p.cutoff, p.maxBatches + 1).Some?
    && var ss := q.findBatches(p.siteId, p.cutoff, p.maxBatches + 1).value;
       && |ss| <= p.maxBatches && (forall i :: 0 <= i < |ss| ==> SummaryOk(ss[i])) && SummaryMessages(ss) <= p.maxMessages
       && forall i :: 0 <= i < |ss| ==> Loaded(q, p.siteId, ss[i]).Some?
  }

  // ---------- what the queries may answer

  /** The batches of the site from before the cutoff. */
  function Due(db: Database, siteId: Text, cutoff: Text): set<Text> {
    set id | id in db.batches && db.batches[id].siteId == siteId && Less(db.batches[id].created, cutoff)
  }

  function SummaryRowIds(ss: seq<BatchSummary>): seq<Text> { seq(|ss|, i requires 0 <= i < |ss| => ss[i].id) }

  /** The summary of a stored batch, with the numbers of its messages and errors. */
  ghost predicate SummaryOf(db: Database, s: BatchSummary) {
    && s.id in db.batches && s.batchId == db.batches[s.id].batchId && s.created == db.batches[s.id].created
    && s.messageCount == |ChildMessages(db, s.id)| && s.errorCount == |ChildErrors(db, s.id)|
  }

  ghost predicate BatchesAnswer(db: Database, siteId: Text, cutoff: Text, take: int, ss: seq<BatchSummary>) {
    IsAnswer(SummaryRowIds(ss), Due(db, siteId, cutoff), take) && forall s <- ss :: SummaryOf(db, s)
  }

  /** The message ids of these message rows, each with the number of its notifications. */
  ghost predicate SummariesOf(db: Database, ids: seq<Text>, rows: seq<MessageSummary>) {
    && |ids| == |rows|
    && forall i :: 0 <= i < |ids| ==>
         && ids[i] in db.messages && rows[i].messageId == db.messages[ids[i]].messageId
         && rows[i].notificationEvents == |NotificationsOf(db, {rows[i].messageId})|
  }

  ghost predicate SummariesAnswer(db: Database, batch: Text, take: int, rows: seq<MessageSummary>) {
    exists ids :: IsAnswer(ids, ChildMessages(db, batch), take) && SummariesOf(db, ids, rows)
  }

  /** Queries that throw or answer from this database. */
  ghost predicate Truthful(q: CandidateQueries, db: Database) {
    && (forall siteId, cutoff, take :: take >= 1 && q.findBatches(siteId, cutoff, take).Some? ==>
          BatchesAnswer(db, siteId, cutoff, take, q.findBatches(siteId, cutoff, take).value))
    && (forall batch, take :: take >= 1 && q.findMessages(batch, take).Some? ==> SummariesAnswer(db, batch, take, q.findMessages(batch, take).value))
    && (forall ids :: q.countOrphans(ids).Some? ==> q.countOrphans(ids).value == |OpenOrphans(db, AsSet(ids))|)
  }

  /** Queries that do not throw. */
  ghost predicate NeverThrows(q: CandidateQueries) {
    && (forall siteId, cutoff, take :: take >= 1 ==> q.findBatches(siteId, cutoff, take).Some?)
    && (forall batch, take :: take >= 1 ==> q.findMessages(batch, take).Some?)
    && (forall ids :: q.countOrphans(ids).Some?)
  }

  // ---------- the loaded counts are those of the stored rows

  /** The candidate names a stored batch and has the numbers of its rows. */
  ghost predicate Counted(db: Database, c: Candidate) {
    && c.batchRecordId in db.batches
    && c.siteId == db.batches[c.batchRecordId].siteId && c.batchId == db.batches[c.batchRecordId].batchId
    && c.createdAt == db.batches[c.batchRecordId].created
    && c.messageCount == |ChildMessages(db, c.batchRecordId)| && c.errorCount == |ChildErrors(db, c.batchRecordId)|
    && c.notificationCount == |NotificationsOf(db, ChildMessageIds(db, c.batchRecordId))|
    && c.orphanCount == |OpenOrphans(db, ChildMessageIds(db, c.batchRecordId))|
    && (c.correlationComplete <==> OpenOrphans(db, ChildMessageIds(db, c.batchRecordId)) == {})
  }

  /** The candidates are the site's batches from before the cutoff, each once and with its numbers. */
  ghost predicate DueCandidates(db: Database, siteId: Text, cutoff: Text, cs: seq<Candidate>) {
    && NoDuplicates(RecordIds(cs)) && AsSet(RecordIds(cs)) == Due(db, siteId, cutoff)
    && forall c <- cs :: Counted(db, c)
  }

  lemma NotificationsUnion(db: Database, a: set<Text>, x: Text)
    requires x !in a
    ensures NotificationsOf(db, a + {x}) == NotificationsOf(db, a) + NotificationsOf(db, {x})
    ensures NotificationsOf(db, a) !! NotificationsOf(db, {x})
    ensures |NotificationsOf(db, a + {x})| == |NotificationsOf(db, a)| + |NotificationsOf(db, {x})|
  {
    assert NotificationsOf(db, a + {x}) == NotificationsOf(db, a) + NotificationsOf(db, {x});
  }

  /** Adding up the notifications of distinct messages counts each notification once. */
  lemma {:induction false} EventsAddUp(db: Database, rows: seq<MessageSummary>)
    requires NoDuplicates(SummaryIds(rows)) && forall i :: 0 <= i < |rows| ==> rows[i].notificationEvents == |NotificationsOf(db, {rows[i].messageId})|
    ensures SumEvents(rows) == |NotificationsOf(db, AsSet(SummaryIds(rows)))|
  {
    hide NotificationsOf;
    if rows == [] {
      NoMessageIds(db);
      assert SummaryIds(rows) == [] && AsSet(SummaryIds(rows)) == {};
    } else {
      var n := |rows| - 1;
      assert rows[..n + 1] == rows;
      SummariesSnoc(rows, n);
      SummariesBegin(rows, n);
      EventsAddUp(db, rows[..n]);
      NoDuplicatesSnoc(SummaryIds(rows[..n]), rows[n].messageId);
      assert AsSet(SummaryIds(rows)) == AsSet(SummaryIds(rows[..n])) + {rows[n].messageId};
      NotificationsUnion(db, AsSet(SummaryIds(rows[..n])), rows[n].messageId);
    }
  }

  lemma NoMessageIds(db: Database)
    ensures NotificationsOf(db, {}) == {} && OpenOrphans(db, {}) == {}
  {
  }

  lemma ListedMessageIds(db: Database, batch: Text, ids: seq<Text>, rows: seq<MessageSummary>)
    requires AsSet(ids) == ChildMessages(db, batch) && SummariesOf(db, ids, rows)
    ensures AsSet(SummaryIds(rows)) == ChildMessageIds(db, batch)
  {
    forall i | 0 <= i < |rows|
      ensures rows[i].messageId in ChildMessageIds(db, batch)
    {
      assert ids[i] in AsSet(ids);
    }
    forall id | id in ChildMessages(db, batch)
      ensures db.messages[id].messageId in AsSet(SummaryIds(rows))
    {
      assert id in AsSet(ids);
      var i :| 0 <= i < |ids| && ids[i] == id;
      assert SummaryIds(rows)[i] == db.messages[id].messageId;
    }
  }

  lemma LoadedIsCounted(q: CandidateQueries, db: Database, siteId: Text, s: BatchSummary, c: Candidate)
    requires Truthful(q, db) && SummaryOf(db, s) && siteId == db.batches[s.id].siteId && Loaded(q, siteId, s) == Some(c)
    ensures Counted(db, c) && c.batchRecordId == s.id
  {
    hide NotificationsOf, OpenOrphans, ChildMessages, ChildErrors, IsAnswer, NoDuplicates, SummaryIds, SumEvents, AsSet;
    if s.messageCount == 0 {
      NoChildren(db, s.id);
      NoMessageIds(db);
    } else {
      var rows := q.findMessages(s.id, s.messageCount + 1).value;
      var ids :| IsAnswer(ids, ChildMessages(db, s.id), s.messageCount + 1) && SummariesOf(db, ids, rows);
      TakeOneMore(ids, ChildMessages(db, s.id), s.messageCount);
      ListedMessageIds(db, s.id, ids, rows);
      EventsAddUp(db, rows);
    }
  }

  lemma NoChildren(db: Database, batch: Text)
    requires |ChildMessages(db, batch)| == 0
    ensures ChildMessageIds(db, batch) == {}
  {
  }

  lemma LoadedAreDue(q: CandidateQueries, db: Database, p: Policy, ss: seq<BatchSummary>, loaded: seq<Candidate>)
    requires Truthful(q, db) && q.findBatches(p.siteId, p.cutoff, p.maxBatches + 1) == Some(ss) && |ss| <= p.maxBatches && IsLoaded(q, p, ss, loaded)
    ensures DueCandidates(db, p.siteId, p.cutoff, loaded)
  {
    hide Counted, SummaryOf, Loaded, Truthful;
    assert BatchesAnswer(db, p.siteId, p.cutoff, p.maxBatches + 1, ss) by { BatchesTrue(q, db, p.siteId, p.cutoff, p.maxBatches + 1); }
    AllBatches(ss, Due(db, p.siteId, p.cutoff), p.maxBatches);
    forall i | 0 <= i < |ss|
      ensures Counted(db, loaded[i]) && loaded[i].batchRecordId == ss[i].id
    {
      assert ss[i] in ss && SummaryRowIds(ss)[i] in AsSet(SummaryRowIds(ss));
      LoadedIsCounted(q, db, p.siteId, ss[i], loaded[i]);
    }
    assert RecordIds(loaded) == SummaryRowIds(ss);
  }

  lemma BatchesTrue(q: CandidateQueries, db: Database, siteId: Text, cutoff: Text, take: int)
    requires Truthful(q, db) && take >= 1 && q.findBatches(siteId, cutoff, take).Some?
    ensures BatchesAnswer(db, siteId, cutoff, take, q.findBatches(siteId, cutoff, take).value)
  {
  }

  lemma AllBatches(ss: seq<BatchSummary>, all: set<Text>, most: int)
    requires IsAnswer(SummaryRowIds(ss), all, most + 1) && |ss| <= most
    ensures AsSet(SummaryRowIds(ss)) == all
  {
    SetOfDistinct(SummaryRowIds(ss));
    SubsetOfSameSize(AsSet(SummaryRowIds(ss)), all);
  }

  lemma {:induction false} SortedAreDue(db: Database, siteId: Text, cutoff: Text, cs: seq<Candidate>)
    requires DueCandidates(db, siteId, cutoff, cs)
    ensures DueCandidates(db, siteId, cutoff, Sort(CandidateBefore, cs))
  {
    hide Counted, CandidateBefore, Sort;
    var sorted := Sort(CandidateBefore, cs);
    SameElements(sorted, cs);
    NoIdTwice(cs);
    NoIdTwice(sorted);
    SameRecordIds(sorted, cs);
  }

  lemma SameRecordIds(a: seq<Candidate>, b: seq<Candidate>)
    requires forall c :: c in a <==> c in b
    ensures AsSet(RecordIds(a)) == AsSet(RecordIds(b))
  {
    ElementIds(a);
    ElementIds(b);
  }

  lemma ElementIds(cs: seq<Candidate>)
    ensures AsSet(RecordIds(cs)) == set c | c in cs :: c.batchRecordId
  {
    forall i | 0 <= i < |cs|
      ensures cs[i].batchRecordId in AsSet(RecordIds(cs)) && RecordIds(cs)[i] == cs[i].batchRecordId && cs[i] in cs
    {
      assert RecordIds(cs)[i] in RecordIds(cs);
    }
  }
}
