/** One whole run on a small database: the premises of the theorems about dry run and apply can be
    met, together and with rows of several kinds. */
module RetentionExample {
  import opened Utf16
  import opened Options
  import opened StableSort
  import opened JsonValue
  import opened EscrowRecords
  import opened EscrowCodec
  import opened EscrowGroups
  import opened EscrowStages
  import opened EscrowWriter
  import opened EscrowSize
  import opened RetentionPolicy
  import opened EscrowLoader
  import opened SnapshotKeys
  import opened EscrowStream
  import opened RetentionApply
  import opened RetentionDatabase
  import opened RetentionApplier
  import opened RetentionExact
  import opened RetentionCandidates
  import opened RetentionDryRun
  import opened RetentionEndToEnd
  import RetentionDue
  import opened RetentionComplete

  const SITE: Text := [115]
  /** 2020-01-01T00:00:00.000Z */
  const CREATED: Text := [50, 48, 50, 48, 45, 48, 49, 45, 48, 49, 84, 48, 48, 58, 48, 48, 58, 48, 48, 46, 48, 48, 48, 90]
  /** 2021-01-01T00:00:00.000Z */
  const CUTOFF: Text := [50, 48, 50, 49, 45, 48, 49, 45, 48, 49, 84, 48, 48, 58, 48, 48, 58, 48, 48, 46, 48, 48, 48, 90]
  const BATCH_ROW_ID: Text := [97]
  const MESSAGE_KEY: Text := [107]

  const PARENT := BatchRow(BATCH_ROW_ID, SITE, [102], [], [98], CREATED)
  const MESSAGE := MessageRow([109], MESSAGE_KEY, [116], BATCH_ROW_ID, CREATED, [], None)
  const NOTICE := NotificationRow([110], [111], [112], MESSAGE_KEY, [], CREATED, CREATED)
  const GROUP := Group(PARENT, [MESSAGE], [], [NOTICE])
  const CANDIDATE := Candidate(SITE, BATCH_ROW_ID, [98], CREATED, 1, 1, 0, 0, true)
  const STORED := Database(map[BATCH_ROW_ID := PARENT], map[MESSAGE.id := MESSAGE], map[], map[NOTICE.id := NOTICE], map[])

  const INPUT := PolicyInput(SITE, CUTOFF, false, None, None)
  const POLICY := Policy(SITE, CUTOFF, true, DEFAULT_BATCH_LIMIT, DEFAULT_MESSAGE_LIMIT, RetentionPolicy.POLICY_VERSION)
  const EVIDENCE := Evidence(0, 0, 0, 0, 0, 0, 0, true, true)

  function SomeHash(): Text { seq(64, _ => 48) }

  function Hash(t: Text): Text { SomeHash() }

  /** Queries that answer from the stored rows. */
  function Queried(): Delegate {
    Delegate((id, siteId) => Some(FoundBatch(STORED, id, siteId)),
             (batch, take) => Some(if batch == BATCH_ROW_ID then [MESSAGE] else []),
             (batch, take) => Some([]),
             (batch, take) => Some(if batch == BATCH_ROW_ID then [NOTICE] else []),
             ids => Some(0))
  }

  lemma Children(batch: Text)
    ensures ChildMessages(STORED, batch) == if batch == BATCH_ROW_ID then {MESSAGE.id} else {}
    ensures ChildErrors(STORED, batch) == {}
    ensures NotificationsOf(STORED, ChildMessageIds(STORED, batch)) == if batch == BATCH_ROW_ID then {NOTICE.id} else {}
  {
    if batch == BATCH_ROW_ID {
      assert MESSAGE.id in ChildMessages(STORED, batch);
      assert MESSAGE_KEY in ChildMessageIds(STORED, batch);
      assert NOTICE.id in NotificationsOf(STORED, ChildMessageIds(STORED, batch));
    }
  }

  lemma Answer(id: Text, take: int)
    requires take >= 1
    ensures IsAnswer([id], {id}, take) && IsAnswer([], {}, take) && Ascending([id]) && Ascending([])
  {
    assert AsSet([id]) == {id} && AsSet([]) == {};
  }

  lemma QueryAnswers(batch: Text, take: int)
    requires take >= 1
    ensures var d := Queried();
            && MessagesAnswer(STORED, batch, take, d.findMessages(batch, take).value) && Ascending(MessageRowIds(d.findMessages(batch, take).value))
            && ErrorsAnswer(STORED, batch, take, d.findErrors(batch, take).value) && Ascending(ErrorRowIds(d.findErrors(batch, take).value))
            && NotificationsAnswer(STORED, batch, take, d.findNotifications(batch, take).value)
            && Ascending(NotificationRowIds(d.findNotifications(batch, take).value))
  {
    hide IsAnswer, ChildMessages, ChildErrors, ChildMessageIds, NotificationsOf, AsSet, Ascending;
    Children(batch);
    Answer(MESSAGE.id, take);
    Answer(NOTICE.id, take);
    assert MessageRowIds([MESSAGE]) == [MESSAGE.id] && MessageRowIds([]) == [];
    assert NotificationRowIds([NOTICE]) == [NOTICE.id] && NotificationRowIds([]) == [] && ErrorRowIds([]) == [];
  }

  lemma QueriesAnswer()
    ensures Answers(Queried(), STORED)
  {
    hide MessagesAnswer, ErrorsAnswer, NotificationsAnswer, Ascending, FoundBatch;
    forall batch, take | take >= 1
      ensures var d := Queried();
              && MessagesAnswer(STORED, batch, take, d.findMessages(batch, take).value) && Ascending(MessageRowIds(d.findMessages(batch, take).value))
              && ErrorsAnswer(STORED, batch, take, d.findErrors(batch, take).value) && Ascending(ErrorRowIds(d.findErrors(batch, take).value))
              && NotificationsAnswer(STORED, batch, take, d.findNotifications(batch, take).value)
              && Ascending(NotificationRowIds(d.findNotifications(batch, take).value))
    {
      QueryAnswers(batch, take);
    }
    forall ids: seq<Text>
      ensures OpenOrphans(STORED, AsSet(ids)) == {}
    {
    }
  }

  lemma StoredIsConsistent()
    ensures Consistent(STORED)
  {
    assert MESSAGE.id in STORED.messages && STORED.messages[MESSAGE.id].messageId == MESSAGE_KEY;
    assert HasMessage(STORED, MESSAGE_KEY);
  }

  /** 202d-01-01T00:00:00.000Z */
  lemma NewYear(t: Text, d: CodeUnit)
    requires 48 <= d <= 57
    requires t == [50, 48, 50, d, 45, 48, 49, 45, 48, 49, 84, 48, 48, 58, 48, 48, 58, 48, 48, 46, 48, 48, 48, 90]
    ensures IsUtcMillis(t)
  {
    assert Pair(t, 5) == 1 && Pair(t, 8) == 1;
    assert Pair(t, 11) == 0 && Pair(t, 14) == 0 && Pair(t, 17) == 0;
  }

  lemma CreatedIsGood()
    ensures IsUtcMillis(CREATED)
  {
    hide IsUtcMillis;
    NewYear(CREATED, 48);
  }

  lemma CutoffIsGood()
    ensures IsUtcMillis(CUTOFF)
  {
    hide IsUtcMillis;
    NewYear(CUTOFF, 49);
  }

  /** Texts that first differ at `i`. */
  lemma {:induction false} LessAt(a: Text, b: Text, i: nat)
    requires i < |a| && i < |b| && a[..i] == b[..i] && a[i] < b[i]
    ensures Less(a, b)
  {
    if i > 0 {
      assert a[0] == a[..i][0] == b[..i][0] == b[0];
      assert a[1..][..i - 1] == a[..i][1..] && b[1..][..i - 1] == b[..i][1..];
      LessAt(a[1..], b[1..], i - 1);
    }
  }

  lemma CreatedBeforeCutoff()
    ensures Less(CREATED, CUTOFF)
  {
    hide Less;
    LessAt(CREATED, CUTOFF, 3);
  }

  lemma PolicyParses()
    ensures ParsePolicy(INPUT) == Some(POLICY) && ValidPolicy(POLICY) && EvidenceOk(EVIDENCE)
  {
    hide IsUtcMillis;
    CutoffIsGood();
  }

  lemma CandidateIsGood()
    ensures CandidateOk(CANDIDATE, POLICY) && CandidatesOk([CANDIDATE], POLICY)
  {
    hide IsUtcMillis, Less;
    CreatedIsGood();
    CreatedBeforeCutoff();
    assert [CANDIDATE][..0] == [] && SumMessages([CANDIDATE]) == 1 && SumRecords([CANDIDATE]) == 3;
    assert RecordIds([CANDIDATE]) == [BATCH_ROW_ID];
  }

  lemma RowsAreGood()
    ensures RowsMatch(CANDIDATE, POLICY, GROUP)
  {
    hide IsUtcMillis, Less;
    CreatedBeforeCutoff();
    assert MESSAGE in GROUP.messages && MESSAGE_KEY in MessageIds(GROUP.messages);
    assert IdsOf(MessageChecks(GROUP.messages, BATCH_ROW_ID)) == [MESSAGE.id];
    assert ErrorChecks(GROUP.errors, BATCH_ROW_ID) == [];
    assert IdsOf(NotificationChecks(GROUP.notifications, MessageIds(GROUP.messages))) == [NOTICE.id];
  }

  lemma GroupIsStored()
    ensures GroupStored(STORED, GROUP)
  {
    hide ChildMessages, ChildErrors, ChildMessageIds, NotificationsOf;
    Children(BATCH_ROW_ID);
    assert MessageRowIds(GROUP.messages) == [MESSAGE.id] && ErrorRowIds(GROUP.errors) == [] && NotificationRowIds(GROUP.notifications) == [NOTICE.id];
    assert AsSet([MESSAGE.id]) == {MESSAGE.id} && AsSet([NOTICE.id]) == {NOTICE.id} && AsSet([]) == {};
  }

  lemma GroupLoadsAgain()
    ensures LoadsAs(Queried(), AsInput(POLICY), [CANDIDATE], [GROUP])
  {
    hide Answers, GroupStored, CandidateOk, CandidatesOk, RowsMatch, GroupLoads, UniqueRows, Flatten, Sort, CandidateBefore, UniqueInGroup, ParsePolicy, ValidPolicy, GroupOk;
    PolicyParses();
    ParsePolicyAgain(INPUT);
    CandidateIsGood();
    RowsAreGood();
    GroupIsStored();
    QueriesAnswer();
    NoOrphans();
    StoredGroupLoads(Queried(), STORED, CANDIDATE, POLICY, GROUP);
    MatchingGroupOk(CANDIDATE, POLICY, GROUP);
    UniqueAlone(GROUP);
    SortOne(CANDIDATE);
  }

  lemma NoOrphans()
    ensures forall ids :: OpenOrphans(STORED, ids) == {}
  {
  }

  // ---------- the file is short

  ghost predicate Short(e: Entry, most: nat) { |e.key| <= 24 && Weight(e.value) <= most }

  lemma {:induction false} ShortEntries(entries: seq<Entry>, most: nat)
    requires forall i :: 0 <= i < |entries| ==> Short(entries[i], most)
    ensures WeightOfEntries(entries) <= |entries| * (148 + most)
  {
    hide Weight;
    if entries != [] {
      ShortEntries(entries[1..], most);
      Distribute(|entries| - 1, 148 + most);
    }
  }

  lemma Distribute(n: nat, m: nat)
    ensures (n + 1) * m == n * m + m
  {
  }

  lemma HeaderIsShort(h: Header)
    requires h.version == 1 && h.siteId == SITE && h.cutoff == CUTOFF && h.policyVersion == 1 && |h.publicManifestHash| == |h.schemaFingerprint| == 64
    ensures LineWeight(HeaderLine(h)) <= 50_000
  {
    ShortEntries(HeaderEntries(h), 400);
  }

  lemma RecordIsShort(r: Record)
    requires r in GroupRecords(0, GROUP)
    ensures LineWeight(RecordLine(r)) <= 50_000
  {
    hide WeightOfEntries, RowEntries;
    RecordOf(r);
    RowIsShort(r.row);
    ShortEntries(RecordEntries(r), 4_500);
  }

  lemma RowIsShort(row: Row)
    requires row in {Batch(PARENT), Message(MESSAGE), Notification(NOTICE)}
    ensures Weight(VObject(RowEntries(row))) <= 4_500
  {
    hide WeightOfEntries;
    ShortEntries(RowEntries(row), 400);
  }

  lemma RecordOf(r: Record)
    requires r in GroupRecords(0, GROUP)
    ensures r in {Record(0, Batch(PARENT)), Record(0, Message(MESSAGE)), Record(0, Notification(NOTICE))}
  {
    assert MessageRecords(0, GROUP.messages) == [Record(0, Message(MESSAGE))] && ErrorRecords(0, GROUP.errors) == [];
    assert NotificationRecords(0, GROUP.notifications) == [Record(0, Notification(NOTICE))];
  }

  lemma FooterIsShort(f: Footer)
    requires |f.contentHash| == 64
    requires 0 <= f.counts.batches <= 3 && 0 <= f.counts.messages <= 3 && 0 <= f.counts.errors <= 3 && 0 <= f.counts.notifications <= 3
    ensures LineWeight(FooterLine(f)) <= 50_000
  {
    hide WeightOfEntries;
    ShortEntries(CountEntries(f.counts), 400);
    assert Weight(VObject(CountEntries(f.counts))) <= 3_000;
    ShortEntries(FooterEntries(f), 3_000);
  }

  function IssuedHeader(): Header { HeaderFor(POLICY, IssuedManifest(POLICY, [CANDIDATE], Hash), SomeHash()) }

  lemma FlatGroup()
    ensures Flatten([GROUP]) == GroupRecords(0, GROUP) && |Flatten([GROUP])| == 3
  {
    ReindexedGroup(0, GROUP);
    assert |MessageRecords(0, GROUP.messages)| == 1 && |ErrorRecords(0, GROUP.errors)| == 0 && |NotificationRecords(0, GROUP.notifications)| == 1;
  }

  lemma {:induction false} FewLines(lines: seq<Line>)
    requires |lines| <= 5 && forall i :: 0 <= i < |lines| ==> LineWeight(lines[i]) <= 50_000
    ensures TotalWeight(lines) <= 50_001 * |lines|
  {
    hide LineWeight;
    if lines != [] { FewLines(lines[..|lines| - 1]); }
  }

  lemma HashIsGood()
    ensures IsHash(SomeHash()) && forall t :: IsHash(Hash(t))
  {
  }

  lemma HeaderIs()
    ensures var h := IssuedHeader();
            h.version == 1 && h.siteId == SITE && h.cutoff == CUTOFF && h.policyVersion == 1 && |h.publicManifestHash| == |h.schemaFingerprint| == 64
  {
    hide ManifestHash;
    HashIsGood();
    HashesAreHashes(POLICY.siteId, POLICY.cutoff, POLICY.policyVersion, Published([CANDIDATE]), Hash);
  }

  lemma FileIsShort()
    ensures BytesOk(RawsOf(FileLines(IssuedHeader(), Flatten([GROUP]), Hash)), HARD_LIMITS)
  {
    hide LineWeight, Flatten, GroupRecords, ManifestHash, BodyLines, RecordLines, CountRecords, Content, RawsOf, BytesOk, IssuedHeader;
    HeaderIs();
    var h, records := IssuedHeader(), Flatten([GROUP]);
    FlatGroup();
    var lines := FileLines(h, records, Hash);
    var f := FooterFor(h, records, Hash);
    CountsSum(records);
    HeaderIsShort(h);
    FooterIsShort(f);
    LinesAre(h, records);
    forall i | 0 <= i < |lines|
      ensures LineWeight(lines[i]) <= 50_000
    {
      if 0 < i < |lines| - 1 { RecordIsShort(records[i - 1]); }
    }
    FewLines(lines);
    ShortLinesFit(lines, HARD_LIMITS);
  }

  lemma LinesAre(h: Header, records: seq<Record>)
    ensures var lines := FileLines(h, records, Hash);
            && |lines| == |records| + 2 && lines[0] == HeaderLine(h) && lines[|lines| - 1] == FooterLine(FooterFor(h, records, Hash))
            && forall i :: 0 < i < |lines| - 1 ==> lines[i] == RecordLine(records[i - 1])
  {
    hide FooterFor;
  }

  lemma DatesAreGood()
    ensures DatesOk(Flatten([GROUP]))
  {
    hide IsUtcMillis, GroupRecords;
    FlatGroup();
    CreatedIsGood();
    forall r | r in GroupRecords(0, GROUP)
      ensures RowDatesOk(r.row)
    {
      RecordOf(r);
    }
  }

  // ---------- queries that answer about every consistent database

  /** The elements of a set in some order. */
  ghost function Elements(s: set<Text>): (r: seq<Text>)
    ensures NoDuplicates(r) && forall x :: x in r <==> x in s
  {
    if s == {} then []
    else
      var x :| x in s;
      [x] + Elements(s - {x})
  }

  lemma LessIsOrder()
    ensures StrictWeakOrder(Less)
  {
    hide Less;
    forall a: Text, b: Text, c: Text
      ensures Less(a, b) ==> !Less(b, a)
      ensures Less(a, b) && Less(b, c) ==> Less(a, c)
      ensures Less(a, c) ==> Less(a, b) || Less(b, c)
    {
      LessOrder(a, b, c);
      LessOrder(b, a, c);
    }
  }

  ghost function Listing(s: set<Text>): (r: seq<Text>)
    ensures Ascending(r) && AsSet(r) == s && |r| == |s|
  {
    var some := Elements(s);
    var r := Sort(Less, some);
    ListingAscends(some);
    assert AsSet(r) == s;
    SetOfDistinct(r);
    r
  }

  lemma {:induction false} ListingAscends(s: seq<Text>)
    requires NoDuplicates(s)
    ensures var r := Sort(Less, s); Ascending(r) && NoDuplicates(r) && forall x :: x in r <==> x in s
  {
    hide Less, Sort;
    LessIsOrder();
    SortSorted(Less, s);
    var r := Sort(Less, s);
    SameElements(s, r);
    SameMultisetDistinct(s, r);
    forall i, j | 0 <= i < j < |r|
      ensures Less(r[i], r[j])
    {
      LessOrder(r[i], r[j], r[i]);
    }
  }

  ghost function Front(s: set<Text>, take: int): (r: seq<Text>)
    ensures forall x <- r :: x in s
    ensures take >= 1 ==> IsAnswer(r, s, take) && Ascending(r)
  {
    var all := Listing(s);
    AscendingUnique(all);
    if take < 0 then [] else if take < |all| then all[..take] else all
  }

  lemma MessagesListed(db: Database, ids: seq<Text>, rows: seq<MessageRow>)
    requires Consistent(db) && |rows| == |ids| && forall i :: 0 <= i < |ids| ==> ids[i] in db.messages && rows[i] == db.messages[ids[i]]
    ensures MessageRowIds(rows) == ids && forall r <- rows :: r.id in db.messages && db.messages[r.id] == r
  {
    assert forall i :: 0 <= i < |ids| ==> rows[i].id == ids[i];
  }

  ghost function MessagesIn(db: Database, batch: Text, take: int): (r: seq<MessageRow>)
    ensures Consistent(db) && take >= 1 ==> MessagesAnswer(db, batch, take, r) && Ascending(MessageRowIds(r))
  {
    hide Consistent, Ascending, IsAnswer, AsSet, ChildMessageIds;
    var ids := Front(ChildMessages(db, batch), take);
    assert forall i :: 0 <= i < |ids| ==> ids[i] in ids;
    var r := seq(|ids|, i requires 0 <= i < |ids| => db.messages[ids[i]]);
    if Consistent(db) then MessagesListed(db, ids, r); r else r
  }

  lemma ErrorsListed(db: Database, ids: seq<Text>, rows: seq<ErrorRow>)
    requires Consistent(db) && |rows| == |ids| && forall i :: 0 <= i < |ids| ==> ids[i] in db.errors && rows[i] == db.errors[ids[i]]
    ensures ErrorRowIds(rows) == ids && forall r <- rows :: r.id in db.errors && db.errors[r.id] == r
  {
    assert forall i :: 0 <= i < |ids| ==> rows[i].id == ids[i];
  }

  ghost function ErrorsIn(db: Database, batch: Text, take: int): (r: seq<ErrorRow>)
    ensures Consistent(db) && take >= 1 ==> ErrorsAnswer(db, batch, take, r) && Ascending(ErrorRowIds(r))
  {
    hide Consistent, Ascending, IsAnswer, AsSet, ChildMessageIds;
    var ids := Front(ChildErrors(db, batch), take);
    assert forall i :: 0 <= i < |ids| ==> ids[i] in ids;
    var r := seq(|ids|, i requires 0 <= i < |ids| => db.errors[ids[i]]);
    if Consistent(db) then ErrorsListed(db, ids, r); r else r
  }

  lemma NotificationsListed(db: Database, ids: seq<Text>, rows: seq<NotificationRow>)
    requires Consistent(db) && |rows| == |ids| && forall i :: 0 <= i < |ids| ==> ids[i] in db.notifications && rows[i] == db.notifications[ids[i]]
    ensures NotificationRowIds(rows) == ids && forall r <- rows :: r.id in db.notifications && db.notifications[r.id] == r
  {
    assert forall i :: 0 <= i < |ids| ==> rows[i].id == ids[i];
  }

  ghost function NotificationsIn(db: Database, batch: Text, take: int): (r: seq<NotificationRow>)
    ensures Consistent(db) && take >= 1 ==> NotificationsAnswer(db, batch, take, r) && Ascending(NotificationRowIds(r))
  {
    hide Consistent, Ascending, IsAnswer, AsSet, ChildMessageIds;
    var ids := Front(NotificationsOf(db, ChildMessageIds(db, batch)), take);
    assert forall i :: 0 <= i < |ids| ==> ids[i] in ids;
    var r := seq(|ids|, i requires 0 <= i < |ids| => db.notifications[ids[i]]);
    if Consistent(db) then NotificationsListed(db, ids, r); r else r
  }

  /** Every consistent database has queries that never fail. */
  ghost function Querying(db: Database): (d: Delegate)
    ensures Consistent(db) ==> Answers(d, db)
  {
    hide Consistent, Ascending, MessagesAnswer, ErrorsAnswer, NotificationsAnswer, FoundBatch;
    Delegate((id, siteId) => Some(FoundBatch(db, id, siteId)),
             (batch, take) => Some(MessagesIn(db, batch, take)),
             (batch, take) => Some(ErrorsIn(db, batch, take)),
             (batch, take) => Some(NotificationsIn(db, batch, take)),
             ids => Some(|OpenOrphans(db, AsSet(ids))|))
  }

  function Batches(): seq<Candidate> { [CANDIDATE] }

  function Groups(): seq<Group> { [GROUP] }

  /** This result of a dry run, and the context that apply makes of it. */
  ghost predicate RunOf(r: DryRunResult, c: Context) {
    && Coordinated(INPUT, EVIDENCE, Batches(), Queried(), SomeHash(), r, Groups(), Hash)
    && ContextParses(INPUT.(apply := true), EVIDENCE, r.manifest, ArtifactFor(r.manifest.siteId, r.manifest.hash, r.escrow, Batches(), Hash), c, Hash)
  }

  lemma DryRunSucceeds() returns (r: DryRunResult, c: Context)
    ensures RunOf(r, c)
  {
    hide Coordinated, ContextParses, Sort, CandidateBefore, IsHash, Flatten, IssuedManifest, FileLines, RawsOf, BytesOk, DatesOk, LoadsAs, ParsePolicy;
    PolicyParses();
    GroupLoadsAgain();
    HashIsGood();
    FileIsShort();
    DatesAreGood();
    DryRunExactly(INPUT, EVIDENCE, Batches(), Queried(), SomeHash(), Groups(), Hash);
    r :| Coordinated(INPUT, EVIDENCE, Batches(), Queried(), SomeHash(), r, Groups(), Hash);
    DryRunIsApplicable(INPUT, EVIDENCE, Batches(), Queried(), SomeHash(), r, Groups(), EVIDENCE, Hash);
    c :| ContextParses(INPUT.(apply := true), EVIDENCE, r.manifest, ArtifactFor(r.manifest.siteId, r.manifest.hash, r.escrow, Batches(), Hash), c, Hash);
  }

  /** The queries of each transaction, on whatever consistent database it finds. */
  ghost function Transactions(): (queries: Queries)
    ensures forall i, base :: Consistent(base) ==> Answers(queries(i, base), base)
  {
    hide Consistent, Answers;
    (i, base) => Querying(base)
  }

  lemma FaithfulQueries()
    ensures Faithful(Queried(), STORED)
  {
    hide Faithful, Queried, Ascending;
    QueriesAnswer();
  }

  lemma StoredAlone()
    ensures DifferentBatches(Groups()) && forall i :: 0 <= i < |Groups()| ==> GroupStored(STORED, Groups()[i])
  {
    GroupIsStored();
  }

  /** A dry run with a batch succeeds, apply accepts its output, the run completes, and nothing is
      left: the premises of the theorems on dry run and apply hold together. */
  lemma WholeRun() returns (r: DryRunResult, c: Context, outcome: ApplyOutcome)
    ensures RunOf(r, c) && Consistent(STORED) && Faithful(Queried(), STORED) && FaithfulInTurn(Transactions(), Groups(), STORED)
    ensures outcome == Completed(ReceiptOf(c)) && RunReport(Transactions(), c, Groups(), |Groups()|, STORED, outcome, false)
    ensures WithoutAll(STORED, Groups()) == Minus(STORED, Flatten(Groups())) == Database(map[], map[], map[], map[], map[])
  {
    hide Coordinated, ContextParses, Answers, Faithful, Consistent, GroupStored, RunReport, Sort, CandidateBefore, IsHash, Flatten, WithoutAll, Minus, ReceiptOf, ParsePolicy,
         FaithfulInTurn;
    r, c := DryRunSucceeds();
    StoredIsConsistent();
    StoredAlone();
    FaithfulQueries();
    HashIsGood();
    AnswersInTurn(Transactions(), STORED, Groups());
    RunCompletes(INPUT, EVIDENCE, Batches(), Queried(), SomeHash(), r, Groups(), EVIDENCE, c, STORED, Transactions(), Hash);
    outcome := Completed(ReceiptOf(c));
    UndisturbedApply(INPUT, EVIDENCE, Batches(), Queried(), SomeHash(), r, Groups(), EVIDENCE, c, STORED, Transactions(), 1, outcome, Hash);
    assert Groups()[..1] == Groups();
    NothingLeft();
  }

  lemma NothingLeft()
    ensures WithoutAll(STORED, Groups()) == Database(map[], map[], map[], map[], map[])
  {
    assert Groups()[..0] == [];
    assert MessageRowIds(GROUP.messages) == [MESSAGE.id] && ErrorRowIds(GROUP.errors) == [] && NotificationRowIds(GROUP.notifications) == [NOTICE.id];
    assert AsSet([MESSAGE.id]) == {MESSAGE.id} && AsSet([NOTICE.id]) == {NOTICE.id} && AsSet([]) == {};
  }

  // ---------- every database has queries about its batches

  ghost function BatchesDue(db: Database, siteId: Text, cutoff: Text, take: int): (ss: seq<BatchSummary>)
    ensures take >= 1 ==> BatchesAnswer(db, siteId, cutoff, take, ss)
  {
    hide IsAnswer, ChildMessages, ChildErrors;
    var ids := Front(Due(db, siteId, cutoff), take);
    assert forall i :: 0 <= i < |ids| ==> ids[i] in ids;
    var ss := seq(|ids|, i requires 0 <= i < |ids| =>
      BatchSummary(ids[i], db.batches[ids[i]].batchId, db.batches[ids[i]].created, |ChildMessages(db, ids[i])|, |ChildErrors(db, ids[i])|));
    assert SummaryRowIds(ss) == ids;
    ss
  }

  ghost function SummariesIn(db: Database, batch: Text, take: int): (rows: seq<MessageSummary>)
    ensures take >= 1 ==> SummariesAnswer(db, batch, take, rows)
  {
    hide IsAnswer, NotificationsOf;
    var ids := Front(ChildMessages(db, batch), take);
    assert forall i :: 0 <= i < |ids| ==> ids[i] in ids;
    var rows := seq(|ids|, i requires 0 <= i < |ids| =>
      MessageSummary(db.messages[ids[i]].messageId, |NotificationsOf(db, {db.messages[ids[i]].messageId})|));
    assert SummariesOf(db, ids, rows);
    rows
  }

  ghost function Summarizing(db: Database): (q: CandidateQueries)
    ensures Truthful(q, db) && NeverThrows(q)
  {
    hide BatchesAnswer, SummariesAnswer;
    CandidateQueries((siteId, cutoff, take) => Some(BatchesDue(db, siteId, cutoff, take)),
                     (batch, take) => Some(SummariesIn(db, batch, take)),
                     ids => Some(|OpenOrphans(db, AsSet(ids))|))
  }

  /** The stored batch can be retired, with room for its five lines. */
  lemma BatchIsRetirable()
    ensures Consistent(STORED) && Retires(STORED, INPUT, Groups(), SomeHash(), 5, Hash)
    ensures Truthful(Summarizing(STORED), STORED) && NeverThrows(Summarizing(STORED)) && Answers(Querying(STORED), STORED)
  {
    hide Truthful, NeverThrows, Answers, Consistent, GroupStored, FileFits, Flatten, ParsePolicy, Retirable, Listed, Due, GroupRecords;
    StoredIsConsistent();
    PolicyParses();
    StoredIsRetirable();
    DueIsBatch();
    GroupIsStored();
    ListedAlone();
    FlatGroup();
    ShortFileFits();
  }

  lemma StoredIsRetirable()
    ensures Retirable(STORED, POLICY)
  {
    hide RowsFit, Due, RetentionDue.MessagesIn, RetentionDue.ErrorsIn, RetentionDue.NotificationsIn, RetentionDue.MessageIdsIn, OpenOrphans;
    DueIsBatch();
    RowsAreFew();
    RowsAreFit();
  }

  lemma DueIsBatch()
    ensures Due(STORED, SITE, CUTOFF) == {BATCH_ROW_ID}
  {
    hide Less;
    CreatedBeforeCutoff();
  }

  lemma RowsAreFew()
    ensures RetentionDue.MessagesIn(STORED, {BATCH_ROW_ID}) == {MESSAGE.id} && RetentionDue.ErrorsIn(STORED, {BATCH_ROW_ID}) == {}
    ensures RetentionDue.NotificationsIn(STORED, {BATCH_ROW_ID}) == {NOTICE.id}
    ensures OpenOrphans(STORED, RetentionDue.MessageIdsIn(STORED, {BATCH_ROW_ID})) == {}
  {
    hide ChildMessages, ChildErrors, ChildMessageIds, NotificationsOf, RetentionDue.MessagesIn, RetentionDue.ErrorsIn, RetentionDue.MessageIdsIn,
         RetentionDue.NotificationsIn;
    Children(BATCH_ROW_ID);
    RetentionDue.OneBatch(STORED, BATCH_ROW_ID);
    NoOrphans();
  }

  lemma RowsAreFit()
    ensures RowsFit(STORED, {BATCH_ROW_ID})
  {
    hide IsUtcMillis, RetentionDue.MessagesIn, RetentionDue.ErrorsIn, RetentionDue.NotificationsIn;
    CreatedIsGood();
    RowsAreFew();
  }

  lemma ListedAlone()
    ensures GroupStored(STORED, GROUP) ==> Due(STORED, SITE, CUTOFF) == {BATCH_ROW_ID} ==> Listed(STORED, POLICY, Groups())
  {
    hide GroupStored, Due, Less;
    assert RetentionDue.ParentIds(Groups()) == [BATCH_ROW_ID] && AsSet([BATCH_ROW_ID]) == {BATCH_ROW_ID};
  }

  lemma ShortFileFits()
    ensures FileFits(POLICY, Groups(), SomeHash(), Hash)
  {
    hide BytesOk, RawsOf, FileLines, IssuedManifest, Flatten;
    FileIsShort();
    assert CandidatesOf(Groups()) == [CANDIDATE];
  }

  // ---------- a run that finds no batch

  lemma EmptyFileFits(h: Header, digest: Digest)
    requires h.version == 1 && |h.siteId| <= 100_000 && |h.cutoff| == 24 && h.policyVersion == 1 && |h.publicManifestHash| == |h.schemaFingerprint| == 64
    requires forall t :: IsHash(digest(t))
    ensures BytesOk(RawsOf(FileLines(h, [], digest)), HARD_LIMITS)
  {
    hide WeightOfEntries, BytesOk, RawsOf, BodyLines, Content, TotalWeight;
    ShortEntries(HeaderEntries(h), 600_100);
    assert LineWeight(HeaderLine(h)) <= 13_000_000;
    var f := FooterFor(h, [], digest);
    FooterIsShort(f);
    var lines := FileLines(h, [], digest);
    EmptyFileLines(h, digest);
    TwoLines(HeaderLine(h), FooterLine(f));
    ShortLinesFit(lines, HARD_LIMITS);
  }

  lemma TwoLines(a: Line, b: Line)
    ensures TotalWeight([a, b]) == LineWeight(a) + 1 + LineWeight(b) + 1
  {
    hide LineWeight;
    assert [a, b][..1] == [a] && [a][..0] == [];
    assert TotalWeight([a]) == LineWeight(a) + 1;
  }

  lemma EmptyFileLines(h: Header, digest: Digest)
    ensures FileLines(h, [], digest) == [HeaderLine(h), FooterLine(FooterFor(h, [], digest))]
  {
    hide FooterFor;
    assert RecordLines([]) == [];
  }

  /** With good evidence and a site id of reasonable length, a run that finds no batch writes an
      escrow, whatever the queries, and then has no artifact. */
  lemma EmptyRun(input: PolicyInput, e: Evidence, d: Delegate, schemaFingerprint: Text, digest: Digest) returns (r: DryRunResult)
    requires ParsePolicy(input).Some? && !input.apply && |input.siteId| <= 100_000 && EvidenceOk(e)
    requires IsHash(schemaFingerprint) && forall t :: IsHash(digest(t))
    ensures Coordinated(input, e, [], d, schemaFingerprint, r, [], digest)
    ensures !ArtifactBuildable(r.manifest, r.escrow, [], digest)
  {
    hide Coordinated, BytesOk, RawsOf, FileLines, ManifestHash, EvidenceOk, IsStrict, IsUtcMillis;
    ParsePolicyAgain(input);
    var p := ParsePolicy(input).value;
    assert Published([]) == [] && RecordIds([]) == [] && Flatten([]) == [];
    assert LoadsAs(d, AsInput(p), [], []);
    HashesAreHashes(p.siteId, p.cutoff, p.policyVersion, [], digest);
    CutoffLength(p.cutoff);
    EmptyFileFits(HeaderFor(p, IssuedManifest(p, [], digest), schemaFingerprint), digest);
    DryRunExactly(input, e, [], d, schemaFingerprint, [], digest);
    r :| Coordinated(input, e, [], d, schemaFingerprint, r, [], digest);
    BuildableExactly(input, e, [], d, schemaFingerprint, r, [], digest);
  }

  lemma CutoffLength(t: Text)
    ensures IsUtcMillis(t) ==> |t| == 24
  {
  }
}
