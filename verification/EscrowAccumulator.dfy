/** The streaming verifier: an object that is fed one line at a time. It accepts a line exactly
    when the lines so far are the beginning of a correct escrow. */
module EscrowAccumulator {
  import opened Utf16
  import opened Options
  import opened JsonGrammar
  import opened EscrowRecords
  import opened EscrowCodec
  import opened EscrowGroups
  import opened EscrowStages

  datatype Phase = AwaitHeader | AtParent | AtMessages | AtErrors | AtNotifications

  datatype Outcome = Rejected | Accepted | Finished(result: Verification)

  function KindRank(kind: Kind): int {
    match kind
    case BatchKind => 0
    case MessageKind => 1
    case ErrorKind => 2
    case NotificationKind => 3
  }

  function PhaseRank(phase: Phase): int {
    match phase
    case AtParent => 0
    case AtMessages => 1
    case AtErrors => 2
    case AtNotifications => 3
    case AwaitHeader => 4
  }

  predicate LimitsOk(limits: Limits) {
    && 0 < limits.lineBytes <= HARD_LIMITS.lineBytes && 0 < limits.totalBytes <= HARD_LIMITS.totalBytes
    && 0 < limits.records <= HARD_LIMITS.records && 0 < limits.batches <= HARD_LIMITS.batches
    && 0 < limits.messages <= HARD_LIMITS.messages
  }

  // ---------- what the fields mean

  ghost function GroupsIn(stage: Stage): seq<Group> { if stage.Empty? then [] else stage.groups }

  ghost function HeaderIn(stage: Stage): Option<Header> { if stage.Empty? then None else Some(stage.header) }

  ghost function PhaseOf(stage: Stage): Phase {
    if stage.Empty? then AwaitHeader
    else if stage.groups == [] then AtParent
    else if Last(stage.groups).notifications != [] then AtNotifications
    else if Last(stage.groups).errors != [] then AtErrors
    else AtMessages
  }

  /** The ids of the current group's rows of one kind. */
  ghost function CurrentIds(groups: seq<Group>, kind: Kind): seq<Text> {
    if groups == [] then [] else
    match kind
    case BatchKind => [Last(groups).parent.id]
    case MessageKind => MessageRowIds(Last(groups).messages)
    case ErrorKind => ErrorRowIds(Last(groups).errors)
    case NotificationKind => NotificationRowIds(Last(groups).notifications)
  }

  ghost predicate LastIdsAre(lastIds: map<Kind, Text>, groups: seq<Group>) {
    forall kind ::
      && (kind in lastIds <==> CurrentIds(groups, kind) != [])
      && (kind in lastIds ==> lastIds[kind] == CurrentIds(groups, kind)[|CurrentIds(groups, kind)| - 1])
  }

  function SeenOf(seen: map<Kind, set<Text>>, kind: Kind): set<Text> { if kind in seen then seen[kind] else {} }

  ghost predicate SeenAre(seen: map<Kind, set<Text>>, records: seq<Record>) {
    forall kind :: SeenOf(seen, kind) == Ids(records, kind)
  }

  lemma {:induction false} CountsAddUp(groups: seq<Group>)
    ensures var c := CountsOf(groups); c.batches + c.messages + c.errors + c.notifications == |Flatten(groups)|
  {
    if groups != [] {
      CountsAddUp(Init(groups));
      CountsSnoc(Init(groups), Last(groups));
      FlattenSnoc(Init(groups), Last(groups));
      assert groups == Init(groups) + [Last(groups)];
    }
  }

  ghost function NewKeys(r: Record, kind: Kind): set<Text> {
    if kind == KindOfRow(r.row) && NaturalKey(r.row).Some? then {NaturalKey(r.row).value} else {}
  }

  lemma IdsSnoc(records: seq<Record>, r: Record)
    ensures forall kind :: Ids(records + [r], kind) == Ids(records, kind) + if kind == KindOfRow(r.row) then {RowId(r.row)} else {}
    ensures forall kind :: EscrowGroups.Keys(records + [r], kind) == EscrowGroups.Keys(records, kind) + NewKeys(r, kind)
  {
    assert r in records + [r];
    assert forall x :: x in records + [r] <==> x in records || x == r;
  }

  /** The fields that describe the records, as one value. */
  datatype Tally = Tally(
    counts: Counts, manifestIndex: int, phase: Phase, lastIds: map<Kind, Text>, seenRowIds: map<Kind, set<Text>>,
    seenMessageIds: set<Text>, seenErrorMessageIds: set<Text>, seenNotificationIds: set<Text>,
    currentBatchId: Option<Text>, currentMessageIds: set<Text>)

  /** The seen sets hold what the records hold. */
  ghost predicate TalliesSeen(t: Tally, records: seq<Record>) {
    && SeenAre(t.seenRowIds, records)
    && t.seenMessageIds == EscrowGroups.Keys(records, MessageKind)
    && t.seenErrorMessageIds == EscrowGroups.Keys(records, ErrorKind)
    && t.seenNotificationIds == EscrowGroups.Keys(records, NotificationKind)
  }

  /** The other fields say where the current group stands. */
  ghost predicate TalliesPlace(t: Tally, groups: seq<Group>) {
    && t.counts == CountsOf(groups)
    && t.manifestIndex == |groups| - 1
    && LastIdsAre(t.lastIds, groups)
    && t.currentBatchId == (if groups == [] then None else Some(Last(groups).parent.id))
    && t.currentMessageIds == (if groups == [] then {} else MessageIds(Last(groups).messages))
  }

  ghost predicate Tallies(t: Tally, stage: Stage) {
    && TalliesPlace(t, GroupsIn(stage))
    && TalliesSeen(t, Flatten(GroupsIn(stage)))
    && t.phase == PhaseOf(stage)
  }

  // ---------- how one record changes the tally

  /** The tally after `startManifest` and before the parent row. */
  ghost predicate Started(t: Tally, stage: Stage)
    requires stage.Open?
  {
    && t.counts == CountsOf(stage.groups)
    && t.manifestIndex == |stage.groups| && t.phase == AtParent && t.lastIds == map[]
    && t.currentBatchId == None && t.currentMessageIds == {}
    && TalliesSeen(t, Flatten(stage.groups))
  }

  function PhaseAfter(kind: Kind): Phase {
    match kind
    case BatchKind => AtMessages
    case MessageKind => AtMessages
    case ErrorKind => AtErrors
    case NotificationKind => AtNotifications
  }

  /** What the `consume...Record` methods do to the fields. */
  function CountRow(t: Tally, row: Row): Tally {
    var kind := KindOfRow(row);
    t.(counts := CountOne(t.counts, kind), phase := PhaseAfter(kind), lastIds := t.lastIds[kind := RowId(row)],
       seenRowIds := t.seenRowIds[kind := SeenOf(t.seenRowIds, kind) + {RowId(row)}],
       seenMessageIds := if row.Message? then t.seenMessageIds + {row.message.messageId} else t.seenMessageIds,
       seenErrorMessageIds := if row.Failed? then t.seenErrorMessageIds + {row.failure.messageId} else t.seenErrorMessageIds,
       seenNotificationIds := if row.Notification? then t.seenNotificationIds + {row.notification.notificationId} else t.seenNotificationIds,
       currentBatchId := if row.Batch? then Some(row.batch.id) else t.currentBatchId,
       currentMessageIds := if row.Message? then t.currentMessageIds + {row.message.messageId} else t.currentMessageIds)
  }

  lemma SeenCounted(t: Tally, records: seq<Record>, r: Record)
    requires TalliesSeen(t, records)
    ensures TalliesSeen(CountRow(t, r.row), records + [r])
  {
    IdsSnoc(records, r);
  }

  lemma CurrentIdsAdd(groups: seq<Group>, r: Record, kind: Kind)
    requires !r.row.Batch? && Add(groups, r).Some?
    ensures CurrentIds(Add(groups, r).value, kind) == CurrentIds(groups, kind) + if kind == KindOfRow(r.row) then [RowId(r.row)] else []
  {
    var g, g' := Last(groups), Last(Add(groups, r).value);
    match r.row
    case Message(m) => assert MessageRowIds(g'.messages) == MessageRowIds(g.messages) + [m.id];
    case Failed(e) => assert ErrorRowIds(g'.errors) == ErrorRowIds(g.errors) + [e.id];
    case Notification(n) => assert NotificationRowIds(g'.notifications) == NotificationRowIds(g.notifications) + [n.id];
  }

  lemma LastIdsAdd(lastIds: map<Kind, Text>, groups: seq<Group>, after: seq<Group>, r: Record)
    requires LastIdsAre(lastIds, groups)
    requires forall kind :: CurrentIds(after, kind) == CurrentIds(groups, kind) + if kind == KindOfRow(r.row) then [RowId(r.row)] else []
    ensures LastIdsAre(lastIds[KindOfRow(r.row) := RowId(r.row)], after)
  {
  }

  lemma MessageIdsSnoc(rows: seq<MessageRow>, m: MessageRow)
    ensures MessageIds(rows + [m]) == MessageIds(rows) + {m.messageId}
  {
    assert m in rows + [m];
    assert forall x <- rows :: x in rows + [m];
  }

  lemma PlaceCounted(t: Tally, groups: seq<Group>, r: Record)
    requires TalliesPlace(t, groups) && !r.row.Batch? && Add(groups, r).Some?
    ensures TalliesPlace(CountRow(t, r.row), Add(groups, r).value)
  {
    hide CurrentIds, CountsOf, LastIdsAre;
    CountsAdd(groups, r);
    forall kind
      ensures CurrentIds(Add(groups, r).value, kind) == CurrentIds(groups, kind) + if kind == KindOfRow(r.row) then [RowId(r.row)] else []
    {
      CurrentIdsAdd(groups, r, kind);
    }
    LastIdsAdd(t.lastIds, groups, Add(groups, r).value, r);
    if r.row.Message? { MessageIdsSnoc(Last(groups).messages, r.row.message); }
  }

  lemma PhaseCounted(h: Header, groups: seq<Group>, r: Record)
    requires Add(groups, r).Some?
    ensures PhaseOf(Open(h, Add(groups, r).value)) == PhaseAfter(KindOfRow(r.row))
  {
  }

  lemma ChildCounted(t: Tally, stage: Stage, r: Record)
    requires stage.Open? && Tallies(t, stage) && !r.row.Batch? && Add(stage.groups, r).Some?
    ensures Tallies(CountRow(t, r.row), Open(stage.header, Add(stage.groups, r).value))
  {
    hide TalliesSeen, TalliesPlace, Flatten, Add;
    PhaseCounted(stage.header, stage.groups, r);
    PlaceCounted(t, stage.groups, r);
    SeenCounted(t, Flatten(stage.groups), r);
    FlattenAdd(stage.groups, r);
  }

  lemma BatchCounted(t: Tally, stage: Stage, r: Record)
    requires stage.Open? && Started(t, stage) && r.row.Batch? && Add(stage.groups, r).Some?
    ensures Tallies(CountRow(t, r.row), Open(stage.header, Add(stage.groups, r).value))
  {
    CountsAdd(stage.groups, r);
    SeenCounted(t, Flatten(stage.groups), r);
    FlattenAdd(stage.groups, r);
  }

  // ---------- the checks of a record, in terms of the tally

  lemma ChildPlace(t: Tally, stage: Stage, r: Record)
    requires stage.Open? && Tallies(t, stage) && !r.row.Batch? && r.manifestIndex >= 0
    ensures Add(stage.groups, r).Some? <==>
            r.manifestIndex == t.manifestIndex && t.currentBatchId.Some? && KindRank(KindOfRow(r.row)) >= PhaseRank(t.phase)
  {
  }

  /** The id ascends within its kind, and neither it nor the other unique column was seen. */
  predicate IdAscends(t: Tally, row: Row) {
    KindOfRow(row) in t.lastIds ==> Less(t.lastIds[KindOfRow(row)], RowId(row))
  }

  predicate IsNew(t: Tally, row: Row) {
    && RowId(row) !in SeenOf(t.seenRowIds, KindOfRow(row))
    && match row
       case Batch(_) => true
       case Message(m) => m.messageId !in t.seenMessageIds
       case Failed(e) => e.messageId !in t.seenErrorMessageIds
       case Notification(n) => n.notificationId !in t.seenNotificationIds
  }

  lemma NewIsFresh(t: Tally, records: seq<Record>, row: Row)
    requires TalliesSeen(t, records)
    ensures IsNew(t, row) <==> Fresh(records, row)
  {
  }

  /** The reference of a child row to its group. */
  predicate Refers(t: Tally, row: Row) {
    match row
    case Batch(_) => true
    case Message(m) => Some(m.newsletterBatchId) == t.currentBatchId
    case Failed(e) => Some(e.newsletterBatchId) == t.currentBatchId
    case Notification(n) => n.messageId in t.currentMessageIds
  }

  /** The last id of the row's kind in the current group, if any. */
  lemma AscendsIfFollows(t: Tally, groups: seq<Group>, row: Row)
    requires LastIdsAre(t.lastIds, groups)
    ensures IdAscends(t, row) <==> Follows(CurrentIds(groups, KindOfRow(row)), RowId(row))
  {
    hide Less, CurrentIds, RowId;
  }

  lemma ChildFits(t: Tally, stage: Stage, r: Record)
    requires stage.Open? && Tallies(t, stage) && !r.row.Batch? && Add(stage.groups, r).Some?
    ensures Fits(stage.groups, r, stage.header.siteId) <==> IdAscends(t, r.row) && Refers(t, r.row) && IsNew(t, r.row)
  {
    hide TalliesSeen, Fresh, IsNew, IdAscends, Follows, Flatten, LastIdsAre, CountsOf;
    NewIsFresh(t, Flatten(stage.groups), r.row);
    AscendsIfFollows(t, stage.groups, r.row);
  }

  lemma BatchFits(t: Tally, stage: Stage, r: Record)
    requires stage.Open? && Started(t, stage) && r.row.Batch? && Add(stage.groups, r).Some?
    ensures Fits(stage.groups, r, stage.header.siteId) <==> r.row.batch.siteId == stage.header.siteId && IsNew(t, r.row)
  {
    NewIsFresh(t, Flatten(stage.groups), r.row);
  }

  // ---------- the whole working state

  datatype State = State(totalRecords: int, header: Option<Header>, tally: Tally)

  ghost predicate Reflects(s: State, stage: Stage) {
    s.totalRecords == |Flatten(GroupsIn(stage))| && s.header == HeaderIn(stage) && Tallies(s.tally, stage)
  }

  datatype View = View(failed: bool, seenFooter: bool, resolved: Option<Verification>, totalBytes: int, hashed: Text, state: State)

  /** The accepted lines make the stage; the result is that of its footer; and as long as more
      lines may come, the working fields describe the stage. */
  ghost predicate Good(v: View, raws: seq<Raw>, stage: Stage, limits: Limits, digest: Digest) {
    && LimitsOk(limits)
    && IsStage(raws, stage, limits, digest)
    && (v.seenFooter <==> stage.Closed?)
    && v.resolved == (if stage.Closed? then Some(Verification(stage.header, stage.footer.contentHash, stage.footer.counts)) else None)
    && (!v.failed && !v.seenFooter ==> v.totalBytes == TotalBytes(raws) && v.hashed == Content(raws) && Reflects(v.state, stage))
  }

  lemma HeaderReflects(s: State, stage: Stage, h: Header)
    requires Reflects(s, stage) && !stage.Closed?
    ensures s.header.None? <==> NextStage(stage, HeaderLine(h)).Some?
    ensures s.header.None? ==> Reflects(State(s.totalRecords, Some(h), s.tally.(phase := AtParent)), Open(h, []))
  {
  }

  lemma RecordReflects(s: State, tally: Tally, h: Header, groups: seq<Group>, after: seq<Group>, r: Record)
    requires Reflects(s, Open(h, groups)) && Add(groups, r) == Some(after) && Tallies(tally, Open(h, after))
    ensures Reflects(State(s.totalRecords + 1, s.header, tally), Open(h, after))
  {
    FlattenAdd(groups, r);
  }

  lemma {:induction false} TotalBytesNext(raws: seq<Raw>, raw: Raw)
    ensures TotalBytes(raws + [raw]) == TotalBytes(raws) + RawLength(raw) + 1
  {
    assert (raws + [raw])[..|raws|] == raws;
  }

  /** What `consumeRecord` checks. */
  ghost predicate RecordOk(limits: Limits, stage: Stage, r: Record)
    requires stage.Open?
  {
    && Add(stage.groups, r).Some?
    && Fits(stage.groups, r, stage.header.siteId)
    && CountsOf(Add(stage.groups, r).value).batches <= limits.batches
    && CountsOf(Add(stage.groups, r).value).messages <= limits.messages
  }

  lemma GoodAtStart(limits: Limits, digest: Digest)
    requires LimitsOk(limits)
    ensures var t := Tally(Counts(0, 0, 0, 0), -1, AwaitHeader, map[], map[], {}, {}, {}, None, {});
            Good(View(false, false, None, 0, [], State(0, None, t)), [], Empty, limits, digest)
  {
    assert BytesOk([], limits);
  }

  class Accumulator {
    const limits: Limits
    const digest: Digest
    var totalBytes: int
    var totalRecords: int
    var seenFooter: bool
    var failed: bool
    var resolved: Option<Verification>
    var header: Option<Header>
    var counts: Counts
    var manifestIndex: int
    var phase: Phase
    var lastIds: map<Kind, Text>
    var seenRowIds: map<Kind, set<Text>>
    var seenMessageIds: set<Text>
    var seenErrorMessageIds: set<Text>
    var seenNotificationIds: set<Text>
    var currentBatchId: Option<Text>
    var currentMessageIds: set<Text>
    var hashed: Text
    /** The lines accepted so far and the stage they make. */
    ghost var raws: seq<Raw>
    ghost var stage: Stage

    ghost function TallyNow(): Tally
      reads this`counts, this`manifestIndex, this`phase, this`lastIds, this`seenRowIds, this`seenMessageIds,
            this`seenErrorMessageIds, this`seenNotificationIds, this`currentBatchId, this`currentMessageIds
    {
      Tally(counts, manifestIndex, phase, lastIds, seenRowIds, seenMessageIds, seenErrorMessageIds, seenNotificationIds,
            currentBatchId, currentMessageIds)
    }

    /** What holds before and after every call. */
    ghost predicate Valid()
      reads this
    {
      Good(View(failed, seenFooter, resolved, totalBytes, hashed, Now()), raws, stage, limits, digest)
    }

    lemma HasStage()
      requires Valid()
      ensures IsStage(raws, stage, limits, digest)
    {
    }

    constructor (limits: Limits, digest: Digest)
      requires LimitsOk(limits)
      ensures Valid() && !failed && raws == [] && this.limits == limits && this.digest == digest
    {
      this.limits := limits;
      this.digest := digest;
      totalBytes, totalRecords, seenFooter, failed, resolved, header := 0, 0, false, false, None, None;
      counts := Counts(0, 0, 0, 0);
      manifestIndex, phase := -1, AwaitHeader;
      lastIds, seenRowIds := map[], map[];
      seenMessageIds, seenErrorMessageIds, seenNotificationIds, currentMessageIds := {}, {}, {}, {};
      currentBatchId, hashed := None, [];
      raws, stage := [], Empty;
      new;
      hide Good;
      GoodAtStart(limits, digest);
    }

    method AssertAscendingId(kind: Kind, id: Text) returns (ok: bool)
      modifies this`lastIds
      ensures ok <==> (kind in old(lastIds) ==> Less(old(lastIds)[kind], id))
      ensures lastIds == if ok then old(lastIds)[kind := id] else old(lastIds)
    {
      ok := kind in lastIds ==> Less(lastIds[kind], id);
      if ok { lastIds := lastIds[kind := id]; }
    }

    method AssertUniqueRowId(kind: Kind, id: Text) returns (ok: bool)
      modifies this`seenRowIds
      ensures ok <==> id !in SeenOf(old(seenRowIds), kind)
      ensures seenRowIds == if ok then old(seenRowIds)[kind := SeenOf(old(seenRowIds), kind) + {id}] else old(seenRowIds)
    {
      var seen := SeenOf(seenRowIds, kind);
      ok := id !in seen;
      if ok { seenRowIds := seenRowIds[kind := seen + {id}]; }
    }

    method StartManifest(index: int)
      modifies this`manifestIndex, this`phase, this`lastIds, this`currentMessageIds, this`currentBatchId
      ensures TallyNow() == old(TallyNow()).(manifestIndex := index, phase := AtParent, lastIds := map[],
                                             currentMessageIds := {}, currentBatchId := None)
    {
      manifestIndex := index;
      phase := AtParent;
      lastIds := map[];
      currentMessageIds := {};
      currentBatchId := None;
    }

    method ConsumeRecord(r: Record, ghost st: Stage) returns (ok: bool)
      requires st.Open? && header == Some(st.header) && Tallies(TallyNow(), st)
      requires r.manifestIndex >= 0 && |Flatten(st.groups)| < MAX_SAFE_INTEGER && CountsWithin(CountsOf(st.groups))
      modifies this`counts, this`manifestIndex, this`phase, this`lastIds, this`seenRowIds, this`seenMessageIds,
               this`seenErrorMessageIds, this`seenNotificationIds, this`currentBatchId, this`currentMessageIds
      ensures ok <==> RecordOk(limits, st, r)
      ensures ok ==> Tallies(TallyNow(), Open(st.header, Add(st.groups, r).value))
    {
      if manifestIndex == -1 {
        if r.manifestIndex != 0 || !r.row.Batch? { return false; }
        StartManifest(r.manifestIndex);
      } else if r.manifestIndex == manifestIndex + 1 {
        if !r.row.Batch? { return false; }
        StartManifest(r.manifestIndex);
      } else if r.manifestIndex != manifestIndex {
        return false;
      }
      CountsAddUp(st.groups);
      if r.row.Batch? {
        ok := ConsumeBatchRecord(r, st);
      } else {
        ok := ConsumeChildRecord(r, st);
      }
    }

    predicate CountsWithin(c: Counts) { c.batches <= limits.batches && c.messages <= limits.messages }

    method ConsumeBatchRecord(r: Record, ghost st: Stage) returns (ok: bool)
      requires st.Open? && header == Some(st.header) && r.row.Batch?
      requires phase == AtParent ==> Started(TallyNow(), st) && Add(st.groups, r).Some? && CountsWithin(CountsOf(st.groups))
      modifies this`counts, this`phase, this`lastIds, this`seenRowIds, this`currentBatchId
      ensures old(phase) != AtParent ==> !ok
      ensures old(phase) == AtParent ==> (ok <==> Fits(st.groups, r, st.header.siteId) && CountsWithin(CountsOf(Add(st.groups, r).value)))
      ensures ok ==> Tallies(TallyNow(), Open(st.header, Add(st.groups, r).value))
    {
      if phase != AtParent { return false; }
      BatchFits(TallyNow(), st, r);
      BatchCounted(TallyNow(), st, r);
      CountsAdd(st.groups, r);
      ok := CountBatch(r.row.batch);
    }

    method CountBatch(row: BatchRow) returns (ok: bool)
      requires header.Some?
      modifies this`counts, this`phase, this`lastIds, this`seenRowIds, this`currentBatchId
      ensures ok <==> && IdAscends(old(TallyNow()), Batch(row)) && IsNew(old(TallyNow()), Batch(row))
                      && row.siteId == header.value.siteId && old(counts).batches + 1 <= limits.batches
      ensures ok ==> TallyNow() == CountRow(old(TallyNow()), Batch(row))
    {
      hide Less;
      ok := ConsumeIds(Batch(row));
      if !ok { return; }
      if row.siteId != header.value.siteId { return false; }
      currentBatchId := Some(row.id);
      phase := AtMessages;
      if counts.batches + 1 > limits.batches { return false; }
      counts := counts.(batches := counts.batches + 1);
    }

    /** The three `consume...Record` methods for children. */
    method ConsumeChildRecord(r: Record, ghost st: Stage) returns (ok: bool)
      requires st.Open? && Tallies(TallyNow(), st) && !r.row.Batch? && r.manifestIndex == manifestIndex >= 0
      requires counts.errors < MAX_SAFE_INTEGER && counts.notifications < MAX_SAFE_INTEGER && CountsWithin(counts)
      modifies this`counts, this`phase, this`lastIds, this`seenRowIds, this`seenMessageIds,
               this`seenErrorMessageIds, this`seenNotificationIds, this`currentMessageIds
      ensures ok <==> RecordOk(limits, st, r)
      ensures ok ==> Tallies(TallyNow(), Open(st.header, Add(st.groups, r).value))
    {
      hide TalliesSeen, LastIdsAre, Fits, Flatten, CountRow, IdAscends, Refers, IsNew, CountsOf;
      var kind := KindOfRow(r.row);
      ChildPlace(TallyNow(), st, r);
      if currentBatchId.None? || KindRank(kind) < PhaseRank(phase) { return false; }
      ChildFits(TallyNow(), st, r);
      ChildCounted(TallyNow(), st, r);
      CountsAdd(st.groups, r);
      ok := CountChild(r.row);
    }

    method CountChild(row: Row) returns (ok: bool)
      requires !row.Batch? && counts.errors < MAX_SAFE_INTEGER && counts.notifications < MAX_SAFE_INTEGER
      modifies this`counts, this`phase, this`lastIds, this`seenRowIds, this`seenMessageIds,
               this`seenErrorMessageIds, this`seenNotificationIds, this`currentMessageIds
      ensures ok <==> && IdAscends(old(TallyNow()), row) && Refers(old(TallyNow()), row) && IsNew(old(TallyNow()), row)
                      && (row.Message? ==> old(counts).messages + 1 <= limits.messages)
      ensures ok ==> TallyNow() == CountRow(old(TallyNow()), row)
    {
      hide Less, Refers, RowId;
      ok := ConsumeIds(row);
      if !ok { return; }
      ok := ConsumeNaturalKey(row);
      if !ok { return; }
      ok := CountRecord(KindOfRow(row));
    }

    /** The checks of a row's id and of its reference, if it has one. */
    method ConsumeIds(row: Row) returns (ok: bool)
      modifies this`lastIds, this`seenRowIds
      ensures ok <==> && IdAscends(old(TallyNow()), row) && Refers(old(TallyNow()), row)
                      && RowId(row) !in SeenOf(old(seenRowIds), KindOfRow(row))
      ensures ok ==> TallyNow() == old(TallyNow()).(lastIds := CountRow(old(TallyNow()), row).lastIds, seenRowIds := CountRow(old(TallyNow()), row).seenRowIds)
    {
      hide Less, RowId;
      var kind := KindOfRow(row);
      ok := AssertAscendingId(kind, RowId(row));
      if !ok { return; }
      ok := ConsumeReference(row);
      if !ok { return; }
      ok := AssertUniqueRowId(kind, RowId(row));
    }

    method ConsumeReference(row: Row) returns (ok: bool)
      ensures ok <==> Refers(TallyNow(), row)
    {
      match row
      case Batch(_) => ok := true;
      case Message(m) => ok := Some(m.newsletterBatchId) == currentBatchId;
      case Failed(e) => ok := Some(e.newsletterBatchId) == currentBatchId;
      case Notification(n) => ok := n.messageId in currentMessageIds;
    }

    method ConsumeNaturalKey(row: Row) returns (ok: bool)
      modifies this`seenMessageIds, this`seenErrorMessageIds, this`seenNotificationIds, this`currentMessageIds
      ensures ok <==>
              match row
              case Batch(_) => true
              case Message(m) => m.messageId !in old(seenMessageIds)
              case Failed(e) => e.messageId !in old(seenErrorMessageIds)
              case Notification(n) => n.notificationId !in old(seenNotificationIds)
      ensures ok ==> TallyNow() == old(TallyNow()).(
          seenMessageIds := CountRow(old(TallyNow()), row).seenMessageIds,
          seenErrorMessageIds := CountRow(old(TallyNow()), row).seenErrorMessageIds,
          seenNotificationIds := CountRow(old(TallyNow()), row).seenNotificationIds,
          currentMessageIds := CountRow(old(TallyNow()), row).currentMessageIds)
    {
      ok := true;
      match row
      case Batch(_) =>
      case Message(m) =>
        if m.messageId in seenMessageIds { return false; }
        seenMessageIds := seenMessageIds + {m.messageId};
        currentMessageIds := currentMessageIds + {m.messageId};
      case Failed(e) =>
        if e.messageId in seenErrorMessageIds { return false; }
        seenErrorMessageIds := seenErrorMessageIds + {e.messageId};
      case Notification(n) =>
        if n.notificationId in seenNotificationIds { return false; }
        seenNotificationIds := seenNotificationIds + {n.notificationId};
    }

    method CountRecord(kind: Kind) returns (ok: bool)
      requires kind != BatchKind && counts.errors < MAX_SAFE_INTEGER && counts.notifications < MAX_SAFE_INTEGER
      modifies this`counts, this`phase
      ensures ok <==> CountOne(old(counts), kind).messages <= limits.messages || kind != MessageKind
      ensures ok ==> counts == CountOne(old(counts), kind) && phase == PhaseAfter(kind)
    {
      phase := PhaseAfter(kind);
      ok := match kind
        case MessageKind => counts.messages + 1 <= limits.messages
        case ErrorKind => counts.errors + 1 <= MAX_SAFE_INTEGER
        case _ => counts.notifications + 1 <= MAX_SAFE_INTEGER;
      if ok { counts := CountOne(counts, kind); }
    }

    ghost function Now(): State
      reads this`totalRecords, this`header, this`counts, this`manifestIndex, this`phase, this`lastIds, this`seenRowIds,
            this`seenMessageIds, this`seenErrorMessageIds, this`seenNotificationIds, this`currentBatchId, this`currentMessageIds
    {
      State(totalRecords, header, TallyNow())
    }

    method UpdateHash(serialized: Text)
      modifies this`hashed
      ensures hashed == old(hashed) + (serialized + [NEWLINE])
    {
      hashed := hashed + (serialized + [NEWLINE]);
    }

    method ConsumeHeader(h: Header, ghost st: Stage) returns (ok: bool)
      requires Reflects(Now(), st) && !st.Closed?
      modifies this`header, this`phase
      ensures ok <==> NextStage(st, HeaderLine(h)).Some?
      ensures ok ==> Reflects(Now(), Open(h, []))
    {
      HeaderReflects(Now(), st, h);
      if header.Some? { return false; }
      header := Some(h);
      phase := AtParent;
      ok := true;
    }

    method ConsumeRecordLine(r: Record, ghost st: Stage) returns (ok: bool)
      requires Reflects(Now(), st) && !st.Closed? && LimitsOk(limits) && CountsWithin(CountsOf(GroupsIn(st)))
      requires r.manifestIndex >= 0
      modifies this`totalRecords, this`counts, this`manifestIndex, this`phase, this`lastIds, this`seenRowIds,
               this`seenMessageIds, this`seenErrorMessageIds, this`seenNotificationIds, this`currentBatchId, this`currentMessageIds
      ensures ok <==> old(totalRecords) + 1 <= limits.records && st.Open? && RecordOk(limits, st, r)
      ensures ok ==> Reflects(Now(), Open(st.header, Add(st.groups, r).value))
    {
      hide Tallies, Flatten, CountsOf, Add, Fits;
      ghost var s := Now();
      totalRecords := totalRecords + 1;
      ok := totalRecords <= limits.records && header.Some?;
      if ok { ok := ConsumeRecord(r, st); }
      if ok { RecordReflects(s, TallyNow(), st.header, st.groups, Add(st.groups, r).value, r); }
    }

    method ConsumeFooter(f: Footer, ghost st: Stage) returns (result: Option<Verification>)
      requires Reflects(Now(), st) && !st.Closed?
      ensures result.Some? <==> MayFollow(st, FooterLine(f), hashed, limits, digest)
      ensures result.Some? ==> result.value == Verification(st.header, f.contentHash, f.counts)
    {
      if header.None? || f.counts != counts { return None; }
      var computed := digest(hashed);
      if f.contentHash != computed { return None; }
      result := Some(Verification(header.value, computed, counts));
    }

    /** `consumeLine`, for an accumulator that neither failed nor has seen the footer. The line
        comes with its byte length, its text, and what it was read as. */
    method ConsumeLine(length: nat, text: Text, line: Option<Line>, ghost st: Stage) returns (outcome: Outcome)
      requires Reflects(Now(), st) && !st.Closed? && LimitsOk(limits) && CountsWithin(CountsOf(GroupsIn(st)))
      requires line.Some? && line.value.RecordLine? ==> line.value.record.manifestIndex >= 0
      modifies this`totalBytes, this`totalRecords, this`seenFooter, this`resolved, this`header, this`hashed, this`counts,
               this`manifestIndex, this`phase, this`lastIds, this`seenRowIds, this`seenMessageIds, this`seenErrorMessageIds,
               this`seenNotificationIds, this`currentBatchId, this`currentMessageIds
      ensures !outcome.Rejected? <==> LineOk(old(totalBytes), old(hashed), length, line, st, limits, digest)
      ensures outcome.Accepted? ==> totalBytes == old(totalBytes) + length + 1 && hashed == old(hashed) + (text + [NEWLINE])
      ensures outcome.Accepted? ==> !line.value.FooterLine? && Reflects(Now(), NextStage(st, line.value).value)
      ensures outcome.Finished? ==> line.value.FooterLine? && seenFooter && resolved == Some(outcome.result)
      ensures outcome.Finished? ==> outcome.result == Verification(st.header, line.value.footer.contentHash, line.value.footer.counts)
      ensures !outcome.Finished? ==> seenFooter == old(seenFooter) && resolved == old(resolved)
    {
      hide Reflects, NextStage, CountsOf, GroupsIn, Flatten, Fits;
      if length > limits.lineBytes { return Rejected; }
      totalBytes := totalBytes + (length + 1);
      if totalBytes > limits.totalBytes || line.None? { return Rejected; }
      match line.value
      case FooterLine(f) =>
        var result := ConsumeFooter(f, st);
        outcome := Resolve(result);
      case _ =>
        var ok := ConsumeContent(line.value, st);
        if ok { UpdateHash(text); }
        outcome := if ok then Accepted else Rejected;
    }

    method Resolve(result: Option<Verification>) returns (outcome: Outcome)
      modifies this`seenFooter, this`resolved
      ensures outcome == if result.Some? then Finished(result.value) else Rejected
      ensures seenFooter == (old(seenFooter) || result.Some?) && resolved == if result.Some? then result else old(resolved)
    {
      if result.None? { return Rejected; }
      seenFooter := true;
      resolved := result;
      outcome := Finished(result.value);
    }

    /** A header or a record. */
    method ConsumeContent(line: Line, ghost st: Stage) returns (ok: bool)
      requires Reflects(Now(), st) && !st.Closed? && LimitsOk(limits) && CountsWithin(CountsOf(GroupsIn(st)))
      requires !line.FooterLine? && (line.RecordLine? ==> line.record.manifestIndex >= 0)
      modifies this`totalRecords, this`header, this`counts,
               this`manifestIndex, this`phase, this`lastIds, this`seenRowIds, this`seenMessageIds, this`seenErrorMessageIds,
               this`seenNotificationIds, this`currentBatchId, this`currentMessageIds
      ensures ok <==> MayFollow(st, line, hashed, limits, digest)
      ensures ok ==> Reflects(Now(), NextStage(st, line).value)
    {
      match line
      case HeaderLine(h) =>
        ok := ConsumeHeader(h, st);
      case RecordLine(r) =>
        RecordMayFollow(Now(), st, r, hashed, limits, digest);
        ok := ConsumeRecordLine(r, st);
    }

    /** Feeds one line. A line is accepted exactly when no line failed before and the lines so far
        are the beginning of a correct escrow; a footer completes it. */
    method Consume(raw: Raw) returns (outcome: Outcome)
      requires Valid()
      modifies this
      ensures Valid()
      ensures outcome.Rejected? <==> old(failed) || !Accepts(old(raws) + [raw], limits, digest)
      ensures failed <==> outcome.Rejected?
      ensures raws == if outcome.Rejected? then old(raws) else old(raws) + [raw]
      ensures outcome.Rejected? ==> stage == old(stage)
      ensures outcome.Finished? <==> stage.Closed? && !outcome.Rejected?
      ensures outcome.Finished? ==> IsEscrow(raws, outcome.result, limits, digest)
    {
      hide RawText, ReadRaw, RawLength, Content, TotalBytes, NextStage, Accepts, IsStage, IsEscrow, LineOk, Reflects, Tallies, LimitsOk;
      if failed { return Rejected; }
      GoodNext(View(failed, seenFooter, resolved, totalBytes, hashed, Now()), raws, raw, stage, limits, digest);
      if seenFooter {
        failed := true;
        return Rejected;
      }
      var text, line := RawText(raw), ReadRaw(raw);
      ghost var st := stage;
      outcome := ConsumeLine(RawLength(raw), if text.Some? then text.value else [], line, st);
      if outcome.Rejected? {
        failed := true;
      } else {
        GoodAfter(View(failed, seenFooter, resolved, totalBytes, hashed, Now()), raws, raw, line.value, st, limits, digest);
        stage := NextStage(st, line.value).value;
        raws := raws + [raw];
        ClosedStage(raws, stage, limits, digest);
      }
    }

    /** A result exactly when a footer was accepted, whatever was fed after it. */
    method Finalize() returns (result: Option<Verification>)
      requires Valid()
      ensures result.Some? <==> stage.Closed?
      ensures result.Some? ==> IsEscrow(raws, result.value, limits, digest)
      ensures forall v :: IsEscrow(raws, v, limits, digest) ==> result == Some(v)
    {
      result := resolved;
      ClosedStage(raws, stage, limits, digest);
    }
  }

  /** The options of `createNewsletterRetentionEscrowAccumulator`. */
  datatype LimitOptions = LimitOptions(
    lineBytes: Option<int>, totalBytes: Option<int>, records: Option<int>, batches: Option<int>, messages: Option<int>)

  /** A missing limit is the hard limit; a given one must be positive and not above it. */
  function NormalizeLimit(value: Option<int>, hard: int): Option<int> {
    if value.None? then Some(hard) else if 0 < value.value <= hard then value else None
  }

  method CreateAccumulator(options: LimitOptions, digest: Digest) returns (acc: Option<Accumulator>)
    ensures acc.Some? ==> fresh(acc.value) && acc.value.Valid() && !acc.value.failed && acc.value.raws == [] && acc.value.digest == digest
    ensures acc.Some? ==> LimitsOk(acc.value.limits)
    ensures acc.Some? <==> exists limits :: LimitsOk(limits) && Chosen(options, limits)
    ensures acc.Some? ==> Chosen(options, acc.value.limits)
  {
    hide Chosen, LimitsOk, Good;
    ChosenLimits(options);
    var lineBytes, totalBytes := NormalizeLimit(options.lineBytes, HARD_LIMITS.lineBytes), NormalizeLimit(options.totalBytes, HARD_LIMITS.totalBytes);
    var records, batches := NormalizeLimit(options.records, HARD_LIMITS.records), NormalizeLimit(options.batches, HARD_LIMITS.batches);
    var messages := NormalizeLimit(options.messages, HARD_LIMITS.messages);
    if lineBytes.None? || totalBytes.None? || records.None? || batches.None? || messages.None? { return None; }
    var made := new Accumulator(Limits(lineBytes.value, totalBytes.value, records.value, batches.value, messages.value), digest);
    acc := Some(made);
  }

  lemma ChosenLimits(options: LimitOptions)
    ensures var lineBytes, totalBytes := NormalizeLimit(options.lineBytes, HARD_LIMITS.lineBytes), NormalizeLimit(options.totalBytes, HARD_LIMITS.totalBytes);
            var records, batches := NormalizeLimit(options.records, HARD_LIMITS.records), NormalizeLimit(options.batches, HARD_LIMITS.batches);
            var messages := NormalizeLimit(options.messages, HARD_LIMITS.messages);
            if lineBytes.None? || totalBytes.None? || records.None? || batches.None? || messages.None?
            then forall limits :: LimitsOk(limits) ==> !Chosen(options, limits)
            else var limits := Limits(lineBytes.value, totalBytes.value, records.value, batches.value, messages.value);
                 LimitsOk(limits) && Chosen(options, limits)
  {
  }

  predicate IsChosen(given: Option<int>, limit: int, hard: int) { if given.Some? then limit == given.value else limit == hard }

  /** The limits are the given ones, and the hard ones where none is given. */
  ghost predicate Chosen(options: LimitOptions, limits: Limits) {
    && IsChosen(options.lineBytes, limits.lineBytes, HARD_LIMITS.lineBytes) && IsChosen(options.totalBytes, limits.totalBytes, HARD_LIMITS.totalBytes)
    && IsChosen(options.records, limits.records, HARD_LIMITS.records) && IsChosen(options.batches, limits.batches, HARD_LIMITS.batches)
    && IsChosen(options.messages, limits.messages, HARD_LIMITS.messages)
  }

  lemma GoodNext(v: View, raws: seq<Raw>, raw: Raw, stage: Stage, limits: Limits, digest: Digest)
    requires Good(v, raws, stage, limits, digest) && !v.failed
    ensures ReadRaw(raw).Some? ==> RawText(raw).Some?
    ensures ReadRaw(raw).Some? && ReadRaw(raw).value.RecordLine? ==> ReadRaw(raw).value.record.manifestIndex >= 0
    ensures v.seenFooter ==> !Accepts(raws + [raw], limits, digest)
    ensures !v.seenFooter ==>
            (Accepts(raws + [raw], limits, digest) <==> LineOk(v.totalBytes, v.hashed, RawLength(raw), ReadRaw(raw), stage, limits, digest))
    ensures Accepts(raws + [raw], limits, digest) ==>
            ReadRaw(raw).Some? && NextStage(stage, ReadRaw(raw).value).Some?
            && IsStage(raws + [raw], NextStage(stage, ReadRaw(raw).value).value, limits, digest)
    ensures CountsOf(GroupsIn(stage)).batches <= limits.batches && CountsOf(GroupsIn(stage)).messages <= limits.messages
  {
    hide ReadRaw, RawText, Reflects, StageOk, ReadAll, BytesOk, Hashed, Content, TotalBytes, Accepts;
    ReadFacts(raw);
    FooterIsLast(stage, raw);
    WithinCounts(raws, stage, limits, digest);
    AcceptsNext(raws, raw, stage, limits, digest);
    if LineOk(TotalBytes(raws), Content(raws), RawLength(raw), ReadRaw(raw), stage, limits, digest) {
      IsStageNext(raws, raw, stage, limits, digest);
    }
  }

  lemma ReadFacts(raw: Raw)
    ensures ReadRaw(raw).Some? ==> RawText(raw).Some?
    ensures ReadRaw(raw).Some? && ReadRaw(raw).value.RecordLine? ==> ReadRaw(raw).value.record.manifestIndex >= 0
  {
    hide ParseLine, RawText, LineText;
  }

  lemma FooterIsLast(stage: Stage, raw: Raw)
    ensures stage.Closed? && ReadRaw(raw).Some? ==> NextStage(stage, ReadRaw(raw).value).None?
  {
    hide ReadRaw;
  }

  lemma WithinCounts(raws: seq<Raw>, stage: Stage, limits: Limits, digest: Digest)
    requires LimitsOk(limits) && IsStage(raws, stage, limits, digest)
    ensures CountsOf(GroupsIn(stage)).batches <= limits.batches && CountsOf(GroupsIn(stage)).messages <= limits.messages
  {
    hide ReadAll, BytesOk, GroupsOk, Hashed;
  }

  lemma {:induction false} GoodAfter(v: View, raws: seq<Raw>, raw: Raw, line: Line, st: Stage, limits: Limits, digest: Digest)
    requires LimitsOk(limits) && ReadRaw(raw) == Some(line) && !st.Closed? && NextStage(st, line).Some?
    requires IsStage(raws + [raw], NextStage(st, line).value, limits, digest)
    requires !line.FooterLine? ==> v.totalBytes == TotalBytes(raws) + RawLength(raw) + 1 && v.hashed == Content(raws) + (RawText(raw).value + [NEWLINE])
    requires !line.FooterLine? ==> Reflects(v.state, NextStage(st, line).value) && !v.seenFooter && v.resolved == None
    requires line.FooterLine? ==> v.seenFooter && v.resolved == Some(Verification(st.header, line.footer.contentHash, line.footer.counts))
    ensures Good(v, raws + [raw], NextStage(st, line).value, limits, digest)
  {
    hide Reflects, IsStage, ReadLine, RawLength;
    assert (raws + [raw])[..|raws|] == raws;
  }

  /** The result of an escrow is unique. */
  lemma ClosedStage(raws: seq<Raw>, stage: Stage, limits: Limits, digest: Digest)
    requires IsStage(raws, stage, limits, digest)
    ensures forall v :: IsEscrow(raws, v, limits, digest) <==>
                        stage.Closed? && v == Verification(stage.header, stage.footer.contentHash, stage.footer.counts)
  {
    forall v
      ensures IsEscrow(raws, v, limits, digest) <==>
              stage.Closed? && v == Verification(stage.header, stage.footer.contentHash, stage.footer.counts)
    {
      if groups :| IsStage(raws, Closed(v.header, groups, Footer(v.counts, v.contentHash)), limits, digest) {
        StageUnique(stage, Closed(v.header, groups, Footer(v.counts, v.contentHash)));
      }
    }
  }

  lemma RecordMayFollow(s: State, stage: Stage, r: Record, content: Text, limits: Limits, digest: Digest)
    requires Reflects(s, stage) && !stage.Closed?
    ensures MayFollow(stage, RecordLine(r), content, limits, digest) <==>
            s.totalRecords + 1 <= limits.records && stage.Open? && RecordOk(limits, stage, r)
  {
  }
}
