/** The writer: header, records and footer go through the verifier and out to a sink. It succeeds
    exactly when the records form a correct escrow and every chunk is taken. */
module EscrowWriter {
  import opened Utf16
  import opened Options
  import opened Utf8
  import opened JsonGrammar
  import opened EscrowRecords
  import opened EscrowCodec
  import opened EscrowGroups
  import opened EscrowStages
  import opened EscrowAccumulator

  function RawsOf(lines: seq<Line>): seq<Raw> {
    seq(|lines|, i requires 0 <= i < |lines| => TextRaw(LineText(lines[i])))
  }

  function ChunkOf(line: Line): Bytes { Encode(LineText(line) + [NEWLINE]) }

  function ChunksOf(lines: seq<Line>): seq<Bytes> {
    seq(|lines|, i requires 0 <= i < |lines| => ChunkOf(lines[i]))
  }

  function CountRecords(records: seq<Record>): Counts {
    if records == [] then Counts(0, 0, 0, 0)
    else CountOne(CountRecords(records[..|records| - 1]), KindOfRow(records[|records| - 1].row))
  }

  function BodyLines(h: Header, records: seq<Record>): seq<Line> { [HeaderLine(h)] + RecordLines(records) }

  function FooterFor(h: Header, records: seq<Record>, digest: Digest): Footer {
    Footer(CountRecords(records), digest(Content(RawsOf(BodyLines(h, records)))))
  }

  /** The lines of the file for these records. */
  function FileLines(h: Header, records: seq<Record>, digest: Digest): seq<Line> {
    BodyLines(h, records) + [FooterLine(FooterFor(h, records, digest))]
  }

  function ResultFor(h: Header, records: seq<Record>, digest: Digest): Verification {
    Verification(h, FooterFor(h, records, digest).contentHash, FooterFor(h, records, digest).counts)
  }

  predicate AllValid(h: Header, records: seq<Record>) {
    ValidHeader(h) && forall i :: 0 <= i < |records| ==> ValidRecord(records[i])
  }

  /** What header and records must satisfy, said without the verifier. */
  ghost predicate Writable(h: Header, records: seq<Record>, digest: Digest) {
    && AllValid(h, records)
    && BytesOk(RawsOf(FileLines(h, records, digest)), HARD_LIMITS)
    && exists groups :: Flatten(groups) == records && OpenOk(h, groups, HARD_LIMITS)
  }

  // ---------- writable records make an escrow

  lemma RawsSnoc(lines: seq<Line>, line: Line)
    ensures RawsOf(lines + [line]) == RawsOf(lines) + [TextRaw(LineText(line))]
  {
    hide LineText;
  }

  lemma ReadValidLine(line: Line)
    requires ValidLine(line)
    ensures ReadRaw(TextRaw(LineText(line))) == Some(line)
  {
    hide LineText, ReadLine;
    ReadLineExact(LineText(line), line);
  }

  lemma {:induction false} ReadRawsOf(lines: seq<Line>)
    requires forall i :: 0 <= i < |lines| ==> ValidLine(lines[i])
    ensures ReadAll(RawsOf(lines)) == Some(lines)
  {
    hide LineText, ReadRaw;
    if lines != [] {
      var n := |lines| - 1;
      ReadRawsOf(lines[..n]);
      ReadValidLine(lines[n]);
      assert RawsOf(lines)[..n] == RawsOf(lines[..n]);
      assert lines == lines[..n] + [lines[n]];
    }
  }

  lemma {:induction false} CountsAgree(records: seq<Record>)
    requires GroupsOf(records).Some?
    ensures CountRecords(records) == CountsOf(GroupsOf(records).value)
  {
    if records != [] {
      var n := |records| - 1;
      CountsAgree(records[..n]);
      CountsAdd(GroupsOf(records[..n]).value, records[n]);
    }
  }

  /** The records of one table. */
  ghost function Positions(records: seq<Record>, kind: Kind): set<int> { set i | 0 <= i < |records| && KindOfRow(records[i].row) == kind }

  lemma PositionsSnoc(records: seq<Record>, r: Record, kind: Kind)
    ensures |Positions(records + [r], kind)| == |Positions(records, kind)| + if KindOfRow(r.row) == kind then 1 else 0
  {
    var n := |records|;
    assert Positions(records + [r], kind) == if KindOfRow(r.row) == kind then Positions(records, kind) + {n} else Positions(records, kind);
  }

  /** Each of the four numbers is that of the records of its table. */
  lemma {:induction false} CountedByTable(records: seq<Record>)
    ensures var c := CountRecords(records);
            && c.batches == |Positions(records, BatchKind)| && c.messages == |Positions(records, MessageKind)|
            && c.errors == |Positions(records, ErrorKind)| && c.notifications == |Positions(records, NotificationKind)|
  {
    hide Positions;
    if records == [] {
      NoPositions();
    } else {
      var n := |records| - 1;
      CountedByTable(records[..n]);
      assert records == records[..n] + [records[n]];
      PositionsSnoc(records[..n], records[n], BatchKind);
      PositionsSnoc(records[..n], records[n], MessageKind);
      PositionsSnoc(records[..n], records[n], ErrorKind);
      PositionsSnoc(records[..n], records[n], NotificationKind);
    }
  }

  lemma NoPositions()
    ensures forall kind :: Positions([], kind) == {}
  {
  }

  lemma {:induction false} GroupsCounted(groups: seq<Group>)
    ensures CountRecords(Flatten(groups)) == CountsOf(groups)
    ensures |Flatten(groups)| <= MAX_SAFE_INTEGER ==> ValidCounts(CountsOf(groups))
  {
    GroupingExact(Flatten(groups), groups);
    CountsAgree(Flatten(groups));
    CountsAddUp(groups);
  }

  lemma FileLinesValid(h: Header, records: seq<Record>, digest: Digest)
    requires AllValid(h, records) && ValidFooter(FooterFor(h, records, digest))
    ensures forall i :: 0 <= i < |FileLines(h, records, digest)| ==> ValidLine(FileLines(h, records, digest)[i])
  {
    hide ValidHeader, ValidRecord, ValidFooter, FooterFor;
  }

  lemma HashedBody(h: Header, records: seq<Record>, digest: Digest)
    ensures var raws := RawsOf(FileLines(h, records, digest));
            raws != [] && raws[..|raws| - 1] == RawsOf(BodyLines(h, records))
  {
    hide LineText, FooterFor;
    RawsSnoc(BodyLines(h, records), FooterLine(FooterFor(h, records, digest)));
  }

  lemma {:induction false} WritableIsStage(h: Header, records: seq<Record>, groups: seq<Group>, digest: Digest)
    requires AllValid(h, records) && IsHash(FooterFor(h, records, digest).contentHash)
    requires BytesOk(RawsOf(FileLines(h, records, digest)), HARD_LIMITS)
    requires Flatten(groups) == records && OpenOk(h, groups, HARD_LIMITS)
    ensures IsStage(RawsOf(FileLines(h, records, digest)), Closed(h, groups, FooterFor(h, records, digest)), HARD_LIMITS, digest)
  {
    hide LineText, IsHash, BytesOk, ValidHeader, ValidRecord, ValidCounts, GroupsOk, CountRecords, CountsOf, RawsOf, Content;
    GroupsCounted(groups);
    FileLinesValid(h, records, digest);
    ReadRawsOf(FileLines(h, records, digest));
    HashedBody(h, records, digest);
  }

  /** The limits in numbers: 16 MiB a line, 512 MiB in all with a line feed for each line, 250000
      records, 100 batches, 100000 messages. */
  lemma {:induction false} WritableLimits(h: Header, records: seq<Record>, digest: Digest)
    requires Writable(h, records, digest)
    ensures |records| <= 250_000
    ensures |Positions(records, BatchKind)| <= 100 && |Positions(records, MessageKind)| <= 100_000
    ensures forall i :: 0 <= i < |FileLines(h, records, digest)| ==> |Encode(LineText(FileLines(h, records, digest)[i]))| <= 16_777_216
    ensures TotalBytes(RawsOf(FileLines(h, records, digest))) <= 536_870_912
  {
    hide LineText, FooterFor, AllValid, GroupsOk, Positions, CountRecords, Flatten, FileLines;
    var groups :| Flatten(groups) == records && OpenOk(h, groups, HARD_LIMITS);
    GroupsCounted(groups);
    CountedByTable(records);
    LimitedCounts(groups);
    assert BytesOk(RawsOf(FileLines(h, records, digest)), HARD_LIMITS);
    forall i | 0 <= i < |FileLines(h, records, digest)|
      ensures |Encode(LineText(FileLines(h, records, digest)[i]))| <= 16_777_216
    {
      assert RawLength(RawsOf(FileLines(h, records, digest))[i]) <= 16_777_216;
    }
  }

  lemma {:induction false} LimitedCounts(groups: seq<Group>)
    ensures CountsOf(groups).batches == |groups| && CountsOf(groups).messages == MessageCount(groups)
  {
  }

  /** Writable records make an escrow with the result the writer returns. */
  lemma WritableIsEscrow(h: Header, records: seq<Record>, digest: Digest)
    requires Writable(h, records, digest) && IsHash(FooterFor(h, records, digest).contentHash)
    ensures IsEscrow(RawsOf(FileLines(h, records, digest)), ResultFor(h, records, digest), HARD_LIMITS, digest)
  {
    hide IsStage, FileLines, FooterFor, AllValid;
    var groups :| Flatten(groups) == records && OpenOk(h, groups, HARD_LIMITS);
    WritableIsStage(h, records, groups, digest);
    assert IsStage(RawsOf(FileLines(h, records, digest)), Closed(h, groups, FooterFor(h, records, digest)), HARD_LIMITS, digest);
  }

  /** Header and records that the verifier accepts before the footer are grouped within the limits. */
  lemma AcceptedBody(h: Header, records: seq<Record>, digest: Digest)
    requires AllValid(h, records) && Accepts(RawsOf(BodyLines(h, records)), HARD_LIMITS, digest)
    ensures exists groups :: Flatten(groups) == records && OpenOk(h, groups, HARD_LIMITS)
  {
    hide LineText, IsHash, BytesOk, LinesOf, BodyLines, RawsOf, ReadAll, OpenOk, AllValid;
    var stage :| IsStage(RawsOf(BodyLines(h, records)), stage, HARD_LIMITS, digest);
    BodyReads(h, records);
    BodyStage(h, records, stage);
  }

  lemma BodyReads(h: Header, records: seq<Record>)
    requires AllValid(h, records)
    ensures ReadAll(RawsOf(BodyLines(h, records))) == Some(BodyLines(h, records))
  {
    hide LineText, ValidHeader, ValidRecord, ReadAll;
    ReadRawsOf(BodyLines(h, records));
  }

  lemma ClosedEnds(stage: Stage)
    ensures stage.Closed? <==> exists i :: 0 <= i < |LinesOf(stage)| && LinesOf(stage)[i].FooterLine?
  {
    assert stage.Closed? ==> LinesOf(stage)[|Flatten(stage.groups)| + 1].FooterLine?;
  }

  lemma BodyStage(h: Header, records: seq<Record>, stage: Stage)
    requires LinesOf(stage) == BodyLines(h, records)
    ensures stage.Open? && stage.header == h && Flatten(stage.groups) == records
  {
    var lines := LinesOf(stage);
    assert lines[0] == HeaderLine(h);
    assert forall i :: 0 <= i < |records| ==> lines[i + 1] == RecordLine(records[i]);
    assert forall i :: 0 <= i < |lines| ==> !lines[i].FooterLine?;
    ClosedEnds(stage);
    assert stage.Open? ==> forall i :: 0 <= i < |Flatten(stage.groups)| ==> lines[i + 1] == RecordLine(Flatten(stage.groups)[i]);
  }

  // ---------- the writer

  /** Where the chunks go; it takes as many as it has room for. */
  class Sink {
    const capacity: nat
    var chunks: seq<Bytes>

    constructor (capacity: nat)
      ensures this.capacity == capacity && chunks == []
    {
      this.capacity, chunks := capacity, [];
    }

    method Write(chunk: Bytes) returns (ok: bool)
      modifies this
      ensures ok <==> |old(chunks)| < capacity
      ensures chunks == if ok then old(chunks) + [chunk] else old(chunks)
    {
      ok := |chunks| < capacity;
      if ok { chunks := chunks + [chunk]; }
    }
  }

  method IncrementCount(counts: Counts, kind: Kind) returns (r: Option<Counts>)
    ensures r.Some? <==> CountOf(counts, kind) < MAX_SAFE_INTEGER
    ensures r.Some? ==> r.value == CountOne(counts, kind)
  {
    if CountOf(counts, kind) >= MAX_SAFE_INTEGER { return None; }
    r := Some(CountOne(counts, kind));
  }

  function CountOf(counts: Counts, kind: Kind): int {
    match kind
    case BatchKind => counts.batches
    case MessageKind => counts.messages
    case ErrorKind => counts.errors
    case NotificationKind => counts.notifications
  }

  /** A part of the file is a correct beginning when the file is writable. */
  lemma WritablePart(h: Header, records: seq<Record>, digest: Digest, n: nat)
    requires Writable(h, records, digest) && IsHash(FooterFor(h, records, digest).contentHash)
    requires n <= |FileLines(h, records, digest)|
    ensures Accepts(RawsOf(FileLines(h, records, digest)[..n]), HARD_LIMITS, digest)
  {
    hide LineText, Writable, FooterFor, IsHash, IsStage, FileLines;
    WritableIsEscrow(h, records, digest);
    var lines, result := FileLines(h, records, digest), ResultFor(h, records, digest);
    var groups :| IsStage(RawsOf(lines), Closed(result.header, groups, Footer(result.counts, result.contentHash)), HARD_LIMITS, digest);
    assert Accepts(RawsOf(lines), HARD_LIMITS, digest);
    assert RawsOf(lines) == RawsOf(lines[..n]) + RawsOf(lines[n..]);
    AcceptsPrefix(RawsOf(lines[..n]), RawsOf(lines[n..]), HARD_LIMITS, digest);
  }

  /** The state of the writer when the header and `n` records are written. */
  ghost predicate Written(h: Header, records: seq<Record>, n: nat, raws: seq<Raw>, hashed: Text, counts: Counts, chunks: seq<Bytes>)
    requires n <= |records|
  {
    && raws == RawsOf(BodyLines(h, records[..n])) && hashed == Content(raws)
    && counts == CountRecords(records[..n]) && chunks == ChunksOf(BodyLines(h, records[..n]))
    && AllValid(h, records[..n])
  }

  lemma BodySnoc(h: Header, records: seq<Record>, n: nat)
    requires n < |records|
    ensures BodyLines(h, records[..n + 1]) == BodyLines(h, records[..n]) + [RecordLine(records[n])]
  {
  }

  lemma ChunksSnoc(lines: seq<Line>, line: Line)
    ensures ChunksOf(lines + [line]) == ChunksOf(lines) + [ChunkOf(line)]
  {
    hide ChunkOf;
  }

  lemma {:induction false} ContentSnoc(raws: seq<Raw>, t: Text)
    ensures Content(raws + [TextRaw(t)]) == Content(raws) + (t + [NEWLINE])
  {
    assert (raws + [TextRaw(t)])[..|raws|] == raws;
  }

  lemma WrittenStart(h: Header, records: seq<Record>)
    requires ValidHeader(h)
    ensures Written(h, records, 0, [TextRaw(LineText(HeaderLine(h)))], LineText(HeaderLine(h)) + [NEWLINE], Counts(0, 0, 0, 0), [ChunkOf(HeaderLine(h))])
  {
    hide LineText, ChunkOf, ValidHeader;
    ContentSnoc([], LineText(HeaderLine(h)));
    assert BodyLines(h, records[..0]) == [HeaderLine(h)];
    assert RawsOf([HeaderLine(h)]) == [TextRaw(LineText(HeaderLine(h)))];
    assert ChunksOf([HeaderLine(h)]) == [ChunkOf(HeaderLine(h))];
    assert [] + [TextRaw(LineText(HeaderLine(h)))] == [TextRaw(LineText(HeaderLine(h)))];
    assert Content([]) == [];
  }

  lemma WrittenNext(h: Header, records: seq<Record>, n: nat, raws: seq<Raw>, hashed: Text, counts: Counts, chunks: seq<Bytes>)
    requires n < |records| && Written(h, records, n, raws, hashed, counts, chunks) && ValidRecord(records[n])
    ensures var line := RecordLine(records[n]);
            Written(h, records, n + 1, raws + [TextRaw(LineText(line))], hashed + (LineText(line) + [NEWLINE]),
                    CountOne(counts, KindOfRow(records[n].row)), chunks + [ChunkOf(line)])
  {
    hide LineText, ChunkOf, ValidHeader, ValidRecord, BodyLines, RawsOf, ChunksOf;
    var line := RecordLine(records[n]);
    BodySnoc(h, records, n);
    RawsSnoc(BodyLines(h, records[..n]), line);
    ChunksSnoc(BodyLines(h, records[..n]), line);
    ContentSnoc(raws, LineText(line));
    assert records[..n + 1][..n] == records[..n];
  }

  /** The chunks written so far begin the file's chunks. */
  lemma WrittenBegins(h: Header, records: seq<Record>, n: nat, raws: seq<Raw>, hashed: Text, counts: Counts, chunks: seq<Bytes>, digest: Digest)
    requires n <= |records| && Written(h, records, n, raws, hashed, counts, chunks)
    ensures chunks <= ChunksOf(FileLines(h, records, digest)) && |chunks| == n + 1
    ensures n == |records| ==> ChunksOf(FileLines(h, records, digest)) == chunks + [ChunkOf(FooterLine(FooterFor(h, records, digest)))]
    ensures n == |records| ==> FooterFor(h, records, digest) == Footer(counts, digest(hashed)) && AllValid(h, records)
  {
    hide LineText, ChunkOf, RawsOf, ValidHeader, ValidRecord;
    if n == |records| { assert records[..n] == records; }
    assert BodyLines(h, records[..n]) == FileLines(h, records, digest)[..n + 1];
  }

  /** Records that the verifier refuses are not writable. */
  lemma NotWritable(h: Header, records: seq<Record>, n: nat, digest: Digest)
    requires n <= |records| && IsHash(FooterFor(h, records, digest).contentHash)
    requires !Accepts(RawsOf(BodyLines(h, records[..n])), HARD_LIMITS, digest)
    ensures !Writable(h, records, digest)
  {
    hide LineText, RawsOf, FooterFor, Accepts, Writable;
    assert BodyLines(h, records[..n]) == FileLines(h, records, digest)[..n + 1];
    if Writable(h, records, digest) { WritablePart(h, records, digest, n + 1); }
  }

  lemma WritableValid(h: Header, records: seq<Record>, digest: Digest)
    ensures Writable(h, records, digest) ==> AllValid(h, records)
  {
  }

  lemma {:induction false} CountsSum(records: seq<Record>)
    ensures var c := CountRecords(records);
            c.batches + c.messages + c.errors + c.notifications == |records| 
            && c.batches >= 0 && c.messages >= 0 && c.errors >= 0 && c.notifications >= 0
  {
    if records != [] { CountsSum(records[..|records| - 1]); }
  }

  /** The verifier's record limit keeps the counts small. */
  lemma {:induction false} CountsSmall(h: Header, records: seq<Record>, digest: Digest)
    requires AllValid(h, records) && Accepts(RawsOf(BodyLines(h, records)), HARD_LIMITS, digest)
    ensures forall kind :: CountOf(CountRecords(records), kind) < MAX_SAFE_INTEGER
    ensures ValidCounts(CountRecords(records))
  {
    hide LineText, RawsOf, BodyLines, Accepts, ValidHeader, ValidRecord, CountRecords, GroupsOk;
    AcceptedBody(h, records, digest);
    CountsSum(records);
  }

  ghost predicate Ready(acc: Accumulator)
    reads acc
  {
    acc.Valid() && !acc.failed && acc.limits == HARD_LIMITS && Accepts(acc.raws, HARD_LIMITS, acc.digest)
  }

  method WriteHeader(h: Header, ghost records: seq<Record>, acc: Accumulator, sink: Sink) returns (ok: bool, hashed: Text)
    requires forall t :: IsHash(acc.digest(t))
    requires acc.Valid() && !acc.failed && acc.raws == [] && sink.chunks == [] && acc.limits == HARD_LIMITS
    modifies acc, sink
    ensures !ok ==> sink.chunks == [] && (!Writable(h, records, acc.digest) || sink.capacity == 0)
    ensures ok ==> Ready(acc) && Written(h, records, 0, acc.raws, hashed, Counts(0, 0, 0, 0), sink.chunks)
  {
    hide LineText, Encode, RawsOf, ChunksOf, FileLines, Accepts, Writable, IsHash, ValidHeader, ValidRecord, BodyLines, Content, CountRecords, Good, IsStage, IsEscrow;
    WritableValid(h, records, acc.digest);
    ok, hashed := false, [];
    var line := Serialize(HeaderLine(h));
    if line.None? { return; }
    WrittenStart(h, records);
    assert [] + [TextRaw(line.value)] == [TextRaw(line.value)];
    var outcome := acc.Consume(TextRaw(line.value));
    if outcome.Rejected? {
      NotWritable(h, records, 0, acc.digest);
      return;
    }
    hashed := line.value + [NEWLINE];
    assert [] + [ChunkOf(HeaderLine(h))] == [ChunkOf(HeaderLine(h))];
    ok := sink.Write(Encode(line.value + [NEWLINE]));
  }

  /** One round of the loop over the records. */
  method WriteRecord(h: Header, records: seq<Record>, n: nat, acc: Accumulator, sink: Sink, hashed: Text, counts: Counts)
    returns (ok: bool, hashed': Text, counts': Counts)
    requires forall t :: IsHash(acc.digest(t))
    requires n < |records| && Ready(acc) && Written(h, records, n, acc.raws, hashed, counts, sink.chunks)
    modifies acc, sink
    ensures !ok ==> sink.chunks == old(sink.chunks) && (!Writable(h, records, acc.digest) || sink.capacity <= n + 1)
    ensures ok ==> Ready(acc) && Written(h, records, n + 1, acc.raws, hashed', counts', sink.chunks)
  {
    hide LineText, Encode, RawsOf, ChunksOf, FileLines, Accepts, Writable, IsHash, ValidHeader, ValidRecord, BodyLines, Content, CountRecords, Good, IsStage, IsEscrow;
    WritableValid(h, records, acc.digest);
    ok, hashed', counts' := false, hashed, counts;
    var line := Serialize(RecordLine(records[n]));
    if line.None? { return; }
    WrittenNext(h, records, n, acc.raws, hashed, counts, sink.chunks);
    WrittenBegins(h, records, n, acc.raws, hashed, counts, sink.chunks, acc.digest);
    var outcome := acc.Consume(TextRaw(line.value));
    if outcome.Rejected? {
      NotWritable(h, records, n + 1, acc.digest);
      return;
    }
    CountsSmall(h, records[..n + 1], acc.digest);
    var increased := IncrementCount(counts, KindOfRow(records[n].row));
    if increased.None? { return; }
    counts' := increased.value;
    hashed' := hashed + (line.value + [NEWLINE]);
    ok := sink.Write(Encode(line.value + [NEWLINE]));
  }

  lemma FileShape(h: Header, records: seq<Record>, f: Footer, stage: Stage)
    requires LinesOf(stage) == BodyLines(h, records) + [FooterLine(f)]
    ensures stage.Closed? && stage.header == h && stage.footer == f && Flatten(stage.groups) == records
  {
    var lines, n := LinesOf(stage), |records| + 1;
    assert lines[n].FooterLine?;
    ClosedEnds(stage);
    assert lines[..n] == BodyLines(h, records) == LinesOf(Open(stage.header, stage.groups));
    BodyStage(h, records, Open(stage.header, stage.groups));
  }

  /** What the verifier holds after the file's last line. */
  lemma FileStage(h: Header, records: seq<Record>, stage: Stage, digest: Digest)
    requires AllValid(h, records) && ValidFooter(FooterFor(h, records, digest))
    requires IsStage(RawsOf(FileLines(h, records, digest)), stage, HARD_LIMITS, digest)
    ensures stage.Closed? && Writable(h, records, digest)
  {
    hide LineText, RawsOf, FooterFor, AllValid, ValidFooter, Content, CountRecords, OpenOk, LinesOf, BytesOk, BodyLines;
    FileLinesValid(h, records, digest);
    ReadRawsOf(FileLines(h, records, digest));
    FileShape(h, records, FooterFor(h, records, digest), stage);
  }

  lemma FileRaws(h: Header, records: seq<Record>, digest: Digest)
    ensures RawsOf(FileLines(h, records, digest)) ==
            RawsOf(BodyLines(h, records)) + [TextRaw(LineText(FooterLine(FooterFor(h, records, digest))))]
  {
    hide LineText, FooterFor, BodyLines;
    RawsSnoc(BodyLines(h, records), FooterLine(FooterFor(h, records, digest)));
  }

  /** The verifier finishes on the footer exactly when the file is writable. */
  lemma WritableOutcome(h: Header, records: seq<Record>, acc: Accumulator, outcome: Outcome)
    requires AllValid(h, records) && ValidFooter(FooterFor(h, records, acc.digest)) && acc.limits == HARD_LIMITS && acc.Valid()
    requires !outcome.Rejected? ==> acc.raws == RawsOf(FileLines(h, records, acc.digest))
    requires outcome.Rejected? ==> !Accepts(RawsOf(FileLines(h, records, acc.digest)), HARD_LIMITS, acc.digest)
    requires outcome.Finished? <==> acc.stage.Closed? && !outcome.Rejected?
    ensures outcome.Finished? <==> Writable(h, records, acc.digest)
    ensures outcome.Finished? ==> IsEscrow(acc.raws, ResultFor(h, records, acc.digest), HARD_LIMITS, acc.digest)
  {
    hide LineText, RawsOf, FooterFor, IsHash, AllValid, ValidCounts, BodyLines, FileLines, Accepts, Writable, Good, IsStage, IsEscrow;
    var lines := FileLines(h, records, acc.digest);
    assert lines[..|lines|] == lines;
    if outcome.Rejected? {
      if Writable(h, records, acc.digest) { WritablePart(h, records, acc.digest, |lines|); }
    } else {
      acc.HasStage();
      FileStage(h, records, acc.stage, acc.digest);
      WritableIsEscrow(h, records, acc.digest);
    }
  }

  /** The footer, and the final verdict. */
  method WriteFooter(h: Header, records: seq<Record>, acc: Accumulator, sink: Sink, hashed: Text, counts: Counts)
    returns (result: Option<Verification>)
    requires forall t :: IsHash(acc.digest(t))
    requires Ready(acc) && Written(h, records, |records|, acc.raws, hashed, counts, sink.chunks)
    modifies acc, sink
    ensures result.Some? <==> Writable(h, records, acc.digest) && |records| + 2 <= sink.capacity
    ensures result.Some? ==> result.value == ResultFor(h, records, acc.digest)
    ensures sink.chunks == if result.Some? then ChunksOf(FileLines(h, records, acc.digest)) else old(sink.chunks)
  {
    hide LineText, Encode, RawsOf, ChunksOf, FileLines, Accepts, Writable, IsHash, ValidHeader, ValidRecord, BodyLines, Content, CountRecords, Good, IsStage, IsEscrow;
    WrittenBegins(h, records, |records|, acc.raws, hashed, counts, sink.chunks, acc.digest);
    result := None;
    assert records[..|records|] == records;
    CountsSmall(h, records, acc.digest);
    HashedBody(h, records, acc.digest);
    FileRaws(h, records, acc.digest);
    var footer := Footer(counts, acc.digest(hashed));
    var line := Serialize(FooterLine(footer));
    if line.None? { return; }
    var outcome := acc.Consume(TextRaw(line.value));
    WritableOutcome(h, records, acc, outcome);
    if !outcome.Finished? { return; }
    var ok := sink.Write(Encode(line.value + [NEWLINE]));
    if !ok { return; }
    result := acc.Finalize();
  }

  /** `writeNewsletterRetentionEscrow`. `ends` says whether the record stream ends by itself or
      throws after its last record. */
  method WriteEscrow(h: Header, records: seq<Record>, ends: bool, sink: Sink, digest: Digest) returns (result: Option<Verification>)
    requires forall t :: IsHash(digest(t))
    requires sink.chunks == []
    modifies sink
    ensures result.Some? <==> ends && Writable(h, records, digest) && |records| + 2 <= sink.capacity
    ensures result.Some? ==> result.value == ResultFor(h, records, digest) && sink.chunks == ChunksOf(FileLines(h, records, digest))
    ensures sink.chunks <= ChunksOf(FileLines(h, records, digest))
  {
    hide Written, ResultFor, RawsOf, ChunksOf, FileLines, Accepts, Writable, IsHash, Good;
    result := None;
    var acc := new Accumulator(HARD_LIMITS, digest);
    var ok, hashed := WriteHeader(h, records, acc, sink);
    if !ok { return; }
    var counts, i := Counts(0, 0, 0, 0), 0;
    while i < |records|
      invariant 0 <= i <= |records| && fresh(acc) && acc.digest == digest
      invariant Ready(acc) && Written(h, records, i, acc.raws, hashed, counts, sink.chunks)
    {
      WrittenBegins(h, records, i, acc.raws, hashed, counts, sink.chunks, digest);
      ok, hashed, counts := WriteRecord(h, records, i, acc, sink, hashed, counts);
      if !ok { return; }
      i := i + 1;
    }
    WrittenBegins(h, records, i, acc.raws, hashed, counts, sink.chunks, digest);
    if !ends { return; }
    result := WriteFooter(h, records, acc, sink, hashed, counts);
  }
}
