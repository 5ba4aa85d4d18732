/** From records to bytes and back: a file the writer completes is verified with the writer's
    result and hands out the written records, batch by batch. */
module EscrowRoundTrip {
  import opened Utf16
  import opened Options
  import opened Utf8
  import opened JsonGrammar
  import opened JsonValue
  import opened EscrowRecords
  import opened EscrowCodec
  import opened EscrowGroups
  import opened EscrowStages
  import opened EscrowAccumulator
  import opened EscrowWriter
  import opened EscrowLines
  import opened EscrowSource

  /** The sink's chunks one after the other. */
  function FileBytes(chunks: seq<Bytes>): Bytes {
    if chunks == [] then [] else chunks[0] + FileBytes(chunks[1..])
  }

  function LineBytes(line: Line): Bytes { Encode(LineText(line)) }

  function BytesOfLines(lines: seq<Line>): seq<Bytes> {
    seq(|lines|, i requires 0 <= i < |lines| => LineBytes(lines[i]))
  }

  /** A line's bytes hold no line feed and end with one in the file. */
  lemma ChunkIsLine(line: Line)
    ensures ChunkOf(line) == LineBytes(line) + [NEWLINE_BYTE] && NEWLINE_BYTE !in LineBytes(line)
  {
    hide LineText, Encode;
    LineTextClean(line);
    EncodeConcat(LineText(line), [NEWLINE]);
    EncodeNewline();
    AsciiOnlyWhereWritten(LineText(line), NEWLINE_BYTE);
  }

  lemma EncodeNewline()
    ensures Encode([NEWLINE]) == [NEWLINE_BYTE]
  {
    assert [NEWLINE][FrontLength([NEWLINE])..] == [];
  }

  lemma {:induction false} FileIsUnsplit(lines: seq<Line>)
    ensures FileBytes(ChunksOf(lines)) == Unsplit(BytesOfLines(lines))
  {
    hide ChunkOf, LineBytes;
    if lines != [] {
      ChunkIsLine(lines[0]);
      assert ChunksOf(lines)[1..] == ChunksOf(lines[1..]);
      assert BytesOfLines(lines)[1..] == BytesOfLines(lines[1..]);
      FileIsUnsplit(lines[1..]);
      var rest := Unsplit(BytesOfLines(lines[1..]));
      assert (LineBytes(lines[0]) + [NEWLINE_BYTE]) + rest == LineBytes(lines[0]) + ([NEWLINE_BYTE] + rest);
    }
  }

  lemma {:induction false} FileBytesSnoc(chunks: seq<Bytes>, chunk: Bytes)
    ensures FileBytes(chunks + [chunk]) == FileBytes(chunks) + chunk
  {
    var all := chunks + [chunk];
    if chunks == [] {
      assert all[1..] == [];
    } else {
      assert all[1..] == chunks[1..] + [chunk];
      FileBytesSnoc(chunks[1..], chunk);
      assert chunks[0] + (FileBytes(chunks[1..]) + chunk) == (chunks[0] + FileBytes(chunks[1..])) + chunk;
    }
  }

  lemma LineIsWellFormed(line: Line)
    ensures WellFormed(LineText(line) + [10]) && RawText(TextRaw(LineText(line))) == Some(LineText(line))
  {
    hide LineText;
    LineTextClean(line);
    WellFormedConcat(LineText(line), [10]);
  }

  /** The bytes of lines are those of the text that is hashed for them. */
  lemma {:induction false} BytesOfContent(lines: seq<Line>)
    ensures FileBytes(ChunksOf(lines)) == Encode(Content(RawsOf(lines))) && WellFormed(Content(RawsOf(lines)))
  {
    hide LineText, Encode, FileBytes, RawText, WellFormed;
    if lines == [] {
      NoBytes();
      assert ChunksOf(lines) == [] && RawsOf(lines) == [];
    } else {
      var n := |lines| - 1;
      BytesOfContent(lines[..n]);
      LineIsWellFormed(lines[n]);
      assert ChunksOf(lines) == ChunksOf(lines[..n]) + [ChunkOf(lines[n])];
      assert RawsOf(lines)[..n] == RawsOf(lines[..n]);
      FileBytesSnoc(ChunksOf(lines[..n]), ChunkOf(lines[n]));
      EncodeConcat(Content(RawsOf(lines[..n])), LineText(lines[n]) + [10]);
      WellFormedConcat(Content(RawsOf(lines[..n])), LineText(lines[n]) + [10]);
    }
  }

  lemma NoBytes()
    ensures FileBytes([]) == [] && Encode([]) == [] && WellFormed([])
  {
  }

  /** The content hash is the digest of a text whose bytes are the whole file up to its last line, and
      the last line is the footer. */
  lemma {:induction false} HashCoversFile(h: Header, records: seq<Record>, digest: Digest)
    ensures exists hashed: Text ::
            && ResultFor(h, records, digest).contentHash == FooterFor(h, records, digest).contentHash == digest(hashed)
            && FileBytes(ChunksOf(FileLines(h, records, digest))) == Encode(hashed) + (LineBytes(FooterLine(FooterFor(h, records, digest))) + [10])
  {
    hide LineText, Encode, FileBytes, Content, RawsOf, BodyLines, CountRecords;
    var body, footer := BodyLines(h, records), FooterLine(FooterFor(h, records, digest));
    BytesOfContent(body);
    ChunkIsLine(footer);
    assert ChunksOf(FileLines(h, records, digest)) == ChunksOf(body) + [ChunkOf(footer)];
    FileBytesSnoc(ChunksOf(body), ChunkOf(footer));
  }

  /** A line read from its bytes is the line read from its text. */
  lemma SameLine(line: Line)
    ensures RawText(BytesRaw(LineBytes(line))) == RawText(TextRaw(LineText(line)))
    ensures RawLength(BytesRaw(LineBytes(line))) == RawLength(TextRaw(LineText(line)))
  {
    hide LineText, Encode, DecodeLine;
    LineTextClean(line);
    DecodeLineExact(LineBytes(line), LineText(line));
  }

  ghost predicate SameLines(a: seq<Raw>, b: seq<Raw>) {
    |a| == |b| && forall i :: 0 <= i < |a| ==> RawText(a[i]) == RawText(b[i]) && RawLength(a[i]) == RawLength(b[i])
  }

  lemma {:induction false} SameFolds(a: seq<Raw>, b: seq<Raw>)
    requires SameLines(a, b)
    ensures ReadAll(a) == ReadAll(b) && TotalBytes(a) == TotalBytes(b) && Content(a) == Content(b)
  {
    hide RawText, RawLength, ReadLine;
    if a != [] { SameFolds(a[..|a| - 1], b[..|b| - 1]); }
  }

  /** Verification sees only the text and the length of each line. */
  lemma SameStage(a: seq<Raw>, b: seq<Raw>, stage: Stage, limits: Limits, digest: Digest)
    requires SameLines(a, b) && IsStage(a, stage, limits, digest)
    ensures IsStage(b, stage, limits, digest)
  {
    hide RawText, RawLength, ReadLine, StageOk;
    SameFolds(a, b);
    if a != [] { SameFolds(a[..|a| - 1], b[..|b| - 1]); }
  }

  lemma SameRaws(lines: seq<Line>)
    ensures SameLines(RawsOf(lines), BytesRaws(BytesOfLines(lines)))
  {
    hide LineText, LineBytes, RawText, RawLength;
    forall i | 0 <= i < |lines|
      ensures RawText(RawsOf(lines)[i]) == RawText(BytesRaws(BytesOfLines(lines))[i])
      ensures RawLength(RawsOf(lines)[i]) == RawLength(BytesRaws(BytesOfLines(lines))[i])
    {
      SameLine(lines[i]);
    }
  }

  lemma WritableLines(h: Header, records: seq<Record>, digest: Digest)
    requires Writable(h, records, digest)
    ensures AreLines(BytesOfLines(FileLines(h, records, digest)))
  {
    hide LineText, LineBytes, RawText, RawLength, FileLines, RawsOf;
    var lines := FileLines(h, records, digest);
    assert BytesOk(RawsOf(lines), HARD_LIMITS);
    SameRaws(lines);
    forall i | 0 <= i < |lines|
      ensures NEWLINE_BYTE !in LineBytes(lines[i]) && |LineBytes(lines[i])| <= MAX_LINE_BYTES
    {
      ChunkIsLine(lines[i]);
      assert RawLength(RawsOf(lines)[i]) <= MAX_LINE_BYTES;
      LengthOfBytes(LineBytes(lines[i]));
    }
  }

  lemma LengthOfBytes(bytes: Bytes)
    ensures RawLength(BytesRaw(bytes)) == |bytes|
  {
  }

  lemma {:induction false} FileLength(lines: seq<Bytes>)
    ensures |Unsplit(lines)| == TotalBytes(BytesRaws(lines))
  {
    if lines != [] {
      FileLength(lines[1..]);
      TotalCons(lines[0], lines[1..]);
      assert lines == [lines[0]] + lines[1..];
    }
  }

  lemma {:induction false} TotalCons(line: Bytes, lines: seq<Bytes>)
    ensures TotalBytes(BytesRaws([line] + lines)) == |line| + 1 + TotalBytes(BytesRaws(lines))
  {
    var all := BytesRaws([line] + lines);
    if lines == [] {
      assert all[..|all| - 1] == [];
    } else {
      var n := |lines| - 1;
      TotalCons(line, lines[..n]);
      assert all[..|all| - 1] == BytesRaws([line] + lines[..n]) && BytesRaws(lines)[..n] == BytesRaws(lines[..n]);
    }
  }

  /** The whole way: the file is verified with the writer's result, holds the written groups, and
      its size is within what the reader takes. */
  lemma {:induction false} WrittenFileIsVerified(h: Header, records: seq<Record>, groups: seq<Group>, digest: Digest)
    requires Writable(h, records, digest) && IsHash(digest(Content(RawsOf(BodyLines(h, records))))) && Flatten(groups) == records
    ensures var file := FileBytes(ChunksOf(FileLines(h, records, digest)));
            && 0 < |file| <= HARD_FILE_BYTES
            && IsVerified(file, ResultFor(h, records, digest), groups, digest)
  {
    hide RawsOf, ChunksOf, BytesOfLines, BytesRaws, FileLines, IsHash, AreLines, BytesOk, GroupsOk, Split, Unsplit, StageOk;
    var lines := FileLines(h, records, digest);
    FileIsUnsplit(lines);
    WritableLines(h, records, digest);
    SplitExact(Unsplit(BytesOfLines(lines)), BytesOfLines(lines));
    var found :| Flatten(found) == records && OpenOk(h, found, HARD_LIMITS);
    GroupingExact(records, found);
    GroupingExact(records, groups);
    WritableIsStage(h, records, groups, digest);
    SameRaws(lines);
    SameStage(RawsOf(lines), BytesRaws(BytesOfLines(lines)), Closed(h, groups, FooterFor(h, records, digest)), HARD_LIMITS, digest);
    FileLength(BytesOfLines(lines));
    FileSize(BytesRaws(BytesOfLines(lines)), Closed(h, groups, FooterFor(h, records, digest)), digest);
  }

  lemma {:induction false} FileSize(raws: seq<Raw>, stage: Stage, digest: Digest)
    requires IsStage(raws, stage, HARD_LIMITS, digest) && !stage.Empty?
    ensures 0 < TotalBytes(raws) <= HARD_FILE_BYTES
  {
    hide StageOk, ReadRaw;
    assert raws != [];
  }

  /** However the written file is opened, it yields the writer's result, and reading batch 0, 1, ...
      yields the written records cut at the batch boundaries. */
  lemma {:induction false} WrittenFileReadsBack(h: Header, records: seq<Record>, v: Verification, groups: seq<Group>, digest: Digest)
    requires Writable(h, records, digest) && IsHash(digest(Content(RawsOf(BodyLines(h, records)))))
    requires IsVerified(FileBytes(ChunksOf(FileLines(h, records, digest))), v, groups, digest)
    ensures v == ResultFor(h, records, digest) && GroupsOf(records) == Some(groups)
    ensures records == TailRecords(groups, 0)
    ensures forall k: nat :: TailRecords(groups, k) == BatchRecords(groups, k) + TailRecords(groups, k + 1)
  {
    hide RawsOf, ChunksOf, FileLines, IsHash, BytesOk, GroupsOk, IsVerified, BatchRecords, GroupRecords;
    var written :| Flatten(written) == records && OpenOk(h, written, HARD_LIMITS);
    WrittenFileIsVerified(h, records, written, digest);
    VerifiedUnique(FileBytes(ChunksOf(FileLines(h, records, digest))), v, ResultFor(h, records, digest), groups, written, digest);
    GroupingExact(records, written);
    FlattenIsTail(groups, 0);
    assert Flatten(groups[..0]) + TailRecords(groups, 0) == TailRecords(groups, 0);
    forall k: nat
      ensures TailRecords(groups, k) == BatchRecords(groups, k) + TailRecords(groups, k + 1)
    {
      TailSplits(groups, k);
    }
  }

  function Joined(batches: seq<seq<Record>>): seq<Record> {
    if batches == [] then [] else Joined(batches[..|batches| - 1]) + batches[|batches| - 1]
  }

  lemma {:induction false} JoinedSnoc(batches: seq<seq<Record>>, batch: seq<Record>)
    ensures Joined(batches + [batch]) == Joined(batches) + batch
  {
    assert (batches + [batch])[..|batches|] == batches;
  }

  /** The batches cut the records at the batch boundaries: batch k holds index k only, and each has
      its parent first. */
  ghost predicate CutByBatch(batches: seq<seq<Record>>, records: seq<Record>) {
    && Joined(batches) == records
    && forall k :: 0 <= k < |batches| ==>
         batches[k] != [] && batches[k][0].row.Batch? && forall r <- batches[k] :: r.manifestIndex == k
  }

  lemma GroupIsCut(groups: seq<Group>, k: nat)
    requires k < |groups|
    ensures BatchRecords(groups, k) != [] && BatchRecords(groups, k)[0].row.Batch? && forall r <- BatchRecords(groups, k) :: r.manifestIndex == k
  {
    TailSplits(groups, k);
  }

  /** Reading every batch of a source that is still at its beginning. */
  method ReadAllBatches(source: Source) returns (batches: seq<seq<Record>>)
    requires source.Valid() && source.nextManifestIndex == 0 && !source.closed
    requires source.verification.counts.batches == |source.groups|
    modifies source, source.records, source.records.lines
    ensures CutByBatch(batches, Flatten(source.groups)) && |batches| == |source.groups|
  {
    hide Flatten, GroupRecords, BatchRecords, TailRecords, Source.Valid;
    ghost var groups := source.groups;
    batches := [];
    FlattenIsTail(groups, 0);
    assert Flatten(groups) == TailRecords(groups, 0) by { WholeTail(groups); }
    while |batches| < source.verification.counts.batches
      invariant source.Valid() && source.nextManifestIndex == |batches| <= |groups| && !source.closed
      invariant Joined(batches) + TailRecords(groups, |batches|) == Flatten(groups)
      invariant forall k :: 0 <= k < |batches| ==> batches[k] != [] && batches[k][0].row.Batch? && forall r <- batches[k] :: r.manifestIndex == k
      decreases |groups| - |batches|
    {
      ghost var k := |batches|;
      var read := source.ReadBatchRecords(|batches|);
      TailSplits(groups, k);
      GroupIsCut(groups, k);
      JoinedSnoc(batches, read.value);
      batches := batches + [read.value];
    }
    WholeTail(groups);
  }

  /** Writing records, opening the file and reading all batches gives the records back, cut at the
      batch boundaries, with the writer's result. */
  method WriteAndReadBack(h: Header, records: seq<Record>, sink: Sink, digest: Digest)
    returns (result: Option<Verification>, batches: seq<seq<Record>>)
    requires (forall t :: IsHash(digest(t))) && sink.chunks == []
    modifies sink
    ensures result.Some? <==> Writable(h, records, digest) && |records| + 2 <= sink.capacity
    ensures result.Some? ==> result.value == ResultFor(h, records, digest)
    ensures result.Some? ==> CutByBatch(batches, records) && |batches| == result.value.counts.batches
  {
    hide Writable, FileLines, ChunksOf, FileBytes, ResultFor, IsVerified, IsHash, RawsOf, Content, Flatten, CutByBatch, Source.Valid, BodyLines;
    batches := [];
    result := WriteEscrow(h, records, true, sink, digest);
    if result.None? { return; }
    var file := FileBytes(sink.chunks);
    GroupsOfWritable(h, records, digest);
    var found := OpenSource(file, digest);
    ghost var v, groups := found.value.verification, found.value.groups;
    WrittenFileReadsBack(h, records, v, groups, digest);
    GroupingExact(records, groups);
    GroupsCounted(groups);
    BatchCount(h, records, digest);
    batches := ReadAllBatches(found.value);
  }

  lemma GroupsOfWritable(h: Header, records: seq<Record>, digest: Digest)
    requires Writable(h, records, digest) && IsHash(digest(Content(RawsOf(BodyLines(h, records)))))
    ensures var file := FileBytes(ChunksOf(FileLines(h, records, digest)));
            0 < |file| <= HARD_FILE_BYTES && exists v, groups :: IsVerified(file, v, groups, digest)
  {
    hide FileBytes, ChunksOf, FileLines, IsVerified, IsHash, BytesOk, AllValid, OpenOk;
    var groups :| Flatten(groups) == records && OpenOk(h, groups, HARD_LIMITS);
    WrittenFileIsVerified(h, records, groups, digest);
  }

  lemma {:induction false} BatchCount(h: Header, records: seq<Record>, digest: Digest)
    ensures ResultFor(h, records, digest).counts == CountRecords(records)
  {
  }
}
