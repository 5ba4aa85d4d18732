/** An escrow file opened for reading: verified once from end to end, then read again batch by batch. */
module EscrowSource {
  import opened Utf16
  import opened Options
  import opened Utf8
  import opened JsonValue
  import opened EscrowNames
  import opened EscrowRecords
  import opened EscrowCodec
  import opened EscrowGroups
  import opened EscrowStages
  import opened EscrowAccumulator
  import opened EscrowLines

  function BytesRaws(lines: seq<Bytes>): seq<Raw> {
    seq(|lines|, i requires 0 <= i < |lines| => BytesRaw(lines[i]))
  }

  /** The file holds these groups and verifies with this result. */
  ghost predicate IsVerified(file: Bytes, v: Verification, groups: seq<Group>, digest: Digest) {
    && Split(file).Some?
    && IsStage(BytesRaws(Split(file).value), Closed(v.header, groups, Footer(v.counts, v.contentHash)), HARD_LIMITS, digest)
  }

  lemma VerifiedUnique(file: Bytes, v: Verification, w: Verification, groups: seq<Group>, more: seq<Group>, digest: Digest)
    requires IsVerified(file, v, groups, digest) && IsVerified(file, w, more, digest)
    ensures v == w && groups == more
  {
    hide Split, StageOk, BytesOk;
    StageUnique(Closed(v.header, groups, Footer(v.counts, v.contentHash)), Closed(w.header, more, Footer(w.counts, w.contentHash)));
  }

  // ---------- the first pass

  function Glue(got: seq<Bytes>, rest: Option<seq<Bytes>>): Option<seq<Bytes>> {
    if rest.None? then None else Some(got + rest.value)
  }

  lemma {:induction false} GlueNext(got: seq<Bytes>, rest: Bytes)
    requires NextLine(rest).Next?
    ensures Glue(got, Split(rest)) == Glue(got + [NextLine(rest).value], Split(AfterLine(rest)))
  {
    hide NextLine, AfterLine;
    var line, more := NextLine(rest).value, Split(AfterLine(rest));
    if more.Some? { assert got + ([line] + more.value) == (got + [line]) + more.value; }
  }

  lemma BytesRawsConcat(a: seq<Bytes>, b: seq<Bytes>)
    ensures BytesRaws(a + b) == BytesRaws(a) + BytesRaws(b)
  {
  }

  /** Lines that the verifier refuses cannot begin a verified file. */
  lemma {:induction false} RefusedFile(file: Bytes, got: seq<Bytes>, rest: Option<seq<Bytes>>, digest: Digest)
    requires Split(file) == Glue(got, rest) && !Accepts(BytesRaws(got), HARD_LIMITS, digest)
    ensures forall v, groups :: !IsVerified(file, v, groups, digest)
  {
    hide IsStage, Split;
    forall v, groups
      ensures !IsVerified(file, v, groups, digest)
    {
      if IsVerified(file, v, groups, digest) {
        BytesRawsConcat(got, rest.value);
        AcceptsPrefix(BytesRaws(got), BytesRaws(rest.value), HARD_LIMITS, digest);
      }
    }
  }

  lemma {:induction false} VerifiedFile(file: Bytes, got: seq<Bytes>, digest: Digest)
    requires Split(file) == Some(got)
    ensures forall v :: IsEscrow(BytesRaws(got), v, HARD_LIMITS, digest) <==> exists groups :: IsVerified(file, v, groups, digest)
  {
    hide IsStage, Split;
    forall v
      ensures IsEscrow(BytesRaws(got), v, HARD_LIMITS, digest) <==> exists groups :: IsVerified(file, v, groups, digest)
    {
      if groups :| IsStage(BytesRaws(got), Closed(v.header, groups, Footer(v.counts, v.contentHash)), HARD_LIMITS, digest) {
        assert IsVerified(file, v, groups, digest);
      }
    }
  }

  /** The first loop of `openVerifiedNewsletterRetentionEscrowSource`. */
  method VerifyFile(file: Bytes, digest: Digest) returns (result: Option<Verification>)
    requires |file| <= HARD_FILE_BYTES
    ensures forall v :: result == Some(v) <==> exists groups :: IsVerified(file, v, groups, digest)
  {
    hide *;
    HardLimitsOk();
    var lines := new LineIterator(file);
    var acc := new Accumulator(HARD_LIMITS, digest);
    ghost var got: seq<Bytes> := [];
    EmptyGlue(Split(file));
    OneRaw([]);
    while true
      invariant fresh(lines) && fresh(acc) && lines.Valid() && acc.Valid() && !acc.failed && acc.limits == HARD_LIMITS && acc.digest == digest
      invariant acc.raws == BytesRaws(got) && Split(file) == Glue(got, Split(lines.Rest()))
      decreases |lines.Rest()|
    {
      ghost var rest := lines.Rest();
      SplitStep(rest);
      var item := lines.Advance();
      match item
      case Next(line) =>
        GlueNext(got, rest);
        BytesRawsConcat(got, [line]);
        OneRaw(line);
        got := got + [line];
        var outcome := acc.Consume(BytesRaw(line));
        if outcome.Rejected? {
          RefusedFile(file, got, Split(lines.Rest()), digest);
          return None;
        }
      case Done => break;
      case Failure =>
        NotSplit(file, digest);
        return None;
    }
    VerifiedFile(file, got, digest);
    result := acc.Finalize();
    FinalResult(acc, result);
  }

  lemma HardLimitsOk()
    ensures LimitsOk(HARD_LIMITS)
  {
  }

  lemma OneRaw(line: Bytes)
    ensures BytesRaws([line]) == [BytesRaw(line)] && BytesRaws([]) == []
  {
  }

  lemma EmptyGlue(rest: Option<seq<Bytes>>)
    ensures Glue([], rest) == rest && forall got :: Glue(got, Some([])) == Some(got) && Glue(got, None) == None
  {
    assert rest.Some? ==> [] + rest.value == rest.value;
    assert forall got: seq<Bytes> :: got + [] == got;
  }

  lemma {:induction false} SplitStep(rest: Bytes)
    ensures NextLine(rest).Next? ==> |AfterLine(rest)| < |rest|
    ensures NextLine(rest).Done? ==> Split(rest) == Some([])
    ensures NextLine(rest).Failure? ==> Split(rest) == None
  {
  }

  lemma {:induction false} NotSplit(file: Bytes, digest: Digest)
    requires Split(file) == None
    ensures forall v, groups :: !IsVerified(file, v, groups, digest)
  {
  }

  /** `Finalize` returns the result of the escrow if there is one. */
  lemma FinalResult(acc: Accumulator, result: Option<Verification>)
    requires result.Some? ==> IsEscrow(acc.raws, result.value, acc.limits, acc.digest)
    requires forall v :: IsEscrow(acc.raws, v, acc.limits, acc.digest) ==> result == Some(v)
    ensures forall v :: result == Some(v) <==> IsEscrow(acc.raws, v, acc.limits, acc.digest)
  {
  }

  // ---------- the second pass

  datatype Parsed = SawHeader | SawFooter | SawRecord(record: Record)

  /** How `iterateVerifiedEscrowRecords` reads a line: no duplicate check, no canonical check, and
      no look at the other fields of header and footer. */
  function ParseVerified(line: Bytes): Option<Parsed> {
    var text :- DecodeLine(line);
    var v :- Parse(false, text);
    if !v.VObject? then None else
    var kind := Field(v.entries, KIND);
    if kind == Some(VString(KIND_HEADER)) then Some(SawHeader)
    else if kind == Some(VString(KIND_FOOTER)) then Some(SawFooter)
    else var r :- NormalizeRecord(v.entries); Some(SawRecord(r))
  }

  function Seen(line: Line): Parsed {
    match line
    case HeaderLine(_) => SawHeader
    case FooterLine(_) => SawFooter
    case RecordLine(r) => SawRecord(r)
  }

  /** The second reading of a line agrees with the first. */
  lemma ParseVerifiedLine(bytes: Bytes, line: Line)
    requires ReadRaw(BytesRaw(bytes)) == Some(line)
    ensures ParseVerified(bytes) == Some(Seen(line))
  {
    hide LineEntries, NormalizeRecord, NormalizeHeader, NormalizeFooter, JsonValue.Parse, JsonValue.Stringify, LineText, DecodeLine;
    var text := DecodeLine(bytes).value;
    assert ReadLine(text) == Some(line);
    ReadLineExact(text, line);
    LineIsStringify(line);
    ParseStringify(VObject(LineEntries(line)));
    EntriesRoundTrip(line);
  }

  lemma {:induction false} ReadAllCons(raw: Raw, raws: seq<Raw>)
    ensures ReadAll([raw] + raws) ==
            if ReadRaw(raw).Some? && ReadAll(raws).Some? then Some([ReadRaw(raw).value] + ReadAll(raws).value) else None
  {
    hide ReadRaw;
    var all := [raw] + raws;
    if raws == [] {
      assert all[..|all| - 1] == [] && all[|all| - 1] == raw;
      var none: seq<Line> := [];
      assert ReadRaw(raw).Some? ==> none + [ReadRaw(raw).value] == [ReadRaw(raw).value] + none;
    } else {
      var n := |raws| - 1;
      ReadAllCons(raw, raws[..n]);
      assert all[..|all| - 1] == [raw] + raws[..n] && all[|all| - 1] == raws[n];
      var first, middle, last := ReadRaw(raw), ReadAll(raws[..n]), ReadRaw(raws[n]);
      if first.Some? && middle.Some? && last.Some? {
        assert ([first.value] + middle.value) + [last.value] == [first.value] + (middle.value + [last.value]);
      }
    }
  }

  /** The lines still to come in the second pass. */
  ghost predicate Ahead(rest: Bytes, lines: seq<Line>) {
    Split(rest).Some? && ReadAll(BytesRaws(Split(rest).value)) == Some(lines)
  }

  lemma AheadNext(rest: Bytes, lines: seq<Line>)
    requires Ahead(rest, lines)
    ensures lines == [] ==> NextLine(rest).Done?
    ensures lines != [] ==>
            NextLine(rest).Next? && ParseVerified(NextLine(rest).value) == Some(Seen(lines[0])) && Ahead(AfterLine(rest), lines[1..])
  {
    hide NextLine, AfterLine, ReadRaw, ParseVerified;
    if NextLine(rest).Next? {
      var line, more := NextLine(rest).value, Split(AfterLine(rest)).value;
      assert BytesRaws([line] + more) == [BytesRaw(line)] + BytesRaws(more);
      ReadAllCons(BytesRaw(line), BytesRaws(more));
      ParseVerifiedLine(line, lines[0]);
    }
  }

  /** The lines that are left in the file, by what was seen of it. */
  function Left(header: Header, records: seq<Record>, footer: Footer, sawHeader: bool, sawFooter: bool): seq<Line> {
    (if sawHeader then [] else [HeaderLine(header)]) + (if sawFooter then [] else RecordLines(records) + [FooterLine(footer)])
  }

  lemma LeftNext(header: Header, records: seq<Record>, footer: Footer, sawHeader: bool, sawFooter: bool)
    requires sawFooter ==> sawHeader && records == []
    ensures var left := Left(header, records, footer, sawHeader, sawFooter);
            if !sawHeader then left != [] && left[0] == HeaderLine(header) && left[1..] == Left(header, records, footer, true, sawFooter)
            else if sawFooter then left == []
            else if records == [] then left == [FooterLine(footer)] && left[1..] == Left(header, records, footer, true, true)
            else left != [] && left[0] == RecordLine(records[0]) && left[1..] == Left(header, records[1..], footer, true, false)
  {
  }

  /** `iterateVerifiedEscrowRecords`. */
  class RecordIterator {
    const lines: LineIterator
    var sawHeader: bool
    var sawFooter: bool
    ghost const header: Header
    ghost const footer: Footer
    /** The records still to come. */
    ghost var records: seq<Record>

    ghost predicate Valid()
      reads this, lines
    {
      && lines.Valid() && Ahead(lines.Rest(), Left(header, records, footer, sawHeader, sawFooter))
      && (sawFooter ==> sawHeader && records == [])
    }

    constructor (file: Bytes, ghost v: Verification, ghost groups: seq<Group>, ghost digest: Digest)
      requires |file| <= HARD_FILE_BYTES && IsVerified(file, v, groups, digest)
      ensures Valid() && records == Flatten(groups) && fresh(lines)
    {
      hide Split, ReadRaw;
      lines := new LineIterator(file);
      sawHeader, sawFooter := false, false;
      header, footer, records := v.header, Footer(v.counts, v.contentHash), Flatten(groups);
      new;
      assert Left(header, records, footer, false, false) == LinesOf(Closed(v.header, groups, footer));
    }

    /** The next record; Done when there is none. */
    method NextRecord() returns (item: Item<Record>)
      requires Valid()
      modifies this, lines
      ensures Valid()
      ensures item == if old(records) == [] then Done else Next(old(records)[0])
      ensures records == if old(records) == [] then [] else old(records)[1..]
    {
      hide Ahead, NextLine, AfterLine, Left, ParseVerified;
      while true
        invariant Valid() && records == old(records)
        decreases !sawHeader, !sawFooter
      {
        AheadNext(lines.Rest(), Left(header, records, footer, sawHeader, sawFooter));
        LeftNext(header, records, footer, sawHeader, sawFooter);
        var line := lines.Advance();
        if line.Failure? { return Failure; }
        if line.Done? { return if sawHeader && sawFooter then Done else Failure; }
        var parsed := ParseVerified(line.value);
        if parsed.None? { return Failure; }
        match parsed.value
        case SawHeader =>
          if sawHeader || sawFooter { return Failure; }
          sawHeader := true;
        case SawFooter =>
          if !sawHeader || sawFooter { return Failure; }
          sawFooter := true;
        case SawRecord(r) =>
          if !sawHeader || sawFooter { return Failure; }
          records := records[1..];
          return Next(r);
      }
    }
  }

  // ---------- batch by batch

  /** The records of the groups from the k-th on. */
  function TailRecords(groups: seq<Group>, k: nat): seq<Record>
    decreases |groups| - k
  {
    if k >= |groups| then [] else GroupRecords(k, groups[k]) + TailRecords(groups, k + 1)
  }

  lemma {:induction false} FlattenIsTail(groups: seq<Group>, k: nat)
    requires k <= |groups|
    ensures Flatten(groups) == Flatten(groups[..k]) + TailRecords(groups, k)
    decreases |groups| - k
  {
    hide GroupRecords, Flatten;
    if k == |groups| {
      assert groups[..k] == groups;
    } else {
      FlattenIsTail(groups, k + 1);
      assert groups[..k + 1] == groups[..k] + [groups[k]];
      FlattenSnoc(groups[..k], groups[k]);
      RecordsAssoc(Flatten(groups[..k]), GroupRecords(k, groups[k]), TailRecords(groups, k + 1));
    }
  }

  lemma GroupIndex(k: int, g: Group)
    ensures forall i :: 0 <= i < |GroupRecords(k, g)| ==> GroupRecords(k, g)[i].manifestIndex == k
    ensures GroupRecords(k, g) != []
  {
  }

  /** What is read for batch k: nothing beyond the last batch. */
  function BatchRecords(groups: seq<Group>, k: nat): seq<Record> {
    if k < |groups| then GroupRecords(k, groups[k]) else []
  }

  lemma TailSplits(groups: seq<Group>, k: nat)
    ensures TailRecords(groups, k) == BatchRecords(groups, k) + TailRecords(groups, k + 1)
    ensures forall i :: 0 <= i < |BatchRecords(groups, k)| ==> BatchRecords(groups, k)[i].manifestIndex == k
    ensures TailRecords(groups, k + 1) != [] ==> TailRecords(groups, k + 1)[0].manifestIndex > k
  {
    if k < |groups| { GroupIndex(k, groups[k]); }
    if k + 1 < |groups| { GroupIndex(k + 1, groups[k + 1]); }
  }

  /** One round of the loop that collects a batch. */
  lemma CollectStep(batch: seq<Record>, later: seq<Record>, collected: seq<Record>, left: seq<Record>, k: int)
    requires forall i :: 0 <= i < |batch| ==> batch[i].manifestIndex == k
    requires later != [] ==> later[0].manifestIndex > k
    requires collected <= batch && left == batch[|collected|..] + later
    ensures left == [] ==> collected == batch && later == []
    ensures left != [] && left[0].manifestIndex == k ==> collected + [left[0]] <= batch && left[1..] == batch[|collected| + 1..] + later
    ensures left != [] && left[0].manifestIndex != k ==> collected == batch && left == later && left[0].manifestIndex > k
  {
    if collected == batch {
      assert left == later;
    } else {
      assert left[0] == batch[|collected|];
      assert left[1..] == batch[|collected| + 1..] + later;
    }
  }

  function Held(r: Option<Record>): seq<Record> { if r.None? then [] else [r.value] }

  lemma {:induction false} WholeTail(groups: seq<Group>)
    ensures TailRecords(groups, 0) == Flatten(groups) && TailRecords(groups, |groups|) == []
  {
    FlattenIsTail(groups, 0);
    assert groups[..0] == [] && Flatten([]) == [];
  }

  /** `openVerifiedNewsletterRetentionEscrowSource`: the object that hands out the batches. */
  class Source {
    const verification: Verification
    const records: RecordIterator
    var nextManifestIndex: int
    var pending: Option<Record>
    var closed: bool
    ghost const groups: seq<Group>

    ghost predicate Valid()
      reads this, records, records.lines
    {
      records.Valid() && nextManifestIndex >= 0 && Left() == TailRecords(groups, nextManifestIndex)
    }

    constructor (file: Bytes, v: Verification, ghost groups: seq<Group>, ghost digest: Digest)
      requires |file| <= HARD_FILE_BYTES && IsVerified(file, v, groups, digest)
      ensures Valid() && fresh(records) && fresh(records.lines)
      ensures this.groups == groups && verification == v && nextManifestIndex == 0 && !closed
    {
      hide IsVerified, Flatten, GroupRecords, TailRecords, RecordIterator.Valid;
      verification, nextManifestIndex, pending, closed := v, 0, None, false;
      this.groups := groups;
      records := new RecordIterator(file, v, groups, digest);
      new;
      WholeTail(groups);
    }

    /** What is still to be handed out. */
    ghost function Left(): seq<Record>
      reads this`pending, records, records.lines
    {
      Held(pending) + records.records
    }

    /** The record held back, or else the next one. */
    method TakeRecord() returns (item: Item<Record>)
      requires records.Valid()
      modifies this`pending, records, records.lines
      ensures records.Valid() && pending == None
      ensures item == if old(Left()) == [] then Done else Next(old(Left())[0])
      ensures Left() == if old(Left()) == [] then [] else old(Left())[1..]
    {
      hide RecordIterator.Valid;
      if pending.Some? {
        item := Next(pending.value);
        pending := None;
      } else {
        item := records.NextRecord();
      }
    }

    /** The loop of `readBatchRecords`: it takes records until one of a later batch comes, and holds
        that one back. */
    method CollectBatch(manifestIndex: int, ghost batch: seq<Record>, ghost later: seq<Record>) returns (collected: Option<seq<Record>>)
      requires records.Valid() && Left() == batch + later
      requires forall i :: 0 <= i < |batch| ==> batch[i].manifestIndex == manifestIndex
      requires later != [] ==> later[0].manifestIndex > manifestIndex
      modifies this`pending, records, records.lines
      ensures records.Valid() && collected == Some(batch) && Left() == later
    {
      hide *;
      var got: seq<Record> := [];
      while true
        invariant records.Valid() && got <= batch && Left() == batch[|got|..] + later
        decreases |Left()|
      {
        ghost var left := Left();
        CollectStep(batch, later, got, left, manifestIndex);
        var item := TakeRecord();
        if item.Failure? { return None; }
        if item.Done? { break; }
        var current := item.value;
        if current.manifestIndex < manifestIndex { return None; }
        if current.manifestIndex > manifestIndex {
          PutBack(current);
          assert Left() == left;
          break;
        }
        got := got + [current];
      }
      collected := Some(got);
    }

    /** Batches come in order, each exactly once, each with all its records in order. */
    method ReadBatchRecords(manifestIndex: int) returns (result: Option<seq<Record>>)
      requires Valid()
      modifies this, records, records.lines
      ensures Valid() && closed == old(closed)
      ensures result.Some? <==> !closed && manifestIndex == old(nextManifestIndex)
      ensures result.Some? ==> result.value == BatchRecords(groups, manifestIndex) && nextManifestIndex == manifestIndex + 1
      ensures result.None? ==> nextManifestIndex == old(nextManifestIndex)
    {
      hide TailRecords, BatchRecords, GroupRecords, RecordIterator.Valid, Left;
      if closed || manifestIndex != nextManifestIndex { return None; }
      TailSplits(groups, manifestIndex);
      result := CollectBatch(manifestIndex, BatchRecords(groups, manifestIndex), TailRecords(groups, manifestIndex + 1));
      if result.None? { return; }
      nextManifestIndex := nextManifestIndex + 1;
    }

    method PutBack(current: Record)
      requires pending == None
      modifies this`pending
      ensures pending == Some(current) && Left() == [current] + old(Left())
    {
      pending := Some(current);
    }

    method Close()
      requires Valid()
      modifies this`closed
      ensures Valid() && closed
    {
      closed := true;
    }
  }

  /** `openVerifiedNewsletterRetentionEscrowSource` on a file whose bytes do not change. */
  method OpenSource(file: Bytes, digest: Digest) returns (source: Option<Source>)
    ensures source.Some? ==> source.value.Valid() && source.value.nextManifestIndex == 0 && !source.value.closed
    ensures source.Some? ==> fresh(source.value) && fresh(source.value.records) && fresh(source.value.records.lines)
    ensures source.Some? ==> IsVerified(file, source.value.verification, source.value.groups, digest)
    ensures source.None? ==> |file| == 0 || |file| > HARD_FILE_BYTES || forall v, groups :: !IsVerified(file, v, groups, digest)
  {
    hide IsVerified, RecordIterator.Valid;
    if |file| == 0 || |file| > HARD_FILE_BYTES { return None; }
    var result := VerifyFile(file, digest);
    if result.None? {
      assert forall v, groups :: IsVerified(file, v, groups, digest) ==> result == Some(v);
      return None;
    }
    ghost var groups :| IsVerified(file, result.value, groups, digest);
    var reader := new Source(file, result.value, groups, digest);
    source := Some(reader);
  }
}
