/** What a correct escrow, and a correct beginning of one, is. */
module EscrowStages {
  import opened Utf16
  import opened Options
  import opened Utf8
  import opened JsonGrammar
  import opened EscrowRecords
  import opened EscrowCodec
  import opened EscrowGroups

  /** A line as it is handed over: a string or bytes. */
  datatype Raw = TextRaw(text: Text) | BytesRaw(bytes: Bytes)

  function RawText(raw: Raw): Option<Text> {
    match raw
    case TextRaw(t) => Some(t)
    case BytesRaw(b) => DecodeLine(b)
  }

  function RawLength(raw: Raw): nat {
    match raw
    case TextRaw(t) => |Encode(t)|
    case BytesRaw(b) => |b|
  }

  function ReadRaw(raw: Raw): Option<Line> {
    var t :- RawText(raw);
    ReadLine(t)
  }

  /** As bytes a valid line has exactly two accepted spellings: its encoded canonical text, alone or
      behind a byte order mark. */
  lemma ByteLineExact(b: Bytes, line: Line)
    ensures ReadRaw(BytesRaw(b)) == Some(line) <==>
            ValidLine(line) && (b == Encode(LineText(line)) || b == BOM + Encode(LineText(line)))
    ensures BOM + Encode(LineText(line)) != Encode(LineText(line))
  {
    hide ReadLine, ValidLine, LineText, Encode, DecodeLine;
    LineTextClean(line);
    DecodeLineExact(b, LineText(line));
    assert |BOM + Encode(LineText(line))| == |Encode(LineText(line))| + 3;
    ReadLineExact(LineText(line), line);
    if DecodeLine(b).Some? { ReadLineExact(DecodeLine(b).value, line); }
  }

  /** Every line on its own, or nothing when one of them cannot be read. */
  function ReadAll(raws: seq<Raw>): (r: Option<seq<Line>>)
    ensures r.Some? ==> |r.value| == |raws|
  {
    if raws == [] then Some([])
    else
      var lines :- ReadAll(raws[..|raws| - 1]);
      var line :- ReadRaw(raws[|raws| - 1]);
      Some(lines + [line])
  }

  datatype Limits = Limits(lineBytes: int, totalBytes: int, records: int, batches: int, messages: int)

  const HARD_LIMITS := Limits(16_777_216, 536_870_912, 250_000, 100, 100_000)

  /** The hash function, from the hashed text to lowercase hex. */
  type Digest = Text -> Text

  function TotalBytes(raws: seq<Raw>): nat {
    if raws == [] then 0 else TotalBytes(raws[..|raws| - 1]) + RawLength(raws[|raws| - 1]) + 1
  }

  ghost predicate BytesOk(raws: seq<Raw>, limits: Limits) {
    && (forall i :: 0 <= i < |raws| ==> RawLength(raws[i]) <= limits.lineBytes)
    && TotalBytes(raws) <= limits.totalBytes
  }

  // ---------- how far an escrow has come

  datatype Stage =
    | Empty
    | Open(header: Header, groups: seq<Group>)
    | Closed(header: Header, groups: seq<Group>, footer: Footer)

  function RecordLines(records: seq<Record>): seq<Line> {
    seq(|records|, i requires 0 <= i < |records| => RecordLine(records[i]))
  }

  function LinesOf(stage: Stage): seq<Line> {
    match stage
    case Empty => []
    case Open(h, groups) => [HeaderLine(h)] + RecordLines(Flatten(groups))
    case Closed(h, groups, f) => [HeaderLine(h)] + RecordLines(Flatten(groups)) + [FooterLine(f)]
  }

  function MessageCount(groups: seq<Group>): nat {
    if groups == [] then 0 else MessageCount(groups[..|groups| - 1]) + |groups[|groups| - 1].messages|
  }

  function ErrorCount(groups: seq<Group>): nat {
    if groups == [] then 0 else ErrorCount(groups[..|groups| - 1]) + |groups[|groups| - 1].errors|
  }

  function NotificationCount(groups: seq<Group>): nat {
    if groups == [] then 0 else NotificationCount(groups[..|groups| - 1]) + |groups[|groups| - 1].notifications|
  }

  function CountsOf(groups: seq<Group>): Counts {
    Counts(|groups|, MessageCount(groups), ErrorCount(groups), NotificationCount(groups))
  }

  /** The text of the lines, each followed by a line feed. */
  function Content(raws: seq<Raw>): Text {
    if raws == [] then []
    else
      var text := RawText(raws[|raws| - 1]);
      Content(raws[..|raws| - 1]) + ((if text.None? then [] else text.value) + [NEWLINE])
  }

  ghost predicate OpenOk(h: Header, groups: seq<Group>, limits: Limits) {
    && GroupsOk(groups, h.siteId)
    && |Flatten(groups)| <= limits.records && |groups| <= limits.batches && MessageCount(groups) <= limits.messages
  }

  /** `content` is the text of the lines before the footer. */
  ghost predicate StageOk(stage: Stage, content: Text, limits: Limits, digest: Digest) {
    match stage
    case Empty => true
    case Open(h, groups) => OpenOk(h, groups, limits)
    case Closed(h, groups, f) =>
      OpenOk(h, groups, limits) && f.counts == CountsOf(groups) && f.contentHash == digest(content)
  }

  /** The lines that the footer's hash is taken of. */
  function Hashed(raws: seq<Raw>, stage: Stage): Text {
    if stage.Closed? && raws != [] then Content(raws[..|raws| - 1]) else Content(raws)
  }

  /** The raw lines are those of a correct stage, within the byte limits. */
  ghost predicate IsStage(raws: seq<Raw>, stage: Stage, limits: Limits, digest: Digest) {
    BytesOk(raws, limits) && ReadAll(raws) == Some(LinesOf(stage)) && StageOk(stage, Hashed(raws, stage), limits, digest)
  }

  /** A correct beginning of an escrow. */
  ghost predicate Accepts(raws: seq<Raw>, limits: Limits, digest: Digest) {
    exists stage :: IsStage(raws, stage, limits, digest)
  }

  /** A complete escrow with this verification result. */
  ghost predicate IsEscrow(raws: seq<Raw>, result: Verification, limits: Limits, digest: Digest) {
    exists groups ::
      IsStage(raws, Closed(result.header, groups, Footer(result.counts, result.contentHash)), limits, digest)
  }

  // ---------- stages grow line by line

  function NextStage(stage: Stage, line: Line): Option<Stage> {
    match (stage, line)
    case (Empty, HeaderLine(h)) => Some(Open(h, []))
    case (Open(h, groups), RecordLine(r)) => var more :- Add(groups, r); Some(Open(h, more))
    case (Open(h, groups), FooterLine(f)) => Some(Closed(h, groups, f))
    case _ => None
  }

  function StageOf(lines: seq<Line>): Option<Stage> {
    if lines == [] then Some(Empty)
    else
      var stage :- StageOf(lines[..|lines| - 1]);
      NextStage(stage, lines[|lines| - 1])
  }

  lemma RecordLinesSnoc(records: seq<Record>, r: Record)
    ensures RecordLines(records + [r]) == RecordLines(records) + [RecordLine(r)]
  {
  }

  lemma LinesAssoc(a: seq<Line>, b: seq<Line>, c: seq<Line>)
    ensures (a + b) + c == a + (b + c)
  {
  }

  lemma RecordNext(h: Header, groups: seq<Group>, r: Record)
    requires Add(groups, r).Some?
    ensures LinesOf(Open(h, Add(groups, r).value)) == LinesOf(Open(h, groups)) + [RecordLine(r)]
  {
    hide Add, Flatten, RecordLines;
    FlattenAdd(groups, r);
    RecordLinesSnoc(Flatten(groups), r);
    LinesAssoc([HeaderLine(h)], RecordLines(Flatten(groups)), [RecordLine(r)]);
  }

  lemma HeaderNext(h: Header)
    ensures LinesOf(Open(h, [])) == [HeaderLine(h)]
  {
  }

  lemma LinesOfNext(stage: Stage, line: Line)
    requires NextStage(stage, line).Some?
    ensures LinesOf(NextStage(stage, line).value) == LinesOf(stage) + [line]
  {
    hide Add, Flatten, RecordLines;
    match line
    case HeaderLine(h) => HeaderNext(h);
    case RecordLine(r) => RecordNext(stage.header, stage.groups, r);
    case FooterLine(_) =>
  }

  /** A stage before its last line. */
  function Before(stage: Stage): Stage
    requires !stage.Empty?
  {
    match stage
    case Closed(h, groups, _) => Open(h, groups)
    case Open(h, groups) => if groups == [] then Empty else Open(h, Drop(groups))
  }

  function FinalLine(stage: Stage): Line
    requires !stage.Empty?
  {
    match stage
    case Closed(_, _, f) => FooterLine(f)
    case Open(h, groups) => if groups == [] then HeaderLine(h) else RecordLine(LastRecord(groups))
  }

  lemma NextOfBefore(stage: Stage)
    requires !stage.Empty?
    ensures NextStage(Before(stage), FinalLine(stage)) == Some(stage)
  {
    if stage.Open? && stage.groups != [] { AddAfterDrop(stage.groups); }
  }

  lemma {:induction false} StageOfLines(stage: Stage)
    ensures StageOf(LinesOf(stage)) == Some(stage)
    decreases |LinesOf(stage)|
  {
    if !stage.Empty? {
      NextOfBefore(stage);
      LinesOfNext(Before(stage), FinalLine(stage));
      StageOfLines(Before(stage));
      assert LinesOf(stage)[..|LinesOf(stage)| - 1] == LinesOf(Before(stage));
    }
  }

  lemma {:induction false} LinesOfStage(lines: seq<Line>)
    requires StageOf(lines).Some?
    ensures LinesOf(StageOf(lines).value) == lines
  {
    if lines != [] {
      var n := |lines| - 1;
      LinesOfStage(lines[..n]);
      LinesOfNext(StageOf(lines[..n]).value, lines[n]);
      assert lines == lines[..n] + [lines[n]];
    }
  }

  lemma StageUnique(a: Stage, b: Stage)
    requires LinesOf(a) == LinesOf(b)
    ensures a == b
  {
    StageOfLines(a);
    StageOfLines(b);
  }

  // ---------- one line more

  lemma {:induction false} CountsSnoc(groups: seq<Group>, g: Group)
    ensures CountsOf(groups + [g]) ==
            Counts(|groups| + 1, MessageCount(groups) + |g.messages|, ErrorCount(groups) + |g.errors|, NotificationCount(groups) + |g.notifications|)
  {
    assert (groups + [g])[..|groups|] == groups;
  }

  function CountOne(counts: Counts, kind: Kind): Counts {
    match kind
    case BatchKind => counts.(batches := counts.batches + 1)
    case MessageKind => counts.(messages := counts.messages + 1)
    case ErrorKind => counts.(errors := counts.errors + 1)
    case NotificationKind => counts.(notifications := counts.notifications + 1)
  }

  lemma CountsAdd(groups: seq<Group>, r: Record)
    requires Add(groups, r).Some?
    ensures CountsOf(Add(groups, r).value) == CountOne(CountsOf(groups), KindOfRow(r.row))
  {
    if r.row.Batch? {
      CountsSnoc(groups, Group(r.row.batch, [], [], []));
    } else {
      CountsSnoc(Init(groups), Last(groups));
      CountsSnoc(Init(groups), Last(Add(groups, r).value));
      assert groups == Init(groups) + [Last(groups)];
      assert Add(groups, r).value == Init(groups) + [Last(Add(groups, r).value)];
    }
  }

  ghost predicate WithinLimits(counts: Counts, records: int, limits: Limits) {
    records <= limits.records && counts.batches <= limits.batches && counts.messages <= limits.messages
  }

  /** What a line must satisfy to follow the lines of a stage. */
  ghost predicate MayFollow(stage: Stage, line: Line, content: Text, limits: Limits, digest: Digest) {
    && NextStage(stage, line).Some?
    && match line
       case HeaderLine(_) => true
       case RecordLine(r) =>
         Fits(stage.groups, r, stage.header.siteId) && WithinLimits(CountsOf(Add(stage.groups, r).value), |Flatten(stage.groups)| + 1, limits)
       case FooterLine(f) => f.counts == CountsOf(stage.groups) && f.contentHash == digest(content)
  }

  lemma NoGroupsOk(siteId: Text)
    ensures GroupsOk([], siteId) && Flatten([]) == []
  {
  }

  lemma StageOkNext(stage: Stage, line: Line, content: Text, limits: Limits, digest: Digest)
    requires NextStage(stage, line).Some? && limits.records >= 0 && limits.batches >= 0 && limits.messages >= 0
    ensures !stage.Closed?
    ensures StageOk(NextStage(stage, line).value, content, limits, digest) <==>
            StageOk(stage, content, limits, digest) && MayFollow(stage, line, content, limits, digest)
  {
    hide GroupsOk, Fits, Flatten, Add;
    match line
    case HeaderLine(_) =>
      NoGroupsOk(line.header.siteId);
    case RecordLine(r) =>
      GroupsOkAdd(stage.groups, r, stage.header.siteId);
      FlattenAdd(stage.groups, r);
      CountsAdd(stage.groups, r);
    case FooterLine(_) =>
  }

  /** Only a footer's stage looks at the hashed content. */
  lemma {:induction false} StageContent(stage: Stage, raws: seq<Raw>, raw: Raw, limits: Limits, digest: Digest)
    ensures forall a, b :: !stage.Closed? ==> (StageOk(stage, a, limits, digest) <==> StageOk(stage, b, limits, digest))
    ensures forall next: Stage :: next.Closed? ==> Hashed(raws + [raw], next) == Content(raws)
  {
    assert (raws + [raw])[..|raws|] == raws;
  }

  /** What a raw line of this length, read as `line`, must satisfy to follow. */
  ghost predicate LineOk(totalBytes: int, content: Text, length: int, line: Option<Line>, stage: Stage, limits: Limits, digest: Digest) {
    && length <= limits.lineBytes && totalBytes + length + 1 <= limits.totalBytes
    && line.Some? && MayFollow(stage, line.value, content, limits, digest)
  }

  lemma {:induction false} IsStageNext(raws: seq<Raw>, raw: Raw, stage: Stage, limits: Limits, digest: Digest)
    requires IsStage(raws, stage, limits, digest) && limits.records >= 0 && limits.batches >= 0 && limits.messages >= 0
    requires LineOk(TotalBytes(raws), Content(raws), RawLength(raw), ReadRaw(raw), stage, limits, digest)
    ensures IsStage(raws + [raw], NextStage(stage, ReadRaw(raw).value).value, limits, digest)
  {
    hide LinesOf, NextStage, StageOk, Fits, WithinLimits, CountsOf, Flatten, BytesOk, ReadRaw, RawLength, Content, TotalBytes;
    assert (raws + [raw])[..|raws|] == raws;
    BytesOkNext(raws, raw, limits);
    LinesOfNext(stage, ReadRaw(raw).value);
    StageOkNext(stage, ReadRaw(raw).value, Content(raws), limits, digest);
    StageContent(stage, raws, raw, limits, digest);
    StageContent(NextStage(stage, ReadRaw(raw).value).value, raws, raw, limits, digest);
  }

  lemma {:induction false} OnlyNextStage(raws: seq<Raw>, raw: Raw, stage: Stage, after: Stage, limits: Limits, digest: Digest)
    requires IsStage(raws, stage, limits, digest) && limits.records >= 0 && limits.batches >= 0 && limits.messages >= 0
    requires IsStage(raws + [raw], after, limits, digest)
    ensures LineOk(TotalBytes(raws), Content(raws), RawLength(raw), ReadRaw(raw), stage, limits, digest) && NextStage(stage, ReadRaw(raw).value) == Some(after)
  {
    hide LinesOf, NextStage, StageOk, Fits, WithinLimits, CountsOf, Flatten, BytesOk, ReadRaw, RawLength, Content, TotalBytes;
    var all := raws + [raw];
    assert all[..|raws|] == raws;
    BytesOkNext(raws, raw, limits);
    var line := ReadRaw(raw).value;
    assert LinesOf(after) == LinesOf(stage) + [line];
    StageOfLines(after);
    StageOfLines(stage);
    assert LinesOf(after)[..|LinesOf(stage)|] == LinesOf(stage);
    StageOkNext(stage, line, Content(raws), limits, digest);
    StageContent(stage, raws, raw, limits, digest);
    StageContent(after, raws, raw, limits, digest);
  }

  /** Exactly when a further raw line keeps a beginning correct. */
  lemma {:induction false} AcceptsNext(raws: seq<Raw>, raw: Raw, stage: Stage, limits: Limits, digest: Digest)
    requires IsStage(raws, stage, limits, digest) && limits.records >= 0 && limits.batches >= 0 && limits.messages >= 0
    ensures Accepts(raws + [raw], limits, digest) <==> LineOk(TotalBytes(raws), Content(raws), RawLength(raw), ReadRaw(raw), stage, limits, digest)
  {
    if after :| IsStage(raws + [raw], after, limits, digest) {
      OnlyNextStage(raws, raw, stage, after, limits, digest);
    }
    if LineOk(TotalBytes(raws), Content(raws), RawLength(raw), ReadRaw(raw), stage, limits, digest) {
      IsStageNext(raws, raw, stage, limits, digest);
    }
  }

  lemma {:induction false} BytesOkNext(raws: seq<Raw>, raw: Raw, limits: Limits)
    ensures BytesOk(raws + [raw], limits) <==>
            BytesOk(raws, limits) && RawLength(raw) <= limits.lineBytes && TotalBytes(raws) + RawLength(raw) + 1 <= limits.totalBytes
  {
    var all := raws + [raw];
    assert all[..|raws|] == raws;
    assert all[|raws|] == raw;
    assert forall i :: 0 <= i < |raws| ==> all[i] == raws[i];
  }

  /** A beginning of a correct beginning is correct. */
  lemma AcceptsShorter(raws: seq<Raw>, raw: Raw, limits: Limits, digest: Digest)
    requires Accepts(raws + [raw], limits, digest) && limits.records >= 0 && limits.batches >= 0 && limits.messages >= 0
    ensures Accepts(raws, limits, digest)
  {
    hide StageOk, MayFollow, BytesOk, ReadRaw, RawLength, Content, TotalBytes, FinalLine, NextStage, Drop, Flatten;
    var all := raws + [raw];
    var after :| IsStage(all, after, limits, digest);
    assert all[..|raws|] == raws;
    assert |LinesOf(after)| == |all|;
    NextOfBefore(after);
    LinesOfNext(Before(after), FinalLine(after));
    StageOkNext(Before(after), FinalLine(after), Content(raws), limits, digest);
    StageContent(Before(after), raws, raw, limits, digest);
    StageContent(after, raws, raw, limits, digest);
    BytesOkNext(raws, raw, limits);
    assert LinesOf(after)[..|raws|] == LinesOf(Before(after));
    assert IsStage(raws, Before(after), limits, digest);
  }

  lemma {:induction false} PrefixClosed<T(!new)>(p: seq<T> -> bool, a: seq<T>, b: seq<T>)
    requires forall s, x :: p(s + [x]) ==> p(s)
    requires p(a + b)
    ensures p(a)
  {
    if b == [] {
      assert a + b == a;
    } else {
      var m := |b| - 1;
      assert a + b == (a + b[..m]) + [b[m]];
      PrefixClosed(p, a, b[..m]);
    }
  }

  lemma AcceptsPrefix(a: seq<Raw>, b: seq<Raw>, limits: Limits, digest: Digest)
    requires Accepts(a + b, limits, digest) && limits.records >= 0 && limits.batches >= 0 && limits.messages >= 0
    ensures Accepts(a, limits, digest)
  {
    var p := (s: seq<Raw>) => Accepts(s, limits, digest);
    forall s: seq<Raw>, x: Raw | p(s + [x])
      ensures p(s)
    {
      AcceptsShorter(s, x, limits, digest);
    }
    PrefixClosed(p, a, b);
  }
}
