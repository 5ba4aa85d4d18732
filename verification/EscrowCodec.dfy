/** The canonical text of an escrow line, the parser that reads it back, and the proof that
    they are inverse to each other and that no other text is read. */
module EscrowCodec {
  import opened Options
  import opened Utf16
  import opened JsonGrammar
  import opened JsonValue
  import opened CanonicalJson
  import opened EscrowNames
  import opened EscrowRecords

  // ---------- writing

  function JoinCanonicalObject(entries: seq<Entry>): Text
    requires IntegersInEntries(entries)
  {
    [LBRACE] + Join(PartTexts(PartsOf(entries))) + [RBRACE]
  }

  function Str(key: Text, t: Text): Entry { Entry(key, VString(t)) }

  function Number(key: Text, n: int): Entry { Entry(key, VInt(n)) }

  function Nullable(key: Text, t: Option<Text>): Entry {
    Entry(key, if t.None? then VNull else VString(t.value))
  }

  function HeaderEntries(h: Header): seq<Entry> {
    [Str(KIND, KIND_HEADER), Number(VERSION, h.version), Str(SITE_ID, h.siteId), Str(CUTOFF, h.cutoff),
     Number(POLICY_VERSION, h.policyVersion), Str(PUBLIC_MANIFEST_HASH, h.publicManifestHash),
     Str(SCHEMA_FINGERPRINT, h.schemaFingerprint)]
  }

  function BatchEntries(r: BatchRow): seq<Entry> {
    [Str(ID, r.id), Str(SITE_ID, r.siteId), Str(FROM_EMAIL, r.fromEmail), Str(CONTENTS, r.contents),
     Str(BATCH_ID, r.batchId), Str(CREATED, r.created)]
  }

  function MessageEntries(r: MessageRow): seq<Entry> {
    [Str(ID, r.id), Str(MESSAGE_ID, r.messageId), Str(TO_EMAIL, r.toEmail), Str(NEWSLETTER_BATCH_ID, r.newsletterBatchId),
     Str(CREATED, r.created), Str(FORMATED_CONTENTS, r.formatedContents), Nullable(RECIPIENT_DATA, r.recipientData)]
  }

  function ErrorEntries(r: ErrorRow): seq<Entry> {
    [Str(ID, r.id), Str(TO_EMAIL, r.toEmail), Str(ERROR, r.error), Str(CREATED, r.created),
     Str(NEWSLETTER_BATCH_ID, r.newsletterBatchId), Str(MESSAGE_ID, r.messageId),
     Str(FORMATED_CONTENTS, r.formatedContents), Nullable(RECIPIENT_DATA, r.recipientData)]
  }

  function NotificationEntries(r: NotificationRow): seq<Entry> {
    [Str(ID, r.id), Str(TYPE, r.kind), Str(NOTIFICATION_ID, r.notificationId), Str(MESSAGE_ID, r.messageId),
     Str(RAW_EVENT, r.rawEvent), Str(TIMESTAMP, r.timestamp), Str(CREATED, r.created)]
  }

  function RowEntries(row: Row): seq<Entry> {
    match row
    case Batch(r) => BatchEntries(r)
    case Message(r) => MessageEntries(r)
    case Failed(r) => ErrorEntries(r)
    case Notification(r) => NotificationEntries(r)
  }

  function KindOf(row: Row): Text {
    match row
    case Batch(_) => KIND_NEWSLETTER_BATCH
    case Message(_) => KIND_NEWSLETTER_MESSAGES
    case Failed(_) => KIND_NEWSLETTER_ERRORS
    case Notification(_) => KIND_NEWSLETTER_NOTIFICATIONS
  }

  function RecordEntries(r: Record): seq<Entry> {
    [Str(KIND, KindOf(r.row)), Number(MANIFEST_INDEX, r.manifestIndex), Entry(ROW, VObject(RowEntries(r.row)))]
  }

  function CountEntries(c: Counts): seq<Entry> {
    [Number(BATCHES, c.batches), Number(MESSAGES, c.messages), Number(ERRORS, c.errors), Number(NOTIFICATIONS, c.notifications)]
  }

  function FooterEntries(f: Footer): seq<Entry> {
    [Str(KIND, KIND_FOOTER), Entry(COUNTS, VObject(CountEntries(f.counts))), Str(CONTENT_HASH, f.contentHash)]
  }

  function LineEntries(line: Line): seq<Entry> {
    match line
    case HeaderLine(h) => HeaderEntries(h)
    case RecordLine(r) => RecordEntries(r)
    case FooterLine(f) => FooterEntries(f)
  }

  /** The canonical text of a line. */
  function LineText(line: Line): Text {
    LineShape(line);
    JoinCanonicalObject(LineEntries(line))
  }

  /** The serializers: they throw on what the normalisers refuse. */
  function Serialize(line: Line): Option<Text> {
    if ValidLine(line) then Some(LineText(line)) else None
  }

  // ---------- reading

  function Field(entries: seq<Entry>, key: Text): Option<Value> {
    if entries == [] then None
    else if entries[0].key == key then Some(entries[0].value)
    else Field(entries[1..], key)
  }

  predicate ExactKeys(entries: seq<Entry>, keys: seq<Text>) {
    |entries| == |keys| && forall i :: 0 <= i < |keys| ==> Field(entries, keys[i]).Some?
  }

  function GetObject(entries: seq<Entry>, key: Text): Option<seq<Entry>> {
    var v :- Field(entries, key);
    if v.VObject? then Some(v.entries) else None
  }

  function GetText(entries: seq<Entry>, key: Text): Option<Text> {
    var v :- Field(entries, key);
    if v.VString? then Some(v.s) else None
  }

  function GetStrict(entries: seq<Entry>, key: Text): Option<Text> {
    var t :- GetText(entries, key);
    if IsStrict(t) then Some(t) else None
  }

  function GetUtc(entries: seq<Entry>, key: Text): Option<Text> {
    var t :- GetText(entries, key);
    if IsUtcMillis(t) then Some(t) else None
  }

  function GetHash(entries: seq<Entry>, key: Text): Option<Text> {
    var t :- GetText(entries, key);
    if IsHash(t) then Some(t) else None
  }

  function GetNullable(entries: seq<Entry>, key: Text): Option<Option<Text>> {
    var v :- Field(entries, key);
    if v.VNull? then Some(None) else if v.VString? then Some(Some(v.s)) else None
  }

  function GetInteger(entries: seq<Entry>, key: Text, least: int): Option<int> {
    var v :- Field(entries, key);
    if v.VInt? && least <= v.n <= MAX_SAFE_INTEGER then Some(v.n) else None
  }

  const HEADER_KEYS := [KIND, VERSION, SITE_ID, CUTOFF, POLICY_VERSION, PUBLIC_MANIFEST_HASH, SCHEMA_FINGERPRINT]
  const RECORD_KEYS := [KIND, MANIFEST_INDEX, ROW]
  const FOOTER_KEYS := [KIND, COUNTS, CONTENT_HASH]
  const COUNT_KEYS := [BATCHES, MESSAGES, ERRORS, NOTIFICATIONS]
  const BATCH_ROW_KEYS := [ID, SITE_ID, FROM_EMAIL, CONTENTS, BATCH_ID, CREATED]
  const MESSAGE_ROW_KEYS := [ID, MESSAGE_ID, TO_EMAIL, NEWSLETTER_BATCH_ID, CREATED, FORMATED_CONTENTS, RECIPIENT_DATA]
  const ERROR_ROW_KEYS := [ID, TO_EMAIL, ERROR, CREATED, NEWSLETTER_BATCH_ID, MESSAGE_ID, FORMATED_CONTENTS, RECIPIENT_DATA]
  const NOTIFICATION_ROW_KEYS := [ID, TYPE, NOTIFICATION_ID, MESSAGE_ID, RAW_EVENT, TIMESTAMP, CREATED]

  function NormalizeHeader(e: seq<Entry>): Option<Header> {
    var _ :- Require(ExactKeys(e, HEADER_KEYS));
    var version :- GetInteger(e, VERSION, 0);
    var _ :- Require(version == ESCROW_VERSION);
    var siteId :- GetStrict(e, SITE_ID);
    var cutoff :- GetUtc(e, CUTOFF);
    var policyVersion :- GetInteger(e, POLICY_VERSION, 1);
    var manifestHash :- GetHash(e, PUBLIC_MANIFEST_HASH);
    var fingerprint :- GetHash(e, SCHEMA_FINGERPRINT);
    Some(Header(version, siteId, cutoff, policyVersion, manifestHash, fingerprint))
  }

  function NormalizeCounts(e: seq<Entry>): Option<Counts> {
    var _ :- Require(ExactKeys(e, COUNT_KEYS));
    var batches :- GetInteger(e, BATCHES, 0);
    var messages :- GetInteger(e, MESSAGES, 0);
    var errors :- GetInteger(e, ERRORS, 0);
    var notifications :- GetInteger(e, NOTIFICATIONS, 0);
    Some(Counts(batches, messages, errors, notifications))
  }

  function NormalizeFooter(e: seq<Entry>): Option<Footer> {
    var _ :- Require(ExactKeys(e, FOOTER_KEYS));
    var inner :- GetObject(e, COUNTS);
    var counts :- NormalizeCounts(inner);
    var contentHash :- GetHash(e, CONTENT_HASH);
    Some(Footer(counts, contentHash))
  }

  function NormalizeBatchRow(e: seq<Entry>): Option<BatchRow> {
    var _ :- Require(ExactKeys(e, BATCH_ROW_KEYS));
    var id :- GetStrict(e, ID);
    var siteId :- GetStrict(e, SITE_ID);
    var fromEmail :- GetStrict(e, FROM_EMAIL);
    var contents :- GetText(e, CONTENTS);
    var batchId :- GetStrict(e, BATCH_ID);
    var created :- GetUtc(e, CREATED);
    Some(BatchRow(id, siteId, fromEmail, contents, batchId, created))
  }

  function NormalizeMessageRow(e: seq<Entry>): Option<MessageRow> {
    var _ :- Require(ExactKeys(e, MESSAGE_ROW_KEYS));
    var id :- GetStrict(e, ID);
    var messageId :- GetStrict(e, MESSAGE_ID);
    var toEmail :- GetStrict(e, TO_EMAIL);
    var newsletterBatchId :- GetStrict(e, NEWSLETTER_BATCH_ID);
    var created :- GetUtc(e, CREATED);
    var formatedContents :- GetText(e, FORMATED_CONTENTS);
    var recipientData :- GetNullable(e, RECIPIENT_DATA);
    Some(MessageRow(id, messageId, toEmail, newsletterBatchId, created, formatedContents, recipientData))
  }

  function NormalizeErrorRow(e: seq<Entry>): Option<ErrorRow> {
    var _ :- Require(ExactKeys(e, ERROR_ROW_KEYS));
    var id :- GetStrict(e, ID);
    var toEmail :- GetStrict(e, TO_EMAIL);
    var error :- GetText(e, ERROR);
    var created :- GetUtc(e, CREATED);
    var newsletterBatchId :- GetStrict(e, NEWSLETTER_BATCH_ID);
    var messageId :- GetStrict(e, MESSAGE_ID);
    var formatedContents :- GetText(e, FORMATED_CONTENTS);
    var recipientData :- GetNullable(e, RECIPIENT_DATA);
    Some(ErrorRow(id, toEmail, error, created, newsletterBatchId, messageId, formatedContents, recipientData))
  }

  function NormalizeNotificationRow(e: seq<Entry>): Option<NotificationRow> {
    var _ :- Require(ExactKeys(e, NOTIFICATION_ROW_KEYS));
    var id :- GetStrict(e, ID);
    var kind :- GetStrict(e, TYPE);
    var notificationId :- GetStrict(e, NOTIFICATION_ID);
    var messageId :- GetStrict(e, MESSAGE_ID);
    var rawEvent :- GetText(e, RAW_EVENT);
    var timestamp :- GetUtc(e, TIMESTAMP);
    var created :- GetUtc(e, CREATED);
    Some(NotificationRow(id, kind, notificationId, messageId, rawEvent, timestamp, created))
  }

  function NormalizeRow(kind: Text, e: seq<Entry>): Option<Row> {
    if kind == KIND_NEWSLETTER_BATCH then var r :- NormalizeBatchRow(e); Some(Batch(r))
    else if kind == KIND_NEWSLETTER_MESSAGES then var r :- NormalizeMessageRow(e); Some(Message(r))
    else if kind == KIND_NEWSLETTER_ERRORS then var r :- NormalizeErrorRow(e); Some(Failed(r))
    else if kind == KIND_NEWSLETTER_NOTIFICATIONS then var r :- NormalizeNotificationRow(e); Some(Notification(r))
    else None
  }

  function NormalizeRecord(e: seq<Entry>): Option<Record> {
    var _ :- Require(ExactKeys(e, RECORD_KEYS));
    var kind :- GetText(e, KIND);
    var manifestIndex :- GetInteger(e, MANIFEST_INDEX, 0);
    var inner :- GetObject(e, ROW);
    var row :- NormalizeRow(kind, inner);
    Some(Record(manifestIndex, row))
  }

  /** The normaliser that the kind selects. */
  function ParseEntries(e: seq<Entry>): Option<Line> {
    var kind := Field(e, KIND);
    if kind == Some(VString(KIND_HEADER)) then
      var h :- NormalizeHeader(e); Some(HeaderLine(h))
    else if kind == Some(VString(KIND_FOOTER)) then
      var f :- NormalizeFooter(e); Some(FooterLine(f))
    else
      var r :- NormalizeRecord(e); Some(RecordLine(r))
  }

  /** `parseEscrowLine`: the scanner, `JSON.parse`, and the normaliser. */
  function ParseLine(t: Text): Option<Line> {
    var v :- Parse(true, t);
    if v.VObject? then ParseEntries(v.entries) else None
  }

  /** A line as the accumulator accepts it: it must be the canonical text of what it parses to. */
  function ReadLine(t: Text): Option<Line> {
    var line :- ParseLine(t);
    if Serialize(line) == Some(t) then Some(line) else None
  }

  // ---------- the entries of a line are a JSON object

  predicate IsScalar(v: Value) { v.VNull? || v.VInt? || v.VString? }

  lemma {:induction false} ScalarEntries(e: seq<Entry>)
    requires forall i :: 0 <= i < |e| ==> IsScalar(e[i].value)
    ensures IntegersInEntries(e) && DistinctInEntries(e)
  {
    if e != [] { ScalarEntries(e[1..]); }
  }

  lemma {:induction false} ObjectEntries(e: seq<Entry>)
    requires forall i :: 0 <= i < |e| ==> IntegersOnly(e[i].value) && DistinctKeys(e[i].value)
    ensures IntegersInEntries(e) && DistinctInEntries(e)
  {
    if e != [] { ObjectEntries(e[1..]); }
  }

  /** Names of one object differ in length or in their first letter. */
  predicate Apart(a: Text, b: Text) {
    |a| != |b| || (a != [] && b != [] && a[0] != b[0])
  }

  lemma ApartKeys(e: seq<Entry>)
    requires forall i, j :: 0 <= i < j < |e| ==> Apart(e[i].key, e[j].key)
    ensures Distinct(Keys(e))
  {
    forall i, j | 0 <= i < j < |e| ensures Keys(e)[i] != Keys(e)[j] { assert Apart(e[i].key, e[j].key); }
  }

  lemma BatchShape(r: BatchRow)
    ensures var e := BatchEntries(r); Distinct(Keys(e)) && forall i :: 0 <= i < |e| ==> IsScalar(e[i].value)
  {
    ApartKeys(BatchEntries(r));
  }

  lemma MessageShape(r: MessageRow)
    ensures var e := MessageEntries(r); Distinct(Keys(e)) && forall i :: 0 <= i < |e| ==> IsScalar(e[i].value)
  {
    ApartKeys(MessageEntries(r));
  }

  lemma ErrorShape(r: ErrorRow)
    ensures var e := ErrorEntries(r); Distinct(Keys(e)) && forall i :: 0 <= i < |e| ==> IsScalar(e[i].value)
  {
    ApartKeys(ErrorEntries(r));
  }

  lemma NotificationShape(r: NotificationRow)
    ensures var e := NotificationEntries(r); Distinct(Keys(e)) && forall i :: 0 <= i < |e| ==> IsScalar(e[i].value)
  {
    ApartKeys(NotificationEntries(r));
  }

  lemma RowShape(row: Row)
    ensures IntegersInEntries(RowEntries(row)) && DistinctInEntries(RowEntries(row))
    ensures Distinct(Keys(RowEntries(row)))
  {
    match row {
      case Batch(r) => BatchShape(r);
      case Message(r) => MessageShape(r);
      case Failed(r) => ErrorShape(r);
      case Notification(r) => NotificationShape(r);
    }
    ScalarEntries(RowEntries(row));
  }

  lemma CountShape(c: Counts)
    ensures IntegersInEntries(CountEntries(c)) && DistinctInEntries(CountEntries(c))
    ensures Distinct(Keys(CountEntries(c)))
  {
    ScalarEntries(CountEntries(c));
    ApartKeys(CountEntries(c));
  }

  lemma HeaderShape(h: Header)
    ensures var e := HeaderEntries(h); Distinct(Keys(e)) && forall i :: 0 <= i < |e| ==> IsScalar(e[i].value)
  {
    ApartKeys(HeaderEntries(h));
  }

  lemma RecordShape(r: Record)
    ensures IntegersInEntries(RecordEntries(r)) && DistinctInEntries(RecordEntries(r)) && Distinct(Keys(RecordEntries(r)))
  {
    hide RowEntries, KindOf, IntegersInEntries, DistinctInEntries, Distinct;
    RowShape(r.row);
    ObjectValue(RowEntries(r.row));
    ApartKeys(RecordEntries(r));
    ObjectEntries(RecordEntries(r));
  }

  lemma FooterShape(f: Footer)
    ensures IntegersInEntries(FooterEntries(f)) && DistinctInEntries(FooterEntries(f)) && Distinct(Keys(FooterEntries(f)))
  {
    hide CountEntries, IntegersInEntries, DistinctInEntries, Distinct;
    CountShape(f.counts);
    ObjectValue(CountEntries(f.counts));
    ApartKeys(FooterEntries(f));
    ObjectEntries(FooterEntries(f));
  }

  lemma {:induction false} ObjectValue(e: seq<Entry>)
    requires IntegersInEntries(e) && DistinctInEntries(e) && Distinct(Keys(e))
    ensures IntegersOnly(VObject(e)) && DistinctKeys(VObject(e))
  {
  }

  lemma LineShape(line: Line)
    ensures IntegersInEntries(LineEntries(line)) && DistinctInEntries(LineEntries(line))
    ensures Distinct(Keys(LineEntries(line)))
  {
    hide HeaderEntries, RecordEntries, FooterEntries, IntegersInEntries, DistinctInEntries, Distinct, IsScalar;
    match line
    case HeaderLine(h) => HeaderShape(h); ScalarEntries(HeaderEntries(h));
    case RecordLine(r) => RecordShape(r);
    case FooterLine(f) => FooterShape(f);
  }

  // ---------- reading what was written

  lemma HeadApart(e: seq<Entry>)
    requires e != [] && Distinct(Keys(e))
    ensures Distinct(Keys(e[1..])) && forall i :: 0 < i < |e| ==> e[i].key != e[0].key
  {
    var keys, tail := Keys(e), Keys(e[1..]);
    forall i | 0 < i < |e| ensures e[i].key != e[0].key { assert keys[0] != keys[i]; }
    forall i, j | 0 <= i < j < |tail| ensures tail[i] != tail[j] { assert keys[i + 1] != keys[j + 1]; }
  }

  lemma {:induction false} FieldsAt(e: seq<Entry>)
    requires Distinct(Keys(e))
    ensures forall i :: 0 <= i < |e| ==> Field(e, e[i].key) == Some(e[i].value)
  {
    if e != [] {
      HeadApart(e);
      FieldsAt(e[1..]);
      assert forall i :: 0 < i < |e| ==> e[i] == e[1..][i - 1];
    }
  }

  lemma HeaderRoundTrip(h: Header)
    requires ValidHeader(h)
    ensures NormalizeHeader(HeaderEntries(h)) == Some(h)
  {
    hide IsUtcMillis, IsStrict, IsHash, IntegersInEntries, DistinctInEntries, Distinct, Keys, Field;
    var e := HeaderEntries(h);
    LineShape(HeaderLine(h));
    FieldsAt(e);
    assert forall i :: 0 <= i < 7 ==> e[i].key == HEADER_KEYS[i];
    assert e[1].key == VERSION && e[2].key == SITE_ID && e[3].key == CUTOFF && e[4].key == POLICY_VERSION;
    assert e[5].key == PUBLIC_MANIFEST_HASH && e[6].key == SCHEMA_FINGERPRINT;
  }

  lemma CountsRoundTrip(c: Counts)
    requires ValidCounts(c)
    ensures NormalizeCounts(CountEntries(c)) == Some(c)
  {
    hide IsUtcMillis, IsStrict, IsHash, IntegersInEntries, DistinctInEntries, Distinct, Keys, Field;
    var e := CountEntries(c);
    CountShape(c);
    FieldsAt(e);
    assert forall i :: 0 <= i < 4 ==> e[i].key == COUNT_KEYS[i];
    assert e[0].key == BATCHES && e[1].key == MESSAGES && e[2].key == ERRORS && e[3].key == NOTIFICATIONS;
  }

  lemma FooterRoundTrip(f: Footer)
    requires ValidFooter(f)
    ensures NormalizeFooter(FooterEntries(f)) == Some(f)
  {
    hide IsUtcMillis, IsStrict, IsHash, IntegersInEntries, DistinctInEntries, Distinct, Keys, Field, NormalizeCounts, CountEntries;
    var e := FooterEntries(f);
    LineShape(FooterLine(f));
    CountsRoundTrip(f.counts);
    FieldsAt(e);
    assert forall i :: 0 <= i < 3 ==> e[i].key == FOOTER_KEYS[i];
    assert e[1].key == COUNTS && e[2].key == CONTENT_HASH;
  }

  lemma BatchRoundTrip(r: BatchRow)
    requires ValidBatch(r)
    ensures NormalizeBatchRow(BatchEntries(r)) == Some(r)
  {
    hide IsUtcMillis, IsStrict, IsHash, IntegersInEntries, DistinctInEntries, Distinct, Keys, Field;
    var e := BatchEntries(r);
    BatchShape(r);
    FieldsAt(e);
    assert forall i :: 0 <= i < 6 ==> e[i].key == BATCH_ROW_KEYS[i];
    assert e[0].key == ID && e[1].key == SITE_ID && e[2].key == FROM_EMAIL && e[3].key == CONTENTS && e[4].key == BATCH_ID && e[5].key == CREATED;
  }

  lemma MessageRoundTrip(r: MessageRow)
    requires ValidMessage(r)
    ensures NormalizeMessageRow(MessageEntries(r)) == Some(r)
  {
    hide IsUtcMillis, IsStrict, IsHash, IntegersInEntries, DistinctInEntries, Distinct, Keys, Field;
    var e := MessageEntries(r);
    MessageShape(r);
    FieldsAt(e);
    assert forall i :: 0 <= i < 7 ==> e[i].key == MESSAGE_ROW_KEYS[i];
    assert e[0].key == ID && e[1].key == MESSAGE_ID && e[2].key == TO_EMAIL && e[3].key == NEWSLETTER_BATCH_ID;
    assert e[4].key == CREATED && e[5].key == FORMATED_CONTENTS && e[6].key == RECIPIENT_DATA;
  }

  lemma ErrorRoundTrip(r: ErrorRow)
    requires ValidError(r)
    ensures NormalizeErrorRow(ErrorEntries(r)) == Some(r)
  {
    hide IsUtcMillis, IsStrict, IsHash, IntegersInEntries, DistinctInEntries, Distinct, Keys, Field;
    var e := ErrorEntries(r);
    ErrorShape(r);
    FieldsAt(e);
    assert forall i :: 0 <= i < 8 ==> e[i].key == ERROR_ROW_KEYS[i];
    assert e[0].key == ID && e[1].key == TO_EMAIL && e[2].key == ERROR && e[3].key == CREATED;
    assert e[4].key == NEWSLETTER_BATCH_ID && e[5].key == MESSAGE_ID && e[6].key == FORMATED_CONTENTS && e[7].key == RECIPIENT_DATA;
  }

  lemma NotificationRoundTrip(r: NotificationRow)
    requires ValidNotification(r)
    ensures NormalizeNotificationRow(NotificationEntries(r)) == Some(r)
  {
    hide IsUtcMillis, IsStrict, IsHash, IntegersInEntries, DistinctInEntries, Distinct, Keys, Field;
    var e := NotificationEntries(r);
    NotificationShape(r);
    FieldsAt(e);
    assert forall i :: 0 <= i < 7 ==> e[i].key == NOTIFICATION_ROW_KEYS[i];
    assert e[0].key == ID && e[1].key == TYPE && e[2].key == NOTIFICATION_ID && e[3].key == MESSAGE_ID;
    assert e[4].key == RAW_EVENT && e[5].key == TIMESTAMP && e[6].key == CREATED;
  }

  lemma KindsApart()
    ensures KIND_HEADER != KIND_FOOTER
    ensures forall row: Row :: KindOf(row) != KIND_HEADER && KindOf(row) != KIND_FOOTER
    ensures KIND_NEWSLETTER_BATCH != KIND_NEWSLETTER_MESSAGES && KIND_NEWSLETTER_BATCH != KIND_NEWSLETTER_ERRORS
    ensures KIND_NEWSLETTER_BATCH != KIND_NEWSLETTER_NOTIFICATIONS && KIND_NEWSLETTER_MESSAGES != KIND_NEWSLETTER_ERRORS
    ensures KIND_NEWSLETTER_MESSAGES != KIND_NEWSLETTER_NOTIFICATIONS && KIND_NEWSLETTER_ERRORS != KIND_NEWSLETTER_NOTIFICATIONS
  {
    assert KIND_HEADER[0] != KIND_FOOTER[0];
    assert |KIND_NEWSLETTER_BATCH| == 15 && |KIND_NEWSLETTER_MESSAGES| == 18 && |KIND_NEWSLETTER_ERRORS| == 16 && |KIND_NEWSLETTER_NOTIFICATIONS| == 23;
  }

  lemma RowRoundTrip(row: Row)
    requires ValidRow(row)
    ensures NormalizeRow(KindOf(row), RowEntries(row)) == Some(row)
  {
    KindsApart();
    match row
    case Batch(r) => BatchRoundTrip(r);
    case Message(r) => MessageRoundTrip(r);
    case Failed(r) => ErrorRoundTrip(r);
    case Notification(r) => NotificationRoundTrip(r);
  }

  lemma RecordRoundTrip(r: Record)
    requires ValidRecord(r)
    ensures NormalizeRecord(RecordEntries(r)) == Some(r)
  {
    hide IsUtcMillis, IsStrict, IsHash, IntegersInEntries, DistinctInEntries, Distinct, Keys, Field, NormalizeRow, RowEntries, KindOf, ValidRow;
    var e := RecordEntries(r);
    LineShape(RecordLine(r));
    RowRoundTrip(r.row);
    FieldsAt(e);
    assert forall i :: 0 <= i < 3 ==> e[i].key == RECORD_KEYS[i];
    assert e[0].key == KIND && e[1].key == MANIFEST_INDEX && e[2].key == ROW;
  }

  lemma LineIsStringify(line: Line)
    ensures IntegersOnly(VObject(LineEntries(line))) && DistinctKeys(VObject(LineEntries(line)))
    ensures LineText(line) == Stringify(VObject(LineEntries(line)))
  {
    LineShape(line);
    CanonicalMembers(LineEntries(line));
  }

  /** The codec gives every valid line back. */
  lemma ParseOfText(line: Line)
    requires ValidLine(line)
    ensures ParseLine(LineText(line)) == Some(line)
  {
    LineIsStringify(line);
    ParseStringify(VObject(LineEntries(line)));
    EntriesRoundTrip(line);
  }

  lemma EntriesRoundTrip(line: Line)
    requires ValidLine(line)
    ensures ParseEntries(LineEntries(line)) == Some(line)
  {
    hide NormalizeHeader, NormalizeRecord, NormalizeFooter, IntegersInEntries, DistinctInEntries, Distinct, Keys, Field, ValidHeader, ValidRecord, ValidFooter, RowEntries, CountEntries;
    LineShape(line);
    KindsApart();
    var e := LineEntries(line);
    FieldsAt(e);
    assert e[0].key == KIND;
    match line
    case HeaderLine(h) => HeaderRoundTrip(h);
    case RecordLine(r) => RecordRoundTrip(r);
    case FooterLine(f) => FooterRoundTrip(f);
  }

  /** Exactly one text is read as a given line, its canonical text, and only when the line is valid. */
  lemma ReadLineExact(t: Text, line: Line)
    ensures ReadLine(t) == Some(line) <==> ValidLine(line) && t == LineText(line)
  {
    if ValidLine(line) && t == LineText(line) { ParseOfText(line); }
  }

  /** The codec is a bijection between valid lines and the texts that are read. */
  lemma LineTextInjective(a: Line, b: Line)
    requires ValidLine(a) && ValidLine(b) && LineText(a) == LineText(b)
    ensures a == b
  {
    ParseOfText(a);
    ParseOfText(b);
  }

  lemma LineTextClean(line: Line)
    ensures Clean(LineText(line)) && LineText(line) != [] && LineText(line)[0] == LBRACE
  {
    LineIsStringify(line);
    StringifyClean(VObject(LineEntries(line)));
  }
}
