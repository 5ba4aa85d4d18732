/** The contents of an escrow file as typed values: what its header, rows and footer hold and
    when the source's normalisers accept them. */
module EscrowRecords {
  import opened Utf16
  import opened Options

  const MAX_SAFE_INTEGER: int := 9007199254740991

  const ESCROW_VERSION: int := 1

  datatype Header = Header(
    version: int, siteId: Text, cutoff: Text, policyVersion: int, publicManifestHash: Text, schemaFingerprint: Text)

  datatype BatchRow = BatchRow(
    id: Text, siteId: Text, fromEmail: Text, contents: Text, batchId: Text, created: Text)

  datatype MessageRow = MessageRow(
    id: Text, messageId: Text, toEmail: Text, newsletterBatchId: Text, created: Text, formatedContents: Text, recipientData: Option<Text>)

  datatype ErrorRow = ErrorRow(
    id: Text, toEmail: Text, error: Text, created: Text, newsletterBatchId: Text, messageId: Text, formatedContents: Text, recipientData: Option<Text>)

  datatype NotificationRow = NotificationRow(
    id: Text, kind: Text, notificationId: Text, messageId: Text, rawEvent: Text, timestamp: Text, created: Text)

  datatype Row =
    | Batch(batch: BatchRow)
    | Message(message: MessageRow)
    | Failed(failure: ErrorRow)
    | Notification(notification: NotificationRow)

  datatype Record = Record(manifestIndex: int, row: Row)

  datatype Counts = Counts(batches: int, messages: int, errors: int, notifications: int)

  datatype Footer = Footer(counts: Counts, contentHash: Text)

  datatype Line = HeaderLine(header: Header) | RecordLine(record: Record) | FooterLine(footer: Footer)

  datatype Verification = Verification(header: Header, contentHash: Text, counts: Counts)

  // ---------- dates and hashes

  predicate DigitAt(t: Text, i: nat)
    requires i < |t|
  {
    48 <= t[i] <= 57
  }

  function Pair(t: Text, i: nat): int
    requires i + 1 < |t|
  {
    var tens: int, ones: int := t[i], t[i + 1];
    (tens - 48) * 10 + (ones - 48)
  }

  predicate IsLeap(year: int) { year % 4 == 0 && (year % 100 != 0 || year % 400 == 0) }

  function DaysIn(year: int, month: int): int {
    if month == 2 then if IsLeap(year) then 29 else 28
    else if month in {4, 6, 9, 11} then 30 else 31
  }

  /** dddd-dd-ddTdd:dd:dd.dddZ, and a calendar date and time of day that exist: exactly the
      texts of that shape that `new Date(Date.parse(t)).toISOString()` gives back. */
  predicate IsUtcMillis(t: Text) {
    && |t| == 24
    && (forall i :: 0 <= i < 24 && i !in {4, 7, 10, 13, 16, 19, 23} ==> DigitAt(t, i))
    && t[4] == 45 && t[7] == 45 && t[10] == 84 && t[13] == 58 && t[16] == 58 && t[19] == 46 && t[23] == 90
    && var year := Pair(t, 0) * 100 + Pair(t, 2);
       && 1 <= Pair(t, 5) <= 12 && 1 <= Pair(t, 8) <= DaysIn(year, Pair(t, 5))
       && Pair(t, 11) < 24 && Pair(t, 14) < 60 && Pair(t, 17) < 60
  }

  predicate IsHash(t: Text) {
    |t| == 64 && forall i :: 0 <= i < 64 ==> 48 <= t[i] <= 57 || 97 <= t[i] <= 102
  }

  predicate IsCount(n: int) { 0 <= n <= MAX_SAFE_INTEGER }

  // ---------- what the normalisers accept

  predicate ValidHeader(h: Header) {
    && h.version == ESCROW_VERSION && IsStrict(h.siteId) && IsUtcMillis(h.cutoff)
    && 0 < h.policyVersion <= MAX_SAFE_INTEGER && IsHash(h.publicManifestHash) && IsHash(h.schemaFingerprint)
  }

  predicate ValidBatch(r: BatchRow) {
    IsStrict(r.id) && IsStrict(r.siteId) && IsStrict(r.fromEmail) && IsStrict(r.batchId) && IsUtcMillis(r.created)
  }

  predicate ValidMessage(r: MessageRow) {
    && IsStrict(r.id) && IsStrict(r.messageId) && IsStrict(r.toEmail) && IsStrict(r.newsletterBatchId)
    && IsUtcMillis(r.created)
  }

  predicate ValidError(r: ErrorRow) {
    && IsStrict(r.id) && IsStrict(r.toEmail) && IsUtcMillis(r.created) && IsStrict(r.newsletterBatchId)
    && IsStrict(r.messageId)
  }

  predicate ValidNotification(r: NotificationRow) {
    && IsStrict(r.id) && IsStrict(r.kind) && IsStrict(r.notificationId) && IsStrict(r.messageId)
    && IsUtcMillis(r.timestamp) && IsUtcMillis(r.created)
  }

  predicate ValidRow(row: Row) {
    match row
    case Batch(r) => ValidBatch(r)
    case Message(r) => ValidMessage(r)
    case Failed(r) => ValidError(r)
    case Notification(r) => ValidNotification(r)
  }

  predicate ValidRecord(r: Record) { IsCount(r.manifestIndex) && ValidRow(r.row) }

  /** What keeps a header, a row or a count out of an escrow. */
  lemma LineRefused(h: Header, row: Row, n: int)
    ensures h.version != 1 || h.policyVersion < 1 || h.policyVersion > 9007199254740991 ==> !ValidHeader(h)
    ensures h.siteId == [] || |h.publicManifestHash| != 64 || |h.schemaFingerprint| != 64 || !IsUtcMillis(h.cutoff) ==> !ValidHeader(h)
    ensures ValidRow(row) ==>
              match row
              case Batch(r) => r.id != [] && r.siteId != [] && r.fromEmail != [] && r.batchId != [] && IsUtcMillis(r.created)
              case Message(r) => r.id != [] && r.messageId != [] && r.toEmail != [] && r.newsletterBatchId != [] && IsUtcMillis(r.created)
              case Failed(r) => r.id != [] && r.messageId != [] && r.toEmail != [] && r.newsletterBatchId != [] && IsUtcMillis(r.created)
              case Notification(r) =>
                r.id != [] && r.kind != [] && r.notificationId != [] && r.messageId != [] && IsUtcMillis(r.timestamp) && IsUtcMillis(r.created)
    ensures n < 0 || n > 9007199254740991 ==> !IsCount(n)
  {
    hide IsUtcMillis;
  }

  predicate ValidCounts(c: Counts) {
    IsCount(c.batches) && IsCount(c.messages) && IsCount(c.errors) && IsCount(c.notifications)
  }

  predicate ValidFooter(f: Footer) { ValidCounts(f.counts) && IsHash(f.contentHash) }

  predicate ValidLine(line: Line) {
    match line
    case HeaderLine(h) => ValidHeader(h)
    case RecordLine(r) => ValidRecord(r)
    case FooterLine(f) => ValidFooter(f)
  }
}
