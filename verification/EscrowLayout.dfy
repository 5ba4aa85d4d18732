/** The escrow's lines spelled out: which name stands for which field, in which order, and how the
    text looks. */
module EscrowLayout {
  import opened Utf16
  import opened Options
  import opened JsonGrammar
  import opened JsonValue
  import opened CanonicalJson
  import opened EscrowNames
  import opened EscrowRecords
  import opened EscrowCodec

  // ---------- the names

  lemma HeaderNames()
    ensures VERSION == Ascii("version") && SITE_ID == Ascii("siteId") && CUTOFF == Ascii("cutoff") && POLICY_VERSION == Ascii("policyVersion")
    ensures PUBLIC_MANIFEST_HASH == Ascii("publicManifestHash") && SCHEMA_FINGERPRINT == Ascii("schemaFingerprint")
  {
  }

  lemma FooterNames()
    ensures KIND == Ascii("kind") && COUNTS == Ascii("counts") && CONTENT_HASH == Ascii("contentHash")
    ensures BATCHES == Ascii("batches") && MESSAGES == Ascii("messages") && ERRORS == Ascii("errors") && NOTIFICATIONS == Ascii("notifications")
    ensures MANIFEST_INDEX == Ascii("manifestIndex") && ROW == Ascii("row")
  {
  }

  lemma NamesSpelled()
    ensures KIND == Ascii("kind") && VERSION == Ascii("version") && SITE_ID == Ascii("siteId") && CUTOFF == Ascii("cutoff")
    ensures POLICY_VERSION == Ascii("policyVersion") && PUBLIC_MANIFEST_HASH == Ascii("publicManifestHash")
    ensures SCHEMA_FINGERPRINT == Ascii("schemaFingerprint") && COUNTS == Ascii("counts") && CONTENT_HASH == Ascii("contentHash")
    ensures BATCHES == Ascii("batches") && MESSAGES == Ascii("messages") && ERRORS == Ascii("errors") && NOTIFICATIONS == Ascii("notifications")
    ensures MANIFEST_INDEX == Ascii("manifestIndex") && ROW == Ascii("row")
  {
    hide *;
    HeaderNames();
    FooterNames();
  }

  lemma BatchColumns()
    ensures ID == Ascii("id") && FROM_EMAIL == Ascii("fromEmail") && CONTENTS == Ascii("contents") && BATCH_ID == Ascii("batchId")
    ensures CREATED == Ascii("created") && TO_EMAIL == Ascii("toEmail") && ERROR == Ascii("error")
  {
  }

  lemma MessageColumns()
    ensures MESSAGE_ID == Ascii("messageId") && NEWSLETTER_BATCH_ID == Ascii("newsletterBatchId")
    ensures FORMATED_CONTENTS == Ascii("formatedContents") && RECIPIENT_DATA == Ascii("recipientData")
  {
  }

  lemma EventColumns()
    ensures TYPE == Ascii("type") && NOTIFICATION_ID == Ascii("notificationId") && RAW_EVENT == Ascii("rawEvent") && TIMESTAMP == Ascii("timestamp")
  {
  }

  lemma ColumnsSpelled()
    ensures ID == Ascii("id") && FROM_EMAIL == Ascii("fromEmail") && CONTENTS == Ascii("contents") && BATCH_ID == Ascii("batchId")
    ensures CREATED == Ascii("created") && MESSAGE_ID == Ascii("messageId") && TO_EMAIL == Ascii("toEmail")
    ensures NEWSLETTER_BATCH_ID == Ascii("newsletterBatchId") && FORMATED_CONTENTS == Ascii("formatedContents")
    ensures RECIPIENT_DATA == Ascii("recipientData") && ERROR == Ascii("error") && TYPE == Ascii("type")
    ensures NOTIFICATION_ID == Ascii("notificationId") && RAW_EVENT == Ascii("rawEvent") && TIMESTAMP == Ascii("timestamp")
  {
    hide *;
    BatchColumns();
    MessageColumns();
    EventColumns();
  }

  lemma KindsSpelled()
    ensures KIND_HEADER == Ascii("header") && KIND_FOOTER == Ascii("footer")
    ensures KIND_NEWSLETTER_BATCH == Ascii("newsletterBatch") && KIND_NEWSLETTER_MESSAGES == Ascii("newsletterMessages")
    ensures KIND_NEWSLETTER_ERRORS == Ascii("newsletterErrors") && KIND_NEWSLETTER_NOTIFICATIONS == Ascii("newsletterNotifications")
  {
  }

  // ---------- what a line says, parsed as JSON

  function Named(name: string, v: Value): Entry { Entry(Ascii(name), v) }

  /** A nullable column. */
  function TextOrNull(t: Option<Text>): Value { if t.Some? then VString(t.value) else VNull }

  lemma Parsed(line: Line)
    ensures Parse(true, LineText(line)) == Some(VObject(LineEntries(line)))
  {
    LineIsStringify(line);
    ParseStringify(VObject(LineEntries(line)));
  }

  lemma HeaderLayout(h: Header)
    ensures Parse(true, LineText(HeaderLine(h))) == Some(VObject([
      Named("kind", VString(Ascii("header"))),
      Named("version", VInt(h.version)),
      Named("siteId", VString(h.siteId)),
      Named("cutoff", VString(h.cutoff)),
      Named("policyVersion", VInt(h.policyVersion)),
      Named("publicManifestHash", VString(h.publicManifestHash)),
      Named("schemaFingerprint", VString(h.schemaFingerprint))]))
  {
    hide Parse, LineText, Ascii;
    Parsed(HeaderLine(h));
    NamesSpelled();
    KindsSpelled();
  }

  lemma FooterLayout(f: Footer)
    ensures Parse(true, LineText(FooterLine(f))) == Some(VObject([
      Named("kind", VString(Ascii("footer"))),
      Named("counts", VObject([
        Named("batches", VInt(f.counts.batches)),
        Named("messages", VInt(f.counts.messages)),
        Named("errors", VInt(f.counts.errors)),
        Named("notifications", VInt(f.counts.notifications))])),
      Named("contentHash", VString(f.contentHash))]))
  {
    hide Parse, LineText, Ascii;
    Parsed(FooterLine(f));
    NamesSpelled();
    KindsSpelled();
  }

  lemma RecordParsed(r: Record)
    ensures Parse(true, LineText(RecordLine(r))) == Some(VObject([
      Named("kind", VString(KindOf(r.row))), Named("manifestIndex", VInt(r.manifestIndex)), Named("row", VObject(RowEntries(r.row)))]))
  {
    hide Parse, LineText, Ascii, KindOf, RowEntries;
    Parsed(RecordLine(r));
    NamesSpelled();
  }

  lemma BatchLayout(k: int, r: BatchRow)
    ensures Parse(true, LineText(RecordLine(Record(k, Batch(r))))) == Some(VObject([
      Named("kind", VString(Ascii("newsletterBatch"))),
      Named("manifestIndex", VInt(k)),
      Named("row", VObject([
        Named("id", VString(r.id)),
        Named("siteId", VString(r.siteId)),
        Named("fromEmail", VString(r.fromEmail)),
        Named("contents", VString(r.contents)),
        Named("batchId", VString(r.batchId)),
        Named("created", VString(r.created))]))]))
  {
    hide Parse, LineText, Ascii;
    RecordParsed(Record(k, Batch(r)));
    NamesSpelled();
    ColumnsSpelled();
    KindsSpelled();
  }

  lemma MessageLayout(k: int, r: MessageRow)
    ensures Parse(true, LineText(RecordLine(Record(k, Message(r))))) == Some(VObject([
      Named("kind", VString(Ascii("newsletterMessages"))),
      Named("manifestIndex", VInt(k)),
      Named("row", VObject([
        Named("id", VString(r.id)),
        Named("messageId", VString(r.messageId)),
        Named("toEmail", VString(r.toEmail)),
        Named("newsletterBatchId", VString(r.newsletterBatchId)),
        Named("created", VString(r.created)),
        Named("formatedContents", VString(r.formatedContents)),
        Named("recipientData", TextOrNull(r.recipientData))]))]))
  {
    hide Parse, LineText, Ascii;
    RecordParsed(Record(k, Message(r)));
    NamesSpelled();
    ColumnsSpelled();
    KindsSpelled();
  }

  lemma ErrorLayout(k: int, r: ErrorRow)
    ensures Parse(true, LineText(RecordLine(Record(k, Failed(r))))) == Some(VObject([
      Named("kind", VString(Ascii("newsletterErrors"))),
      Named("manifestIndex", VInt(k)),
      Named("row", VObject([
        Named("id", VString(r.id)),
        Named("toEmail", VString(r.toEmail)),
        Named("error", VString(r.error)),
        Named("created", VString(r.created)),
        Named("newsletterBatchId", VString(r.newsletterBatchId)),
        Named("messageId", VString(r.messageId)),
        Named("formatedContents", VString(r.formatedContents)),
        Named("recipientData", TextOrNull(r.recipientData))]))]))
  {
    hide Parse, LineText, Ascii;
    RecordParsed(Record(k, Failed(r)));
    NamesSpelled();
    ColumnsSpelled();
    KindsSpelled();
  }

  lemma NotificationLayout(k: int, r: NotificationRow)
    ensures Parse(true, LineText(RecordLine(Record(k, Notification(r))))) == Some(VObject([
      Named("kind", VString(Ascii("newsletterNotifications"))),
      Named("manifestIndex", VInt(k)),
      Named("row", VObject([
        Named("id", VString(r.id)),
        Named("type", VString(r.kind)),
        Named("notificationId", VString(r.notificationId)),
        Named("messageId", VString(r.messageId)),
        Named("rawEvent", VString(r.rawEvent)),
        Named("timestamp", VString(r.timestamp)),
        Named("created", VString(r.created))]))]))
  {
    hide Parse, LineText, Ascii;
    RecordParsed(Record(k, Notification(r)));
    NamesSpelled();
    ColumnsSpelled();
    KindsSpelled();
  }

  // ---------- how the text looks

  /** Characters that stand for themselves in a string literal. */
  predicate IsPlain(t: Text) { forall i :: 0 <= i < |t| ==> 32 <= t[i] <= 126 && t[i] != 34 && t[i] != 92 }

  lemma {:induction false} PlainItems(t: Text)
    requires IsPlain(t)
    ensures RenderItems(QuoteItems(t)) == t
  {
    if t != [] {
      PlainItems(t[1..]);
      var items := QuoteItems(t);
      assert items == [Plain(t[0])] + QuoteItems(t[1..]);
      assert items[1..] == QuoteItems(t[1..]);
      assert t == [t[0]] + t[1..];
    }
  }

  /** Such a text stands between quotation marks, 34. */
  lemma {:induction false} PlainText(t: Text)
    requires IsPlain(t)
    ensures Stringify(VString(t)) == [34] + t + [34]
  {
    PlainItems(t);
  }

  /** The other characters are escaped as ECMA-262 has it: a backslash, 92, before a quotation mark or
      a backslash; the letters b, t, n, f and r for 8, 9, 10, 12 and 13; u and four lower-case
      hexadecimal digits for the other control characters and for a surrogate without its pair. */
  lemma Escapes(u: CodeUnit)
    ensures RenderItem(QuoteUnit(u)) ==
            if u == 34 || u == 92 then [92, u]
            else if u == 8 then [92, 98] else if u == 9 then [92, 116] else if u == 10 then [92, 110]
            else if u == 12 then [92, 102] else if u == 13 then [92, 114]
            else if u < 32 || 0xD800 <= u < 0xE000 then [92, 117, Hex(u / 4096), Hex(u / 256 % 16), Hex(u / 16 % 16), Hex(u % 16)]
            else [u]
  {
  }

  /** 0 to 9, and a to f. */
  function Hex(d: int): CodeUnit
    requires 0 <= d < 16
  {
    if d <= 9 then 48 + d else 97 + (d - 10)
  }

  /** A surrogate pair stands for itself. */
  lemma {:induction false} PairsStay(t: Text)
    requires |t| >= 2 && 0xD800 <= t[0] < 0xDC00 && 0xDC00 <= t[1] < 0xE000
    ensures RenderItems(QuoteItems(t)) == t[..2] + RenderItems(QuoteItems(t[2..]))
  {
    var items, rest := QuoteItems(t), QuoteItems(t[2..]);
    assert items == [Plain(t[0])] + ([Plain(t[1])] + rest);
    assert items[1..] == [Plain(t[1])] + rest && items[1..][1..] == rest;
    assert t[..2] == [t[0]] + [t[1]];
  }

  lemma {:induction false} MemberAlone(e: Entry)
    requires IsPlain(e.key) && IntegersOnly(e.value)
    ensures IntegersInEntries([e]) && RenderMembers(CompactMembers([e])) == [34] + e.key + [34, 58] + Stringify(e.value) + [125]
  {
    PlainText(e.key);
    MemberText(RenderString(QuoteItems(e.key)), Stringify(e.value), [125]);
  }

  lemma {:induction false} MemberBefore(e: Entry, rest: seq<Entry>)
    requires IsPlain(e.key) && IntegersOnly(e.value) && rest != [] && IntegersInEntries(rest)
    ensures IntegersInEntries([e] + rest)
    ensures RenderMembers(CompactMembers([e] + rest)) == [34] + e.key + [34, 58] + Stringify(e.value) + [44] + RenderMembers(CompactMembers(rest))
  {
    hide IsPlain, RenderString, QuoteItems, Compact;
    var all := [e] + rest;
    assert all[1..] == rest;
    StringText(e.key);
    MemberText(RenderString(QuoteItems(e.key)), Stringify(e.value), [44] + RenderMembers(CompactMembers(rest)));
  }

  lemma {:induction false} StringText(t: Text)
    requires IsPlain(t)
    ensures RenderString(QuoteItems(t)) == [34] + t + [34]
  {
    PlainText(t);
  }

  lemma {:induction false} Digits(n: int)
    requires n >= 0
    ensures Stringify(VInt(n)) == DecimalDigits(n)
  {
  }

  lemma CountNames()
    ensures Ascii("\"batches\":") == [34] + BATCHES + [34, 58] && Ascii("\"messages\":") == [34] + MESSAGES + [34, 58]
    ensures IsPlain(BATCHES) && IsPlain(MESSAGES)
    ensures Ascii("{") == [123] && Ascii(",") == [44] && Ascii("}") == [125]
  {
  }

  lemma MoreCountNames()
    ensures Ascii("\"errors\":") == [34] + ERRORS + [34, 58] && Ascii("\"notifications\":") == [34] + NOTIFICATIONS + [34, 58]
    ensures IsPlain(ERRORS) && IsPlain(NOTIFICATIONS)
  {
  }

  lemma {:induction false} ObjectText(e: seq<Entry>)
    requires e != [] && IntegersInEntries(e)
    ensures Stringify(VObject(e)) == [123] + RenderMembers(CompactMembers(e))
  {
  }

  lemma {:induction false} FourMembers(a: Entry, b: Entry, c: Entry, d: Entry)
    requires IsPlain(a.key) && IsPlain(b.key) && IsPlain(c.key) && IsPlain(d.key)
    requires IntegersOnly(a.value) && IntegersOnly(b.value) && IntegersOnly(c.value) && IntegersOnly(d.value)
    ensures IntegersOnly(VObject([a, b, c, d]))
    ensures Stringify(VObject([a, b, c, d])) ==
            [123] + ([34] + a.key + [34, 58] + Stringify(a.value) + [44]
            + ([34] + b.key + [34, 58] + Stringify(b.value) + [44]
            + ([34] + c.key + [34, 58] + Stringify(c.value) + [44]
            + ([34] + d.key + [34, 58] + Stringify(d.value) + [125]))))
  {
    hide IsPlain, Compact, Stringify, CompactMembers, RenderMembers, IntegersInEntries;
    MemberAlone(d);
    MemberBefore(c, [d]);
    assert [c] + [d] == [c, d];
    MemberBefore(b, [c, d]);
    assert [b] + [c, d] == [b, c, d];
    MemberBefore(a, [b, c, d]);
    assert [a] + [b, c, d] == [a, b, c, d];
    ObjectText([a, b, c, d]);
  }

  /** Counts as text: braces, names in quotation marks, colons, decimal numbers and commas, and no
      white space. */
  lemma {:induction false} CountsText(c: Counts)
    requires ValidCounts(c)
    ensures IntegersOnly(VObject(CountEntries(c)))
    ensures Stringify(VObject(CountEntries(c))) ==
            Ascii("{") + (Ascii("\"batches\":") + DecimalDigits(c.batches) + Ascii(",")
            + (Ascii("\"messages\":") + DecimalDigits(c.messages) + Ascii(",")
            + (Ascii("\"errors\":") + DecimalDigits(c.errors) + Ascii(",")
            + (Ascii("\"notifications\":") + DecimalDigits(c.notifications) + Ascii("}")))))
  {
    hide Ascii, IsPlain, Stringify, DecimalDigits;
    CountNames();
    MoreCountNames();
    Digits(c.batches);
    Digits(c.messages);
    Digits(c.errors);
    Digits(c.notifications);
    var e := CountEntries(c);
    assert e == [e[0], e[1], e[2], e[3]];
    FourMembers(e[0], e[1], e[2], e[3]);
  }
}
