/** JSON values, `JSON.stringify` (QuoteJSONString of ECMA-262, section 25.5.2) and `JSON.parse`
    as a meaning of derivation trees, with the round trip between them. */
module JsonValue {
  import opened Options
  import opened Utf16
  import opened JsonGrammar
  import opened JsonScan
  import opened JsonExact

  /** `VNumber` is a number literal that is not spelt as a plain integer. */
  datatype Value =
    | VNull
    | VBool(b: bool)
    | VInt(n: int)
    | VNumber(literal: Num)
    | VString(s: Text)
    | VArray(items: seq<Value>)
    | VObject(entries: seq<Entry>)

  datatype Entry = Entry(key: Text, value: Value)

  // ---------- decimal integers

  function DecimalDigits(n: nat): (t: Text)
    ensures t != [] && All(IsDigit, t)
    ensures t[0] == ZERO ==> n == 0 && |t| == 1
  {
    if n < 10 then [48 + n] else DecimalDigits(n / 10) + [48 + n % 10]
  }

  function DecimalValue(t: Text): (n: nat)
    requires All(IsDigit, t)
  {
    if t == [] then 0 else DecimalValue(t[..|t| - 1]) * 10 + (t[|t| - 1] - 48)
  }

  lemma {:induction false} DecimalRoundTrip(n: nat)
    ensures DecimalValue(DecimalDigits(n)) == n
  {
    var t := DecimalDigits(n);
    if n < 10 {
      assert t[..|t| - 1] == [];
    } else {
      DecimalRoundTrip(n / 10);
      assert t[..|t| - 1] == DecimalDigits(n / 10);
    }
  }

  // ---------- strings

  function HexDigit(d: nat): CodeUnit
    requires d < 16
  {
    if d < 10 then 48 + d else 87 + d
  }

  function HexEscape(u: CodeUnit): Item {
    Unicode(HexDigit(u / 4096), HexDigit(u / 256 % 16), HexDigit(u / 16 % 16), HexDigit(u % 16))
  }

  function QuoteUnit(u: CodeUnit): (item: Item)
    ensures WfItem(item)
  {
    if u == QUOTE || u == BACKSLASH then Short(u)
    else if u == 8 then Short(LOWER_B)
    else if u == 12 then Short(LOWER_F)
    else if u == 10 then Short(LOWER_N)
    else if u == 13 then Short(LOWER_R)
    else if u == 9 then Short(LOWER_T)
    else if u < 0x20 || IsSurrogate(u) then HexEscape(u)
    else Plain(u)
  }

  /** Surrogate pairs stand for themselves; a surrogate outside a pair is escaped. */
  function QuoteItems(s: Text): (items: seq<Item>)
    ensures WfItems(items)
  {
    if s == [] then []
    else if StartsWithPair(s) then [Plain(s[0]), Plain(s[1])] + QuoteItems(s[2..])
    else [QuoteUnit(s[0])] + QuoteItems(s[1..])
  }

  lemma HexDigitValue(d: nat)
    requires d < 16
    ensures IsHex(HexDigit(d)) && HexValue(HexDigit(d)) == d
  {
  }

  lemma DecodeHexEscape(u: CodeUnit)
    ensures DecodeItem(HexEscape(u)) == u
  {
    HexDigitValue(u / 4096);
    HexDigitValue(u / 256 % 16);
    HexDigitValue(u / 16 % 16);
    HexDigitValue(u % 16);
    assert u / 256 == u / 4096 * 16 + u / 256 % 16;
    assert u / 16 == u / 256 * 16 + u / 16 % 16;
  }

  lemma DecodeQuoteUnit(u: CodeUnit)
    ensures DecodeItem(QuoteUnit(u)) == u
  {
    hide HexEscape;
    DecodeHexEscape(u);
  }

  lemma {:induction false} DecodeQuoteItems(s: Text)
    ensures DecodeItems(QuoteItems(s)) == s
  {
    if s != [] {
      var items := QuoteItems(s);
      if StartsWithPair(s) {
        DecodeQuoteItems(s[2..]);
        assert items[1..][1..] == QuoteItems(s[2..]);
        assert s == [s[0]] + ([s[1]] + s[2..]);
      } else {
        DecodeQuoteItems(s[1..]);
        DecodeQuoteUnit(s[0]);
        assert items[1..] == QuoteItems(s[1..]);
      }
    }
  }

  // ---------- JSON.stringify

  /** Every number in `v` is an integer. */
  predicate IntegersOnly(v: Value)
    decreases v
  {
    match v
    case VNumber(_) => false
    case VArray(items) => IntegersInItems(items)
    case VObject(entries) => IntegersInEntries(entries)
    case _ => true
  }

  predicate IntegersInItems(items: seq<Value>)
    decreases items
  {
    items == [] || (IntegersOnly(items[0]) && IntegersInItems(items[1..]))
  }

  predicate IntegersInEntries(entries: seq<Entry>)
    decreases entries
  {
    entries == [] || (IntegersOnly(entries[0].value) && IntegersInEntries(entries[1..]))
  }

  /** No object inside `v` repeats a key. */
  ghost predicate DistinctKeys(v: Value)
    decreases v
  {
    match v
    case VArray(items) => DistinctInItems(items)
    case VObject(entries) => Distinct(Keys(entries)) && DistinctInEntries(entries)
    case _ => true
  }

  ghost predicate DistinctInItems(items: seq<Value>)
    decreases items
  {
    items == [] || (DistinctKeys(items[0]) && DistinctInItems(items[1..]))
  }

  ghost predicate DistinctInEntries(entries: seq<Entry>)
    decreases entries
  {
    entries == [] || (DistinctKeys(entries[0].value) && DistinctInEntries(entries[1..]))
  }

  function Keys(entries: seq<Entry>): (keys: seq<Text>)
    ensures |keys| == |entries| && forall i :: 0 <= i < |entries| ==> keys[i] == entries[i].key
  {
    seq(|entries|, i requires 0 <= i < |entries| => entries[i].key)
  }

  function IntLiteral(n: int): (r: Num)
    ensures WfNumber(r)
  {
    Num(n < 0, DecimalDigits(if n < 0 then -n else n), [], NoExponent)
  }

  /** The derivation tree of the text that `JSON.stringify` gives. */
  function Compact(v: Value): (j: Json)
    requires IntegersOnly(v)
    decreases v
  {
    match v
    case VNull => Null
    case VBool(b) => if b then True else False
    case VInt(n) => Number(IntLiteral(n))
    case VString(s) => String(QuoteItems(s))
    case VArray(items) => if items == [] then EmptyArray([]) else Array(CompactElements(items))
    case VObject(entries) => if entries == [] then EmptyObject([]) else Object(CompactMembers(entries))
  }

  function CompactElements(items: seq<Value>): Elements
    requires items != [] && IntegersInItems(items)
    decreases items
  {
    if |items| == 1 then LastElement([], Compact(items[0]), [])
    else MoreElements([], Compact(items[0]), [], CompactElements(items[1..]))
  }

  function CompactMembers(entries: seq<Entry>): Members
    requires entries != [] && IntegersInEntries(entries)
    decreases entries
  {
    var Entry(key, v) := entries[0];
    if |entries| == 1 then LastMember([], QuoteItems(key), [], [], Compact(v), [])
    else MoreMembers([], QuoteItems(key), [], [], Compact(v), [], CompactMembers(entries[1..]))
  }

  function Stringify(v: Value): Text
    requires IntegersOnly(v)
  {
    Render(Compact(v))
  }

  // ---------- JSON.parse

  function Denote(j: Json): Value
    requires Wf(j)
    decreases j
  {
    match j
    case Null => VNull
    case True => VBool(true)
    case False => VBool(false)
    case Number(n) =>
      if n.fraction == [] && n.exponent.NoExponent? && !(n.negative && n.integer == [ZERO])
      then var d: int := DecimalValue(n.integer); VInt(if n.negative then -d else d)
      else VNumber(n)
    case String(items) => VString(DecodeItems(items))
    case EmptyArray(_) => VArray([])
    case Array(es) => VArray(DenoteElements(es))
    case EmptyObject(_) => VObject([])
    case Object(ms) => VObject(DenoteMembers(ms))
  }

  function DenoteElements(e: Elements): seq<Value>
    requires WfElements(e)
    decreases e
  {
    [Denote(e.value)] + if e.MoreElements? then DenoteElements(e.rest) else []
  }

  function DenoteMembers(m: Members): seq<Entry>
    requires WfMembers(m)
    decreases m
  {
    [Entry(DecodeItems(m.name), Denote(m.value))] + if m.MoreMembers? then DenoteMembers(m.rest) else []
  }

  /** The value of a JSON text. With `strict`, as read behind the duplicate-key scanner. */
  function Parse(strict: bool, t: Text): Option<Value> {
    var r := ScanDocument(strict, t);
    if r.Fail? then None else
    ScanDocumentSound(strict, t);
    Some(Denote(r.value.value))
  }

  // ---------- the round trip

  lemma {:induction false} CompactFaithful(v: Value)
    requires IntegersOnly(v)
    ensures Wf(Compact(v)) && Denote(Compact(v)) == v
    decreases v
  {
    match v
    case VInt(n) => DecimalRoundTrip(if n < 0 then -n else n);
    case VString(s) => DecodeQuoteItems(s);
    case VArray(items) => if items != [] { CompactElementsFaithful(items); }
    case VObject(entries) => if entries != [] { CompactMembersFaithful(entries); }
    case _ =>
  }

  lemma {:induction false} CompactElementsFaithful(items: seq<Value>)
    requires items != [] && IntegersInItems(items)
    ensures WfElements(CompactElements(items)) && DenoteElements(CompactElements(items)) == items
    decreases items
  {
    CompactFaithful(items[0]);
    if |items| > 1 { CompactElementsFaithful(items[1..]); }
    assert items == [items[0]] + items[1..];
  }

  lemma {:induction false} CompactMembersFaithful(entries: seq<Entry>)
    requires entries != [] && IntegersInEntries(entries)
    ensures WfMembers(CompactMembers(entries)) && DenoteMembers(CompactMembers(entries)) == entries
    decreases entries
  {
    var Entry(key, v) := entries[0];
    CompactFaithful(v);
    DecodeQuoteItems(key);
    if |entries| > 1 { CompactMembersFaithful(entries[1..]); }
    assert entries == [entries[0]] + entries[1..];
  }

  lemma {:induction false} NamesAreKeys(m: Members)
    requires WfMembers(m)
    ensures Names(m) == Keys(DenoteMembers(m))
  {
    if m.MoreMembers? { NamesAreKeys(m.rest); }
  }

  lemma {:induction false} UniqueIffDistinct(j: Json)
    requires Wf(j)
    ensures Unique(j) <==> DistinctKeys(Denote(j))
    decreases j
  {
    match j
    case Array(es) => UniqueElementsIffDistinct(es);
    case Object(ms) =>
      UniqueMembersIffDistinct(ms);
      NamesAreKeys(ms);
    case _ =>
  }

  lemma {:induction false} UniqueElementsIffDistinct(e: Elements)
    requires WfElements(e)
    ensures UniqueElements(e) <==> DistinctInItems(DenoteElements(e))
    decreases e
  {
    UniqueIffDistinct(e.value);
    var items := DenoteElements(e);
    if e.MoreElements? {
      UniqueElementsIffDistinct(e.rest);
      assert items[1..] == DenoteElements(e.rest);
    }
  }

  lemma {:induction false} UniqueMembersIffDistinct(m: Members)
    requires WfMembers(m)
    ensures UniqueMembers(m) <==> DistinctInEntries(DenoteMembers(m))
    decreases m
  {
    UniqueIffDistinct(m.value);
    var entries := DenoteMembers(m);
    if m.MoreMembers? {
      UniqueMembersIffDistinct(m.rest);
      assert entries[1..] == DenoteMembers(m.rest);
    }
  }

  /** Parsing what was stringified gives the value back; the duplicate-key scanner lets it
      through exactly when no object of it repeats a key. */
  lemma {:induction false} ParseStringify(v: Value)
    requires IntegersOnly(v)
    ensures Parse(false, Stringify(v)) == Some(v)
    ensures Parse(true, Stringify(v)) == if DistinctKeys(v) then Some(v) else None
  {
    CompactFaithful(v);
    UniqueIffDistinct(Compact(v));
    var d := Document([], Compact(v), []);
    assert RenderDocument(d) == Stringify(v);
    ScanDocumentComplete(false, d);
    ScannerExact(Stringify(v));
    if DistinctKeys(v) {
      ScanDocumentComplete(true, d);
    } else if e :| Derives(e, Stringify(v)) && Unique(e.value) {
      Unambiguous(d, e);
    }
  }

  lemma {:induction false} ArrayText(items: seq<Value>)
    requires items != [] && IntegersInItems(items)
    ensures Stringify(VArray(items)) == [LBRACKET] + RenderElements(CompactElements(items))
  {
    assert Compact(VArray(items)) == Array(CompactElements(items));
    RenderArray(CompactElements(items));
  }

  lemma {:induction false} RenderArray(es: Elements)
    ensures Render(Array(es)) == [LBRACKET] + RenderElements(es)
  {
  }

  lemma {:induction false} ObjectText(entries: seq<Entry>)
    requires entries != [] && IntegersInEntries(entries)
    ensures Stringify(VObject(entries)) == [LBRACE] + RenderMembers(CompactMembers(entries))
  {
    assert Compact(VObject(entries)) == Object(CompactMembers(entries));
    RenderObject(CompactMembers(entries));
  }

  lemma {:induction false} RenderObject(ms: Members)
    ensures Render(Object(ms)) == [LBRACE] + RenderMembers(ms)
  {
  }

  lemma {:induction false} StringifyInjective(v: Value, w: Value)
    requires IntegersOnly(v) && IntegersOnly(w) && Stringify(v) == Stringify(w)
    ensures v == w
  {
    ParseStringify(v);
    ParseStringify(w);
  }

  // ---------- what a stringified text never holds

  /** Well-formed UTF-16 without control characters. */
  ghost predicate Clean(t: Text) {
    WellFormed(t) && forall i :: 0 <= i < |t| ==> t[i] >= 0x20
  }

  lemma CleanConcat(a: Text, b: Text)
    requires Clean(a) && Clean(b)
    ensures Clean(a + b)
  {
    WellFormedConcat(a, b);
  }

  lemma CleanUnit(u: CodeUnit)
    requires 0x20 <= u && !IsSurrogate(u)
    ensures Clean([u])
  {
    assert [u][1..] == [];
  }

  lemma {:induction false} CleanAscii(t: Text)
    requires forall i :: 0 <= i < |t| ==> 0x20 <= t[i] < 0xD800
    ensures Clean(t)
  {
    if t != [] {
      CleanAscii(t[1..]);
      CleanUnit(t[0]);
      CleanConcat([t[0]], t[1..]);
      assert t == [t[0]] + t[1..];
    }
  }

  lemma QuoteUnitClean(u: CodeUnit)
    ensures Clean(RenderItem(QuoteUnit(u)))
  {
    var item := QuoteUnit(u);
    if item.Plain? { CleanUnit(u); } else { CleanAscii(RenderItem(item)); }
  }

  lemma {:induction false} RenderQuoteItemsClean(s: Text)
    ensures Clean(RenderItems(QuoteItems(s)))
  {
    if s != [] {
      var items := QuoteItems(s);
      if StartsWithPair(s) {
        RenderQuoteItemsClean(s[2..]);
        assert items[1..][1..] == QuoteItems(s[2..]);
        assert [s[0], s[1]][2..] == [];
        CleanConcat([s[0], s[1]], RenderItems(items[2..]));
        Assoc([s[0]], [s[1]], RenderItems(items[2..]));
        assert [s[0]] + [s[1]] == [s[0], s[1]];
        assert items[2..] == items[1..][1..];
      } else {
        RenderQuoteItemsClean(s[1..]);
        assert items[1..] == QuoteItems(s[1..]);
        QuoteUnitClean(s[0]);
        CleanConcat(RenderItem(items[0]), RenderItems(items[1..]));
      }
    }
  }

  lemma {:induction false} QuoteClean(s: Text)
    ensures Clean(RenderString(QuoteItems(s)))
  {
    RenderQuoteItemsClean(s);
    CleanAscii([QUOTE]);
    CleanConcat([QUOTE], RenderItems(QuoteItems(s)));
    CleanConcat([QUOTE] + RenderItems(QuoteItems(s)), [QUOTE]);
  }

  lemma {:induction false} StringifyClean(v: Value)
    requires IntegersOnly(v)
    ensures Clean(Stringify(v))
    decreases v
  {
    hide Clean;
    match v
    case VArray(items) =>
      if items != [] { CleanElements(items); }
      CleanArray(items);
    case VObject(entries) =>
      if entries != [] { CleanMembers(entries); }
      CleanObject(entries);
    case _ => CleanScalar(v);
  }

  lemma {:induction false} CleanScalar(v: Value)
    requires IntegersOnly(v) && !v.VArray? && !v.VObject?
    ensures Clean(Stringify(v))
  {
    hide Clean;
    match v
    case VString(s) => QuoteClean(s);
    case VInt(n) => CleanAscii(RenderNumber(IntLiteral(n)));
    case VNull => CleanAscii(NULL_TEXT);
    case VBool(b) => CleanAscii(TRUE_TEXT); CleanAscii(FALSE_TEXT);
    case _ =>
  }

  lemma {:induction false} CleanArray(items: seq<Value>)
    requires IntegersInItems(items) && (items != [] ==> Clean(RenderElements(CompactElements(items))))
    ensures Clean(Stringify(VArray(items)))
  {
    CleanAscii([LBRACKET]);
    if items == [] { CleanAscii(Stringify(VArray(items))); }
    else { CleanConcat([LBRACKET], RenderElements(CompactElements(items))); }
  }

  lemma {:induction false} CleanObject(entries: seq<Entry>)
    requires IntegersInEntries(entries) && (entries != [] ==> Clean(RenderMembers(CompactMembers(entries))))
    ensures Clean(Stringify(VObject(entries)))
  {
    CleanAscii([LBRACE]);
    if entries == [] { CleanAscii(Stringify(VObject(entries))); }
    else { CleanConcat([LBRACE], RenderMembers(CompactMembers(entries))); }
  }

  lemma CleanMarks()
    ensures Clean([COMMA]) && Clean([COLON]) && Clean([RBRACKET]) && Clean([RBRACE])
  {
    CleanAscii([COMMA]);
    CleanAscii([COLON]);
    CleanAscii([RBRACKET]);
    CleanAscii([RBRACE]);
  }

  lemma {:induction false} CleanElements(items: seq<Value>)
    requires items != [] && IntegersInItems(items)
    ensures Clean(RenderElements(CompactElements(items)))
    decreases items
  {
    CleanMarks();
    var text := Stringify(items[0]);
    StringifyClean(items[0]);
    assert [] + text + [] == text;
    if |items| == 1 {
      CleanConcat(text, [RBRACKET]);
    } else {
      var more := RenderElements(CompactElements(items[1..]));
      CleanElements(items[1..]);
      CleanConcat([COMMA], more);
      CleanConcat(text, [COMMA] + more);
    }
  }

  lemma {:induction false} CleanMember(key: Text, v: Value, tail: Text)
    requires IntegersOnly(v) && Clean(Stringify(v)) && Clean(tail)
    ensures Clean(RenderString(QuoteItems(key)) + [COLON] + Stringify(v) + tail)
  {
    CleanMarks();
    QuoteClean(key);
    CleanConcat(RenderString(QuoteItems(key)), [COLON]);
    CleanConcat(RenderString(QuoteItems(key)) + [COLON], Stringify(v));
    CleanConcat(RenderString(QuoteItems(key)) + [COLON] + Stringify(v), tail);
  }

  lemma MemberText(name: Text, value: Text, tail: Text)
    ensures [] + name + [] + [COLON] + [] + value + [] + tail == name + [COLON] + value + tail
  {
    assert [] + name + [] == name;
    assert name + [COLON] + [] == name + [COLON];
  }

  lemma {:induction false} CleanMembers(entries: seq<Entry>)
    requires entries != [] && IntegersInEntries(entries)
    ensures Clean(RenderMembers(CompactMembers(entries)))
    decreases entries
  {
    var Entry(key, v) := entries[0];
    CleanMarks();
    StringifyClean(v);
    if |entries| == 1 {
      CleanMember(key, v, [RBRACE]);
      MemberText(RenderString(QuoteItems(key)), Stringify(v), [RBRACE]);
    } else {
      var more := RenderMembers(CompactMembers(entries[1..]));
      CleanMembers(entries[1..]);
      CleanConcat([COMMA], more);
      CleanMember(key, v, [COMMA] + more);
      MemberText(RenderString(QuoteItems(key)), Stringify(v), [COMMA] + more);
    }
  }
}
