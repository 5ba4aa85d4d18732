/** How long escrow lines can get: a bound on their bytes from the lengths of their texts. */
module EscrowSize {
  import opened Utf16
  import opened Options
  import opened Utf8
  import opened JsonGrammar
  import opened JsonValue
  import opened EscrowRecords
  import opened EscrowCodec
  import opened EscrowStages
  import opened EscrowWriter

  /** At most this many code units: six for each unit of a string, and the marks around it. */
  function Weight(v: Value): nat
    decreases v
  {
    match v
    case VNull => 4
    case VBool(_) => 5
    case VInt(n) => 2 + if n < 0 then -n else n
    case VNumber(literal) => |RenderNumber(literal)|
    case VString(s) => 6 * |s| + 2
    case VArray(items) => 2 + WeightOfItems(items)
    case VObject(entries) => 2 + WeightOfEntries(entries)
  }

  function WeightOfItems(items: seq<Value>): nat
    decreases items
  {
    if items == [] then 0 else Weight(items[0]) + 1 + WeightOfItems(items[1..])
  }

  function WeightOfEntries(entries: seq<Entry>): nat
    decreases entries
  {
    if entries == [] then 0 else 6 * |entries[0].key| + 4 + Weight(entries[0].value) + WeightOfEntries(entries[1..])
  }

  lemma {:induction false} DigitsLength(n: nat)
    ensures |DecimalDigits(n)| <= n + 1
  {
    if n >= 10 { DigitsLength(n / 10); }
  }

  lemma {:induction false} QuoteLength(s: Text)
    ensures |RenderItems(QuoteItems(s))| <= 6 * |s|
  {
    if s != [] {
      var items := QuoteItems(s);
      if StartsWithPair(s) {
        QuoteLength(s[2..]);
        assert items[1..][1..] == QuoteItems(s[2..]);
        assert RenderItems(items) == RenderItem(items[0]) + (RenderItem(items[1]) + RenderItems(items[1..][1..]));
      } else {
        QuoteLength(s[1..]);
        assert items[1..] == QuoteItems(s[1..]);
      }
    }
  }

  lemma {:induction false} StringifyLength(v: Value)
    requires IntegersOnly(v)
    ensures |Stringify(v)| <= Weight(v)
    decreases v
  {
    match v
    case VString(s) => QuoteLength(s);
    case VInt(n) => DigitsLength(if n < 0 then -n else n);
    case VArray(items) => if items != [] { ElementsLength(items); ArrayText(items); }
    case VObject(entries) => if entries != [] { MembersLength(entries); ObjectText(entries); }
    case VNull =>
    case VBool(_) =>
    case VNumber(_) =>
  }

  lemma {:induction false} ElementsLength(items: seq<Value>)
    requires items != [] && IntegersInItems(items)
    ensures |RenderElements(CompactElements(items))| <= WeightOfItems(items)
    decreases items
  {
    StringifyLength(items[0]);
    if |items| > 1 { ElementsLength(items[1..]); }
  }

  lemma {:induction false} MembersLength(entries: seq<Entry>)
    requires entries != [] && IntegersInEntries(entries)
    ensures |RenderMembers(CompactMembers(entries))| <= WeightOfEntries(entries)
    decreases entries
  {
    StringifyLength(entries[0].value);
    QuoteLength(entries[0].key);
    if |entries| > 1 { MembersLength(entries[1..]); }
  }

  lemma {:induction false} EncodeLength(t: Text)
    ensures |Encode(t)| <= 3 * |t|
  {
    if t != [] { EncodeLength(t[FrontLength(t)..]); }
  }

  /** The bytes of a line, its line feed not included. */
  function LineWeight(line: Line): nat { 3 * Weight(VObject(LineEntries(line))) }

  lemma LineLength(line: Line)
    ensures RawLength(TextRaw(LineText(line))) <= LineWeight(line)
  {
    hide Weight, Stringify, LineText, Encode;
    LineIsStringify(line);
    StringifyLength(VObject(LineEntries(line)));
    EncodeLength(LineText(line));
  }

  function TotalWeight(lines: seq<Line>): nat {
    if lines == [] then 0 else TotalWeight(lines[..|lines| - 1]) + LineWeight(lines[|lines| - 1]) + 1
  }

  lemma {:induction false} TotalLength(lines: seq<Line>)
    ensures TotalBytes(RawsOf(lines)) <= TotalWeight(lines)
  {
    hide LineWeight, RawLength, LineText;
    if lines != [] {
      var n := |lines| - 1;
      TotalLength(lines[..n]);
      LineLength(lines[n]);
      assert RawsOf(lines)[..n] == RawsOf(lines[..n]);
    }
  }

  /** Lines that are short by weight keep the byte limits. */
  lemma {:induction false} ShortLinesFit(lines: seq<Line>, limits: Limits)
    requires forall i :: 0 <= i < |lines| ==> LineWeight(lines[i]) <= limits.lineBytes
    requires TotalWeight(lines) <= limits.totalBytes
    ensures BytesOk(RawsOf(lines), limits)
  {
    hide LineWeight, RawLength, LineText, TotalWeight;
    TotalLength(lines);
    forall i | 0 <= i < |lines|
      ensures RawLength(RawsOf(lines)[i]) <= limits.lineBytes
    {
      LineLength(lines[i]);
    }
  }
}
