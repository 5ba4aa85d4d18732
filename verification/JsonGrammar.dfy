/** The JSON grammar of RFC 8259, sections 2 to 7, as derivation trees: a tree, the text it
    derives (`Render`), when it is a derivation of the grammar (`Wf`), and when no object in
    it repeats a decoded member name (`Unique`). */
module JsonGrammar {
  import opened Utf16

  const TAB: CodeUnit := 9
  const NEWLINE: CodeUnit := 10
  const RETURN: CodeUnit := 13
  const SPACE: CodeUnit := 32
  const QUOTE: CodeUnit := 34
  const PLUS: CodeUnit := 43
  const COMMA: CodeUnit := 44
  const MINUS: CodeUnit := 45
  const DOT: CodeUnit := 46
  const SLASH: CodeUnit := 47
  const ZERO: CodeUnit := 48
  const COLON: CodeUnit := 58
  const UPPER_E: CodeUnit := 69
  const LBRACKET: CodeUnit := 91
  const BACKSLASH: CodeUnit := 92
  const RBRACKET: CodeUnit := 93
  const LOWER_B: CodeUnit := 98
  const LOWER_E: CodeUnit := 101
  const LOWER_F: CodeUnit := 102
  const LOWER_N: CodeUnit := 110
  const LOWER_R: CodeUnit := 114
  const LOWER_T: CodeUnit := 116
  const LOWER_U: CodeUnit := 117
  const LBRACE: CodeUnit := 123
  const RBRACE: CodeUnit := 125

  const TRUE_TEXT: Text := [116, 114, 117, 101]
  const FALSE_TEXT: Text := [102, 97, 108, 115, 101]
  const NULL_TEXT: Text := [110, 117, 108, 108]

  predicate IsWs(u: CodeUnit) { u == TAB || u == NEWLINE || u == RETURN || u == SPACE }

  predicate IsDigit(u: CodeUnit) { 48 <= u <= 57 }

  predicate IsHex(u: CodeUnit) { 48 <= u <= 57 || 65 <= u <= 70 || 97 <= u <= 102 }

  predicate All(p: CodeUnit -> bool, t: Text) { forall i :: 0 <= i < |t| ==> p(t[i]) }

  /** One character of a string literal: verbatim, a two-character escape, or \uXXXX. */
  datatype Item =
    | Plain(unit: CodeUnit)
    | Short(letter: CodeUnit)
    | Unicode(h0: CodeUnit, h1: CodeUnit, h2: CodeUnit, h3: CodeUnit)

  datatype Exponent = NoExponent | Exponent(mark: CodeUnit, sign: Text, digits: Text)

  /** `fraction` is empty when there is no decimal point. */
  datatype Num = Num(negative: bool, integer: Text, fraction: Text, exponent: Exponent)

  datatype Json =
    | Null
    | True
    | False
    | Number(num: Num)
    | String(items: seq<Item>)
    | EmptyArray(gap: Text)
    | Array(elements: Elements)
    | EmptyObject(gap: Text)
    | Object(members: Members)

  datatype Elements =
    | LastElement(pre: Text, value: Json, post: Text)
    | MoreElements(pre: Text, value: Json, post: Text, rest: Elements)

  datatype Members =
    | LastMember(pre: Text, name: seq<Item>, mid: Text, gap: Text, value: Json, post: Text)
    | MoreMembers(pre: Text, name: seq<Item>, mid: Text, gap: Text, value: Json, post: Text, rest: Members)

  datatype Document = Document(pre: Text, value: Json, post: Text)

  // ---------- derived text

  function RenderItem(item: Item): Text {
    match item
    case Plain(u) => [u]
    case Short(c) => [BACKSLASH, c]
    case Unicode(a, b, c, d) => [BACKSLASH, LOWER_U, a, b, c, d]
  }

  function RenderItems(items: seq<Item>): Text {
    if items == [] then [] else RenderItem(items[0]) + RenderItems(items[1..])
  }

  function RenderString(items: seq<Item>): Text {
    [QUOTE] + RenderItems(items) + [QUOTE]
  }

  function RenderExponent(e: Exponent): Text {
    if e.NoExponent? then [] else [e.mark] + e.sign + e.digits
  }

  function RenderFraction(fraction: Text): Text {
    if fraction == [] then [] else [DOT] + fraction
  }

  function RenderNumber(n: Num): Text {
    (if n.negative then [MINUS] else []) + n.integer + RenderFraction(n.fraction) + RenderExponent(n.exponent)
  }

  function Render(v: Json): Text {
    match v
    case Null => NULL_TEXT
    case True => TRUE_TEXT
    case False => FALSE_TEXT
    case Number(n) => RenderNumber(n)
    case String(items) => RenderString(items)
    case EmptyArray(gap) => [LBRACKET] + gap + [RBRACKET]
    case Array(es) => [LBRACKET] + RenderElements(es)
    case EmptyObject(gap) => [LBRACE] + gap + [RBRACE]
    case Object(ms) => [LBRACE] + RenderMembers(ms)
  }

  /** Everything after the opening bracket, the closing one included. */
  function RenderElements(e: Elements): Text {
    e.pre + Render(e.value) + e.post +
    if e.MoreElements? then [COMMA] + RenderElements(e.rest) else [RBRACKET]
  }

  function RenderMembers(m: Members): Text {
    m.pre + RenderString(m.name) + m.mid + [COLON] + m.gap + Render(m.value) + m.post +
    if m.MoreMembers? then [COMMA] + RenderMembers(m.rest) else [RBRACE]
  }

  function RenderDocument(d: Document): Text { d.pre + Render(d.value) + d.post }

  // ---------- derivations of the grammar

  predicate IsShortEscape(c: CodeUnit) {
    c == QUOTE || c == BACKSLASH || c == SLASH || c == LOWER_B || c == LOWER_F || c == LOWER_N || c == LOWER_R || c == LOWER_T
  }

  predicate WfItem(item: Item) {
    match item
    case Plain(u) => u >= 0x20 && u != QUOTE && u != BACKSLASH
    case Short(c) => IsShortEscape(c)
    case Unicode(a, b, c, d) => IsHex(a) && IsHex(b) && IsHex(c) && IsHex(d)
  }

  predicate WfItems(items: seq<Item>) { forall i :: 0 <= i < |items| ==> WfItem(items[i]) }

  predicate WfNumber(n: Num) {
    && n.integer != [] && All(IsDigit, n.integer)
    && (n.integer[0] == ZERO ==> |n.integer| == 1)
    && All(IsDigit, n.fraction)
    && (n.exponent.Exponent? ==>
         && n.exponent.mark in {LOWER_E, UPPER_E}
         && n.exponent.sign in {[], [PLUS], [MINUS]}
         && n.exponent.digits != [] && All(IsDigit, n.exponent.digits))
  }

  predicate Wf(v: Json) {
    match v
    case Number(n) => WfNumber(n)
    case String(items) => WfItems(items)
    case EmptyArray(gap) => All(IsWs, gap)
    case EmptyObject(gap) => All(IsWs, gap)
    case Array(es) => WfElements(es)
    case Object(ms) => WfMembers(ms)
    case _ => true
  }

  predicate WfElements(e: Elements) {
    && All(IsWs, e.pre) && Wf(e.value) && All(IsWs, e.post)
    && (e.MoreElements? ==> WfElements(e.rest))
  }

  predicate WfMembers(m: Members) {
    && All(IsWs, m.pre) && WfItems(m.name) && All(IsWs, m.mid) && All(IsWs, m.gap) && Wf(m.value) && All(IsWs, m.post)
    && (m.MoreMembers? ==> WfMembers(m.rest))
  }

  predicate WfDocument(d: Document) { All(IsWs, d.pre) && Wf(d.value) && All(IsWs, d.post) }

  // ---------- decoded strings and repeated names

  function HexValue(u: CodeUnit): (r: nat)
    requires IsHex(u)
    ensures r < 16
  {
    if u <= 57 then u - 48 else if u <= 70 then u - 55 else u - 87
  }

  function ShortValue(c: CodeUnit): CodeUnit {
    if c == LOWER_B then 8 else if c == LOWER_F then 12 else if c == LOWER_N then 10
    else if c == LOWER_R then 13 else if c == LOWER_T then 9 else c
  }

  /** The code unit a literal character stands for. */
  function DecodeItem(item: Item): CodeUnit
    requires WfItem(item)
  {
    match item
    case Plain(u) => u
    case Short(c) => ShortValue(c)
    case Unicode(a, b, c, d) => ((HexValue(a) * 16 + HexValue(b)) * 16 + HexValue(c)) * 16 + HexValue(d)
  }

  function DecodeItems(items: seq<Item>): (t: Text)
    requires WfItems(items)
    ensures |t| == |items|
  {
    if items == [] then [] else [DecodeItem(items[0])] + DecodeItems(items[1..])
  }

  /** Every member name, decoded, in the order of the text. */
  function Names(m: Members): (names: seq<Text>)
    requires WfMembers(m)
    ensures names != []
  {
    [DecodeItems(m.name)] + if m.MoreMembers? then Names(m.rest) else []
  }

  ghost predicate Distinct<T(!new)>(s: seq<T>) { forall i, j :: 0 <= i < j < |s| ==> s[i] != s[j] }

  /** No object at any depth repeats a member name. */
  ghost predicate Unique(v: Json)
    requires Wf(v)
    decreases v
  {
    match v
    case Array(es) => UniqueElements(es)
    case Object(ms) => Distinct(Names(ms)) && UniqueMembers(ms)
    case _ => true
  }

  ghost predicate UniqueElements(e: Elements)
    requires WfElements(e)
  {
    Unique(e.value) && (e.MoreElements? ==> UniqueElements(e.rest))
  }

  /** Uniqueness inside the member values. */
  ghost predicate UniqueMembers(m: Members)
    requires WfMembers(m)
  {
    Unique(m.value) && (m.MoreMembers? ==> UniqueMembers(m.rest))
  }
}
