/** What the hand-written scanner and `JSON.parse` compute, as functions on the remaining text,
    and the proof that they decide the grammar exactly. With `strict`, a repeated member name is
    an error (the scanner); without, it is not (`JSON.parse`). */
module JsonScan {
  import opened Utf16
  import opened JsonGrammar

  datatype Scan<+T> = Fail | Done(value: T, rest: Text)

  /** The longest prefix whose units all satisfy `p`. */
  function Run(p: CodeUnit -> bool, t: Text): (r: Text)
    ensures |r| <= |t| && r == t[..|r|]
    ensures All(p, r)
    ensures |r| == |t| || !p(t[|r|])
  {
    if t != [] && p(t[0]) then [t[0]] + Run(p, t[1..]) else []
  }

  function Gap(t: Text): Text { Run(IsWs, t) }

  function Digits(t: Text): Text { Run(IsDigit, t) }

  function SkipWs(t: Text): (r: Text)
    ensures |r| <= |t| && t == Gap(t) + r
  {
    t[|Gap(t)|..]
  }

  /** One character of a string literal. */
  function ScanItem(t: Text): (r: Scan<Item>)
    ensures r.Done? ==> WfItem(r.value) && t == RenderItem(r.value) + r.rest && |r.rest| < |t|
  {
    if t == [] || t[0] == QUOTE || t[0] < 0x20 then Fail
    else if t[0] != BACKSLASH then assert t == [t[0]] + t[1..]; Done(Plain(t[0]), t[1..])
    else if |t| < 2 then Fail
    else if IsShortEscape(t[1]) then assert t == t[..2] + t[2..]; Done(Short(t[1]), t[2..])
    else if t[1] == LOWER_U && |t| >= 6 && IsHex(t[2]) && IsHex(t[3]) && IsHex(t[4]) && IsHex(t[5]) then
      assert t == t[..6] + t[6..];
      Done(Unicode(t[2], t[3], t[4], t[5]), t[6..])
    else Fail
  }

  /** The rest of a string literal, after its opening quote. */
  function ScanItems(t: Text): (r: Scan<seq<Item>>)
    ensures r.Done? ==> |r.rest| < |t|
  {
    if t != [] && t[0] == QUOTE then Done([], t[1..])
    else
      var item := ScanItem(t);
      if item.Fail? then Fail else PushItem(item.value, ScanItems(item.rest))
  }

  function PushItem(item: Item, r: Scan<seq<Item>>): Scan<seq<Item>> {
    if r.Fail? then Fail else Done([item] + r.value, r.rest)
  }

  function ScanString(t: Text): (r: Scan<seq<Item>>)
    ensures r.Done? ==> |r.rest| < |t|
  {
    if t != [] && t[0] == QUOTE then ScanItems(t[1..]) else Fail
  }

  function ScanDigits(t: Text): (r: Scan<Text>)
    ensures r.Done? ==> r.value != [] && All(IsDigit, r.value) && t == r.value + r.rest
  {
    if Digits(t) == [] then Fail else Done(Digits(t), t[|Digits(t)|..])
  }

  function ScanInteger(t: Text): (r: Scan<Text>)
    ensures r.Done? ==> |r.rest| < |t|
  {
    if t != [] && t[0] == ZERO then Done([ZERO], t[1..]) else ScanDigits(t)
  }

  function ScanFraction(t: Text): (r: Scan<Text>)
    ensures r.Done? ==> |r.rest| <= |t|
  {
    if t != [] && t[0] == DOT then ScanDigits(t[1..]) else Done([], t)
  }

  function Sign(t: Text): Text {
    if t != [] && (t[0] == PLUS || t[0] == MINUS) then [t[0]] else []
  }

  function ScanExponent(t: Text): (r: Scan<Exponent>)
    ensures r.Done? ==> |r.rest| <= |t|
  {
    if t != [] && (t[0] == LOWER_E || t[0] == UPPER_E) then
      var sign := Sign(t[1..]);
      var digits := ScanDigits(t[1 + |sign|..]);
      if digits.Fail? then Fail else Done(Exponent(t[0], sign, digits.value), digits.rest)
    else Done(NoExponent, t)
  }

  function ScanMagnitude(negative: bool, t: Text): (r: Scan<Num>)
    ensures r.Done? ==> |r.rest| < |t|
  {
    var integer := ScanInteger(t);
    if integer.Fail? then Fail else
    var fraction := ScanFraction(integer.rest);
    if fraction.Fail? then Fail else
    var exponent := ScanExponent(fraction.rest);
    if exponent.Fail? then Fail else
    Done(Num(negative, integer.value, fraction.value, exponent.value), exponent.rest)
  }

  function ScanNumber(t: Text): (r: Scan<Num>)
    ensures r.Done? ==> |r.rest| < |t|
  {
    if t != [] && t[0] == MINUS then ScanMagnitude(true, t[1..]) else ScanMagnitude(false, t)
  }

  function ScanLiteral(literal: Text, v: Json, t: Text): Scan<Json> {
    if literal <= t then Done(v, t[|literal|..]) else Fail
  }

  /** A value at the very front of `t`. */
  function ScanBare(strict: bool, t: Text): (r: Scan<Json>)
    ensures r.Done? ==> |r.rest| < |t|
    decreases |t|, 0
  {
    if t == [] then Fail
    else if t[0] == LBRACE then
      var inner := SkipWs(t[1..]);
      if inner != [] && inner[0] == RBRACE then Done(EmptyObject(Gap(t[1..])), inner[1..])
      else var m := ScanMembers(strict, t[1..], {}); if m.Fail? then Fail else Done(Object(m.value), m.rest)
    else if t[0] == LBRACKET then
      var inner := SkipWs(t[1..]);
      if inner != [] && inner[0] == RBRACKET then Done(EmptyArray(Gap(t[1..])), inner[1..])
      else var e := ScanElements(strict, t[1..]); if e.Fail? then Fail else Done(Array(e.value), e.rest)
    else if t[0] == QUOTE then
      var s := ScanString(t); if s.Fail? then Fail else Done(String(s.value), s.rest)
    else if t[0] == LOWER_T then ScanLiteral(TRUE_TEXT, True, t)
    else if t[0] == LOWER_F then ScanLiteral(FALSE_TEXT, False, t)
    else if t[0] == LOWER_N then ScanLiteral(NULL_TEXT, Null, t)
    else if t[0] == MINUS || IsDigit(t[0]) then
      var n := ScanNumber(t); if n.Fail? then Fail else Done(Number(n.value), n.rest)
    else Fail
  }

  function ScanElements(strict: bool, t: Text): (r: Scan<Elements>)
    ensures r.Done? ==> |r.rest| < |t|
    decreases |t|, 1
  {
    var v := ScanBare(strict, SkipWs(t));
    if v.Fail? then Fail else
    var next := SkipWs(v.rest);
    if next != [] && next[0] == COMMA then
      var more := ScanElements(strict, next[1..]);
      if more.Fail? then Fail else Done(MoreElements(Gap(t), v.value, Gap(v.rest), more.value), more.rest)
    else if next != [] && next[0] == RBRACKET then Done(LastElement(Gap(t), v.value, Gap(v.rest)), next[1..])
    else Fail
  }

  /** What stands in front of a member's value. */
  datatype Head = Head(pre: Text, name: seq<Item>, mid: Text, gap: Text)

  function ScanHead(t: Text): (r: Scan<Head>)
    ensures r.Done? ==> |r.rest| < |t| && WfItems(r.value.name)
  {
    var name := ScanString(SkipWs(t));
    if name.Fail? then Fail else
    ScanItemsSound(SkipWs(t)[1..]);
    var colon := SkipWs(name.rest);
    if colon == [] || colon[0] != COLON then Fail
    else Done(Head(Gap(t), name.value, Gap(name.rest), Gap(colon[1..])), SkipWs(colon[1..]))
  }

  /** `seen` holds the names read before in the same object. */
  function ScanMembers(strict: bool, t: Text, seen: set<Text>): (r: Scan<Members>)
    ensures r.Done? ==> |r.rest| < |t|
    decreases |t|, 1
  {
    var head := ScanHead(t);
    if head.Fail? then Fail else
    var Head(pre, name, mid, gap) := head.value;
    var key := DecodeItems(name);
    if strict && key in seen then Fail else
    var v := ScanBare(strict, head.rest);
    if v.Fail? then Fail else
    var next := SkipWs(v.rest);
    if next != [] && next[0] == COMMA then
      var more := ScanMembers(strict, next[1..], seen + {key});
      if more.Fail? then Fail else
      Done(MoreMembers(pre, name, mid, gap, v.value, Gap(v.rest), more.value), more.rest)
    else if next != [] && next[0] == RBRACE then
      Done(LastMember(pre, name, mid, gap, v.value, Gap(v.rest)), next[1..])
    else Fail
  }

  function ScanDocument(strict: bool, t: Text): Scan<Document> {
    var v := ScanBare(strict, SkipWs(t));
    if v.Fail? || SkipWs(v.rest) != [] then Fail
    else Done(Document(Gap(t), v.value, Gap(v.rest)), [])
  }

  // ---------- derived text followed by a continuation

  function PutItems(items: seq<Item>, k: Text): Text {
    if items == [] then k else RenderItem(items[0]) + PutItems(items[1..], k)
  }

  function PutString(items: seq<Item>, k: Text): Text {
    [QUOTE] + PutItems(items, [QUOTE] + k)
  }

  function PutNumber(n: Num, k: Text): Text {
    if n.negative then [MINUS] + PutMagnitude(n, k) else PutMagnitude(n, k)
  }

  function PutMagnitude(n: Num, k: Text): Text {
    n.integer + (RenderFraction(n.fraction) + PutExponent(n.exponent, k))
  }

  function PutExponent(e: Exponent, k: Text): Text {
    if e.NoExponent? then k else [e.mark] + (e.sign + (e.digits + k))
  }

  function Put(v: Json, k: Text): Text {
    match v
    case Null => NULL_TEXT + k
    case True => TRUE_TEXT + k
    case False => FALSE_TEXT + k
    case Number(n) => PutNumber(n, k)
    case String(items) => PutString(items, k)
    case EmptyArray(gap) => [LBRACKET] + (gap + ([RBRACKET] + k))
    case Array(es) => [LBRACKET] + PutElements(es, k)
    case EmptyObject(gap) => [LBRACE] + (gap + ([RBRACE] + k))
    case Object(ms) => [LBRACE] + PutMembers(ms, k)
  }

  function PutElements(e: Elements, k: Text): Text {
    e.pre + Put(e.value, e.post + if e.MoreElements? then [COMMA] + PutElements(e.rest, k) else [RBRACKET] + k)
  }

  function PutHead(h: Head, k: Text): Text {
    h.pre + PutString(h.name, h.mid + ([COLON] + (h.gap + k)))
  }

  function HeadOf(m: Members): Head { Head(m.pre, m.name, m.mid, m.gap) }

  function PutMembers(m: Members, k: Text): Text {
    PutHead(HeadOf(m), Put(m.value, m.post + if m.MoreMembers? then [COMMA] + PutMembers(m.rest, k) else [RBRACE] + k))
  }

  lemma Assoc(a: Text, b: Text, c: Text)
    ensures (a + b) + c == a + (b + c)
  {
  }

  lemma {:induction false} PutItemsIsRender(items: seq<Item>, k: Text)
    ensures PutItems(items, k) == RenderItems(items) + k
  {
    if items != [] {
      PutItemsIsRender(items[1..], k);
      Assoc(RenderItem(items[0]), RenderItems(items[1..]), k);
    }
  }

  lemma PutStringIsRender(items: seq<Item>, k: Text)
    ensures PutString(items, k) == RenderString(items) + k
  {
    PutItemsIsRender(items, [QUOTE] + k);
    Assoc(RenderItems(items), [QUOTE], k);
    Assoc([QUOTE], RenderItems(items) + [QUOTE], k);
  }

  // ---------- soundness: what is scanned is a derivation of the consumed text

  lemma {:induction false} ScanItemsSound(t: Text)
    ensures var r := ScanItems(t); r.Done? ==> WfItems(r.value) && t == PutItems(r.value, [QUOTE] + r.rest)
  {
    var r := ScanItems(t);
    if r.Done? {
      if t[0] == QUOTE {
        assert t == [QUOTE] + t[1..];
      } else {
        var item := ScanItem(t);
        ScanItemsSound(item.rest);
        assert r.value[1..] == ScanItems(item.rest).value;
      }
    }
  }

  lemma ScanStringSound(t: Text)
    ensures var r := ScanString(t); r.Done? ==> WfItems(r.value) && t == PutString(r.value, r.rest)
  {
    if ScanString(t).Done? {
      ScanItemsSound(t[1..]);
      assert t == [QUOTE] + t[1..];
    }
  }

  lemma ScanIntegerSound(t: Text)
    ensures var r := ScanInteger(t);
            r.Done? ==> t == r.value + r.rest && r.value != [] && All(IsDigit, r.value) && (r.value[0] == ZERO ==> |r.value| == 1)
  {
  }

  lemma ScanFractionSound(t: Text)
    ensures var r := ScanFraction(t); r.Done? ==> t == RenderFraction(r.value) + r.rest && All(IsDigit, r.value)
  {
    if t != [] && t[0] == DOT {
      assert t == [DOT] + t[1..];
      var r := ScanDigits(t[1..]);
      if r.Done? { Assoc([DOT], r.value, r.rest); }
    }
  }

  lemma ScanMagnitudeSound(negative: bool, t: Text)
    ensures var r := ScanMagnitude(negative, t);
            r.Done? ==> r.value.negative == negative && WfNumber(r.value) && t == PutMagnitude(r.value, r.rest)
  {
    if ScanMagnitude(negative, t).Done? {
      ScanIntegerSound(t);
      ScanFractionSound(ScanInteger(t).rest);
      ScanExponentSound(ScanFraction(ScanInteger(t).rest).rest);
    }
  }

  lemma ScanNumberSound(t: Text)
    ensures var r := ScanNumber(t); r.Done? ==> WfNumber(r.value) && t == PutNumber(r.value, r.rest)
  {
    if t != [] && t[0] == MINUS {
      assert t == [MINUS] + t[1..];
      ScanMagnitudeSound(true, t[1..]);
    } else {
      ScanMagnitudeSound(false, t);
    }
  }

  lemma SignPrefix(t: Text)
    ensures t == Sign(t) + t[|Sign(t)|..] && Sign(t) in {[], [PLUS], [MINUS]}
  {
  }

  lemma Behind(t: Text, sign: Text)
    requires t != [] && |sign| < |t| && t[1..] == sign + t[1..][|sign|..]
    ensures t == [t[0]] + (sign + t[1 + |sign|..])
  {
    assert t[1..][|sign|..] == t[1 + |sign|..];
  }

  lemma ScanExponentSound(t: Text)
    ensures var r := ScanExponent(t);
            r.Done? ==> t == PutExponent(r.value, r.rest)
                        && (r.value.Exponent? ==> r.value.mark in {LOWER_E, UPPER_E} && r.value.sign in {[], [PLUS], [MINUS]}
                                                  && r.value.digits != [] && All(IsDigit, r.value.digits))
  {
    var r := ScanExponent(t);
    if r.Done? && r.value.Exponent? {
      hide Sign, ScanDigits, IsDigit;
      SignPrefix(t[1..]);
      Behind(t, Sign(t[1..]));
    }
  }

  /** The names of `m` are distinct and none is in `seen`. */
  ghost predicate FreshNames(m: Members, seen: set<Text>)
    requires WfMembers(m)
  {
    DecodeItems(m.name) !in seen && (m.MoreMembers? ==> FreshNames(m.rest, seen + {DecodeItems(m.name)}))
  }

  lemma DistinctCons(key: Text, names: seq<Text>)
    ensures Distinct([key] + names) <==> key !in names && Distinct(names)
  {
    var all := [key] + names;
    assert forall i :: 0 <= i < |names| ==> all[i + 1] == names[i];
    if key in names {
      var i :| 0 <= i < |names| && names[i] == key;
      assert all[0] == all[i + 1];
    }
  }

  lemma {:induction false} FreshNamesDistinct(m: Members, seen: set<Text>)
    requires WfMembers(m)
    ensures FreshNames(m, seen) <==> Distinct(Names(m)) && forall n <- Names(m) :: n !in seen
  {
    hide Wf, WfItems, DecodeItems;
    var key := DecodeItems(m.name);
    var others := if m.MoreMembers? then Names(m.rest) else [];
    if m.MoreMembers? { FreshNamesDistinct(m.rest, seen + {key}); }
    assert Names(m) == [key] + others;
    DistinctCons(key, others);
    assert Names(m)[0] == key && forall n :: n in Names(m) <==> n == key || n in others;
  }

  lemma {:induction false} ScanBareSound(strict: bool, t: Text)
    ensures var r := ScanBare(strict, t);
            r.Done? ==> Wf(r.value) && t == Put(r.value, r.rest) && (strict ==> Unique(r.value))
    decreases |t|, 1
  {
    if t != [] {
      if t[0] == LBRACE { ScanObjectSound(strict, t); }
      else if t[0] == LBRACKET { ScanArraySound(strict, t); }
      else { ScanScalarSound(strict, t); }
    }
  }

  lemma {:induction false} ScanObjectSound(strict: bool, t: Text)
    requires t != [] && t[0] == LBRACE
    ensures var r := ScanBare(strict, t);
            r.Done? ==> Wf(r.value) && t == Put(r.value, r.rest) && (strict ==> Unique(r.value))
    decreases |t|, 0
  {
    var r := ScanBare(strict, t);
    if r.Done? {
      assert t == [LBRACE] + t[1..];
      if r.value.Object? {
        ScanMembersSound(strict, t[1..], {});
        if strict { FreshNamesDistinct(r.value.members, {}); }
      } else {
        assert SkipWs(t[1..]) == [RBRACE] + r.rest;
      }
    }
  }

  lemma {:induction false} ScanArraySound(strict: bool, t: Text)
    requires t != [] && t[0] == LBRACKET
    ensures var r := ScanBare(strict, t);
            r.Done? ==> Wf(r.value) && t == Put(r.value, r.rest) && (strict ==> Unique(r.value))
    decreases |t|, 0
  {
    var r := ScanBare(strict, t);
    if r.Done? {
      assert t == [LBRACKET] + t[1..];
      if r.value.Array? {
        ScanElementsSound(strict, t[1..]);
      } else {
        assert SkipWs(t[1..]) == [RBRACKET] + r.rest;
      }
    }
  }

  lemma {:induction false} ScanScalarSound(strict: bool, t: Text)
    requires t != [] && t[0] != LBRACE && t[0] != LBRACKET
    ensures var r := ScanBare(strict, t);
            r.Done? ==> !r.value.Array? && !r.value.Object? && Wf(r.value) && t == Put(r.value, r.rest)
  {
    if t[0] == QUOTE { ScanStringSound(t); } else { ScanNumberSound(t); }
  }

  lemma {:induction false} ElementsPut(e: Elements, s: Text, valueRest: Text, next: Text, k: Text)
    requires s == Put(e.value, valueRest) && valueRest == e.post + next
    requires next == if e.MoreElements? then [COMMA] + PutElements(e.rest, k) else [RBRACKET] + k
    ensures e.pre + s == PutElements(e, k)
  {
  }

  lemma {:induction false} ScanElementsSound(strict: bool, t: Text)
    ensures var r := ScanElements(strict, t);
            r.Done? ==> WfElements(r.value) && t == PutElements(r.value, r.rest) && (strict ==> UniqueElements(r.value))
    decreases |t|, 2
  {
    hide ScanBare, Put, PutElements, Wf, Unique, SkipWs;
    var r := ScanElements(strict, t);
    if r.Done? {
      ScanBareSound(strict, SkipWs(t));
      var v := ScanBare(strict, SkipWs(t));
      var next := SkipWs(v.rest);
      assert next == [next[0]] + next[1..];
      if next[0] == COMMA { ScanElementsSound(strict, next[1..]); }
      ElementsPut(r.value, SkipWs(t), v.rest, next, r.rest);
    }
  }

  lemma ScanHeadSound(t: Text)
    ensures var r := ScanHead(t);
            r.Done? ==> && All(IsWs, r.value.pre) && WfItems(r.value.name) && All(IsWs, r.value.mid) && All(IsWs, r.value.gap)
                        && t == PutHead(r.value, r.rest)
  {
    hide WfItems, ScanString, PutString;
    if ScanHead(t).Done? {
      ScanStringSound(SkipWs(t));
      var colon := SkipWs(ScanString(SkipWs(t)).rest);
      assert colon == [COLON] + colon[1..];
    }
  }

  lemma {:induction false} ScanMembersSound(strict: bool, t: Text, seen: set<Text>)
    ensures var r := ScanMembers(strict, t, seen);
            r.Done? ==> WfMembers(r.value) && t == PutMembers(r.value, r.rest)
                        && (strict ==> UniqueMembers(r.value) && FreshNames(r.value, seen))
    decreases |t|, 2
  {
    hide ScanHead, ScanBare, PutHead, PutMembers, Put, Wf, WfItems, DecodeItems, IsWs, All;
    var r := ScanMembers(strict, t, seen);
    if r.Done? {
      ScanHeadSound(t);
      var head := ScanHead(t);
      ScanBareSound(strict, head.rest);
      var v := ScanBare(strict, head.rest);
      var next := SkipWs(v.rest);
      assert next == [next[0]] + next[1..];
      if next[0] == COMMA {
        ScanMembersSound(strict, next[1..], seen + {DecodeItems(head.value.name)});
        MembersText(t, r.value, head.rest, v.rest, next, next[1..], r.rest);
      } else {
        MembersText(t, r.value, head.rest, v.rest, next, next[1..], r.rest);
      }
    }
  }

  lemma {:induction false} MembersText(t: Text, m: Members, valueText: Text, tail: Text, next: Text, after: Text, k: Text)
    requires t == PutHead(HeadOf(m), valueText) && valueText == Put(m.value, tail) && tail == m.post + next
    requires next == [if m.MoreMembers? then COMMA else RBRACE] + after
    requires after == if m.MoreMembers? then PutMembers(m.rest, k) else k
    ensures t == PutMembers(m, k)
  {
  }
}
