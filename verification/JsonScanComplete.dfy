/** The other half: every derivation is found, and it is the one the scanner returns. */
module JsonScanComplete {
  import opened Utf16
  import opened JsonGrammar
  import opened JsonScan

  /** What may follow a number without being read as part of it. */
  predicate NumberEnds(k: Text) {
    k == [] || !(IsDigit(k[0]) || k[0] == DOT || k[0] == LOWER_E || k[0] == UPPER_E)
  }

  lemma {:induction false} RunOf(p: CodeUnit -> bool, a: Text, k: Text)
    requires All(p, a) && (k == [] || !p(k[0]))
    ensures Run(p, a + k) == a
  {
    if a == [] {
      assert a + k == k;
    } else {
      assert (a + k)[1..] == a[1..] + k;
      RunOf(p, a[1..], k);
      assert a == [a[0]] + a[1..];
    }
  }

  lemma GapOf(g: Text, k: Text)
    requires All(IsWs, g) && (k == [] || !IsWs(k[0]))
    ensures Gap(g + k) == g && SkipWs(g + k) == k
  {
    RunOf(IsWs, g, k);
  }

  lemma ScanItemComplete(item: Item, k: Text)
    requires WfItem(item)
    ensures ScanItem(RenderItem(item) + k) == Done(item, k) && (RenderItem(item) + k)[0] != QUOTE
  {
    assert (RenderItem(item) + k)[|RenderItem(item)|..] == k;
  }

  lemma {:induction false} ScanItemsComplete(items: seq<Item>, k: Text)
    requires WfItems(items)
    ensures ScanItems(PutItems(items, [QUOTE] + k)) == Done(items, k)
  {
    hide ScanItem, RenderItem, WfItem;
    if items == [] {
      assert ([QUOTE] + k)[1..] == k;
    } else {
      ScanItemsComplete(items[1..], k);
      ScanItemComplete(items[0], PutItems(items[1..], [QUOTE] + k));
      assert items == [items[0]] + items[1..];
    }
  }

  lemma ScanStringComplete(items: seq<Item>, k: Text)
    requires WfItems(items)
    ensures ScanString(PutString(items, k)) == Done(items, k)
  {
    ScanItemsComplete(items, k);
    assert PutString(items, k)[1..] == PutItems(items, [QUOTE] + k);
  }

  lemma ScanDigitsComplete(d: Text, k: Text)
    requires d != [] && All(IsDigit, d) && (k == [] || !IsDigit(k[0]))
    ensures ScanDigits(d + k) == Done(d, k)
  {
    RunOf(IsDigit, d, k);
  }

  lemma SignComplete(sign: Text, t: Text)
    requires sign in {[], [PLUS], [MINUS]} && t != [] && IsDigit(t[0])
    ensures Sign(sign + t) == sign && (sign + t)[|sign|..] == t
  {
    assert sign == [] ==> sign + t == t;
  }

  lemma ScanExponentComplete(e: Exponent, k: Text)
    requires e.Exponent? ==> e.mark in {LOWER_E, UPPER_E} && e.sign in {[], [PLUS], [MINUS]} && e.digits != [] && All(IsDigit, e.digits)
    requires NumberEnds(k)
    ensures ScanExponent(PutExponent(e, k)) == Done(e, k)
  {
    if e.Exponent? {
      var t := PutExponent(e, k);
      assert t[1..] == e.sign + (e.digits + k);
      ScanDigitsComplete(e.digits, k);
      SignComplete(e.sign, e.digits + k);
      assert t[1 + |e.sign|..] == t[1..][|e.sign|..];
    }
  }

  lemma ScanFractionComplete(fraction: Text, k: Text)
    requires All(IsDigit, fraction) && (k == [] || !(IsDigit(k[0]) || k[0] == DOT))
    ensures ScanFraction(RenderFraction(fraction) + k) == Done(fraction, k)
  {
    if fraction == [] {
      assert RenderFraction(fraction) + k == k;
    } else {
      assert (RenderFraction(fraction) + k)[1..] == fraction + k;
      ScanDigitsComplete(fraction, k);
    }
  }

  lemma ScanIntegerComplete(integer: Text, k: Text)
    requires integer != [] && All(IsDigit, integer) && (integer[0] == ZERO ==> |integer| == 1)
    requires k == [] || !IsDigit(k[0])
    ensures ScanInteger(integer + k) == Done(integer, k)
  {
    if integer[0] == ZERO {
      assert integer == [ZERO];
      assert (integer + k)[1..] == k;
    } else {
      ScanDigitsComplete(integer, k);
    }
  }

  lemma ScanMagnitudeComplete(n: Num, k: Text)
    requires WfNumber(n) && NumberEnds(k)
    ensures ScanMagnitude(n.negative, PutMagnitude(n, k)) == Done(n, k)
  {
    var afterFraction := PutExponent(n.exponent, k);
    ScanExponentComplete(n.exponent, k);
    ScanFractionComplete(n.fraction, afterFraction);
    var afterInteger := RenderFraction(n.fraction) + afterFraction;
    assert afterInteger == [] || !IsDigit(afterInteger[0]) by {
      if n.fraction == [] { assert afterInteger == afterFraction; }
    }
    ScanIntegerComplete(n.integer, afterInteger);
  }

  lemma ScanNumberComplete(n: Num, k: Text)
    requires WfNumber(n) && NumberEnds(k)
    ensures ScanNumber(PutNumber(n, k)) == Done(n, k)
  {
    ScanMagnitudeComplete(n, k);
    if n.negative {
      assert PutNumber(n, k)[1..] == PutMagnitude(n, k);
    } else {
      assert PutNumber(n, k)[0] == n.integer[0];
    }
  }

  /** The first unit of a value's text. */
  predicate StartsValue(t: Text) {
    t != [] && !IsWs(t[0]) && t[0] != RBRACKET && t[0] != RBRACE
  }

  lemma {:induction false} PutStartsValue(v: Json, k: Text)
    requires Wf(v)
    ensures StartsValue(Put(v, k))
  {
    if v.Number? {
      var n := v.num;
      assert Put(v, k)[0] == if n.negative then MINUS else n.integer[0];
    }
  }

  lemma {:induction false} ScanBareComplete(strict: bool, v: Json, k: Text)
    requires Wf(v) && (strict ==> Unique(v)) && (v.Number? ==> NumberEnds(k))
    ensures ScanBare(strict, Put(v, k)) == Done(v, k)
    decreases v, 0
  {
    var t := Put(v, k);
    match v
    case Array(es) =>
      assert t[1..] == PutElements(es, k);
      ScanElementsComplete(strict, es, k);
      ElementsStart(es, k);
    case Object(ms) =>
      assert t[1..] == PutMembers(ms, k);
      if strict { FreshNamesDistinct(ms, {}); }
      ScanMembersComplete(strict, ms, k, {});
      MembersStart(ms, k);
    case _ => ScanScalarComplete(strict, v, k);
  }

  lemma {:induction false} ScanScalarComplete(strict: bool, v: Json, k: Text)
    requires !v.Array? && !v.Object? && Wf(v) && (v.Number? ==> NumberEnds(k))
    ensures ScanBare(strict, Put(v, k)) == Done(v, k)
  {
    var t := Put(v, k);
    match v
    case Null => assert t[|NULL_TEXT|..] == k && NULL_TEXT <= t;
    case True => assert t[|TRUE_TEXT|..] == k && TRUE_TEXT <= t;
    case False => assert t[|FALSE_TEXT|..] == k && FALSE_TEXT <= t;
    case Number(n) =>
      ScanNumberComplete(n, k);
      assert t[0] == if n.negative then MINUS else n.integer[0];
    case String(items) => ScanStringComplete(items, k);
    case EmptyArray(gap) =>
      assert t[1..] == gap + ([RBRACKET] + k);
      GapOf(gap, [RBRACKET] + k);
    case EmptyObject(gap) =>
      assert t[1..] == gap + ([RBRACE] + k);
      GapOf(gap, [RBRACE] + k);
  }

  lemma {:induction false} ElementsStart(e: Elements, k: Text)
    requires WfElements(e)
    ensures StartsValue(SkipWs(PutElements(e, k)))
  {
    var tail := e.post + if e.MoreElements? then [COMMA] + PutElements(e.rest, k) else [RBRACKET] + k;
    PutStartsValue(e.value, tail);
    GapOf(e.pre, Put(e.value, tail));
  }

  lemma {:induction false} MembersStart(m: Members, k: Text)
    requires WfMembers(m)
    ensures StartsValue(SkipWs(PutMembers(m, k)))
  {
    var rest := Put(m.value, m.post + if m.MoreMembers? then [COMMA] + PutMembers(m.rest, k) else [RBRACE] + k);
    GapOf(m.pre, PutString(m.name, m.mid + ([COLON] + (m.gap + rest))));
  }

  lemma PostEndsNumber(post: Text, mark: CodeUnit, k: Text)
    requires All(IsWs, post) && mark in {COMMA, RBRACKET, RBRACE}
    ensures NumberEnds(post + ([mark] + k))
    ensures Gap(post + ([mark] + k)) == post && SkipWs(post + ([mark] + k)) == [mark] + k
  {
    GapOf(post, [mark] + k);
    if post != [] { assert (post + ([mark] + k))[0] == post[0]; }
  }

  lemma {:induction false} ScanElementsComplete(strict: bool, e: Elements, k: Text)
    requires WfElements(e) && (strict ==> UniqueElements(e))
    ensures ScanElements(strict, PutElements(e, k)) == Done(e, k)
    decreases e, 1
  {
    hide ScanBare, Put, Wf, Unique, SkipWs, Gap, StartsValue, NumberEnds;
    var mark, after := if e.MoreElements? then COMMA else RBRACKET, if e.MoreElements? then PutElements(e.rest, k) else k;
    var tail := e.post + ([mark] + after);
    PostEndsNumber(e.post, mark, after);
    PutStartsValue(e.value, tail);
    GapOf(e.pre, Put(e.value, tail));
    ScanBareComplete(strict, e.value, tail);
    assert ([mark] + after)[1..] == after;
    if e.MoreElements? { ScanElementsComplete(strict, e.rest, k); }
  }

  lemma ScanHeadComplete(h: Head, k: Text)
    requires All(IsWs, h.pre) && WfItems(h.name) && All(IsWs, h.mid) && All(IsWs, h.gap) && StartsValue(k)
    ensures ScanHead(PutHead(h, k)) == Done(h, k)
  {
    var colon := [COLON] + (h.gap + k);
    GapOf(h.pre, PutString(h.name, h.mid + colon));
    ScanStringComplete(h.name, h.mid + colon);
    GapOf(h.mid, colon);
    assert colon[1..] == h.gap + k;
    GapOf(h.gap, k);
  }

  /** One round of the scanner's member loop, given what each part of it reads. */
  lemma {:induction false} ScanMembersStep(strict: bool, t: Text, seen: set<Text>, m: Members, valueText: Text, tail: Text, mark: CodeUnit, after: Text, k: Text)
    requires WfMembers(m) && (strict ==> DecodeItems(m.name) !in seen)
    requires ScanHead(t) == Done(HeadOf(m), valueText) && ScanBare(strict, valueText) == Done(m.value, tail)
    requires Gap(tail) == m.post && SkipWs(tail) == [mark] + after
    requires mark == if m.MoreMembers? then COMMA else RBRACE
    requires if m.MoreMembers? then ScanMembers(strict, after, seen + {DecodeItems(m.name)}) == Done(m.rest, k) else after == k
    ensures ScanMembers(strict, t, seen) == Done(m, k)
  {
    assert ([mark] + after)[1..] == after;
  }

  lemma {:induction false} ScanMembersComplete(strict: bool, m: Members, k: Text, seen: set<Text>)
    requires WfMembers(m) && (strict ==> UniqueMembers(m) && FreshNames(m, seen))
    ensures ScanMembers(strict, PutMembers(m, k), seen) == Done(m, k)
    decreases m, 1
  {
    var mark, after := if m.MoreMembers? then COMMA else RBRACE, if m.MoreMembers? then PutMembers(m.rest, k) else k;
    var tail := m.post + ([mark] + after);
    PostEndsNumber(m.post, mark, after);
    PutStartsValue(m.value, tail);
    ScanHeadComplete(HeadOf(m), Put(m.value, tail));
    ScanBareComplete(strict, m.value, tail);
    if m.MoreMembers? { ScanMembersComplete(strict, m.rest, k, seen + {DecodeItems(m.name)}); }
    ScanMembersStep(strict, PutMembers(m, k), seen, m, Put(m.value, tail), tail, mark, after, k);
  }
}
