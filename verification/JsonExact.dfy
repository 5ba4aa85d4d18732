/** The scanner decides RFC 8259 with unique member names, and the grammar is unambiguous. */
module JsonExact {
  import opened Utf16
  import opened JsonGrammar
  import opened JsonScan
  import opened JsonScanComplete

  lemma Assoc4(a: Text, b: Text, c: Text, d: Text)
    ensures a + b + c + d == a + (b + (c + d))
  {
    Assoc(a + b, c, d);
    Assoc(a, b, c + d);
  }

  lemma PutExponentIsRender(e: Exponent, k: Text)
    ensures PutExponent(e, k) == RenderExponent(e) + k
  {
    if e.Exponent? {
      Assoc4([e.mark], e.sign, e.digits, k);
    } else {
      assert [] + k == k;
    }
  }

  lemma PutNumberIsRender(n: Num, k: Text)
    ensures PutNumber(n, k) == RenderNumber(n) + k
  {
    hide PutExponent, RenderExponent, RenderFraction;
    var minus: Text := if n.negative then [MINUS] else [];
    var f, e := RenderFraction(n.fraction), RenderExponent(n.exponent);
    PutExponentIsRender(n.exponent, k);
    Assoc4(minus, n.integer, f, e + k);
    Assoc(minus + n.integer + f, e, k);
    assert [] + PutMagnitude(n, k) == PutMagnitude(n, k);
  }

  lemma {:induction false} PutIsRender(v: Json, k: Text)
    ensures Put(v, k) == Render(v) + k
    decreases v, 0
  {
    match v
    case Number(n) => PutNumberIsRender(n, k);
    case String(items) => PutStringIsRender(items, k);
    case EmptyArray(gap) => Assoc4([LBRACKET], gap, [RBRACKET], k);
    case EmptyObject(gap) => Assoc4([LBRACE], gap, [RBRACE], k);
    case Array(es) => PutElementsIsRender(es, k); Assoc([LBRACKET], RenderElements(es), k);
    case Object(ms) => PutMembersIsRender(ms, k); Assoc([LBRACE], RenderMembers(ms), k);
    case _ =>
  }

  lemma {:induction false} PutElementsIsRender(e: Elements, k: Text)
    ensures PutElements(e, k) == RenderElements(e) + k
    decreases e, 1
  {
    var tail := if e.MoreElements? then [COMMA] + RenderElements(e.rest) else [RBRACKET];
    if e.MoreElements? {
      PutElementsIsRender(e.rest, k);
      Assoc([COMMA], RenderElements(e.rest), k);
    }
    PutIsRender(e.value, e.post + (tail + k));
    Assoc4(e.pre, Render(e.value), e.post, tail + k);
    Assoc(e.pre + Render(e.value) + e.post, tail, k);
  }

  lemma Assoc5(a: Text, b: Text, c: Text, d: Text, e: Text, k: Text)
    ensures a + (b + (c + (d + (e + k)))) == a + b + c + d + e + k
  {
    Assoc4(a, b, c, d + (e + k));
    Assoc4(a + b + c, d, e, k);
    Assoc(d, e, k);
  }

  lemma {:induction false} PutMembersIsRender(m: Members, k: Text)
    ensures PutMembers(m, k) == RenderMembers(m) + k
    decreases m, 1
  {
    var tail := if m.MoreMembers? then [COMMA] + RenderMembers(m.rest) else [RBRACE];
    if m.MoreMembers? {
      PutMembersIsRender(m.rest, k);
      Assoc([COMMA], RenderMembers(m.rest), k);
    }
    var value := Put(m.value, m.post + (tail + k));
    PutIsRender(m.value, m.post + (tail + k));
    PutStringIsRender(m.name, m.mid + ([COLON] + (m.gap + value)));
    Assoc5(m.pre, RenderString(m.name), m.mid, [COLON], m.gap, value);
    var head := m.pre + RenderString(m.name) + m.mid + [COLON] + m.gap;
    Assoc4(head, Render(m.value), m.post, tail + k);
    Assoc(head + Render(m.value) + m.post, tail, k);
  }

  /** The documents whose text is `t`. */
  ghost predicate Derives(d: Document, t: Text) {
    WfDocument(d) && RenderDocument(d) == t
  }

  lemma ScanDocumentSound(strict: bool, t: Text)
    ensures var r := ScanDocument(strict, t); r.Done? ==> Derives(r.value, t) && (strict ==> Unique(r.value.value))
  {
    var r := ScanDocument(strict, t);
    if r.Done? {
      ScanBareSound(strict, SkipWs(t));
      var v := ScanBare(strict, SkipWs(t));
      PutIsRender(v.value, v.rest);
      assert v.rest == Gap(v.rest) + [] == Gap(v.rest);
      Assoc(Gap(t), Render(v.value), Gap(v.rest));
    }
  }

  lemma ScanDocumentComplete(strict: bool, d: Document)
    requires WfDocument(d) && (strict ==> Unique(d.value))
    ensures ScanDocument(strict, RenderDocument(d)) == Done(d, [])
  {
    PutIsRender(d.value, d.post);
    Assoc(d.pre, Render(d.value), d.post);
    PutStartsValue(d.value, d.post);
    GapOf(d.pre, Put(d.value, d.post));
    ScanBareComplete(strict, d.value, d.post);
    assert d.post + [] == d.post;
    GapOf(d.post, []);
  }

  /** The scanner accepts exactly the JSON texts in which no object, at any depth, repeats a
      decoded member name. */
  lemma ScannerExact(t: Text)
    ensures ScanDocument(true, t).Done? <==> exists d :: Derives(d, t) && Unique(d.value)
  {
    ScanDocumentSound(true, t);
    if d :| Derives(d, t) && Unique(d.value) {
      ScanDocumentComplete(true, d);
    }
  }

  /** `JSON.parse` accepts exactly the JSON texts. */
  lemma ParserExact(t: Text)
    ensures ScanDocument(false, t).Done? <==> exists d :: Derives(d, t)
  {
    ScanDocumentSound(false, t);
    if d :| Derives(d, t) {
      ScanDocumentComplete(false, d);
    }
  }

  /** No text has two derivations. */
  lemma Unambiguous(d: Document, e: Document)
    requires WfDocument(d) && WfDocument(e) && RenderDocument(d) == RenderDocument(e)
    ensures d == e
  {
    ScanDocumentComplete(false, d);
    ScanDocumentComplete(false, e);
  }

  /** Whatever the scanner lets through is what `JSON.parse` then reads. */
  lemma ScannerAgreesWithParser(t: Text)
    ensures ScanDocument(true, t).Done? ==> ScanDocument(false, t) == ScanDocument(true, t)
    ensures ScanDocument(false, t).Done? && Unique0(ScanDocument(false, t).value) ==> ScanDocument(true, t) == ScanDocument(false, t)
  {
    ScanDocumentSound(true, t);
    ScanDocumentSound(false, t);
    if ScanDocument(true, t).Done? {
      ScanDocumentComplete(false, ScanDocument(true, t).value);
    }
    if ScanDocument(false, t).Done? && Unique0(ScanDocument(false, t).value) {
      ScanDocumentComplete(true, ScanDocument(false, t).value);
    }
  }

  ghost predicate Unique0(d: Document) { WfDocument(d) && Unique(d.value) }
}
