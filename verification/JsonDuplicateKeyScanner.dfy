/** The scanner as the source writes it: one text, one index that moves forward. Every method
    stops where the functions of JsonScan say, or reports the error they report; all loops and
    the recursion terminate. */
module JsonDuplicateKeyScanner {
  import opened Utf16
  import opened JsonGrammar
  import opened JsonScan
  import opened JsonExact

  datatype Stop = Error | At(rest: Text)

  /** Where a scan ends. */
  function End<T>(s: Scan<T>): Stop {
    if s.Fail? then Error else At(s.rest)
  }

  function AfterDigits(t: Text): Text { t[|Digits(t)|..] }

  class Scanner {
    const text: Text
    var index: nat

    constructor (text: Text)
      ensures this.text == text && index == 0
    {
      this.text := text;
      index := 0;
    }

    ghost predicate Valid()
      reads this
    {
      index <= |text|
    }

    ghost function Remaining(): Text
      requires Valid()
      reads this
    {
      text[index..]
    }

    ghost function Outcome(ok: bool): Stop
      requires Valid()
      reads this
    {
      if ok then At(Remaining()) else Error
    }

    /** The source's `current()` with '' for the end of the text. */
    predicate Sees(c: CodeUnit)
      reads this
    {
      index < |text| && text[index] == c
    }

    predicate SeesDigit()
      reads this
    {
      index < |text| && IsDigit(text[index])
    }

    method Scan() returns (ok: bool)
      requires index == 0
      modifies this`index
      ensures ok <==> exists d :: Derives(d, text) && Unique(d.value)
      ensures ok <==> ScanDocument(true, text).Done?
    {
      ScannerExact(text);
      assert text[0..] == text;
      SkipWhitespace();
      ghost var start := Remaining();
      NoGapTwice(text);
      ok := ParseValue();
      if !ok { return; }
      SkipWhitespace();
      ok := index == |text|;
    }

    method ParseValue() returns (ok: bool)
      requires Valid()
      modifies this`index
      ensures Valid()
      ensures End(ScanBare(true, SkipWs(old(Remaining())))) == Outcome(ok)
      decreases |text| - index, 1
    {
      SkipWhitespace();
      if Sees(LBRACE) {
        ok := ParseObject();
      } else if Sees(LBRACKET) {
        ok := ParseArray();
      } else if Sees(QUOTE) {
        var key;
        ok, key := ParseString();
      } else if Sees(LOWER_T) {
        ok := ParseLiteral(TRUE_TEXT);
      } else if Sees(LOWER_F) {
        ok := ParseLiteral(FALSE_TEXT);
      } else if Sees(LOWER_N) {
        ok := ParseLiteral(NULL_TEXT);
      } else if Sees(MINUS) || SeesDigit() {
        ok := ParseNumber();
      } else {
        ok := false;
      }
    }

    method ParseObject() returns (ok: bool)
      requires Valid() && Sees(LBRACE)
      modifies this`index
      ensures Valid()
      ensures End(ScanBare(true, old(Remaining()))) == Outcome(ok)
      decreases |text| - index, 0
    {
      assert Remaining()[1..] == text[index + 1..];
      index := index + 1;
      ghost var inner := Remaining();
      SkipWhitespace();
      ghost var body := Remaining();
      if Sees(RBRACE) {
        index := index + 1;
        assert body[1..] == Remaining();
        return true;
      }
      ScanMembersSkip(inner, {});
      ok := ParseMembers();
    }

    /** The member loop of `parseObject`. */
    method ParseMembers() returns (ok: bool)
      requires Valid()
      modifies this`index
      ensures Valid()
      ensures End(ScanMembers(true, old(Remaining()), {})) == Outcome(ok)
      decreases |text| - index, 2
    {
      ghost var whole := End(ScanMembers(true, Remaining(), {}));
      var keys: set<Text> := {};
      while true
        invariant Valid() && index >= old(index)
        invariant whole == End(ScanMembers(true, Remaining(), keys))
        decreases |text| - index
      {
        MembersRound(Remaining(), keys);
        SkipWhitespace();
        var named, key := ParseString();
        if !named || key in keys { return false; }
        keys := keys + {key};
        SkipWhitespace();
        ok := Expect(COLON);
        if !ok { return; }
        ok := ParseValue();
        if !ok { return; }
        var mark := NextMark(RBRACE);
        if mark != COMMA { return mark == RBRACE; }
      }
    }

    method ParseArray() returns (ok: bool)
      requires Valid() && Sees(LBRACKET)
      modifies this`index
      ensures Valid()
      ensures End(ScanBare(true, old(Remaining()))) == Outcome(ok)
      decreases |text| - index, 0
    {
      assert Remaining()[1..] == text[index + 1..];
      index := index + 1;
      ghost var inner := Remaining();
      SkipWhitespace();
      ghost var body := Remaining();
      if Sees(RBRACKET) {
        index := index + 1;
        assert body[1..] == Remaining();
        return true;
      }
      ScanElementsSkip(inner);
      ok := ParseElements();
    }

    /** The element loop of `parseArray`. */
    method ParseElements() returns (ok: bool)
      requires Valid()
      modifies this`index
      ensures Valid()
      ensures End(ScanElements(true, old(Remaining()))) == Outcome(ok)
      decreases |text| - index, 2
    {
      ghost var whole := End(ScanElements(true, Remaining()));
      while true
        invariant Valid() && index >= old(index)
        invariant whole == End(ScanElements(true, Remaining()))
        decreases |text| - index
      {
        ElementsRound(Remaining());
        ok := ParseValue();
        if !ok { return; }
        var mark := NextMark(RBRACKET);
        if mark != COMMA { return mark == RBRACKET; }
      }
    }

    /** Steps over white space and then a comma or `closer`, and says which it was (0: neither). */
    method NextMark(closer: CodeUnit) returns (mark: CodeUnit)
      requires Valid() && closer != COMMA && closer != 0
      modifies this`index
      ensures Valid() && old(index) <= index
      ensures AfterMark(SkipWs(old(Remaining())), closer) == if mark == 0 then (0, []) else (mark, Remaining())
      ensures mark != 0 ==> old(index) < index
    {
      SkipWhitespace();
      if Sees(COMMA) || Sees(closer) {
        assert Remaining()[1..] == text[index + 1..];
        mark := text[index];
        index := index + 1;
      } else {
        mark := 0;
      }
    }

    method Expect(c: CodeUnit) returns (ok: bool)
      requires Valid()
      modifies this`index
      ensures Valid()
      ensures ok <==> old(Remaining()) != [] && old(Remaining())[0] == c
      ensures ok ==> index == old(index) + 1 && Remaining() == old(Remaining())[1..]
    {
      ok := Sees(c);
      if ok {
        assert Remaining()[1..] == text[index + 1..];
        index := index + 1;
      }
    }

    /** Returns the decoded string, in which the object's keys are compared. */
    method ParseString() returns (ok: bool, value: Text)
      requires Valid()
      modifies this`index
      ensures Valid()
      ensures End(ScanString(old(Remaining()))) == Outcome(ok)
      ensures ok ==> index > old(index)
      ensures ok ==> WfItems(ScanString(old(Remaining())).value) && value == DecodeItems(ScanString(old(Remaining())).value)
    {
      hide ScanItem, ScanItems, WfItems, DecodeItem, DecodeItems, Continues;
      value := [];
      if !Sees(QUOTE) { return false, value; }
      ghost var t := Remaining();
      index := index + 1;
      assert t[1..] == Remaining();
      ghost var whole := ScanItems(Remaining());
      ContinuesStart(Remaining());
      while index < |text|
        invariant old(index) < index <= |text|
        invariant Continues(whole, value, Remaining())
        decreases |text| - index
      {
        ghost var here := Remaining();
        ContinuesHere(whole, value, here);
        if Sees(QUOTE) {
          index := index + 1;
          assert here[1..] == Remaining();
          return true, value;
        }
        var read, unit := ParseCharacter();
        if !read { return false, value; }
        ContinuesPush(whole, value, here);
        value := value + [unit];
      }
      ContinuesHere(whole, value, Remaining());
      return false, value;
    }

    /** One character of a string, escaped or not. */
    method ParseCharacter() returns (ok: bool, unit: CodeUnit)
      requires Valid() && index < |text| && text[index] != QUOTE
      modifies this`index
      ensures Valid()
      ensures End(ScanItem(old(Remaining()))) == Outcome(ok)
      ensures ok ==> index > old(index) && unit == DecodeItem(ScanItem(old(Remaining())).value)
    {
      ghost var here := Remaining();
      unit := text[index];
      ok := unit >= 0x20;
      index := index + 1;
      assert here[1..] == Remaining();
      if unit == BACKSLASH {
        if index >= |text| { return false, unit; }
        var escaped := text[index];
        if IsShortEscape(escaped) {
          unit := ShortValue(escaped);
          index := index + 1;
          assert here[2..] == Remaining();
        } else {
          ok := escaped == LOWER_U && index + 4 < |text| && IsHex(text[index + 1]) && IsHex(text[index + 2])
                && IsHex(text[index + 3]) && IsHex(text[index + 4]);
          if !ok { return; }
          unit := DecodeItem(Unicode(text[index + 1], text[index + 2], text[index + 3], text[index + 4]));
          index := index + 5;
          assert here[6..] == Remaining();
        }
      }
    }

    method ParseNumber() returns (ok: bool)
      requires Valid()
      modifies this`index
      ensures Valid()
      ensures End(ScanNumber(old(Remaining()))) == Outcome(ok)
    {
      if Sees(MINUS) {
        assert Remaining()[1..] == text[index + 1..];
        index := index + 1;
      }
      ok := ParseInteger();
      if !ok { return; }
      ok := ParseFraction();
      if !ok { return; }
      ok := ParseExponent();
    }

    method ParseInteger() returns (ok: bool)
      requires Valid()
      modifies this`index
      ensures Valid()
      ensures End(ScanInteger(old(Remaining()))) == Outcome(ok)
    {
      if Sees(ZERO) {
        assert Remaining()[1..] == text[index + 1..];
        index := index + 1;
        ok := true;
      } else {
        ok := ParseDigits();
      }
    }

    method ParseFraction() returns (ok: bool)
      requires Valid()
      modifies this`index
      ensures Valid()
      ensures End(ScanFraction(old(Remaining()))) == Outcome(ok)
    {
      ok := true;
      if Sees(DOT) {
        assert Remaining()[1..] == text[index + 1..];
        index := index + 1;
        ok := ParseDigits();
      }
    }

    method ParseExponent() returns (ok: bool)
      requires Valid()
      modifies this`index
      ensures Valid()
      ensures End(ScanExponent(old(Remaining()))) == Outcome(ok)
    {
      ok := true;
      if Sees(LOWER_E) || Sees(UPPER_E) {
        ghost var t := Remaining();
        index := index + 1;
        assert t[1..] == Remaining();
        if Sees(PLUS) || Sees(MINUS) {
          index := index + 1;
        }
        assert t[1 + |Sign(t[1..])|..] == Remaining();
        ok := ParseDigits();
      }
    }

    method ParseDigits() returns (ok: bool)
      requires Valid()
      modifies this`index
      ensures Valid()
      ensures End(ScanDigits(old(Remaining()))) == Outcome(ok)
    {
      if !SeesDigit() { return false; }
      ghost var rest := AfterDigits(Remaining());
      while SeesDigit()
        invariant Valid() && AfterDigits(Remaining()) == rest
        decreases |text| - index
      {
        AfterDigitsStep(Remaining());
        assert Remaining()[1..] == text[index + 1..];
        index := index + 1;
      }
      ok := true;
    }

    method ParseLiteral(literal: Text) returns (ok: bool)
      requires Valid()
      modifies this`index
      ensures Valid()
      ensures End(ScanLiteral(literal, Null, old(Remaining()))) == Outcome(ok)
    {
      assert index + |literal| <= |text| ==> Remaining()[..|literal|] == text[index..index + |literal|];
      ok := index + |literal| <= |text| && text[index..index + |literal|] == literal;
      if ok {
        assert Remaining()[|literal|..] == text[index + |literal|..];
        index := index + |literal|;
      }
    }

    method SkipWhitespace()
      requires Valid()
      modifies this`index
      ensures Valid() && old(index) <= index && Remaining() == SkipWs(old(Remaining()))
    {
      ghost var rest := SkipWs(Remaining());
      while index < |text| && IsWs(text[index])
        invariant old(index) <= index <= |text| && SkipWs(Remaining()) == rest
        decreases |text| - index
      {
        SkipWsStep(Remaining());
        assert Remaining()[1..] == text[index + 1..];
        index := index + 1;
      }
    }
  }

  lemma SkipWsStep(t: Text)
    requires t != [] && IsWs(t[0])
    ensures SkipWs(t) == SkipWs(t[1..])
  {
  }

  lemma AfterDigitsStep(t: Text)
    requires t != [] && IsDigit(t[0])
    ensures AfterDigits(t) == AfterDigits(t[1..])
  {
  }

  lemma NoGapTwice(t: Text)
    ensures Gap(SkipWs(t)) == [] && SkipWs(SkipWs(t)) == SkipWs(t)
  {
  }

  lemma {:induction false} ScanMembersSkip(t: Text, seen: set<Text>)
    ensures End(ScanMembers(true, SkipWs(t), seen)) == End(ScanMembers(true, t, seen))
  {
    NoGapTwice(t);
    MembersRound(t, seen);
    MembersRound(SkipWs(t), seen);
  }

  lemma {:induction false} ScanElementsSkip(t: Text)
    ensures End(ScanElements(true, SkipWs(t))) == End(ScanElements(true, t))
  {
    NoGapTwice(t);
  }

  function AfterMark(next: Text, closer: CodeUnit): (CodeUnit, Text) {
    if next != [] && (next[0] == COMMA || next[0] == closer) then (next[0], next[1..]) else (0, [])
  }

  lemma {:induction false} ElementsRound(t: Text)
    ensures var v := ScanBare(true, SkipWs(t));
            End(ScanElements(true, t)) ==
            if v.Fail? then Error else
            var mark := AfterMark(SkipWs(v.rest), RBRACKET);
            if mark.0 == COMMA then End(ScanElements(true, mark.1))
            else if mark.0 == RBRACKET then At(mark.1)
            else Error
  {
  }

  lemma {:induction false} MembersRound(t: Text, seen: set<Text>)
    ensures var name := ScanString(SkipWs(t));
            name.Done? ==> WfItems(name.value)
    ensures var name := ScanString(SkipWs(t));
            End(ScanMembers(true, t, seen)) ==
            if name.Fail? || DecodeItems(name.value) in seen then Error else
            var colon := SkipWs(name.rest);
            if colon == [] || colon[0] != COLON then Error else
            var v := ScanBare(true, SkipWs(colon[1..]));
            if v.Fail? then Error else
            var mark := AfterMark(SkipWs(v.rest), RBRACE);
            if mark.0 == COMMA then End(ScanMembers(true, mark.1, seen + {DecodeItems(name.value)}))
            else if mark.0 == RBRACE then At(mark.1)
            else Error
  {
    if ScanString(SkipWs(t)).Done? { ScanItemsSound(SkipWs(t)[1..]); }
  }

  /** With `value` decoded so far and `here` still to read, a string scan that began earlier
      ends as `whole` does. */
  ghost predicate Continues(whole: Scan<seq<Item>>, value: Text, here: Text) {
    var r := ScanItems(here);
    && End(whole) == End(r)
    && (whole.Done? ==> WfItems(whole.value) && WfItems(r.value) && DecodeItems(whole.value) == value + DecodeItems(r.value))
  }

  lemma {:induction false} ContinuesStart(t: Text)
    ensures Continues(ScanItems(t), [], t)
  {
    ScanItemsSound(t);
  }

  /** The string ends at a quotation mark, and fails at the end of the text or with its next character. */
  lemma ContinuesHere(whole: Scan<seq<Item>>, value: Text, here: Text)
    requires Continues(whole, value, here)
    ensures here == [] ==> whole.Fail?
    ensures here != [] && here[0] == QUOTE ==> whole.Done? && whole.rest == here[1..] && WfItems(whole.value) && DecodeItems(whole.value) == value
    ensures here != [] && here[0] != QUOTE && ScanItem(here).Fail? ==> whole.Fail?
  {
  }

  lemma ContinuesPush(whole: Scan<seq<Item>>, value: Text, here: Text)
    requires Continues(whole, value, here) && ScanItem(here).Done?
    ensures Continues(whole, value + [DecodeItem(ScanItem(here).value)], ScanItem(here).rest)
  {
    var item, r := ScanItem(here), ScanItems(here);
    if r.Done? {
      var tail := ScanItems(item.rest).value;
      assert r.value[0] == item.value && r.value[1..] == tail;
      assert forall i :: 0 <= i < |tail| ==> tail[i] == r.value[i + 1];
      Assoc(value, [DecodeItem(item.value)], DecodeItems(tail));
    }
  }
}
