/** The opaque cursor of a page: JSON in UTF-8 in base64url (RFC 4648, section 5, without padding). */
module EventCursor {
  import opened Utf16
  import opened Options
  import opened Utf8
  import opened JsonValue
  import opened EscrowNames
  import EscrowCodec

  // ---------- base64url

  /** A character of the alphabet: A-Z, a-z, 0-9, minus and underscore. */
  function Char(d: int): CodeUnit
    requires 0 <= d < 64
  {
    if d < 26 then 65 + d else if d < 52 then 97 + (d - 26) else if d < 62 then 48 + (d - 52) else if d == 62 then 45 else 95
  }

  /** The decoder also knows the plus and the slash of plain base64. */
  function Digit(u: CodeUnit): (d: Option<int>)
    ensures d.Some? ==> 0 <= d.value < 64
  {
    var c: int := u;
    if 65 <= c <= 90 then Some(c - 65)
    else if 97 <= c <= 122 then Some(c - 97 + 26)
    else if 48 <= c <= 57 then Some(c - 48 + 52)
    else if c == 45 || c == 43 then Some(62)
    else if c == 95 || c == 47 then Some(63)
    else None
  }

  type Digits = s: seq<int> | forall i :: 0 <= i < |s| ==> 0 <= s[i] < 64

  /** Three bytes become four digits; one byte left becomes two, two become three. */
  function ToDigits(b: Bytes): Digits {
    if b == [] then []
    else
      var x: int := b[0];
      if |b| == 1 then [x / 4, x % 4 * 16]
      else
        var y: int := b[1];
        if |b| == 2 then [x / 4, x % 4 * 16 + y / 16, y % 16 * 4]
        else
          var z: int := b[2];
          [x / 4, x % 4 * 16 + y / 16, y % 16 * 4 + z / 64, z % 64] + ToDigits(b[3..])
  }

  function FromDigits(d: Digits): Bytes {
    if |d| < 2 then []
    else if |d| == 2 then [d[0] * 4 + d[1] / 16]
    else if |d| == 3 then [d[0] * 4 + d[1] / 16, d[1] % 16 * 16 + d[2] / 4]
    else [d[0] * 4 + d[1] / 16, d[1] % 16 * 16 + d[2] / 4, d[2] % 4 * 64 + d[3]] + FromDigits(d[4..])
  }

  function Base64(b: Bytes): Text { Chars(ToDigits(b)) }

  function Chars(d: Digits): Text { seq(|d|, i requires 0 <= i < |d| => Char(d[i])) }

  /** Characters outside the alphabet are skipped. */
  function FromBase64(t: Text): Bytes { FromDigits(DigitsOf(t)) }

  function DigitsOf(t: Text): Digits {
    if t == [] then []
    else (if Digit(t[0]).Some? then [Digit(t[0]).value] else []) + DigitsOf(t[1..])
  }

  lemma {:induction false} DigitsOfChars(d: Digits)
    ensures DigitsOf(Chars(d)) == d
  {
    if d != [] {
      DigitsOfChars(d[1..]);
      assert Chars(d)[1..] == Chars(d[1..]);
      assert Digit(Char(d[0])) == Some(d[0]);
      assert d == [d[0]] + d[1..];
    }
  }

  lemma Repack(x: int, y: int, z: int)
    requires 0 <= x < 256 && 0 <= y < 256 && 0 <= z < 256
    ensures x / 4 * 4 + (x % 4 * 16 + y / 16) / 16 == x
    ensures (x % 4 * 16 + y / 16) % 16 * 16 + (y % 16 * 4 + z / 64) / 4 == y
    ensures (y % 16 * 4 + z / 64) % 4 * 64 + z % 64 == z
  {
  }

  lemma {:induction false} DigitsRoundTrip(b: Bytes)
    ensures FromDigits(ToDigits(b)) == b
  {
    if |b| >= 3 {
      Repack(b[0], b[1], b[2]);
      DigitsRoundTrip(b[3..]);
      assert ToDigits(b)[4..] == ToDigits(b[3..]);
      assert b == [b[0], b[1], b[2]] + b[3..];
    } else if |b| == 2 {
      Repack(b[0], b[1], 0);
    } else if |b| == 1 {
      Repack(b[0], 0, 0);
    }
  }

  /** Decoding gives every byte sequence back. */
  lemma Base64RoundTrip(b: Bytes)
    ensures FromBase64(Base64(b)) == b
  {
    DigitsOfChars(ToDigits(b));
    DigitsRoundTrip(b);
  }

  const UPPER: string := "ABCDEFGHIJKLMNOPQRSTUVWXYZ"
  const LOWER: string := "abcdefghijklmnopqrstuvwxyz"
  const OTHER: string := "0123456789-_"

  /** The alphabet of RFC 4648, section 5. */
  lemma Alphabet(d: int)
    requires 0 <= d < 64
    ensures d < 26 ==> Char(d) == Ascii(UPPER)[d]
    ensures 26 <= d < 52 ==> Char(d) == Ascii(LOWER)[d - 26]
    ensures 52 <= d ==> Char(d) == Ascii(OTHER)[d - 52]
  {
    hide Ascii;
    if d < 26 { UpperAt(d); } else if d < 52 { LowerAt(d - 26); } else { OtherAt(d - 52); }
  }

  lemma UpperAt(d: int)
    requires 0 <= d < 26
    ensures |Ascii(UPPER)| == 26 && Ascii(UPPER)[d] == 65 + d
  {
  }

  lemma LowerAt(d: int)
    requires 0 <= d < 26
    ensures |Ascii(LOWER)| == 26 && Ascii(LOWER)[d] == 97 + d
  {
  }

  lemma OtherAt(d: int)
    requires 0 <= d < 12
    ensures |Ascii(OTHER)| == 12 && Ascii(OTHER)[d] == if d < 10 then 48 + d else if d == 10 then 45 else 95
  {
  }

  /** Three bytes and the four characters that stand for them are the same number of 24 bits. */
  lemma {:induction false} SameNumber(b: Bytes)
    requires |b| >= 3
    ensures var d := ToDigits(b);
            var x: int, y: int, z: int := b[0], b[1], b[2];
            |d| >= 4 && d[0] * 262144 + d[1] * 4096 + d[2] * 64 + d[3] == x * 65536 + y * 256 + z && d[4..] == ToDigits(b[3..])
  {
  }

  // ---------- the cursor

  /** v */
  const V: Text := [118]
  /** order */
  const ORDER: Text := [111, 114, 100, 101, 114]
  /** asc */
  const ASC: Text := [97, 115, 99]
  /** desc */
  const DESC: Text := [100, 101, 115, 99]

  datatype Cursor = Cursor(created: Text, id: Text, order: Text)

  function CursorValue(c: Cursor): Value {
    VObject([Entry(V, VInt(1)), Entry(CREATED, VString(c.created)), Entry(ID, VString(c.id)), Entry(ORDER, VString(c.order))])
  }

  lemma CursorIntegers(c: Cursor)
    ensures IntegersOnly(CursorValue(c))
  {
    EscrowCodec.ScalarEntries(CursorValue(c).entries);
  }

  function EncodeCursor(c: Cursor): Text {
    CursorIntegers(c);
    Base64(Encode(Stringify(CursorValue(c))))
  }

  /** What a cursor says: the version, the date, the id and the direction, under these names. */
  lemma {:induction false} CursorLayout(c: Cursor)
    ensures Decode(FromBase64(EncodeCursor(c))).Some?
    ensures Parse(false, Decode(FromBase64(EncodeCursor(c))).value) == Some(VObject([
              Entry(Ascii("v"), VInt(1)), Entry(Ascii("created"), VString(c.created)), Entry(Ascii("id"), VString(c.id)),
              Entry(Ascii("order"), VString(c.order))]))
    ensures ASC == Ascii("asc") && DESC == Ascii("desc")
  {
    hide Base64, FromBase64, Encode, Decode, Parse, Stringify, IntegersOnly;
    CursorIntegers(c);
    var v := CursorValue(c);
    Base64RoundTrip(Encode(Stringify(v)));
    StringifyClean(v);
    DecodeEncode(Stringify(v));
    ParseStringify(v);
    CursorNames();
  }

  lemma CursorNames()
    ensures V == Ascii("v") && CREATED == Ascii("created") && ID == Ascii("id") && ORDER == Ascii("order")
    ensures ASC == Ascii("asc") && DESC == Ascii("desc")
  {
  }

  /** A property of a parsed object: the last entry of that name. */
  function Property(entries: seq<Entry>, key: Text): Option<Value> {
    if entries == [] then None
    else
      var n := |entries| - 1;
      if entries[n].key == key then Some(entries[n].value) else Property(entries[..n], key)
  }

  /** `decodeEventsCursor`. `canonicalDate` is `new Date(t).toISOString()`, where that exists. */
  function DecodeCursor(t: Text, order: Text, canonicalDate: Text -> Option<Text>): Option<Cursor> {
    var text :- Decode(FromBase64(t));
    var v :- Parse(false, text);
    if !v.VObject? then None else
    var _ :- Require(Property(v.entries, V) == Some(VInt(1)));
    var id :- Property(v.entries, ID);
    var _ :- Require(id.VString? && id.s != []);
    var created :- Property(v.entries, CREATED);
    var date :- if created.VString? then canonicalDate(created.s) else None;
    var own :- Property(v.entries, ORDER);
    var _ :- Require(own == VString(order) && (order == ASC || order == DESC));
    Some(Cursor(date, id.s, order))
  }

  lemma {:induction false} PropertySnoc(entries: seq<Entry>, e: Entry, key: Text)
    ensures Property(entries + [e], key) == if e.key == key then Some(e.value) else Property(entries, key)
  {
    assert (entries + [e])[..|entries|] == entries;
  }

  lemma {:induction false} PropertyOfFour(a: Entry, b: Entry, c: Entry, d: Entry, key: Text)
    ensures Property([a, b, c, d], key) ==
            if d.key == key then Some(d.value) else if c.key == key then Some(c.value) else if b.key == key then Some(b.value)
            else if a.key == key then Some(a.value) else None
  {
    hide Property;
    PropertySnoc([a, b, c], d, key);
    PropertySnoc([a, b], c, key);
    PropertySnoc([a], b, key);
    PropertySnoc([], a, key);
    assert [] + [a] == [a] && [a] + [b] == [a, b] && [a, b] + [c] == [a, b, c] && [a, b, c] + [d] == [a, b, c, d];
    NoProperty(key);
  }

  lemma {:induction false} NoProperty(key: Text)
    ensures Property([], key) == None
  {
  }

  lemma CursorProperties(c: Cursor)
    ensures var e := CursorValue(c).entries;
            && Property(e, V) == Some(VInt(1)) && Property(e, CREATED) == Some(VString(c.created))
            && Property(e, ID) == Some(VString(c.id)) && Property(e, ORDER) == Some(VString(c.order))
  {
    hide Property;
    assert V[0] == 118 && CREATED[0] == 99 && ID[0] == 105 && ORDER[0] == 111;
    var e := CursorValue(c).entries;
    PropertyOfFour(e[0], e[1], e[2], e[3], V);
    PropertyOfFour(e[0], e[1], e[2], e[3], CREATED);
    PropertyOfFour(e[0], e[1], e[2], e[3], ID);
    PropertyOfFour(e[0], e[1], e[2], e[3], ORDER);
    assert e == [e[0], e[1], e[2], e[3]];
  }

  /** The cursor of a page comes back under the same order, and is refused under the other. */
  lemma CursorRoundTrip(c: Cursor, order: Text, canonicalDate: Text -> Option<Text>)
    requires c.id != [] && (c.order == ASC || c.order == DESC) && canonicalDate(c.created) == Some(c.created)
    ensures DecodeCursor(EncodeCursor(c), order, canonicalDate) == if order == c.order then Some(c) else None
  {
    hide Base64, FromBase64, Encode, Decode, Parse, Stringify, IntegersOnly, Property;
    CursorIntegers(c);
    var v := CursorValue(c);
    Base64RoundTrip(Encode(Stringify(v)));
    StringifyClean(v);
    DecodeEncode(Stringify(v));
    ParseStringify(v);
    CursorProperties(c);
  }
}
