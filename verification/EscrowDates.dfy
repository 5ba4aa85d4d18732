/** The dates of the escrow format: exactly the ISO texts of calendar dates, ordered as the dates are. */
module EscrowDates {
  import opened Utf16
  import opened EscrowRecords

  /** A moment of the proleptic Gregorian calendar, in UTC. */
  datatype Moment = Moment(year: int, month: int, day: int, hour: int, minute: int, second: int, millisecond: int)

  function MonthLength(year: int, month: int): int {
    match month
    case 2 => if year % 4 == 0 && (year % 100 != 0 || year % 400 == 0) then 29 else 28
    case 4 => 30
    case 6 => 30
    case 9 => 30
    case 11 => 30
    case _ => 31
  }

  predicate Exists(m: Moment) {
    && 0 <= m.year <= 9999 && 1 <= m.month <= 12 && 1 <= m.day <= MonthLength(m.year, m.month)
    && 0 <= m.hour <= 23 && 0 <= m.minute <= 59 && 0 <= m.second <= 59 && 0 <= m.millisecond <= 999
  }

  // ---------- decimal digits

  function Thousands(n: int): CodeUnit
    requires 0 <= n <= 9999
  {
    48 + n / 1000
  }

  function Hundreds(n: int): CodeUnit
    requires 0 <= n <= 9999
  {
    48 + n / 100 % 10
  }

  function Tens(n: int): CodeUnit
    requires 0 <= n <= 9999
  {
    48 + n / 10 % 10
  }

  function Ones(n: int): CodeUnit
    requires 0 <= n <= 9999
  {
    48 + n % 10
  }

  predicate IsDigit(u: int) { 48 <= u <= 57 }

  lemma DigitsOf(n: int)
    requires 0 <= n <= 9999
    ensures IsDigit(Thousands(n)) && IsDigit(Hundreds(n)) && IsDigit(Tens(n)) && IsDigit(Ones(n))
    ensures var a: int, b: int, c: int, d: int := Thousands(n), Hundreds(n), Tens(n), Ones(n);
            n == ((a - 48) * 10 + (b - 48)) * 100 + ((c - 48) * 10 + (d - 48))
    ensures n <= 999 ==> Thousands(n) == 48
    ensures n <= 99 ==> Hundreds(n) == 48
  {
    assert n / 100 == n / 1000 * 10 + n / 100 % 10;
    assert n / 10 == n / 100 * 10 + n / 10 % 10;
  }

  lemma DigitsGive(a: int, b: int, c: int, d: int)
    requires IsDigit(a) && IsDigit(b) && IsDigit(c) && IsDigit(d)
    ensures var n := ((a - 48) * 10 + (b - 48)) * 100 + ((c - 48) * 10 + (d - 48));
            0 <= n <= 9999 && Thousands(n) == a && Hundreds(n) == b && Tens(n) == c && Ones(n) == d
  {
    var n := ((a - 48) * 10 + (b - 48)) * 100 + ((c - 48) * 10 + (d - 48));
    assert n / 100 == (a - 48) * 10 + (b - 48) && n / 10 == (a - 48) * 100 + (b - 48) * 10 + (c - 48);
  }

  /** Numbers of four digits compare by their digits. */
  lemma DigitsCompare(n: int, m: int)
    requires 0 <= n < m <= 9999
    ensures Thousands(n) <= Thousands(m) && (Thousands(n) == Thousands(m) ==> Hundreds(n) <= Hundreds(m))
    ensures Thousands(n) == Thousands(m) && Hundreds(n) == Hundreds(m) ==> Tens(n) <= Tens(m) && (Tens(n) == Tens(m) ==> Ones(n) < Ones(m))
  {
    hide Thousands, Hundreds, Tens, Ones;
    DigitsOf(n);
    DigitsOf(m);
  }

  // ---------- texts and moments

  /** yyyy-mm-ddThh:mm:ss.sssZ */
  function DateText(m: Moment): Text
    requires Exists(m)
  {
    Months(m.year, m.month);
    [Thousands(m.year), Hundreds(m.year), Tens(m.year), Ones(m.year), 45, Tens(m.month), Ones(m.month), 45, Tens(m.day), Ones(m.day), 84,
     Tens(m.hour), Ones(m.hour), 58, Tens(m.minute), Ones(m.minute), 58, Tens(m.second), Ones(m.second), 46,
     Hundreds(m.millisecond), Tens(m.millisecond), Ones(m.millisecond), 90]
  }

  lemma Months(year: int, month: int)
    requires 1 <= month <= 12
    ensures DaysIn(year, month) == MonthLength(year, month) <= 31
  {
  }

  lemma PairIs(t: Text, i: nat, n: int)
    requires i + 1 < |t| && 0 <= n <= 99 && t[i] == Tens(n) && t[i + 1] == Ones(n)
    ensures Pair(t, i) == n && DigitAt(t, i) && DigitAt(t, i + 1)
  {
    hide Thousands, Hundreds, Tens, Ones;
    DigitsOf(n);
  }

  lemma YearIs(t: Text, n: int)
    requires |t| >= 4 && 0 <= n <= 9999 && t[0] == Thousands(n) && t[1] == Hundreds(n) && t[2] == Tens(n) && t[3] == Ones(n)
    ensures Pair(t, 0) * 100 + Pair(t, 2) == n && DigitAt(t, 0) && DigitAt(t, 1) && DigitAt(t, 2) && DigitAt(t, 3)
  {
    hide Thousands, Hundreds, Tens, Ones;
    DigitsOf(n);
  }

  /** Every such text is a date of the format. */
  lemma TextOfDate(m: Moment)
    requires Exists(m)
    ensures IsUtcMillis(DateText(m))
  {
    hide Thousands, Hundreds, Tens, Ones, DaysIn, MonthLength, Pair, DigitAt;
    var t := DateText(m);
    Months(m.year, m.month);
    YearIs(t, m.year);
    PairIs(t, 5, m.month);
    PairIs(t, 8, m.day);
    PairIs(t, 11, m.hour);
    PairIs(t, 14, m.minute);
    PairIs(t, 17, m.second);
    DigitsAre(t, m.millisecond);
  }

  lemma DigitsAre(t: Text, n: int)
    requires |t| == 24 && 0 <= n <= 999 && t[20] == Hundreds(n) && t[21] == Tens(n) && t[22] == Ones(n)
    ensures DigitAt(t, 20) && DigitAt(t, 21) && DigitAt(t, 22)
  {
    hide Thousands, Hundreds, Tens, Ones;
    DigitsOf(n);
  }

  function DateOf(t: Text): Moment
    requires |t| == 24
  {
    var a: int, b: int, c: int := t[20], t[21], t[22];
    Moment(Pair(t, 0) * 100 + Pair(t, 2), Pair(t, 5), Pair(t, 8), Pair(t, 11), Pair(t, 14), Pair(t, 17), (a - 48) * 100 + (b - 48) * 10 + (c - 48))
  }

  lemma PairGives(t: Text, i: nat)
    requires i + 1 < |t| && DigitAt(t, i) && DigitAt(t, i + 1)
    ensures 0 <= Pair(t, i) <= 99 && Tens(Pair(t, i)) == t[i] && Ones(Pair(t, i)) == t[i + 1]
  {
    hide Thousands, Hundreds, Tens, Ones;
    DigitsGive(48, 48, t[i], t[i + 1]);
  }

  lemma YearGives(t: Text)
    requires |t| >= 4 && DigitAt(t, 0) && DigitAt(t, 1) && DigitAt(t, 2) && DigitAt(t, 3)
    ensures var n := Pair(t, 0) * 100 + Pair(t, 2);
            0 <= n <= 9999 && Thousands(n) == t[0] && Hundreds(n) == t[1] && Tens(n) == t[2] && Ones(n) == t[3]
  {
    hide Thousands, Hundreds, Tens, Ones;
    DigitsGive(t[0], t[1], t[2], t[3]);
  }

  lemma MillisecondsGive(t: Text)
    requires |t| == 24 && DigitAt(t, 20) && DigitAt(t, 21) && DigitAt(t, 22)
    ensures var n := DateOf(t).millisecond; 0 <= n <= 999 && Hundreds(n) == t[20] && Tens(n) == t[21] && Ones(n) == t[22]
  {
    hide Thousands, Hundreds, Tens, Ones, Pair;
    DigitsGive(48, t[20], t[21], t[22]);
  }

  /** And every date of the format is such a text. */
  lemma DateOfText(t: Text)
    requires IsUtcMillis(t)
    ensures Exists(DateOf(t)) && DateText(DateOf(t)) == t
  {
    hide Thousands, Hundreds, Tens, Ones, DaysIn, MonthLength, Pair, DigitAt;
    YearGives(t);
    PairGives(t, 5);
    PairGives(t, 8);
    PairGives(t, 11);
    PairGives(t, 14);
    PairGives(t, 17);
    MillisecondsGive(t);
    Months(DateOf(t).year, DateOf(t).month);
  }

  /** The accepted texts are exactly the ISO texts of moments of the years 0 to 9999. */
  lemma DatesExactly(t: Text)
    ensures IsUtcMillis(t) <==> exists m :: Exists(m) && DateText(m) == t
  {
    hide IsUtcMillis, DateText, Exists;
    if IsUtcMillis(t) { DateOfText(t); }
    if m :| Exists(m) && DateText(m) == t { TextOfDate(m); }
  }

  // ---------- the order of the texts is that of the moments

  predicate Earlier(a: Moment, b: Moment) {
    if a.year != b.year then a.year < b.year
    else if a.month != b.month then a.month < b.month
    else if a.day != b.day then a.day < b.day
    else if a.hour != b.hour then a.hour < b.hour
    else if a.minute != b.minute then a.minute < b.minute
    else if a.second != b.second then a.second < b.second
    else a.millisecond < b.millisecond
  }

  lemma {:induction false} DiffersAt(a: Text, b: Text, i: nat)
    requires i < |a| && i < |b| && (forall k :: 0 <= k < i ==> a[k] == b[k]) && a[i] < b[i]
    ensures Less(a, b)
  {
    hide Less;
    assert a[..i] == b[..i];
    LessExactly(a, b);
  }

  lemma {:induction false} TwoDiffer(a: Text, b: Text, i: nat, n: int, m: int)
    requires i + 1 < |a| && i + 1 < |b| && (forall k :: 0 <= k < i ==> a[k] == b[k]) && 0 <= n < m <= 99
    requires a[i] == Tens(n) && a[i + 1] == Ones(n) && b[i] == Tens(m) && b[i + 1] == Ones(m)
    ensures Less(a, b)
  {
    hide Thousands, Hundreds, Tens, Ones, Less;
    DigitsOf(n);
    DigitsOf(m);
    DigitsCompare(n, m);
    if a[i] < b[i] { DiffersAt(a, b, i); } else { DiffersAt(a, b, i + 1); }
  }

  lemma {:induction false} FourDiffer(a: Text, b: Text, n: int, m: int)
    requires |a| >= 4 && |b| >= 4 && 0 <= n < m <= 9999
    requires a[0] == Thousands(n) && a[1] == Hundreds(n) && a[2] == Tens(n) && a[3] == Ones(n)
    requires b[0] == Thousands(m) && b[1] == Hundreds(m) && b[2] == Tens(m) && b[3] == Ones(m)
    ensures Less(a, b)
  {
    hide Thousands, Hundreds, Tens, Ones, Less;
    DigitsCompare(n, m);
    if a[0] < b[0] { DiffersAt(a, b, 0); }
    else if a[1] < b[1] { DiffersAt(a, b, 1); }
    else if a[2] < b[2] { DiffersAt(a, b, 2); }
    else { DiffersAt(a, b, 3); }
  }

  lemma {:induction false} ThreeDiffer(a: Text, b: Text, n: int, m: int)
    requires |a| == |b| == 24 && (forall k :: 0 <= k < 20 ==> a[k] == b[k]) && 0 <= n < m <= 999
    requires a[20] == Hundreds(n) && a[21] == Tens(n) && a[22] == Ones(n) && b[20] == Hundreds(m) && b[21] == Tens(m) && b[22] == Ones(m)
    ensures Less(a, b)
  {
    hide Thousands, Hundreds, Tens, Ones, Less;
    DigitsOf(n);
    DigitsOf(m);
    DigitsCompare(n, m);
    if a[20] < b[20] { DiffersAt(a, b, 20); }
    else if a[21] < b[21] { DiffersAt(a, b, 21); }
    else { DiffersAt(a, b, 22); }
  }

  lemma EarlierDay(a: Moment, b: Moment)
    requires Exists(a) && Exists(b) && Earlier(a, b) && a.year == b.year && (a.month != b.month || a.day != b.day)
    ensures Less(DateText(a), DateText(b))
  {
    hide Thousands, Hundreds, Tens, Ones, MonthLength, DaysIn, Less;
    Months(a.year, a.month);
    Months(b.year, b.month);
    var s, t := DateText(a), DateText(b);
    if a.month != b.month { TwoDiffer(s, t, 5, a.month, b.month); } else { TwoDiffer(s, t, 8, a.day, b.day); }
  }

  lemma EarlierYear(a: Moment, b: Moment)
    requires Exists(a) && Exists(b) && a.year < b.year
    ensures Less(DateText(a), DateText(b))
  {
    hide Thousands, Hundreds, Tens, Ones, MonthLength, DaysIn, Less;
    FourDiffer(DateText(a), DateText(b), a.year, b.year);
  }

  lemma EarlierTime(a: Moment, b: Moment)
    requires Exists(a) && Exists(b) && Earlier(a, b) && a.year == b.year && a.month == b.month && a.day == b.day
    ensures Less(DateText(a), DateText(b))
  {
    hide Thousands, Hundreds, Tens, Ones, MonthLength, DaysIn, Less;
    var s, t := DateText(a), DateText(b);
    if a.hour != b.hour { TwoDiffer(s, t, 11, a.hour, b.hour); }
    else if a.minute != b.minute { TwoDiffer(s, t, 14, a.minute, b.minute); }
    else if a.second != b.second { TwoDiffer(s, t, 17, a.second, b.second); }
    else { ThreeDiffer(s, t, a.millisecond, b.millisecond); }
  }

  lemma EarlierIsLess(a: Moment, b: Moment)
    requires Exists(a) && Exists(b) && Earlier(a, b)
    ensures Less(DateText(a), DateText(b))
  {
    hide DateText, Exists, Less;
    if a.year != b.year { EarlierYear(a, b); }
    else if a.month != b.month || a.day != b.day { EarlierDay(a, b); }
    else { EarlierTime(a, b); }
  }

  /** Comparing the texts is comparing the moments. */
  lemma TextsInTime(a: Moment, b: Moment)
    requires Exists(a) && Exists(b)
    ensures Less(DateText(a), DateText(b)) <==> Earlier(a, b)
  {
    hide DateText, Less, Exists;
    if Earlier(a, b) {
      EarlierIsLess(a, b);
    } else if a == b {
      LessIrreflexive(DateText(a));
    } else {
      EarlierIsLess(b, a);
      LessAsymmetric(DateText(b), DateText(a));
    }
  }
}
