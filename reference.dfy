/** The human-readable reservation reference `LQ-YYYYMMDD-NNN` that the
    email handler stamps on both messages of a request. */
module ReservationReference {
  import opened Common
  import opened Decimal

  /** What `new Date()` reports: the full year, the zero-based month index
      of `getMonth()` and the day of the month of `getDate()`. */
  datatype Clock = Clock(year: int, monthIndex: nat, day: nat)

  /** A clock reading the platform can produce. */
  predicate ValidClock(now: Clock)
  {
    now.monthIndex < 12 && 1 <= now.day <= 31
  }

  /** The four numbers a reference is written from: year, calendar month
      (1-based), day and the random suffix. */
  datatype Parts = Parts(year: int, month: nat, day: nat, suffix: nat)

  /** Parts that the fixed-width layout holds: a four-digit year, two-digit
      month and day, a three-digit suffix. */
  predicate Fits(p: Parts)
  {
    1000 <= p.year < 10000 && p.month < 100 && p.day < 100 && p.suffix < 1000
  }

  const Prefix: string := "LQ-"

  /** The template literal `LQ-${year}${month}${day}-${random}` with month
      and day padded to two digits and the suffix to three. */
  function Format(p: Parts): (r: string)
    ensures |r| >= 3 && r[..3] == Prefix
  {
    Prefix + ShowInt(p.year) + PadStart(Show(p.month), 2, '0')
      + PadStart(Show(p.day), 2, '0') + "-" + PadStart(Show(p.suffix), 3, '0')
  }

  /** What the handler draws: `getMonth() + 1` as the month and
      `Math.floor(Math.random() * 1000)` as the suffix, passed in as
      `random`. */
  function Generate(now: Clock, random: nat): (r: string)
    ensures |r| >= 3 && r[..3] == Prefix
    ensures ValidClock(now) && 1000 <= now.year < 10000 && random < 1000 ==>
      Parse(r) == Some(Parts(now.year, now.monthIndex + 1, now.day, random))
  {
    var p := Parts(now.year, now.monthIndex + 1, now.day, random);
    if Fits(p) then ParseFormat(p); Format(p) else Format(p)
  }

  /** A reference read back: the partner of `Format` on the parts that fit
      the layout. It accepts exactly the strings `Format` writes from such
      parts: 15 characters, the prefix, a year without a leading zero, and
      the `-` before the suffix. */
  function Parse(s: string): (r: Option<Parts>)
    ensures r.Some? ==> Fits(r.value)
  {
    if |s| == 15 && s[..3] == Prefix && AllDigits(s[3..7]) && s[3] != '0'
       && AllDigits(s[7..9]) && AllDigits(s[9..11]) && s[11] == '-' && AllDigits(s[12..])
    then
      ValueRange(s[3..7]); ValueBound(s[7..9]); ValueBound(s[9..11]); ValueBound(s[12..]);
      assert Pow10(2) == 100 && Pow10(3) == 1000 && Pow10(4) == 10000;
      Some(Parts(Value(s[3..7]), Value(s[7..9]), Value(s[9..11]), Value(s[12..])))
    else None
  }

  /** A reference written from parts that fit is 15 characters long, starts
      with `LQ-`, carries `-` at indices 2 and 11, and holds each field in its own slice. */
  lemma FormatShape(p: Parts)
    requires Fits(p)
    ensures var r := Format(p);
      |r| == 15 && r[..3] == Prefix && r[2] == '-' && r[11] == '-'
      && r[3..7] == Show(p.year)
      && r[7..9] == PadStart(Show(p.month), 2, '0')
      && r[9..11] == PadStart(Show(p.day), 2, '0')
      && r[12..] == PadStart(Show(p.suffix), 3, '0')
  {
    var y := Show(p.year);
    var m := PadStart(Show(p.month), 2, '0');
    var d := PadStart(Show(p.day), 2, '0');
    var x := PadStart(Show(p.suffix), 3, '0');
    YearLength(p.year);
    assert Pow10(2) == 100 && Pow10(3) == 1000;
    PadRoundTrip(p.month, 2);
    PadRoundTrip(p.day, 2);
    PadRoundTrip(p.suffix, 3);
    var r := Format(p);
    assert r == Prefix + y + m + d + "-" + x;
    SliceOfConcat(Prefix, y, m, d, "-", x);
  }

  /** A four-digit year is written with four digits. */
  lemma YearLength(year: int)
    requires 1000 <= year < 10000
    ensures |ShowInt(year)| == 4 && ShowInt(year) == Show(year)
  {
    ShowLength(year, 4);
    ShowLength(year, 3);
    assert Pow10(3) == 1000 && Pow10(4) == 10000;
  }

  /** Where each field of a six-part concatenation sits. */
  lemma SliceOfConcat(a: string, b: string, c: string, d: string, e: string, f: string)
    requires |a| == 3 && |b| == 4 && |c| == 2 && |d| == 2 && |e| == 1 && |f| == 3
    ensures var r := a + b + c + d + e + f;
      |r| == 15 && r[..3] == a && r[3..7] == b && r[7..9] == c && r[9..11] == d
      && r[11] == e[0] && r[12..] == f
  {
  }

  /** A reference generated from a real clock reading in a four-digit year
      and a draw in 0..999 has the 15-character layout. */
  lemma GenerateShape(now: Clock, random: nat)
    requires ValidClock(now) && 1000 <= now.year < 10000 && random < 1000
    ensures |Generate(now, random)| == 15
    ensures Generate(now, random)[2] == '-' && Generate(now, random)[11] == '-'
  {
    FormatShape(Parts(now.year, now.monthIndex + 1, now.day, random));
  }

  /** Reading a formatted reference recovers its parts. */
  lemma ParseFormat(p: Parts)
    requires Fits(p)
    ensures Parse(Format(p)) == Some(p)
  {
    var r := Format(p);
    FormatShape(p);
    ValueOfShow(p.year);
    PadRoundTrip(p.month, 2);
    PadRoundTrip(p.day, 2);
    PadRoundTrip(p.suffix, 3);
    assert r[3] == Show(p.year)[0];
  }

  /** Every accepted string is the formatting of the parts read from it. */
  lemma FormatParse(s: string)
    requires Parse(s).Some?
    ensures Format(Parse(s).value) == s
  {
    var p := Parse(s).value;
    ShowOfValue(s[3..7]);
    PadOfValue(s[7..9]);
    PadOfValue(s[9..11]);
    PadOfValue(s[12..]);
    YearLength(p.year);
    assert s == s[..3] + s[3..7] + s[7..9] + s[9..11] + [s[11]] + s[12..];
  }

  /** Distinct parts that fit give distinct references. */
  lemma FormatInjective(p: Parts, q: Parts)
    requires Fits(p) && Fits(q) && Format(p) == Format(q)
    ensures p == q
  {
    ParseFormat(p);
    ParseFormat(q);
  }
}
