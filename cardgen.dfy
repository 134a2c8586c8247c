/** `generateValidCard(bin)`: rejection sampling of a card number under a BIN,
    followed by a random expiry month, expiry year and CVV.

    `Math.random()` and `new Date()` are replaced by a `CardDraw` holding the
    values they would have produced, and the current year. The `do … while` loop
    draws until `luhnCheck` passes and has no bound; here it runs over the finite
    sequence of suffix draws it is given, and yields `None` when that sequence
    runs out without a passing number (the source would go on drawing). */
module CardGen {
  import opened Text
  import opened Luhn

  /** `Math.floor(Math.random() * 1e10)` lies in `[0, SuffixBound)`. */
  const SuffixBound: nat := 10_000_000_000
  const SuffixWidth: nat := 10
  const CardLength: nat := 16

  /** The random values one call of `generateValidCard` consumes. */
  datatype CardDraw = CardDraw(
    suffixes: seq<nat>,  // one per loop iteration, each `Math.floor(Math.random() * 1e10)`
    monthIndex: nat,     // `Math.floor(Math.random() * 12)`
    yearOffset: nat,     // `Math.floor(Math.random() * 5)`
    cvv: nat)            // `Math.floor(100 + Math.random() * 900)`

  /** The ranges `Math.random()` confines each drawn value to. */
  predicate ValidDraw(d: CardDraw)
  {
    (forall i :: 0 <= i < |d.suffixes| ==> d.suffixes[i] < SuffixBound)
    && d.monthIndex < 12 && d.yearOffset < 5 && 100 <= d.cvv <= 999
  }

  /** `draw.toString().padStart(10, '0')` */
  function Suffix(draw: nat): (s: string)
    ensures IsDigits(s)
  {
    PadStart(DecimalString(draw), SuffixWidth, '0')
  }

  /** `(bin + Suffix(draw)).substring(0, 16)` */
  function CardNumber(bin: string, draw: nat): (s: string)
    requires IsDigits(bin)
    ensures IsDigits(s)
  {
    Take(bin + Suffix(draw), CardLength)
  }

  /** `String(monthIndex + 1).padStart(2, '0')` */
  function MonthField(monthIndex: nat): (r: string)
    ensures |r| >= 2 && IsDigits(r)
  {
    PadStart(DecimalString(monthIndex + 1), 2, '0')
  }

  /** `20${String(currentYear + yearOffset).slice(-2)}` */
  function YearField(currentYear: nat, yearOffset: nat): (r: string)
    ensures 3 <= |r| <= 4 && r[..2] == "20" && IsDigits(r)
    ensures currentYear + yearOffset >= 10 ==> |r| == 4
  {
    "20" + LastChars(DecimalString(currentYear + yearOffset), 2)
  }

  /** `String(cvv)` */
  function CvvField(cvv: nat): (r: string)
    ensures |r| >= 1 && IsDigits(r)
  {
    DecimalString(cvv)
  }

  /** `${cardNumber}|${month}|20${year}|${cvv}` */
  function FormatCard(number: string, month: string, year: string, cvv: string): (r: string)
    ensures |r| == |number| + |month| + |year| + |cvv| + 3
    ensures r[..|number|] == number
  {
    var parts := [number, month, year, cvv];
    assert parts[1..] == [month, year, cvv] && parts[1..][1..] == [year, cvv] && parts[1..][1..][1..] == [cvv];
    assert Join(parts[1..][1..], '|') == year + ['|'] + cvv;
    assert Join(parts[1..], '|') == month + ['|'] + (year + ['|'] + cvv);
    Join(parts, '|')
  }

  /** The index of the first suffix draw, from index `from` on, whose card number
      passes `luhnCheck`, if any. */
  function FirstPassing(bin: string, suffixes: seq<nat>, from: nat): (r: Option<nat>)
    requires IsDigits(bin)
    ensures r.Some? ==> from <= r.value < |suffixes| && LuhnCheck(CardNumber(bin, suffixes[r.value]))
    ensures r.Some? ==> forall j :: from <= j < r.value ==> !LuhnCheck(CardNumber(bin, suffixes[j]))
    ensures r.None? ==> forall j :: from <= j < |suffixes| ==> !LuhnCheck(CardNumber(bin, suffixes[j]))
    decreases |suffixes| - from
  {
    if from >= |suffixes| then None
    else if LuhnCheck(CardNumber(bin, suffixes[from])) then Some(from)
    else FirstPassing(bin, suffixes, from + 1)
  }

  /** What `generateValidCard(bin)` returns for the draws `d`. */
  function GeneratedCard(bin: string, d: CardDraw, currentYear: nat): (r: Option<string>)
    requires IsDigits(bin)
    ensures r.Some? <==> exists k :: 0 <= k < |d.suffixes| && LuhnCheck(CardNumber(bin, d.suffixes[k]))
  {
    match FirstPassing(bin, d.suffixes, 0)
    case None => None
    case Some(k) =>
      Some(FormatCard(CardNumber(bin, d.suffixes[k]), MonthField(d.monthIndex),
                      YearField(currentYear, d.yearOffset), CvvField(d.cvv)))
  }

  /** The rejection-sampling loop: each iteration replaces the card number by a
      fresh candidate, until one passes `luhnCheck`. */
  method GenerateValidCard(bin: string, d: CardDraw, currentYear: nat) returns (card: Option<string>)
    requires IsDigits(bin)
    ensures card.Some? <==> exists k :: 0 <= k < |d.suffixes| && LuhnCheck(CardNumber(bin, d.suffixes[k]))
    ensures card.Some? ==>
              exists k :: 0 <= k < |d.suffixes| && LuhnCheck(CardNumber(bin, d.suffixes[k]))
                && card.value == FormatCard(CardNumber(bin, d.suffixes[k]), MonthField(d.monthIndex),
                                            YearField(currentYear, d.yearOffset), CvvField(d.cvv))
    ensures card == GeneratedCard(bin, d, currentYear)
  {
    var i := 0;
    var cardNumber := "";
    var passed := false;
    while !passed && i < |d.suffixes|
      invariant 0 <= i <= |d.suffixes|
      invariant passed ==> 0 < i && cardNumber == CardNumber(bin, d.suffixes[i - 1]) && LuhnCheck(cardNumber)
      invariant forall j :: 0 <= j < i && !(passed && j == i - 1) ==> !LuhnCheck(CardNumber(bin, d.suffixes[j]))
    {
      cardNumber := Take(bin + Suffix(d.suffixes[i]), CardLength);
      passed := LuhnCheck(cardNumber);
      i := i + 1;
    }
    if passed {
      assert FirstPassing(bin, d.suffixes, 0) == Some(i - 1);
      var month := MonthField(d.monthIndex);
      var year := YearField(currentYear, d.yearOffset);
      var cvv := CvvField(d.cvv);
      card := Some(FormatCard(cardNumber, month, year, cvv));
    } else {
      assert FirstPassing(bin, d.suffixes, 0) == None;
      card := None;
    }
  }

  // ---------------------------------------------------------------- lemmas

  lemma {:induction false} SuffixBoundIsPow10()
    ensures Pow10(SuffixWidth) == SuffixBound
  {
    assert Pow10(5) == 100_000;
  }

  /** A suffix draw in range renders as exactly ten digits, the number zero-padded. */
  lemma {:induction false} SuffixIsTenDigits(draw: nat)
    requires draw < SuffixBound
    ensures Suffix(draw) == FixedWidth(draw, SuffixWidth)
    ensures |Suffix(draw)| == SuffixWidth
  {
    SuffixBoundIsPow10();
    PaddedDecimal(draw, SuffixWidth);
  }

  /** The card number is 16 digits once the BIN has at least 6; it starts with the
      BIN when the BIN has at most 16 digits, and is the BIN's first 16 digits otherwise. */
  lemma {:induction false} CardNumberShape(bin: string, draw: nat)
    requires IsDigits(bin) && draw < SuffixBound
    ensures |CardNumber(bin, draw)| == if |bin| + SuffixWidth < CardLength then |bin| + SuffixWidth else CardLength
    ensures |bin| >= 6 ==> |CardNumber(bin, draw)| == CardLength
    ensures |bin| <= CardLength ==> CardNumber(bin, draw)[..|bin|] == bin
    ensures |bin| >= CardLength ==> CardNumber(bin, draw) == bin[..CardLength]
  {
    SuffixIsTenDigits(draw);
    var s := bin + Suffix(draw);
    if |bin| <= CardLength {
      assert s[..|bin|] == bin;
    } else {
      assert s[..CardLength] == bin[..CardLength];
    }
  }

  /** For a BIN of at most 15 digits the last digit of the card number comes from
      the suffix draw, so some draw passes `luhnCheck` and ends the loop. */
  lemma {:induction false} SomeDrawPasses(bin: string)
    requires IsDigits(bin) && |bin| < CardLength
    ensures exists draw: nat :: draw < SuffixBound && LuhnCheck(CardNumber(bin, draw))
  {
    var k := if |bin| + SuffixWidth <= CardLength then SuffixWidth else CardLength - |bin|;
    var body := bin + Zeros(k - 1);
    var c := DigitChar(CheckDigit(body));
    var t := Zeros(k - 1) + [c] + Zeros(SuffixWidth - k);
    assert IsDigits(t);
    var draw := ValueOf(t);
    FixedWidthOfValue(t);
    SuffixBoundIsPow10();
    SuffixIsTenDigits(draw);
    assert Suffix(draw) == t;
    assert CardNumber(bin, draw) == body + [c] by {
      assert (bin + t)[..|bin| + k] == body + [c];
    }
    UniqueCheckDigit(body, c);
  }

  /** For a BIN of 16 digits or more the draw is cut off entirely: unless the BIN's
      first 16 digits already pass `luhnCheck`, no draw ever ends the loop. */
  lemma {:induction false} LongBinNeverPasses(bin: string, d: CardDraw, currentYear: nat)
    requires IsDigits(bin) && |bin| >= CardLength && ValidDraw(d)
    requires !LuhnCheck(bin[..CardLength])
    ensures GeneratedCard(bin, d, currentYear) == None
  {
    var r := FirstPassing(bin, d.suffixes, 0);
    if r.Some? {
      CardNumberShape(bin, d.suffixes[r.value]);
    }
  }

  lemma {:induction false} DigitsHaveNoBar(s: string)
    requires IsDigits(s)
    ensures '|' !in s
  {
  }

  /** The month field is two digits holding a month number 01..12. */
  lemma {:induction false} MonthFieldShape(monthIndex: nat)
    requires monthIndex < 12
    ensures MonthField(monthIndex) == FixedWidth(monthIndex + 1, 2)
    ensures 1 <= ValueOf(MonthField(monthIndex)) <= 12
  {
    assert Pow10(2) == 100;
    PaddedDecimal(monthIndex + 1, 2);
    ValueOfFixedWidth(monthIndex + 1, 2);
  }

  /** The year field is "20" followed by the last two digits of the expiry year. */
  lemma {:induction false} YearFieldShape(currentYear: nat, yearOffset: nat)
    requires currentYear + yearOffset >= 10
    ensures YearField(currentYear, yearOffset) == "20" + FixedWidth((currentYear + yearOffset) % 100, 2)
  {
    LastTwoDigits(currentYear + yearOffset);
  }

  /** The CVV field is three digits holding the drawn CVV. */
  lemma {:induction false} CvvFieldShape(cvv: nat)
    requires 100 <= cvv <= 999
    ensures |CvvField(cvv)| == 3 && ValueOf(CvvField(cvv)) == cvv
  {
    assert Pow10(2) == 100 && Pow10(3) == 1000;
    DecimalStringLength(cvv, 2);
    DecimalStringValue(cvv);
  }

  /** The formatted card splits on `|` into exactly its four fields, in order. */
  lemma {:induction false} CardFields(number: string, month: string, year: string, cvv: string)
    requires IsDigits(number) && IsDigits(month) && IsDigits(cvv)
    requires |year| >= 2 && year[..2] == "20" && IsDigits(year[2..])
    ensures Split(FormatCard(number, month, year, cvv), '|') == [number, month, year, cvv]
  {
    DigitsHaveNoBar(number);
    DigitsHaveNoBar(month);
    DigitsHaveNoBar(cvv);
    DigitsHaveNoBar(year);
    SplitJoin([number, month, year, cvv], '|');
  }

  /** `card` is `number|MM|20YY|cvv`: a number that passes `luhnCheck`, is 16 digits
      for a BIN of 6 or more digits and starts with a BIN of at most 16 digits, a
      month 01..12, the last two digits of the expiry year, and a three-digit CVV. */
  predicate CardShape(bin: string, card: string, monthIndex: nat, expiryYear: nat, cvv: nat)
  {
    var f := Split(card, '|');
    && |f| == 4 && IsDigits(f[0]) && LuhnCheck(f[0])
    && (|bin| >= 6 ==> |f[0]| == CardLength)
    && (|bin| <= CardLength ==> |bin| <= |f[0]| && f[0][..|bin|] == bin)
    && f[1] == FixedWidth(monthIndex + 1, 2) && 1 <= ValueOf(f[1]) <= 12
    && f[2] == "20" + FixedWidth(expiryYear % 100, 2)
    && |f[3]| == 3 && IsDigits(f[3]) && ValueOf(f[3]) == cvv
  }

  /** A card built from a passing suffix draw and in-range month, year and CVV draws
      has the card shape. */
  lemma {:induction false} PassingCardShape(
    bin: string, draw: nat, monthIndex: nat, currentYear: nat, yearOffset: nat, cvv: nat, card: string)
    requires IsDigits(bin) && draw < SuffixBound && LuhnCheck(CardNumber(bin, draw))
    requires monthIndex < 12 && yearOffset < 5 && 100 <= cvv <= 999 && currentYear >= 10
    requires card == FormatCard(CardNumber(bin, draw), MonthField(monthIndex),
                                YearField(currentYear, yearOffset), CvvField(cvv))
    ensures CardShape(bin, card, monthIndex, currentYear + yearOffset, cvv)
  {
    var number := CardNumber(bin, draw);
    var m, y, c := MonthField(monthIndex), YearField(currentYear, yearOffset), CvvField(cvv);
    var yy := FixedWidth((currentYear + yearOffset) % 100, 2);
    CardNumberShape(bin, draw);
    MonthFieldShape(monthIndex);
    YearFieldShape(currentYear, yearOffset);
    CvvFieldShape(cvv);
    assert y[..2] == "20" && y[2..] == yy;
    CardFields(number, m, y, c);
  }

  /** Every card `generateValidCard` returns for in-range draws has the card shape:
      its number passes `luhnCheck`, is 16 digits long for a BIN of 6 or more
      digits and starts with a BIN of at most 16, then come the month, the year
      and the CVV that were drawn. */
  lemma {:induction false} GeneratedCardShape(bin: string, d: CardDraw, currentYear: nat, card: string)
    requires IsDigits(bin) && ValidDraw(d) && currentYear >= 10
    requires GeneratedCard(bin, d, currentYear) == Some(card)
    ensures CardShape(bin, card, d.monthIndex, currentYear + d.yearOffset, d.cvv)
  {
    var draw := PassingDraw(bin, d, currentYear, card);
    DrawnCardShape(bin, d, currentYear, draw, card);
  }

  /** `PassingCardShape` for the month, year and CVV draws of `d`: a separate step
      that keeps the proof of `GeneratedCardShape` small. */
  lemma {:induction false} DrawnCardShape(bin: string, d: CardDraw, currentYear: nat, draw: nat, card: string)
    requires IsDigits(bin) && ValidDraw(d) && currentYear >= 10
    requires draw < SuffixBound && LuhnCheck(CardNumber(bin, draw))
    requires card == FormatCard(CardNumber(bin, draw), MonthField(d.monthIndex),
                                YearField(currentYear, d.yearOffset), CvvField(d.cvv))
    ensures CardShape(bin, card, d.monthIndex, currentYear + d.yearOffset, d.cvv)
  {
    PassingCardShape(bin, draw, d.monthIndex, currentYear, d.yearOffset, d.cvv, card);
  }

  /** Every card `generateValidCard` returns is `number|MM|20YY|cvv` for an in-range
      suffix draw whose number passes `luhnCheck`. */
  lemma {:induction false} PassingDraw(bin: string, d: CardDraw, currentYear: nat, card: string)
    returns (draw: nat)
    requires IsDigits(bin) && ValidDraw(d)
    requires GeneratedCard(bin, d, currentYear) == Some(card)
    ensures draw < SuffixBound && LuhnCheck(CardNumber(bin, draw))
    ensures card == FormatCard(CardNumber(bin, draw), MonthField(d.monthIndex),
                               YearField(currentYear, d.yearOffset), CvvField(d.cvv))
  {
    var k := FirstPassing(bin, d.suffixes, 0).value;
    draw := d.suffixes[k];
  }

  /** The year field keeps only two digits of the year: from 2100 on it names a
      year a century earlier, e.g. "2001" for 2098 + 3. */
  lemma {:induction false} YearFieldWrapsAfter2099()
    ensures YearField(2098, 3) == "2001"
  {
    assert DecimalString(2101) == DecimalString(210) + ['1'];
    assert DecimalString(210) == DecimalString(21) + ['0'];
    assert DecimalString(21) == ['2', '1'];
  }
}
