/** The bot's checksum test `luhnCheck`, exactly as JavaScript evaluates it, next
    to the Luhn mod-10 check of ISO/IEC 7812-1 (Annex B) it was meant to be.

    The reducer's expression `i % 2 !== 0 ? acc + val : acc + ((val * 2) % 9) || 9`
    parses as `i % 2 !== 0 ? acc + val : ((acc + (val * 2) % 9) || 9)`, since the
    conditional operator binds looser than `||`. So a doubled digit contributes
    `(2 * val) % 9` (a doubled 9 gives 0, where Luhn gives 9), and `|| 9` replaces a
    running sum of 0 by 9. The lemmas below pin down exactly how far this is from
    Luhn. */
module Luhn {
  import opened Text

  predicate AllDigits(xs: seq<nat>) { forall i :: 0 <= i < |xs| ==> xs[i] <= 9 }

  /** `(num + '').split('').reverse().map(x => parseInt(x))` on a digit string. */
  function ReversedDigits(s: string): (r: seq<nat>)
    requires IsDigits(s)
    ensures |r| == |s| && AllDigits(r)
    ensures forall i :: 0 <= i < |r| ==> r[i] == DigitValue(s[|s| - 1 - i])
  {
    if s == [] then [] else [DigitValue(s[|s| - 1])] + ReversedDigits(s[..|s| - 1])
  }

  /** One application of the reducer, at index `i` of the digits left of the check digit. */
  function Step(acc: nat, val: nat, i: nat): (r: nat)
    ensures r >= acc
    ensures i % 2 != 0 ==> r == acc + val
    ensures i % 2 == 0 ==> r >= 1
    ensures i % 2 == 0 && val <= 9 ==>
              r == if acc == 0 && (val == 0 || val == 9) then 9
                   else acc + (if val == 9 then 0 else LuhnDouble(val))
  {
    if i % 2 != 0 then acc + val
    else
      var d := (val * 2) % 9;
      assert val <= 9 ==> d == if val == 9 then 0 else LuhnDouble(val) by {
        if val <= 9 { DoubledModNine(val); }
      }
      if acc + d == 0 then 9   // `|| 9`: a sum of 0 is falsy
      else acc + d
  }

  /** `xs.reduce(Step, 0)`, a left fold that passes each element's index. */
  function Fold(xs: seq<nat>): (r: nat)
    ensures xs != [] ==> r >= 1
    ensures AllDigits(xs) ==> r <= 9 * |xs|
  {
    if xs == [] then 0 else Step(Fold(xs[..|xs| - 1]), xs[|xs| - 1], |xs| - 1)
  }

  /** `luhnCheck(num)`. The empty string yields `NaN % 10 === 0`, which is false. */
  predicate LuhnCheck(s: string)
    requires IsDigits(s)
    ensures LuhnCheck(s) ==> |s| > 0
  {
    var arr := ReversedDigits(s);
    |arr| > 0 && (Fold(arr[1..]) + arr[0]) % 10 == 0
  }

  /** The digit that completes `body` to a number `LuhnCheck` accepts. */
  function CheckDigit(body: string): (d: nat)
    requires IsDigits(body)
    ensures d <= 9
  {
    (10 - Fold(ReversedDigits(body)) % 10) % 10
  }

  // ------------------------------------------ ISO/IEC 7812-1 Annex B (Luhn)

  /** A doubled digit counts as the sum of the digits of its double. */
  function LuhnDouble(d: nat): nat { if 2 * d > 9 then 2 * d - 9 else 2 * d }

  /** Luhn's weighted sum over digits listed from the right; `double` says whether the first is doubled. */
  function AltSum(r: seq<nat>, double: bool): nat
  {
    if r == [] then 0 else (if double then LuhnDouble(r[0]) else r[0]) + AltSum(r[1..], !double)
  }

  /** The standard check: the rightmost digit is the check digit, every second digit left of it is doubled. */
  predicate StdLuhnValid(s: string)
    requires IsDigits(s)
  {
    |s| > 0 && AltSum(ReversedDigits(s), false) % 10 == 0
  }

  // --------------------------------------------------- the two corrections

  /** 1 when the first digit the reducer sees (the second from the right) is 0: `|| 9`
      turns its 0 into 9. The fallback also fires for a 9 there, whose doubled value
      `(9 * 2) % 9` leaves a sum of 0, but that gives the 9 Luhn counts anyway. */
  function ZeroFirst(xs: seq<nat>): nat
  {
    if |xs| > 0 && xs[0] == 0 then 1 else 0
  }

  /** How many doubled positions after the first hold a 9: each contributes 0 instead of Luhn's 9. */
  function LateDoubledNines(xs: seq<nat>): nat
  {
    if xs == [] then 0
    else
      var i := |xs| - 1;
      LateDoubledNines(xs[..i]) + (if i >= 2 && i % 2 == 0 && xs[i] == 9 then 1 else 0)
  }

  // ---------------------------------------------------------------- lemmas

  lemma {:induction false} AltSumSnoc(xs: seq<nat>, v: nat, double: bool)
    ensures AltSum(xs + [v], double)
            == AltSum(xs, double) + (if double == (|xs| % 2 == 0) then LuhnDouble(v) else v)
  {
    if xs != [] {
      assert (xs + [v])[1..] == xs[1..] + [v];
      AltSumSnoc(xs[1..], v, !double);
    }
  }

  /** `(val * 2) % 9` is Luhn's doubled digit, except that a doubled 9 gives 0. */
  lemma {:induction false} DoubledModNine(v: nat)
    requires v <= 9
    ensures (v * 2) % 9 == if v == 9 then 0 else LuhnDouble(v)
  {
    if 5 <= v < 9 {
      assert v * 2 == 9 + (2 * v - 9);
    }
  }

  /** The reducer's sum is Luhn's sum over the same digits, plus 9 when the first of
      them is 0, minus 9 for every doubled 9 after the first position. */
  lemma {:induction false} FoldDecomposition(xs: seq<nat>)
    requires AllDigits(xs)
    ensures Fold(xs) + 9 * LateDoubledNines(xs) == AltSum(xs, true) + 9 * ZeroFirst(xs)
  {
    if xs != [] {
      var i := |xs| - 1;
      var init, v := xs[..i], xs[i];
      assert xs == init + [v];
      FoldDecomposition(init);
      AltSumSnoc(init, v, true);
      assert Fold(xs) == Step(Fold(init), v, i);
      assert LateDoubledNines(xs) == LateDoubledNines(init) + (if i >= 2 && i % 2 == 0 && v == 9 then 1 else 0);
      if i == 0 {
        assert init == [];
      } else {
        assert ZeroFirst(xs) == ZeroFirst(init);
      }
    }
  }

  /** Luhn's sum over `r` (digits from the right), corrected by +9 when the second
      digit from the right is 0 and by -9 for each doubled 9 further left. */
  function CorrectedSum(r: seq<nat>): int
    requires |r| > 0
  {
    AltSum(r, false) + 9 * ZeroFirst(r[1..]) - 9 * LateDoubledNines(r[1..])
  }

  /** Adding the check digit to the reducer's sum gives the corrected Luhn sum. */
  lemma {:induction false} FoldPlusCheckDigit(r: seq<nat>)
    requires AllDigits(r) && |r| > 0
    ensures Fold(r[1..]) + r[0] == CorrectedSum(r)
  {
    var rest := r[1..];
    assert AltSum(r, false) == r[0] + AltSum(rest, true);
    FoldDecomposition(rest);
  }

  /** `luhnCheck` accepts exactly when the corrected Luhn sum is a multiple of 10. */
  lemma {:induction false} LuhnCheckCharacterisation(s: string)
    requires IsDigits(s)
    ensures LuhnCheck(s) <==> |s| > 0 && CorrectedSum(ReversedDigits(s)) % 10 == 0
  {
    var r := ReversedDigits(s);
    if |r| > 0 {
      FoldPlusCheckDigit(r);
    }
  }

  /** Where the two corrections cancel modulo 10, `luhnCheck` is exactly the
      ISO/IEC 7812-1 check. */
  lemma {:induction false} AgreesWithLuhn(s: string)
    requires IsDigits(s)
    requires var r := ReversedDigits(s); |r| > 0 ==> (ZeroFirst(r[1..]) - LateDoubledNines(r[1..])) % 10 == 0
    ensures LuhnCheck(s) <==> StdLuhnValid(s)
  {
    var r := ReversedDigits(s);
    LuhnCheckCharacterisation(s);
    if |r| > 0 {
      var a, d := AltSum(r, false), ZeroFirst(r[1..]) - LateDoubledNines(r[1..]);
      assert CorrectedSum(r) == a + 9 * d;
      NinesKeepResidue(a, d);
    }
  }

  /** Adding nine times a multiple of 10 leaves the residue modulo 10 unchanged. */
  lemma {:induction false} NinesKeepResidue(a: int, d: int)
    requires d % 10 == 0
    ensures (a + 9 * d) % 10 == a % 10
  {
    var q, e, t := a / 10, a % 10, d / 10;
    assert a == 10 * q + e && d == 10 * t;
    assert a + 9 * d == 10 * (q + 9 * t) + e;
  }

  /** When the two corrections do not cancel modulo 10, no number passes both checks:
      every such number that Luhn accepts, `luhnCheck` rejects. */
  lemma {:induction false} NeverBothWhenCorrected(s: string)
    requires IsDigits(s)
    requires var r := ReversedDigits(s); |r| > 0 && (ZeroFirst(r[1..]) - LateDoubledNines(r[1..])) % 10 != 0
    ensures !(LuhnCheck(s) && StdLuhnValid(s))
  {
    var r := ReversedDigits(s);
    LuhnCheckCharacterisation(s);
    var a, d := AltSum(r, false), ZeroFirst(r[1..]) - LateDoubledNines(r[1..]);
    assert CorrectedSum(r) == a + 9 * d;
    if a % 10 == 0 {
      NinesShiftResidue(a, d);
    }
  }

  /** Adding nine times a non-multiple of 10 to a multiple of 10 leaves a non-multiple. */
  lemma {:induction false} NinesShiftResidue(a: int, d: int)
    requires a % 10 == 0 && d % 10 != 0
    ensures (a + 9 * d) % 10 != 0
  {
    var k, t, e := a / 10, d / 10, d % 10;
    assert a == 10 * k && d == 10 * t + e && 1 <= e <= 9;
    assert a + 9 * d == 10 * (k + 9 * t + e - 1) + (10 - e);
  }

  /** "00" passes Luhn but not `luhnCheck`: `|| 9` makes the leading 0 count as 9. */
  lemma ZeroZeroRejected()
    ensures StdLuhnValid("00") && !LuhnCheck("00")
  {
    assert ReversedDigits("00") == [0, 0];
    assert [0, 0][1..] == [0];
    assert Fold([0]) == 9;
  }

  /** "01" passes `luhnCheck` but not Luhn. */
  lemma ZeroOneAccepted()
    ensures LuhnCheck("01") && !StdLuhnValid("01")
  {
    assert ReversedDigits("01") == [1, 0];
    assert [1, 0][1..] == [0];
    assert Fold([0]) == 9;
  }

  /** "9019" passes Luhn but not `luhnCheck`: its leading 9 is doubled to 0 instead of 9. */
  lemma DoubledNineRejected()
    ensures StdLuhnValid("9019") && !LuhnCheck("9019")
  {
    var r := ReversedDigits("9019");
    assert r == [9, 1, 0, 9];
    assert r[1..] == [1, 0, 9];
    assert [1, 0, 9][..2] == [1, 0];
    assert [1, 0][..1] == [1];
    assert Fold([1]) == 2;
    assert Fold([1, 0]) == 2;
    assert Fold([1, 0, 9]) == 2;
    assert [1, 0, 9][1..] == [0, 9] && [0, 9][1..] == [9] && [9][1..] == [];
    assert AltSum([9], true) == 9;
    assert AltSum([0, 9], false) == 9;
    assert AltSum([1, 0, 9], true) == 11;
  }

  /** Exactly one digit added to `f` reaches a multiple of 10. */
  lemma {:induction false} CompletesToTen(f: nat, v: nat)
    requires v <= 9
    ensures (f + v) % 10 == 0 <==> v == (10 - f % 10) % 10
  {
    var q, m := f / 10, f % 10;
    assert f + v == 10 * q + (m + v);
    if m + v < 10 {
      assert (f + v) % 10 == m + v;
    } else {
      assert f + v == 10 * (q + 1) + (m + v - 10);
      assert (f + v) % 10 == m + v - 10;
    }
  }

  /** Whatever digits precede it, exactly one final digit makes `luhnCheck` pass:
      the digits left of the check digit fix the reducer's sum, and the check digit is added unchanged. */
  lemma {:induction false} UniqueCheckDigit(body: string, c: char)
    requires IsDigits(body) && IsDigit(c)
    ensures IsDigits(body + [c])
    ensures LuhnCheck(body + [c]) <==> DigitValue(c) == CheckDigit(body)
  {
    var s := body + [c];
    assert s[..|s| - 1] == body;
    var r := ReversedDigits(s);
    assert r[0] == DigitValue(c);
    assert r[1..] == ReversedDigits(body);
    CompletesToTen(Fold(ReversedDigits(body)), DigitValue(c));
  }

  /** The fold takes one more step for one more element. */
  lemma {:induction false} FoldSnoc(xs: seq<nat>, v: nat)
    ensures Fold(xs + [v]) == Step(Fold(xs), v, |xs|)
  {
    assert (xs + [v])[..|xs|] == xs;
  }

  /** The digits of the example body, right to left. */
  lemma {:induction false} BodyDigits()
    ensures IsDigits("453914880343646")
    ensures ReversedDigits("453914880343646") == [6, 4, 6, 3, 4, 3, 0, 8, 8, 4, 1, 9, 3, 5, 4]
  {
    var body := "453914880343646";
    var r := ReversedDigits(body);
    var q: seq<nat> := [6, 4, 6, 3, 4, 3, 0, 8, 8, 4, 1, 9, 3, 5, 4];
    assert r[0] == DigitValue(body[14]) == 6;
    assert r[1] == DigitValue(body[13]) == 4;
    assert r[2] == DigitValue(body[12]) == 6;
    assert r[3] == DigitValue(body[11]) == 3;
    assert r[4] == DigitValue(body[10]) == 4;
    assert r[5] == DigitValue(body[9]) == 3;
    assert r[6] == DigitValue(body[8]) == 0;
    assert r[7] == DigitValue(body[7]) == 8;
    assert r[8] == DigitValue(body[6]) == 8;
    assert r[9] == DigitValue(body[5]) == 4;
    assert r[10] == DigitValue(body[4]) == 1;
    assert r[11] == DigitValue(body[3]) == 9;
    assert r[12] == DigitValue(body[2]) == 3;
    assert r[13] == DigitValue(body[1]) == 5;
    assert r[14] == DigitValue(body[0]) == 4;
    assert r == q;
  }

  /** The reducer's sum over the first eight of those digits. */
  lemma {:induction false} BodyFoldFront()
    ensures Fold([6, 4, 6, 3, 4, 3, 0, 8]) == 32
  {
    var p: seq<nat> := [];
    FoldSnoc(p, 6);  p := p + [6];  assert Fold(p) == 3;
    FoldSnoc(p, 4);  p := p + [4];  assert Fold(p) == 7;
    FoldSnoc(p, 6);  p := p + [6];  assert Fold(p) == 10;
    FoldSnoc(p, 3);  p := p + [3];  assert Fold(p) == 13;
    FoldSnoc(p, 4);  p := p + [4];  assert Fold(p) == 21;
    FoldSnoc(p, 3);  p := p + [3];  assert Fold(p) == 24;
    FoldSnoc(p, 0);  p := p + [0];  assert Fold(p) == 24;
    FoldSnoc(p, 8);  p := p + [8];  assert Fold(p) == 32;
    assert p == [6, 4, 6, 3, 4, 3, 0, 8];
  }

  /** The reducer's sum over all of them. */
  lemma {:induction false} BodyFold()
    ensures Fold([6, 4, 6, 3, 4, 3, 0, 8, 8, 4, 1, 9, 3, 5, 4]) == 73
  {
    var p: seq<nat> := [6, 4, 6, 3, 4, 3, 0, 8];
    BodyFoldFront();
    FoldSnoc(p, 8);  p := p + [8];  assert Fold(p) == 39;
    FoldSnoc(p, 4);  p := p + [4];  assert Fold(p) == 43;
    FoldSnoc(p, 1);  p := p + [1];  assert Fold(p) == 45;
    FoldSnoc(p, 9);  p := p + [9];  assert Fold(p) == 54;
    FoldSnoc(p, 3);  p := p + [3];  assert Fold(p) == 60;
    FoldSnoc(p, 5);  p := p + [5];  assert Fold(p) == 65;
    FoldSnoc(p, 4);  p := p + [4];  assert Fold(p) == 73;
    assert p == [6, 4, 6, 3, 4, 3, 0, 8, 8, 4, 1, 9, 3, 5, 4];
  }

  /** A number `luhnCheck` accepts, and the same number with its last digit
      raised by one, which it rejects. */
  lemma {:induction false} KnownValidNumber()
    ensures IsDigits("4539148803436467") && LuhnCheck("4539148803436467")
    ensures IsDigits("4539148803436468") && !LuhnCheck("4539148803436468")
  {
    var body := "453914880343646";
    BodyDigits();
    BodyFold();
    assert CheckDigit(body) == 7;
    assert body + ['7'] == "4539148803436467";
    assert body + ['8'] == "4539148803436468";
    UniqueCheckDigit(body, '7');
    UniqueCheckDigit(body, '8');
  }
}
