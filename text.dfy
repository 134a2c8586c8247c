/** The JavaScript string and number built-ins the bot relies on, restricted to
    what it uses: decimal rendering of non-negative integers (`String(n)`,
    `n.toString()`), `padStart`, `slice(-k)`, `substring(0, k)`, `split` and
    `join` with a one-character separator, `trim`, `replace(/\D/g, '')` and
    ASCII `toUpperCase`. Strings are sequences of characters; encoding is not
    modelled. */
module Text {

  datatype Option<T> = None | Some(value: T)

  // ---------------------------------------------------------------- digits

  predicate IsDigit(c: char) { '0' <= c <= '9' }

  predicate IsDigits(s: string) { forall i :: 0 <= i < |s| ==> IsDigit(s[i]) }

  function DigitValue(c: char): (d: nat)
    requires IsDigit(c)
    ensures d <= 9
  {
    c as int - '0' as int
  }

  function DigitChar(d: nat): (c: char)
    requires d <= 9
    ensures IsDigit(c) && DigitValue(c) == d
  {
    (d + '0' as int) as char
  }

  function Pow10(k: nat): (p: nat)
    ensures p >= 1
  {
    if k == 0 then 1 else 10 * Pow10(k - 1)
  }

  /** `n` written in `k` zeros. */
  function Zeros(k: nat): (s: string)
    ensures |s| == k && IsDigits(s)
    ensures forall i :: 0 <= i < k ==> s[i] == '0'
  {
    if k == 0 then [] else Zeros(k - 1) + ['0']
  }

  /** The value of a decimal digit string read left to right (leading zeros allowed). */
  function ValueOf(s: string): nat
    requires IsDigits(s)
  {
    if s == [] then 0 else 10 * ValueOf(s[..|s| - 1]) + DigitValue(s[|s| - 1])
  }

  /** `String(n)` for a non-negative integer below 10^21: its decimal digits, no leading zero. */
  function DecimalString(n: nat): (s: string)
    ensures |s| >= 1 && IsDigits(s)
  {
    if n < 10 then [DigitChar(n)] else DecimalString(n / 10) + [DigitChar(n % 10)]
  }

  /** The `w` low-order decimal digits of `n`, most significant first. */
  function FixedWidth(n: nat, w: nat): (s: string)
    ensures |s| == w && IsDigits(s)
  {
    if w == 0 then [] else FixedWidth(n / 10, w - 1) + [DigitChar(n % 10)]
  }

  // ------------------------------------------------------ string built-ins

  /** `s.padStart(w, c)` with a one-character pad. */
  function PadStart(s: string, w: nat, c: char): string
  {
    if |s| >= w then s else Repeat(c, w - |s|) + s
  }

  function Repeat(c: char, k: nat): (s: string)
    ensures |s| == k && forall i :: 0 <= i < k ==> s[i] == c
  {
    if k == 0 then [] else Repeat(c, k - 1) + [c]
  }

  /** `s.substring(0, k)` for `k >= 0`. */
  function Take(s: string, k: nat): (r: string)
    ensures |r| == if |s| < k then |s| else k
  {
    if |s| <= k then s else s[..k]
  }

  /** `s.slice(-k)` for `k >= 1`. */
  function LastChars(s: string, k: nat): (r: string)
    ensures |r| == if |s| < k then |s| else k
  {
    if |s| <= k then s else s[|s| - k..]
  }

  /** `s.split(sep)` with a one-character separator. */
  function Split(s: string, sep: char): (parts: seq<string>)
    ensures |parts| >= 1
  {
    if s == [] then [""]
    else
      var rest := Split(s[1..], sep);
      if s[0] == sep then [""] + rest else [[s[0]] + rest[0]] + rest[1..]
  }

  /** `parts.join(sep)` with a one-character separator. */
  function Join(parts: seq<string>, sep: char): string
  {
    if |parts| == 0 then ""
    else if |parts| == 1 then parts[0]
    else parts[0] + [sep] + Join(parts[1..], sep)
  }

  /** The characters `String.prototype.trim` removes. */
  predicate IsWhitespace(c: char)
  {
    c == ' ' || c == '\t' || c == '\n' || c == '\U{000B}' || c == '\U{000C}' || c == '\r'
    || c == '\U{00A0}' || c == '\U{1680}' || ('\U{2000}' <= c <= '\U{200A}')
    || c == '\U{2028}' || c == '\U{2029}' || c == '\U{202F}' || c == '\U{205F}'
    || c == '\U{3000}' || c == '\U{FEFF}'
  }

  function TrimStart(s: string): (r: string)
    ensures |r| <= |s| && r == s[|s| - |r|..]
    ensures r != [] ==> !IsWhitespace(r[0])
    ensures forall i :: 0 <= i < |s| - |r| ==> IsWhitespace(s[i])
  {
    if s != [] && IsWhitespace(s[0]) then TrimStart(s[1..]) else s
  }

  function TrimEnd(s: string): (r: string)
    ensures |r| <= |s| && r == s[..|r|]
    ensures r != [] ==> !IsWhitespace(r[|r| - 1])
    ensures forall i :: |r| <= i < |s| ==> IsWhitespace(s[i])
  {
    if s != [] && IsWhitespace(s[|s| - 1]) then TrimEnd(s[..|s| - 1]) else s
  }

  /** `s.trim()`: `s` without its leading and trailing whitespace (`TrimCutsOnlyWhitespace`). */
  function Trim(s: string): (r: string)
    ensures |r| <= |s|
    ensures r != [] ==> !IsWhitespace(r[0]) && !IsWhitespace(r[|r| - 1])
  {
    var t := TrimStart(s);
    var u := TrimEnd(t);
    assert u != [] ==> u[0] == t[0];
    u
  }

  /** `s.trim()` keeps a contiguous piece of `s` and cuts only whitespace: all of
      `s` before the piece and all of it after is whitespace. */
  lemma {:induction false} TrimCutsOnlyWhitespace(s: string)
    ensures exists i :: 0 <= i <= |s| - |Trim(s)| && Trim(s) == s[i..][..|Trim(s)|]
              && (forall j :: 0 <= j < i ==> IsWhitespace(s[j]))
              && (forall j :: i + |Trim(s)| <= j < |s| ==> IsWhitespace(s[j]))
  {
    var t := TrimStart(s);
    var u := TrimEnd(t);
    TrimmedPiece(s, t, u);
    var i := |s| - |t|;
    assert u == s[i..][..|u|];
  }

  /** Cutting whitespace off the front of `s` (giving `t`) and then off the back of
      `t` (giving `u`) leaves `u` as a piece of `s` with only whitespace around it. */
  lemma {:induction false} TrimmedPiece(s: string, t: string, u: string)
    requires |t| <= |s| && t == s[|s| - |t|..]
    requires forall j :: 0 <= j < |s| - |t| ==> IsWhitespace(s[j])
    requires |u| <= |t| && u == t[..|u|]
    requires forall j :: |u| <= j < |t| ==> IsWhitespace(t[j])
    ensures var i := |s| - |t|;
            i + |u| <= |s| && u == s[i..i + |u|]
            && (forall j :: 0 <= j < i ==> IsWhitespace(s[j]))
            && (forall j :: i + |u| <= j < |s| ==> IsWhitespace(s[j]))
  {
    var i := |s| - |t|;
    forall j | i + |u| <= j < |s|
      ensures IsWhitespace(s[j])
    {
      assert s[j] == t[j - i];
    }
  }

  /** `s.replace(/\D/g, '')`: the decimal digits of `s`, in order. */
  function KeepDigits(s: string): (r: string)
    ensures IsDigits(r) && |r| <= |s|
    ensures r == s <==> IsDigits(s)
  {
    if s == [] then []
    else if IsDigit(s[0]) then [s[0]] + KeepDigits(s[1..])
    else KeepDigits(s[1..])
  }

  predicate IsLowerAscii(c: char) { 'a' <= c <= 'z' }

  function UpperChar(c: char): char
  {
    if IsLowerAscii(c) then (c as int - 32) as char else c
  }

  /** `s.toUpperCase()`, for the ASCII letters only. */
  function ToUpper(s: string): (r: string)
    ensures |r| == |s|
    ensures forall i :: 0 <= i < |s| ==> r[i] == UpperChar(s[i])
  {
    if s == [] then [] else [UpperChar(s[0])] + ToUpper(s[1..])
  }

  // ---------------------------------------------------------------- lemmas

  /** Reading back the decimal rendering gives the number. */
  lemma {:induction false} DecimalStringValue(n: nat)
    ensures ValueOf(DecimalString(n)) == n
    decreases n
  {
    if n >= 10 {
      var s := DecimalString(n / 10);
      DecimalStringValue(n / 10);
      assert (s + [DigitChar(n % 10)])[..|s|] == s;
    }
  }

  /** `String(n)` has exactly `k + 1` characters when `10^k <= n < 10^(k+1)`. */
  lemma {:induction false} DecimalStringLength(n: nat, k: nat)
    requires Pow10(k) <= n < Pow10(k + 1)
    ensures |DecimalString(n)| == k + 1
    decreases k
  {
    if k > 0 {
      assert n >= 10;
      assert Pow10(k - 1) <= n / 10 < Pow10(k);
      DecimalStringLength(n / 10, k - 1);
    }
  }

  /** Rendering a digit string's value back at its own width gives the string (leading zeros included). */
  lemma {:induction false} FixedWidthOfValue(s: string)
    requires IsDigits(s)
    ensures ValueOf(s) < Pow10(|s|)
    ensures FixedWidth(ValueOf(s), |s|) == s
  {
    if s != [] {
      var init, d := s[..|s| - 1], DigitValue(s[|s| - 1]);
      FixedWidthOfValue(init);
      var v := ValueOf(s);
      assert v == 10 * ValueOf(init) + d;
      assert v / 10 == ValueOf(init) && v % 10 == d;
      assert s == init + [DigitChar(d)];
    }
  }

  /** Reading back a fixed-width rendering gives the number, when it fits. */
  lemma {:induction false} ValueOfFixedWidth(n: nat, w: nat)
    requires n < Pow10(w)
    ensures ValueOf(FixedWidth(n, w)) == n
  {
    if w > 0 {
      var s := FixedWidth(n / 10, w - 1);
      assert n / 10 < Pow10(w - 1);
      ValueOfFixedWidth(n / 10, w - 1);
      assert (s + [DigitChar(n % 10)])[..|s|] == s;
    }
  }

  lemma {:induction false} PadStartSnoc(s: string, w: nat, c: char, x: char)
    ensures PadStart(s + [x], w + 1, c) == PadStart(s, w, c) + [x]
  {
    if |s| < w {
      assert Repeat(c, w + 1 - |s + [x]|) == Repeat(c, w - |s|);
    }
  }

  lemma {:induction false} FixedWidthZero(w: nat)
    ensures FixedWidth(0, w) == Zeros(w)
  {
    if w > 0 { FixedWidthZero(w - 1); }
  }

  /** `String(n).padStart(w, '0')` is the `w`-digit rendering of `n` when `n < 10^w`. */
  lemma {:induction false} PaddedDecimal(n: nat, w: nat)
    requires 1 <= w && n < Pow10(w)
    ensures PadStart(DecimalString(n), w, '0') == FixedWidth(n, w)
    decreases w
  {
    if n < 10 {
      FixedWidthZero(w - 1);
      assert Repeat('0', w - 1) == Zeros(w - 1);
    } else {
      assert Pow10(1) == 10;
      assert w >= 2;
      assert n / 10 < Pow10(w - 1);
      PaddedDecimal(n / 10, w - 1);
      PadStartSnoc(DecimalString(n / 10), w - 1, '0', DigitChar(n % 10));
    }
  }

  /** The tens and units digits of `n` are those of `n % 100`. */
  lemma {:induction false} LowDigits(n: nat)
    ensures (n % 100) / 10 == (n / 10) % 10 && (n % 100) % 10 == n % 10
  {
    var q, r := n / 10, n % 10;
    var a, b := q / 10, q % 10;
    var m := 10 * b + r;
    assert n == 10 * q + r && q == 10 * a + b;
    assert n == 100 * a + m && 0 <= m < 100;
    assert n % 100 == m;
    assert m / 10 == b && m % 10 == r;
  }

  /** `String(n).slice(-2)` is the last two digits of `n`, for `n >= 10`. */
  lemma {:induction false} LastTwoDigits(n: nat)
    requires n >= 10
    ensures LastChars(DecimalString(n), 2) == FixedWidth(n % 100, 2)
  {
    var q, r := n / 10, n % 10;
    var hi := DecimalString(q);
    var s := DecimalString(n);
    assert s == hi + [DigitChar(r)];
    assert hi[|hi| - 1] == DigitChar(q % 10);
    assert LastChars(s, 2) == [DigitChar(q % 10), DigitChar(r)];
    LowDigits(n);
    var m := n % 100;
    assert FixedWidth(m, 2) == FixedWidth(m / 10, 1) + [DigitChar(m % 10)];
    assert FixedWidth(m / 10, 1) == [DigitChar((m / 10) % 10)];
  }

  /** Splitting a part that holds no separator gives the part alone. */
  lemma {:induction false} SplitNoSeparator(s: string, sep: char)
    requires sep !in s
    ensures Split(s, sep) == [s]
  {
    if s != [] {
      SplitNoSeparator(s[1..], sep);
      assert [s[0]] + s[1..] == s;
    }
  }

  /** A separator right after a separator-free part ends that part. */
  lemma {:induction false} SplitAtSeparator(a: string, sep: char, b: string)
    requires sep !in a
    ensures Split(a + [sep] + b, sep) == [a] + Split(b, sep)
  {
    if a == [] {
      assert ([sep] + b)[1..] == b;
    } else {
      assert (a + [sep] + b)[1..] == a[1..] + [sep] + b;
      SplitAtSeparator(a[1..], sep, b);
      assert [a[0]] + a[1..] == a;
    }
  }

  /** `split` undoes `join` when no part contains the separator. */
  lemma {:induction false} SplitJoin(parts: seq<string>, sep: char)
    requires |parts| >= 1
    requires forall i :: 0 <= i < |parts| ==> sep !in parts[i]
    ensures Split(Join(parts, sep), sep) == parts
  {
    if |parts| == 1 {
      SplitNoSeparator(parts[0], sep);
    } else {
      SplitJoin(parts[1..], sep);
      SplitAtSeparator(parts[0], sep, Join(parts[1..], sep));
    }
  }

  lemma {:induction false} KeepDigitsTrimStart(s: string)
    ensures KeepDigits(TrimStart(s)) == KeepDigits(s)
  {
    if s != [] && IsWhitespace(s[0]) { KeepDigitsTrimStart(s[1..]); }
  }

  /** The digit filter works piece by piece: the digits of a concatenation are the
      digits of the first part followed by those of the second, so order is kept. */
  lemma {:induction false} KeepDigitsConcat(a: string, b: string)
    ensures KeepDigits(a + b) == KeepDigits(a) + KeepDigits(b)
  {
    if a == [] {
      assert a + b == b;
    } else {
      assert (a + b)[1..] == a[1..] + b;
      KeepDigitsConcat(a[1..], b);
    }
  }

  /** The digit filter keeps every occurrence of every digit and nothing else. */
  lemma {:induction false} KeepDigitsCounts(s: string)
    ensures forall c :: multiset(KeepDigits(s))[c] == if IsDigit(c) then multiset(s)[c] else 0
  {
    if s != [] {
      KeepDigitsCounts(s[1..]);
      assert s == [s[0]] + s[1..];
    }
  }

  lemma {:induction false} KeepDigitsTrimEnd(s: string)
    ensures KeepDigits(TrimEnd(s)) == KeepDigits(s)
    decreases |s|
  {
    if s != [] && IsWhitespace(s[|s| - 1]) {
      var init := s[..|s| - 1];
      KeepDigitsTrimEnd(init);
      assert s == init + [s[|s| - 1]];
      KeepDigitsConcat(init, [s[|s| - 1]]);
    }
  }

  /** Trimming never removes a digit, so it does not change the digits kept. */
  lemma KeepDigitsTrim(s: string)
    ensures KeepDigits(Trim(s)) == KeepDigits(s)
  {
    KeepDigitsTrimStart(s);
    KeepDigitsTrimEnd(TrimStart(s));
  }

  /** Upper-casing leaves no lower-case ASCII letter and keeps the empty string empty. */
  lemma ToUpperNoLower(s: string)
    ensures forall i :: 0 <= i < |ToUpper(s)| ==> !IsLowerAscii(ToUpper(s)[i])
    ensures ToUpper(s) == [] <==> s == []
  {
  }
}
