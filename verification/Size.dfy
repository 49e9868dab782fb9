/** Printing a byte count with a binary unit and reading it back, in exact
    rational arithmetic.
    Models internal/types.go, lines 13 to 19 and 127 to 185.
 */
module Size {
  import opened JobTypes
  import opened Decimal

  const K: nat := 1024
  const M: nat := 1_048_576
  const G: nat := 1_073_741_824
  const T: nat := 1_099_511_627_776

  // ---------------------------------------------------------------------
  // Printing
  // ---------------------------------------------------------------------

  /** `n / unit` in hundredths, rounded to nearest, halves to even, as `%.2f`
      rounds. */
  function Hundredths(n: nat, unit: nat): nat
    requires 0 < unit
  {
    var q, r := n * 100 / unit, n * 100 % unit;
    if unit < 2 * r || (unit == 2 * r && q % 2 == 1) then q + 1 else q
  }

  function Fixed2(h: nat): string {
    Digits(h / 100) + "." + [Digit(h % 100 / 10), Digit(h % 100 % 10)]
  }

  function ParseSize(size: nat): string {
    if size > T then Fixed2(Hundredths(size, T)) + "T"
    else if size > G then Fixed2(Hundredths(size, G)) + "G"
    else if size > M then Fixed2(Hundredths(size, M)) + "M"
    else if size > K then Fixed2(Hundredths(size, K)) + "K"
    else if size != 0 then Digits(size) + "B"
    else ""
  }

  // ---------------------------------------------------------------------
  // Reading
  // ---------------------------------------------------------------------

  datatype Ratio = Ratio(num: nat, den: nat)

  function RemoveAll(s: string, c: char): string {
    if s == [] then [] else (if s[0] == c then [] else [s[0]]) + RemoveAll(s[1..], c)
  }

  predicate HasSuffix(s: string, c: char) {
    s != [] && s[|s| - 1] == c
  }

  function TrimSuffix(s: string, c: char): string {
    if HasSuffix(s, c) then s[..|s| - 1] else s
  }

  function Upper(s: string): string {
    seq(|s|, i requires 0 <= i < |s| => if 'a' <= s[i] <= 'z' then s[i] - 'a' + 'A' else s[i])
  }

  function Pow10(k: nat): nat {
    if k == 0 then 1 else 10 * Pow10(k - 1)
  }

  /** Digits, and optionally a point with digits on both sides. */
  predicate IsPlain(s: string) {
    var k := CountDigits(s);
    && 0 < k
    && (k == |s| || (s[k] == '.' && k + 1 < |s| && CountDigits(s[k + 1..]) == |s| - k - 1))
  }

  /** The number a string denotes: the empty string is an error, plain decimals
      have their value, and whatever else the library accepts or refuses is the
      parameter `other`. */
  function ParseFloat(s: string, other: string -> Option<Ratio>): Option<Ratio> {
    if s == [] then None
    else if !IsPlain(s) then other(s)
    else
      var k := CountDigits(s);
      var whole := s[..k];
      if k == |s| then Some(Ratio(ParseNat(whole), 1))
      else
        var frac := s[k + 1..];
        Some(Ratio(ParseNat(whole) * Pow10(|frac|) + ParseNat(frac), Pow10(|frac|)))
  }

  function UnitOf(c: char): Option<nat> {
    if c == 'T' then Some(T) else if c == 'G' then Some(G) else if c == 'M' then Some(M) else if c == 'K' then Some(K)
    else None
  }

  function Truncate(r: Ratio): nat {
    if r.den == 0 then 0 else r.num / r.den
  }

  /** White space, a bit or byte mark and the `i` of a binary unit removed, and
      whether the mark was that of bits. */
  function Clean(str: string): (bool, string) {
    var s := RemoveAll(RemoveAll(str, ' '), '\n');
    var isBit := HasSuffix(s, 'b');
    var s := if isBit then TrimSuffix(s, 'b') else TrimSuffix(s, 'B');
    (isBit, Upper(TrimSuffix(s, 'i')))
  }

  /** The value of a cleaned string: a number and a unit, or only a number. */
  function Value(s: string, other: string -> Option<Ratio>): Option<Ratio>
    requires s != []
  {
    match ParseFloat(s[..|s| - 1], other)
    case None => None
    case Some(raw) =>
      match UnitOf(s[|s| - 1])
      case Some(unit) => Some(Ratio(raw.num * unit, raw.den))
      case None => ParseFloat(s, other)
  }

  function ParseSizeStr(str: string, other: string -> Option<Ratio>): nat {
    if str == "" || str == "unknown" then 0
    else
      var (isBit, s) := Clean(str);
      if s == [] then 0
      else
        match Value(s, other)
        case None => 0
        case Some(v) => Truncate(if isBit then v.(den := v.den * 8) else v)
  }

  // ---------------------------------------------------------------------
  // Reading back what was printed
  // ---------------------------------------------------------------------

  /** The unit a size is printed in. */
  function PrintUnit(n: nat): nat {
    if n > T then T else if n > G then G else if n > M then M else if n > K then K else 1
  }

  /** What remains of a size after printing and reading. */
  function Shown(n: nat): nat {
    if n < 10 then 0
    else if n <= K then n
    else Hundredths(n, PrintUnit(n)) * PrintUnit(n) / 100
  }

  predicate Unchanged(s: string) {
    forall c | c in s :: c != ' ' && c != '\n' && !('a' <= c <= 'z')
  }

  lemma {:induction false} RemoveNothing(s: string, c: char)
    requires c !in s
    ensures RemoveAll(s, c) == s
  {
    if s != [] {
      RemoveNothing(s[1..], c);
    }
  }

  lemma UpperNothing(s: string)
    requires Unchanged(s)
    ensures Upper(s) == s
  {
    forall i | 0 <= i < |s| ensures Upper(s)[i] == s[i] {
      assert s[i] in s;
    }
  }

  lemma {:induction false} CountAll(s: string)
    requires forall c | c in s :: IsDigit(c)
    ensures CountDigits(s) == |s|
  {
    if s != [] {
      assert s[0] in s;
      CountAll(s[1..]);
    }
  }

  /** The two printed decimals read back as hundredths. */
  lemma ReadFixed2(h: nat, other: string -> Option<Ratio>)
    ensures ParseFloat(Fixed2(h), other) == Some(Ratio(h, 100))
  {
    var whole, frac := Digits(h / 100), [Digit(h % 100 / 10), Digit(h % 100 % 10)];
    var s := Fixed2(h);
    assert s == whole + ("." + frac);
    CountBeforeTail(whole, "." + frac);
    CountAll(frac);
    assert s[|whole|] == '.' && s[..|whole|] == whole && s[|whole| + 1..] == frac;
    ParseDigits(h / 100);
    TwoDigits(h);
  }

  lemma TwoDigits(h: nat)
    ensures var frac := [Digit(h % 100 / 10), Digit(h % 100 % 10)];
            ParseNat(frac) == h % 100 && Pow10(2) == 100
  {
    var frac := [Digit(h % 100 / 10), Digit(h % 100 % 10)];
    assert frac[..1] == [frac[0]] && frac[..1][..0] == [];
    assert ParseNat(frac[..1]) == DigitValue(frac[0]) == h % 100 / 10;
    assert DigitValue(frac[1]) == h % 100 % 10;
    assert Pow10(2) == 10 * Pow10(1) && Pow10(1) == 10;
  }

  lemma CleanNothing(str: string)
    requires Unchanged(str) && str != [] && str[|str| - 1] != 'B'
    ensures Clean(str) == (false, str) && str != "unknown"
  {
    RemoveNothing(str, ' ');
    RemoveNothing(str, '\n');
    UpperNothing(str);
    assert str[0] in str && str[|str| - 1] in str;
  }

  lemma CleanBytes(s: string)
    requires Unchanged(s) && s != []
    ensures Clean(s + "B") == (false, s) && s + "B" != "unknown"
  {
    var str := s + "B";
    forall c | c in str ensures c != ' ' && c != '\n' {
      assert c in s || c == 'B';
    }
    RemoveNothing(str, ' ');
    RemoveNothing(str, '\n');
    assert str[|str| - 1] == 'B' && str[..|str| - 1] == s;
    assert s[|s| - 1] in s;
    UpperNothing(s);
  }

  lemma ReadUnit(h: nat, c: char, other: string -> Option<Ratio>)
    requires UnitOf(c).Some?
    ensures ParseSizeStr(Fixed2(h) + [c], other) == h * UnitOf(c).value / 100
  {
    var s := Fixed2(h);
    assert Unchanged(s + [c]);
    ReadFixed2(h, other);
    hide Fixed2, ParseFloat, Clean;
    assert (s + [c])[..|s|] == s;
    CleanNothing(s + [c]);
  }

  /** A plain byte count reads back exactly, unless it has one digit: the digit
      is then taken for a unit and the number in front of it is empty. */
  lemma ReadBytes(n: nat, other: string -> Option<Ratio>)
    requires 0 < n
    ensures ParseSizeStr(Digits(n) + "B", other) == if n < 10 then 0 else n
  {
    var ds := Digits(n);
    CleanBytes(ds);
    BytesValue(n, other);
    hide Clean, Digits, Value;
  }

  lemma BytesValue(n: nat, other: string -> Option<Ratio>)
    ensures Value(Digits(n), other) == if n < 10 then None else Some(Ratio(n, 1))
  {
    var ds := Digits(n);
    assert IsDigit(ds[|ds| - 1]) by { assert ds[|ds| - 1] in ds; }
    ReadDigits(ds, n, other);
    if n < 10 {
      assert ds[..|ds| - 1] == [];
    } else {
      assert ds[..|ds| - 1] == Digits(n / 10);
      ReadDigits(ds[..|ds| - 1], n / 10, other);
      hide ParseFloat, Digits;
    }
  }

  lemma ReadDigits(ds: string, n: nat, other: string -> Option<Ratio>)
    requires ds == Digits(n)
    ensures ParseFloat(ds, other) == Some(Ratio(n, 1))
  {
    CountAll(ds);
    ParseDigits(n);
    assert ds[..|ds|] == ds;
  }

  /** Printing and reading composed, for every size and whatever the library
      makes of strings that are not plain decimals. */
  lemma RoundTrip(n: nat, other: string -> Option<Ratio>)
    ensures ParseSizeStr(ParseSize(n), other) == Shown(n)
  {
    hide Fixed2, ParseSizeStr, Hundredths;
    if n > T { ReadUnit(Hundredths(n, T), 'T', other); }
    else if n > G { ReadUnit(Hundredths(n, G), 'G', other); }
    else if n > M { ReadUnit(Hundredths(n, M), 'M', other); }
    else if n > K { ReadUnit(Hundredths(n, K), 'K', other); }
    else if n != 0 { ReadBytes(n, other); }
    else { ReadEmpty(other); }
  }

  lemma ReadEmpty(other: string -> Option<Ratio>)
    ensures ParseSizeStr("", other) == 0 && ParseSizeStr("unknown", other) == 0
  {
  }

  // ---------------------------------------------------------------------
  // How far off, and in which order
  // ---------------------------------------------------------------------

  /** Rounding to hundredths moves a size by at most half a hundredth unit. */
  lemma HundredthsNear(n: nat, unit: nat)
    requires 0 < unit
    ensures 0 <= 2 * (Hundredths(n, unit) * unit - n * 100) + unit <= 2 * unit
  {
    var q, r := n * 100 / unit, n * 100 % unit;
    assert n * 100 == q * unit + r;
    assert (q + 1) * unit == q * unit + unit;
  }

  /** A size exactly between two hundredths goes to the even one. */
  lemma HundredthsEven(n: nat, unit: nat)
    requires 0 < unit
    ensures var off := 2 * (Hundredths(n, unit) * unit - n * 100);
            off == unit || off == -(unit as int) ==> Hundredths(n, unit) % 2 == 0
  {
    var q, r := n * 100 / unit, n * 100 % unit;
    assert n * 100 == q * unit + r;
    assert (q + 1) * unit == q * unit + unit;
  }

  /** Above a kibibyte the error is at most a two-hundredth of the printed unit
      plus one byte; from ten bytes to a kibibyte there is none; below ten bytes
      the size is lost. */
  lemma RoundTripError(n: nat)
    ensures n < 10 ==> Shown(n) == 0
    ensures 10 <= n <= K ==> Shown(n) == n
    ensures K < n ==> 200 * Shown(n) <= 200 * n + PrintUnit(n) && 200 * n <= 200 * Shown(n) + PrintUnit(n) + 200
  {
    if K < n {
      HundredthsNear(n, PrintUnit(n));
    }
  }

  lemma HundredthsMonotone(m: nat, n: nat, unit: nat)
    requires 0 < unit && m <= n
    ensures Hundredths(m, unit) <= Hundredths(n, unit)
  {
    var a, b := m * 100, n * 100;
    assert a == a / unit * unit + a % unit && b == b / unit * unit + b % unit;
    QuotientMonotone(a, b, unit);
    if a / unit == b / unit {
      assert a % unit <= b % unit;
    }
  }

  lemma MulMonotone(x: int, y: int, u: nat)
    ensures x <= y ==> x * u <= y * u
  {
    assert y * u - x * u == (y - x) * u;
  }

  lemma QuotientMonotone(a: nat, b: nat, unit: nat)
    requires 0 < unit && a <= b
    ensures a / unit <= b / unit
  {
    var qa, qb := a / unit, b / unit;
    assert a == qa * unit + a % unit && b == qb * unit + b % unit;
    MulMonotone(qb + 1, qa, unit);
    assert (qb + 1) * unit == qb * unit + unit;
  }

  lemma ProductMonotone(g: nat, h: nat, unit: nat)
    requires g <= h
    ensures g * unit / 100 <= h * unit / 100
  {
    assert g * unit <= h * unit;
    QuotientMonotone(g * unit, h * unit, 100);
  }

  /** Below the next unit a size never reads back as more than that unit, and
      above its own unit never as less than that. */
  lemma WithinUnit(n: nat)
    requires K < n
    ensures PrintUnit(n) <= Shown(n)
    ensures n <= M ==> Shown(n) <= M
    ensures n <= G ==> Shown(n) <= G
    ensures n <= T ==> Shown(n) <= T
  {
    HundredthsMonotone(PrintUnit(n), n, PrintUnit(n));
    ProductMonotone(100, Hundredths(n, PrintUnit(n)), PrintUnit(n));
    if n <= T {
      var u := PrintUnit(n);
      HundredthsMonotone(n, u * 1024, u);
      ProductMonotone(Hundredths(n, u), 102400, u);
    }
  }

  /** A larger size never reads back as a smaller one, across all units. */
  lemma RoundTripMonotone(m: nat, n: nat)
    requires m <= n
    ensures Shown(m) <= Shown(n)
  {
    if K < m && PrintUnit(m) == PrintUnit(n) {
      HundredthsMonotone(m, n, PrintUnit(n));
      ProductMonotone(Hundredths(m, PrintUnit(n)), Hundredths(n, PrintUnit(n)), PrintUnit(n));
    } else if K < n {
      WithinUnit(n);
      if K < m { WithinUnit(m); }
    }
  }

  /** The law of the pair: what is read back from a printed size is the size
      itself up to a kibibyte, except that sizes of one digit are lost, is off by
      at most a two-hundredth of the printed unit plus one byte above that, and
      never swaps the order of two sizes. */
  lemma PrintedSizes(m: nat, n: nat, other: string -> Option<Ratio>)
    requires m <= n
    ensures var back := ParseSizeStr(ParseSize(n), other);
            && (n <= K ==> (back == n <==> n == 0 || 10 <= n) && (n < 10 ==> back == 0))
            && (K < n ==> 200 * back <= 200 * n + PrintUnit(n) && 200 * n <= 200 * back + PrintUnit(n) + 200)
            && ParseSizeStr(ParseSize(m), other) <= back
  {
    RoundTrip(m, other);
    RoundTrip(n, other);
    RoundTripError(n);
    RoundTripMonotone(m, n);
    hide Shown, ParseSizeStr;
  }

  // ---------------------------------------------------------------------
  // What each unit is
  // ---------------------------------------------------------------------

  /** How a size is printed: nothing for zero, up to a kibibyte the number of bytes,
      above that the nearest hundredths of the largest unit below it, the even one
      if two are equally near. */
  lemma PrintsAs(n: nat, other: string -> Option<Ratio>)
    ensures n == 0 <==> ParseSize(n) == ""
    ensures 0 < n <= 1024 ==> ParseSize(n) == Digits(n) + "B"
    ensures 1024 < n ==>
              var s := ParseSize(n);
              var unit := if n <= 1048576 then 1024 else if n <= 1073741824 then 1048576
                          else if n <= 1099511627776 then 1073741824 else 1099511627776;
              var letter := if n <= 1048576 then 'K' else if n <= 1073741824 then 'M'
                            else if n <= 1099511627776 then 'G' else 'T';
              && 4 < |s| && s[|s| - 1] == letter && s[|s| - 4] == '.'
              && var h := ParseFloat(s[..|s| - 1], other);
              && h.Some? && h.value.den == 100 && 0 <= 2 * (h.value.num * unit - n * 100) + unit <= 2 * unit
              && var off := 2 * (h.value.num * unit - n * 100);
              && (off == unit || off == -unit ==> h.value.num % 2 == 0)
  {
    if 1024 < n {
      var unit := PrintUnit(n);
      var h := Hundredths(n, unit);
      HundredthsNear(n, unit);
      HundredthsEven(n, unit);
      ReadFixed2(h, other);
      var s := ParseSize(n);
      assert s[..|s| - 1] == Fixed2(h);
      hide Hundredths, ParseFloat, Digits;
    }
  }

  predicate Marks(binary: string, mark: string) {
    (binary == "" || binary == "i") && (mark == "" || mark == "b" || mark == "B")
  }

  predicate PlainChars(s: string) {
    forall c | c in s :: IsDigit(c) || c == '.'
  }

  /** The mark of bits or bytes is taken off. */
  lemma TrimMark(s: string, mark: string)
    requires s != [] && s[|s| - 1] != 'b' && s[|s| - 1] != 'B' && (mark == "" || mark == "b" || mark == "B")
    ensures HasSuffix(s + mark, 'b') <==> mark == "b"
    ensures TrimSuffix(s + mark, if mark == "b" then 'b' else 'B') == s
  {
    if mark == "" {
      assert s + mark == s;
    } else {
      assert (s + mark)[|s|] == mark[0] && (s + mark)[..|s|] == s;
    }
  }

  lemma TrimBinary(s: string, binary: string)
    requires s != [] && s[|s| - 1] != 'i' && (binary == "" || binary == "i")
    ensures TrimSuffix(s + binary, 'i') == s
  {
    if binary == "" {
      assert s + binary == s;
    } else {
      assert (s + binary)[|s|] == 'i' && (s + binary)[..|s|] == s;
    }
  }

  function UpperChar(c: char): char {
    if 'a' <= c <= 'z' then c - 'a' + 'A' else c
  }

  lemma UpperUnit(num: string, c: char)
    requires PlainChars(num)
    ensures Upper(num + [c]) == num + [UpperChar(c)]
  {
    var upper := Upper(num + [c]);
    forall i | 0 <= i < |num| ensures upper[i] == num[i] {
      assert num[i] in num;
    }
  }

  lemma CleanMarks(num: string, c: char, binary: string, mark: string)
    requires PlainChars(num) && Marks(binary, mark) && ('A' <= c <= 'Z' || 'a' <= c <= 'z')
    requires c != 'b' && c != 'B' && c != 'i'
    ensures Clean(num + [c] + binary + mark) == (mark == "b", num + [UpperChar(c)])
  {
    var s, str := num + [c] + binary, num + [c] + binary + mark;
    forall d | d in str ensures d != ' ' && d != '\n' {
      assert d in num || d == c || d in binary || d in mark;
    }
    RemoveNothing(str, ' ');
    RemoveNothing(str, '\n');
    assert s[|s| - 1] == if binary == "" then c else 'i';
    TrimMark(s, mark);
    TrimBinary(num + [c], binary);
    UpperUnit(num, c);
    hide RemoveAll, HasSuffix, TrimSuffix, Upper, UpperChar, PlainChars;
  }

  lemma PlainIsPlain(num: string)
    requires IsPlain(num)
    ensures PlainChars(num) && num != []
  {
    var k := CountDigits(num);
    if k < |num| {
      var frac := num[k + 1..];
      assert forall i | 0 <= i < |frac| :: IsDigit(frac[i]);
      assert forall i | k + 1 <= i < |num| :: num[i] == frac[i - k - 1];
    }
  }

  /** Reading a plain decimal with a unit: upper or lower case, with or without the
      `i` of a binary unit, in bytes or, with a lower-case `b`, in bits. */
  lemma ReadSuffix(num: string, c: char, binary: string, mark: string, other: string -> Option<Ratio>)
    requires IsPlain(num) && c in "TGMKtgmk" && Marks(binary, mark)
    ensures ParseFloat(num, other).Some?
    ensures var unit := match c {
              case 'K' => 1024 case 'k' => 1024 case 'M' => 1048576 case 'm' => 1048576
              case 'G' => 1073741824 case 'g' => 1073741824 case _ => 1099511627776
            };
            var v := ParseFloat(num, other).value;
            && 0 < v.den
            && ParseSizeStr(num + [c] + binary + mark, other) == v.num * unit / (v.den * if mark == "b" then 8 else 1)
  {
    PlainIsPlain(num);
    CleanMarks(num, c, binary, mark);
    DenPositive(num, other);
    UnitValue(num, c, other);
    var str := num + [c] + binary + mark;
    assert str[0] == num[0] && num[0] in num;
    assert str != "unknown" && str != "";
    hide Clean, ParseFloat, IsPlain, Value, PlainChars;
  }

  lemma UnitValue(num: string, c: char, other: string -> Option<Ratio>)
    requires c in "TGMKtgmk" && ParseFloat(num, other).Some?
    ensures var unit := match c {
              case 'K' => 1024 case 'k' => 1024 case 'M' => 1048576 case 'm' => 1048576
              case 'G' => 1073741824 case 'g' => 1073741824 case _ => 1099511627776
            };
            var v := ParseFloat(num, other).value;
            Value(num + [UpperChar(c)], other) == Some(Ratio(v.num * unit, v.den))
  {
    assert (num + [UpperChar(c)])[..|num|] == num;
    hide ParseFloat;
  }

  /** A decimal is its digits without the point over a power of ten, the one with as
      many zeros as there are digits behind the point. */
  lemma PlainValue(whole: string, frac: string, other: string -> Option<Ratio>)
    requires whole != [] && frac != [] && (forall c | c in whole :: IsDigit(c)) && (forall c | c in frac :: IsDigit(c))
    requires forall c | c in whole + frac :: IsDigit(c)
    ensures IsPlain(whole + "." + frac)
    ensures ParseFloat(whole + "." + frac, other) == Some(Ratio(ParseNat(whole + frac), Pow10(|frac|)))
  {
    PointParts(whole, frac);
    PointFloat(whole + "." + frac, whole, frac, other);
    ParseConcat(whole, frac);
    hide CountDigits, ParseNat, Pow10, ParseFloat, IsPlain;
  }

  lemma PointFloat(s: string, whole: string, frac: string, other: string -> Option<Ratio>)
    requires (forall c | c in whole :: IsDigit(c)) && (forall c | c in frac :: IsDigit(c)) && whole != [] && frac != []
    requires |s| == |whole| + 1 + |frac| && CountDigits(s) == |whole| && CountDigits(frac) == |frac|
    requires s[..|whole|] == whole && s[|whole|] == '.' && s[|whole| + 1..] == frac
    ensures IsPlain(s)
    ensures ParseFloat(s, other) ==
            Some(Ratio(ParseNat(whole) * Pow10(|frac|) + ParseNat(frac), Pow10(|frac|)))
  {
    hide CountDigits, ParseNat, Pow10;
  }

  lemma PointParts(whole: string, frac: string)
    requires whole != [] && frac != [] && (forall c | c in whole :: IsDigit(c)) && forall c | c in frac :: IsDigit(c)
    ensures var s := whole + "." + frac;
            && CountDigits(s) == |whole| && s[..|whole|] == whole && s[|whole|] == '.' && s[|whole| + 1..] == frac
            && CountDigits(frac) == |frac|
  {
    var s := whole + "." + frac;
    assert s == whole + ("." + frac);
    CountBeforeTail(whole, "." + frac);
    CountAll(frac);
    hide CountDigits;
  }

  /** That power, as it is written. */
  function Zeros(k: nat): string {
    seq(k, i => '0')
  }

  lemma {:induction false} ParseConcat(a: string, b: string)
    requires (forall c | c in a :: IsDigit(c)) && (forall c | c in b :: IsDigit(c))
    requires forall c | c in a + b :: IsDigit(c)
    ensures ParseNat(a + b) == ParseNat(a) * Pow10(|b|) + ParseNat(b)
  {
    if b == [] {
      assert a + b == a;
    } else {
      var n := |b| - 1;
      assert (a + b)[..|a| + n] == a + b[..n] && (a + b)[|a| + n] == b[n];
      assert forall c | c in b[..n] :: c in b;
      assert forall c | c in a + b[..n] :: c in a + b;
      ParseConcat(a, b[..n]);
      assert ParseNat(a + b) == ParseNat(a + b[..n]) * 10 + DigitValue(b[n]);
      assert ParseNat(b) == ParseNat(b[..n]) * 10 + DigitValue(b[n]) && Pow10(|b|) == 10 * Pow10(n);
      hide ParseNat, Pow10, DigitValue, IsDigit;
      TimesTen(ParseNat(a), Pow10(n), ParseNat(b[..n]));
    }
  }

  lemma TimesTen(x: nat, p: nat, y: nat)
    ensures (x * p + y) * 10 == x * (10 * p) + y * 10
  {
  }

  lemma {:induction false} OneAndZeros(k: nat)
    ensures (forall c | c in "1" + Zeros(k) :: IsDigit(c)) && ParseNat("1" + Zeros(k)) == Pow10(k)
  {
    var s := "1" + Zeros(k);
    assert forall c | c in s :: c == '1' || c == '0';
    if k == 0 {
      assert s == "1" && s[..0] == [];
    } else {
      OneAndZeros(k - 1);
      assert s[..k] == "1" + Zeros(k - 1);
      assert s[k] == '0' && DigitValue('0') == 0;
    }
  }

  lemma {:induction false} Pow10Positive(k: nat)
    ensures 0 < Pow10(k)
  {
    if 0 < k {
      Pow10Positive(k - 1);
    }
  }

  lemma DenPositive(num: string, other: string -> Option<Ratio>)
    requires IsPlain(num)
    ensures ParseFloat(num, other).Some? && 0 < ParseFloat(num, other).value.den
  {
    Pow10Positive(|num[CountDigits(num)..]|);
    var k := CountDigits(num);
    if k < |num| {
      Pow10Positive(|num[k + 1..]|);
    }
  }

  lemma {:induction false} RemoveConcat(a: string, b: string, c: char)
    ensures RemoveAll(a + b, c) == RemoveAll(a, c) + RemoveAll(b, c)
  {
    if a == [] {
      assert a + b == b;
    } else {
      assert (a + b)[1..] == a[1..] + b;
      RemoveConcat(a[1..], b, c);
    }
  }

  lemma RemoveMiddle(a: string, d: char, b: string, c: char)
    ensures RemoveAll(a + b, c) == RemoveAll(a, c) + RemoveAll(b, c)
    ensures RemoveAll(a + [d] + b, c) == RemoveAll(a, c) + (if d == c then [] else [d]) + RemoveAll(b, c)
  {
    RemoveConcat(a, b, c);
    RemoveConcat(a + [d], b, c);
    RemoveConcat(a, [d], c);
    assert RemoveAll([d][1..], c) == [];
    assert RemoveAll([d], c) == if d == c then [] else [d];
  }

  /** Blanks and line ends anywhere in a size do not matter. */
  lemma BlanksIgnored(a: string, w: char, b: string, other: string -> Option<Ratio>)
    requires (w == ' ' || w == '\n') && a + b != "unknown"
    ensures ParseSizeStr(a + [w] + b, other) == ParseSizeStr(a + b, other)
  {
    var str, str' := a + [w] + b, a + b;
    BlankGone(a, w, b);
    assert str[|a|] == w && w in str && w !in "unknown";
    assert str != "unknown" && str != "";
    assert Clean(str) == Clean(str');
    EmptyClean();
    hide Clean, RemoveAll, Value;
  }

  lemma BlankGone(a: string, w: char, b: string)
    requires w == ' ' || w == '\n'
    ensures RemoveAll(RemoveAll(a + [w] + b, ' '), '\n') == RemoveAll(RemoveAll(a + b, ' '), '\n')
  {
    var a', b' := RemoveAll(a, ' '), RemoveAll(b, ' ');
    RemoveMiddle(a, w, b, ' ');
    hide RemoveAll;
    if w == ' ' {
      assert a' + [] + b' == a' + b';
    } else {
      RemoveMiddle(a', w, b', '\n');
      assert RemoveAll(a', '\n') + [] + RemoveAll(b', '\n') == RemoveAll(a', '\n') + RemoveAll(b', '\n');
    }
  }

  lemma EmptyClean()
    ensures Clean("").1 == []
  {
  }
}
