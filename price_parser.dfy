/**
 * Price text to number: `parse_price` in marketmap.py and its twin
 * `_parse_price` in allegro_drission_scraper.py. Both delete non-breaking
 * spaces and spaces, turn every comma into a point, and read the leftmost
 * run matching the regular expression `\d+\.?\d*`. The number is kept as the
 * matched decimal (integer digits, an optional point, fraction digits) and
 * its exact value, not as a binary float.
 */
module PriceParser {
  import opened Wrappers
  import opened Text

  const Nbsp: char := '\U{00A0}'

  // ----- cleaning -----

  /** `s.replace(c, "")`. */
  function RemoveChar(s: string, c: char): (r: string)
    ensures |r| <= |s|
    ensures forall k :: 0 <= k < |r| ==> r[k] != c
  {
    if s == [] then []
    else (if s[0] == c then [] else [s[0]]) + RemoveChar(s[1..], c)
  }

  /** `s.replace(a, b)` for single characters. */
  function ReplaceChar(s: string, a: char, b: char): (r: string)
    ensures |r| == |s|
    ensures forall k :: 0 <= k < |s| ==> r[k] == if s[k] == a then b else s[k]
  {
    if s == [] then []
    else [if s[0] == a then b else s[0]] + ReplaceChar(s[1..], a, b)
  }

  /** The cleaning of `_parse_price`: NBSP and spaces deleted, commas to points. */
  function CleanDrission(raw: string): string {
    ReplaceChar(RemoveChar(RemoveChar(raw, Nbsp), ' '), ',', '.')
  }

  /** The cleaning of `parse_price`: NBSP to space, spaces deleted, commas to points. */
  function CleanMarketmap(raw: string): string {
    ReplaceChar(RemoveChar(ReplaceChar(raw, Nbsp, ' '), ' '), ',', '.')
  }

  // ----- the regular expression `\d+\.?\d*`, searched leftmost -----

  predicate HasDigit(s: string) {
    exists k :: 0 <= k < |s| && IsDigit(s[k])
  }

  /** The first digit at or after `i`, or `|s|` when there is none. */
  function FirstDigit(s: string, i: nat): (j: nat)
    requires i <= |s|
    ensures i <= j <= |s|
    ensures j < |s| ==> IsDigit(s[j])
    ensures forall k :: i <= k < j ==> !IsDigit(s[k])
    decreases |s| - i
  {
    if i == |s| || IsDigit(s[i]) then i else FirstDigit(s, i + 1)
  }

  /** The end of the run of digits that starts at `i` (greedy `\d*`). */
  function DigitRunEnd(s: string, i: nat): (j: nat)
    requires i <= |s|
    ensures i <= j <= |s|
    ensures j < |s| ==> !IsDigit(s[j])
    ensures forall k :: i <= k < j ==> IsDigit(s[k])
    decreases |s| - i
  {
    if i < |s| && IsDigit(s[i]) then DigitRunEnd(s, i + 1) else i
  }

  /** A matched number: integer digits, whether a point follows, fraction digits. */
  datatype Decimal = Decimal(whole: string, point: bool, fraction: string)

  /** `match.group(1)`. */
  function MatchText(d: Decimal): string {
    d.whole + (if d.point then "." else "") + d.fraction
  }

  /** `d` is a text the pattern `\d+\.?\d*` can match. */
  predicate WellFormedNumber(d: Decimal) {
    |d.whole| >= 1 && AllDigits(d.whole) && AllDigits(d.fraction) && (!d.point ==> d.fraction == [])
  }

  /** `d` occurs in `s` at `i`, and the greedy pattern would stop exactly at its end. */
  predicate MatchesAt(s: string, i: nat, d: Decimal) {
    var e := i + |MatchText(d)|;
    WellFormedNumber(d) && e <= |s| && s[i..e] == MatchText(d)
    && (e == |s| || (!IsDigit(s[e]) && (!d.point ==> s[e] != '.')))
  }

  /** `re.search(r"(\d+\.?\d*)", s)`. */
  function Search(s: string): (r: Option<Decimal>)
    ensures r.Some? ==> WellFormedNumber(r.value)
  {
    var i := FirstDigit(s, 0);
    if i == |s| then None
    else
      var e := DigitRunEnd(s, i);
      if e < |s| && s[e] == '.' then
        Some(Decimal(s[i..e], true, s[e + 1..DigitRunEnd(s, e + 1)]))
      else Some(Decimal(s[i..e], false, ""))
  }

  function Pow10(n: nat): (r: nat)
    ensures r >= 1
  {
    if n == 0 then 1 else 10 * Pow10(n - 1)
  }

  /** `float(match.group(1))`, exactly: defined for every text the pattern matches,
      so the `ValueError` branch can never be taken. */
  function Value(d: Decimal): real
    requires WellFormedNumber(d)
  {
    DigitsValue(d.whole) as real + DigitsValue(d.fraction) as real / Pow10(|d.fraction|) as real
  }

  function ReadNumber(cleaned: string): Option<real> {
    match Search(cleaned)
    case None => None
    case Some(d) => Some(Value(d))
  }

  /** `AllegroDrissionScraper._parse_price`. */
  function ParsePrice(priceText: string): Option<real> {
    if priceText == [] then None else ReadNumber(CleanDrission(priceText))
  }

  /** `parse_price` in marketmap.py. */
  function ParsePriceMarketmap(raw: string): Option<real> {
    if raw == [] then None else ReadNumber(CleanMarketmap(raw))
  }

  // ----- the two cleanings agree -----

  lemma {:induction false} RemoveAfterReplace(s: string, a: char, b: char)
    ensures RemoveChar(ReplaceChar(s, a, b), b) == RemoveChar(RemoveChar(s, a), b)
  {
    if s != [] {
      RemoveAfterReplace(s[1..], a, b);
      assert ReplaceChar(s, a, b)[1..] == ReplaceChar(s[1..], a, b);
      if s[0] == a {
        assert RemoveChar(s, a) == RemoveChar(s[1..], a);
      } else {
        assert RemoveChar(s, a) == [s[0]] + RemoveChar(s[1..], a);
        assert (RemoveChar(s, a))[1..] == RemoveChar(s[1..], a);
      }
    }
  }

  /** Mapping NBSP to a space and then deleting spaces is deleting both. */
  lemma CleaningsAgree(raw: string)
    ensures CleanMarketmap(raw) == CleanDrission(raw)
  {
    RemoveAfterReplace(raw, Nbsp, ' ');
  }

  /** The two price parsers return the same value for every input. */
  lemma TwinsAgree(raw: string)
    ensures ParsePriceMarketmap(raw) == ParsePrice(raw)
  {
    CleaningsAgree(raw);
  }

  // ----- cleaning keeps the digits -----

  /** The digits of a string, in order. */
  function Digits(s: string): (r: string)
    ensures AllDigits(r)
  {
    if s == [] then [] else (if IsDigit(s[0]) then [s[0]] else []) + Digits(s[1..])
  }

  lemma {:induction false} DigitsEmpty(s: string)
    ensures Digits(s) == [] <==> !HasDigit(s)
  {
    if s != [] {
      DigitsEmpty(s[1..]);
      if !IsDigit(s[0]) {
        forall k | 1 <= k < |s| && IsDigit(s[k])
          ensures HasDigit(s[1..])
        {
          assert s[1..][k - 1] == s[k];
        }
      }
    }
  }

  lemma {:induction false} RemoveKeepsDigits(s: string, c: char)
    requires !IsDigit(c)
    ensures Digits(RemoveChar(s, c)) == Digits(s)
  {
    if s != [] {
      RemoveKeepsDigits(s[1..], c);
      if s[0] == c {
        assert RemoveChar(s, c) == RemoveChar(s[1..], c);
      } else {
        assert RemoveChar(s, c)[1..] == RemoveChar(s[1..], c);
      }
    }
  }

  lemma {:induction false} ReplaceKeepsDigits(s: string, a: char, b: char)
    requires !IsDigit(a) && !IsDigit(b)
    ensures Digits(ReplaceChar(s, a, b)) == Digits(s)
  {
    if s != [] {
      ReplaceKeepsDigits(s[1..], a, b);
      assert ReplaceChar(s, a, b)[1..] == ReplaceChar(s[1..], a, b);
    }
  }

  /** Cleaning deletes every NBSP, space and comma and keeps every digit, in order. */
  lemma CleaningMeaning(raw: string)
    ensures forall k :: 0 <= k < |CleanDrission(raw)| ==> CleanDrission(raw)[k] !in {Nbsp, ' ', ','}
    ensures Digits(CleanDrission(raw)) == Digits(raw)
  {
    var once := RemoveChar(raw, Nbsp);
    var twice := RemoveChar(once, ' ');
    forall k | 0 <= k < |twice|
      ensures twice[k] != Nbsp
    {
      RemoveCharKeepsOut(once, ' ', Nbsp, k);
    }
    RemoveKeepsDigits(raw, Nbsp);
    RemoveKeepsDigits(once, ' ');
    ReplaceKeepsDigits(twice, ',', '.');
  }

  lemma {:induction false} RemoveCharKeepsOut(s: string, c: char, x: char, k: nat)
    requires forall i :: 0 <= i < |s| ==> s[i] != x
    requires k < |RemoveChar(s, c)|
    ensures RemoveChar(s, c)[k] != x
  {
    if s[0] == c {
      RemoveCharKeepsOut(s[1..], c, x, k);
    } else if k > 0 {
      RemoveCharKeepsOut(s[1..], c, x, k - 1);
    }
  }

  // ----- the result -----

  /** No number exactly when the text has no ASCII digit, empty text included. */
  lemma NoneIffNoDigit(priceText: string)
    ensures ParsePrice(priceText).None? <==> !HasDigit(priceText)
  {
    if priceText != [] {
      var cleaned := CleanDrission(priceText);
      CleaningMeaning(priceText);
      DigitsEmpty(priceText);
      DigitsEmpty(cleaned);
      if FirstDigit(cleaned, 0) == |cleaned| {
        assert !HasDigit(cleaned);
      }
    }
  }

  /** The pattern has no sign: a price is never negative. */
  lemma NeverNegative(priceText: string)
    ensures ParsePrice(priceText).Some? ==> ParsePrice(priceText).value >= 0.0
  {
    if priceText != [] {
      var found := Search(CleanDrission(priceText));
      if found.Some? {
        ValueNonNegative(found.value);
      }
    }
  }

  lemma ValueNonNegative(d: Decimal)
    requires WellFormedNumber(d)
    ensures Value(d) >= 0.0
  {
  }

  lemma {:induction false} FirstDigitIs(s: string, i: nat, j: nat)
    requires i <= j < |s| && IsDigit(s[j])
    requires forall k :: i <= k < j ==> !IsDigit(s[k])
    ensures FirstDigit(s, i) == j
    decreases j - i
  {
    if i < j {
      FirstDigitIs(s, i + 1, j);
    }
  }

  lemma {:induction false} DigitRunEndIs(s: string, i: nat, j: nat)
    requires i <= j <= |s|
    requires forall k :: i <= k < j ==> IsDigit(s[k])
    requires j < |s| ==> !IsDigit(s[j])
    ensures DigitRunEnd(s, i) == j
    decreases j - i
  {
    if i < j {
      DigitRunEndIs(s, i + 1, j);
    }
  }

  lemma PointMatch(s: string, i: nat, e: nat, f: nat, d: Decimal)
    requires i < e < f <= |s| && s[e] == '.' && (f == |s| || !IsDigit(s[f]))
    requires d == Decimal(s[i..e], true, s[e + 1..f]) && WellFormedNumber(d)
    ensures MatchesAt(s, i, d)
  {
    assert MatchText(d) == s[i..e] + "." + s[e + 1..f];
    assert s[i..f] == s[i..e] + [s[e]] + s[e + 1..f];
  }

  lemma PlainMatch(s: string, i: nat, e: nat, d: Decimal)
    requires i < e <= |s| && (e == |s| || (!IsDigit(s[e]) && s[e] != '.'))
    requires d == Decimal(s[i..e], false, "") && WellFormedNumber(d)
    ensures MatchesAt(s, i, d)
  {
    assert MatchText(d) == s[i..e];
  }

  /** `Search` finds the leftmost match, and the greedy pattern stops where it says. */
  lemma SearchFindsLeftmostMatch(s: string)
    ensures Search(s).Some? ==>
      exists i :: 0 <= i <= |s| && MatchesAt(s, i, Search(s).value)
                 && forall k :: 0 <= k < i ==> !IsDigit(s[k])
  {
    if Search(s).Some? {
      var d := Search(s).value;
      var i := FirstDigit(s, 0);
      var e := DigitRunEnd(s, i);
      if e < |s| && s[e] == '.' {
        PointMatch(s, i, e, DigitRunEnd(s, e + 1), d);
      } else {
        PlainMatch(s, i, e, d);
      }
    }
  }

  lemma SliceOfDigits(s: string, a: nat, t: string)
    requires a + |t| <= |s| && s[a..a + |t|] == t && AllDigits(t)
    ensures forall k :: a <= k < a + |t| ==> IsDigit(s[k])
  {
    forall k | a <= k < a + |t|
      ensures IsDigit(s[k])
    {
      assert s[k] == t[k - a];
    }
  }

  /** The pieces of a match laid out in `s`. */
  lemma MatchPieces(s: string, i: nat, d: Decimal)
    requires MatchesAt(s, i, d)
    ensures var w := i + |d.whole|;
      w <= |s| && s[i..w] == d.whole
      && (d.point ==> w < |s| && s[w] == '.' && w + 1 + |d.fraction| <= |s| && s[w + 1..w + 1 + |d.fraction|] == d.fraction)
  {
    var w := i + |d.whole|;
    var t := MatchText(d);
    assert s[i..w] == t[..|d.whole|];
    if d.point {
      assert s[w] == t[|d.whole|];
      assert s[w + 1..w + 1 + |d.fraction|] == t[|d.whole| + 1..];
    }
  }

  /** Conversely, a match at the first digit that the greedy pattern would stop at
      is exactly what `Search` returns. */
  lemma SearchIsThatMatch(s: string, i: nat, d: Decimal)
    requires i <= |s| && MatchesAt(s, i, d)
    requires forall k :: 0 <= k < i ==> !IsDigit(s[k])
    ensures Search(s) == Some(d)
  {
    var w := i + |d.whole|;
    MatchPieces(s, i, d);
    SliceOfDigits(s, i, d.whole);
    FirstDigitIs(s, 0, i);
    if d.point {
      var f := w + 1 + |d.fraction|;
      SliceOfDigits(s, w + 1, d.fraction);
      DigitRunEndIs(s, i, w);
      DigitRunEndIs(s, w + 1, f);
      SearchWithPoint(s, i, d);
    } else {
      assert MatchText(d) == d.whole;
      DigitRunEndIs(s, i, w);
      SearchWithoutPoint(s, i, d);
    }
  }

  lemma SearchWithPoint(s: string, i: nat, d: Decimal)
    requires d.point
    requires var w := i + |d.whole|; var f := w + 1 + |d.fraction|;
      i < |s| && FirstDigit(s, 0) == i && f <= |s|
      && DigitRunEnd(s, i) == w && s[w] == '.' && DigitRunEnd(s, w + 1) == f
      && s[i..w] == d.whole && s[w + 1..f] == d.fraction
    ensures Search(s) == Some(d)
  {
  }

  lemma SearchWithoutPoint(s: string, i: nat, d: Decimal)
    requires !d.point && d.fraction == []
    requires var w := i + |d.whole|;
      i < |s| && FirstDigit(s, 0) == i && w <= |s|
      && DigitRunEnd(s, i) == w && (w < |s| ==> s[w] != '.') && s[i..w] == d.whole
    ensures Search(s) == Some(d)
  {
  }

  lemma {:induction false} RemoveCharAppend(a: string, b: string, c: char)
    ensures RemoveChar(a + b, c) == RemoveChar(a, c) + RemoveChar(b, c)
  {
    if a != [] {
      assert (a + b)[1..] == a[1..] + b;
      RemoveCharAppend(a[1..], b, c);
    } else {
      assert a + b == b;
    }
  }

  lemma {:induction false} RemoveAbsent(s: string, c: char)
    requires forall k :: 0 <= k < |s| ==> s[k] != c
    ensures RemoveChar(s, c) == s
  {
    if s != [] {
      RemoveAbsent(s[1..], c);
    }
  }

  lemma {:induction false} ReplaceCharAppend(a: string, b: string, x: char, y: char)
    ensures ReplaceChar(a + b, x, y) == ReplaceChar(a, x, y) + ReplaceChar(b, x, y)
  {
  }

  lemma CleanAppend(a: string, b: string)
    ensures CleanDrission(a + b) == CleanDrission(a) + CleanDrission(b)
  {
    RemoveCharAppend(a, b, Nbsp);
    RemoveCharAppend(RemoveChar(a, Nbsp), RemoveChar(b, Nbsp), ' ');
    ReplaceCharAppend(RemoveChar(RemoveChar(a, Nbsp), ' '), RemoveChar(RemoveChar(b, Nbsp), ' '), ',', '.');
  }

  /** Text with nothing to clean is left as it is. */
  lemma CleanUntouched(s: string)
    requires forall k :: 0 <= k < |s| ==> s[k] !in {Nbsp, ' ', ','}
    ensures CleanDrission(s) == s
  {
    RemoveAbsent(s, Nbsp);
    RemoveAbsent(s, ' ');
    var r := ReplaceChar(s, ',', '.');
    assert forall k :: 0 <= k < |s| ==> r[k] == s[k];
  }

  lemma AllDigitsAppend(a: string, b: string)
    requires AllDigits(a) && AllDigits(b)
    ensures AllDigits(a + b)
  {
    assert forall k :: 0 <= k < |a + b| ==> (a + b)[k] == if k < |a| then a[k] else b[k - |a|];
  }

  lemma CleanExtend(x: string, y: string, cx: string, cy: string)
    requires CleanDrission(x) == cx && CleanDrission(y) == cy
    ensures CleanDrission(x + y) == cx + cy
  {
    CleanAppend(x, y);
  }

  lemma CleanGrouped(a: string, b: string, c: string, unit: string)
    requires AllDigits(a) && AllDigits(b) && AllDigits(c)
    requires forall k :: 0 <= k < |unit| ==> unit[k] !in {Nbsp, ' ', ','}
    ensures CleanDrission(a + " " + b + "," + c + " " + unit) == a + b + "." + c + unit
  {
    CleanUntouched(a);
    CleanUntouched(b);
    CleanUntouched(c);
    CleanUntouched(unit);
    assert CleanDrission(" ") == "";
    assert CleanDrission(",") == ".";
    CleanExtend(a, " ", a, "");
    assert a + "" == a;
    CleanExtend(a + " ", b, a, b);
    CleanExtend(a + " " + b, ",", a + b, ".");
    CleanExtend(a + " " + b + ",", c, a + b + ".", c);
    CleanExtend(a + " " + b + "," + c, " ", a + b + "." + c, "");
    assert a + b + "." + c + "" == a + b + "." + c;
    CleanExtend(a + " " + b + "," + c + " ", unit, a + b + "." + c, unit);
  }

  lemma SearchGrouped(whole: string, c: string, unit: string)
    requires |whole| >= 1 && AllDigits(whole) && AllDigits(c)
    requires |unit| > 0 ==> !IsDigit(unit[0])
    ensures Search(whole + "." + c + unit) == Some(Decimal(whole, true, c))
  {
    var cleaned := whole + "." + c + unit;
    var d := Decimal(whole, true, c);
    assert MatchText(d) == whole + "." + c;
    assert cleaned[..|MatchText(d)|] == MatchText(d);
    assert |MatchText(d)| < |cleaned| ==> cleaned[|MatchText(d)|] == unit[0];
    assert MatchesAt(cleaned, 0, d);
    SearchIsThatMatch(cleaned, 0, d);
  }

  /** A price written with a space between thousands and a decimal comma, such
      as `'1 299,50 zł'`: the groups are joined and the comma read as a point. */
  lemma GroupedThousands(a: string, b: string, c: string, unit: string)
    requires |a| >= 1 && AllDigits(a) && AllDigits(b) && AllDigits(c)
    requires forall k :: 0 <= k < |unit| ==> unit[k] !in {Nbsp, ' ', ','} && !IsDigit(unit[k])
    ensures ParsePrice(a + " " + b + "," + c + " " + unit) == Some(Value(Decimal(a + b, true, c)))
  {
    CleanGrouped(a, b, c, unit);
    AllDigitsAppend(a, b);
    SearchGrouped(a + b, c, unit);
  }

  lemma ValueExample()
    ensures Value(Decimal("1299", true, "50")) == 1299.5
  {
    assert DigitsValue("1") == 1;
    assert DigitsValue("12") == 12 by { assert "12"[..1] == "1"; }
    assert DigitsValue("129") == 129 by { assert "129"[..2] == "12"; }
    assert DigitsValue("1299") == 1299 by { assert "1299"[..3] == "129"; }
    assert DigitsValue("5") == 5;
    assert DigitsValue("50") == 50 by { assert "50"[..1] == "5"; }
    assert Pow10(2) == 100;
  }

  /** `'1 299,50 zł'` reads as 1299.50. */
  lemma GroupedExample()
    ensures ParsePrice("1 299,50 z\U{0142}") == Some(1299.5)
  {
    assert "1 299,50 z\U{0142}" == "1" + " " + "299" + "," + "50" + " " + "z\U{0142}";
    assert "1" + "299" == "1299";
    GroupedThousands("1", "299", "50", "z\U{0142}");
    ValueExample();
  }

  /** The texts of the example below, glued from their pieces. */
  lemma FirstRunTexts()
    ensures "1.299" + "," == "1.299," && "1.299" + "." == "1.299."
    ensures "1.299," + "50" == "1.299,50" && "1.299." + "50" == "1.299.50"
    ensures "1" + "." + "299" + ".50" == "1.299.50"
  {
  }

  lemma CleanCommaFraction()
    ensures CleanDrission("1.299,50") == "1.299.50"
  {
    CleanUntouched("1.299");
    CleanUntouched("50");
    assert CleanDrission(",") == ".";
    FirstRunTexts();
    CleanExtend("1.299", ",", "1.299", ".");
    CleanExtend("1.299,", "50", "1.299.", "50");
  }

  lemma SmallDigitValues()
    ensures DigitsValue("1") == 1 && DigitsValue("12") == 12 && DigitsValue("299") == 299
  {
    assert DigitsValue("12") == 12 by { assert "12"[..1] == "1"; }
    assert DigitsValue("29") == 29 by { assert "29"[..1] == "2"; }
    assert DigitsValue("299") == 299 by { assert "299"[..2] == "29"; }
  }

  /** Only the first run is read: `'1.299,50'` is cleaned to `'1.299.50'` and gives 1.299. */
  lemma OnlyTheFirstRunCounts()
    ensures ParsePrice("1.299,50") == Some(1.299)
  {
    CleanCommaFraction();
    FirstRunTexts();
    SearchGrouped("1", "299", ".50");
    SmallDigitValues();
    assert Pow10(3) == 1000;
  }

  lemma TrailingPointText()
    ensures CleanDrission("12.") == "12." == "12" + "." + "" + ""
  {
    CleanUntouched("12.");
  }

  /** A match ending in a point is still a number: `'12.'` gives 12. */
  lemma TrailingPoint()
    ensures ParsePrice("12.") == Some(12.0)
  {
    TrailingPointText();
    SearchGrouped("12", "", "");
    SmallDigitValues();
  }
}
