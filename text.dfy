/**
 * String helpers the core relies on from Python's runtime: `str.isspace`,
 * `str.lower`, the substring test `needle in hay`, decimal rendering of
 * integers in f-strings, `" | ".join` and `list(dict.fromkeys(...))`.
 * Only the ASCII behaviour of `isspace` and `lower` is modelled.
 */
module Text {

  /** `str.isspace` restricted to ASCII: space, \t \n \v \f \r and the
      separators \x1c-\x1f, all of which Python counts as whitespace. */
  predicate IsSpace(c: char) {
    var k := c as int;
    k == 32 || 9 <= k <= 13 || 28 <= k <= 31
  }

  predicate IsDigit(c: char) {
    '0' <= c <= '9'
  }

  /** `str.lower` on one ASCII character. */
  function LowerChar(c: char): char {
    if 'A' <= c <= 'Z' then (c as int + 32) as char else c
  }

  function Lower(s: string): (r: string)
    ensures |r| == |s|
  {
    if s == [] then [] else [LowerChar(s[0])] + Lower(s[1..])
  }

  lemma {:induction false} LowerIdempotent(s: string)
    ensures Lower(Lower(s)) == Lower(s)
  {
    if s != [] {
      LowerIdempotent(s[1..]);
      assert Lower(s)[1..] == Lower(s[1..]);
    }
  }

  /** Python's `needle in hay` for strings, computed by trying every start. */
  function Contains(hay: string, needle: string): bool
    decreases |hay|
  {
    needle <= hay || (hay != [] && Contains(hay[1..], needle))
  }

  /** The textbook meaning of "substring": some window of `hay` equals `needle`. */
  ghost predicate OccursAt(hay: string, needle: string, i: int) {
    0 <= i && i + |needle| <= |hay| && hay[i..i + |needle|] == needle
  }

  lemma {:induction false} ContainsIsSubstring(hay: string, needle: string)
    ensures Contains(hay, needle) <==> exists i :: OccursAt(hay, needle, i)
    decreases |hay|
  {
    if needle <= hay {
      assert OccursAt(hay, needle, 0);
    } else if hay == [] {
      assert forall i :: OccursAt(hay, needle, i) ==> needle == [];
    } else {
      ContainsIsSubstring(hay[1..], needle);
      forall i | OccursAt(hay[1..], needle, i)
        ensures OccursAt(hay, needle, i + 1)
      {
        assert hay[1..][i..i + |needle|] == hay[i + 1..i + 1 + |needle|];
      }
      forall i | OccursAt(hay, needle, i)
        ensures OccursAt(hay[1..], needle, i - 1)
      {
        assert i == 0 ==> needle <= hay;
        assert hay[1..][i - 1..i - 1 + |needle|] == hay[i..i + |needle|];
      }
    }
  }

  // ----- integers as decimal text (f-string `{n}`) -----

  function DigitChar(d: nat): char
    requires d < 10
  {
    ('0' as int + d) as char
  }

  function DigitOf(c: char): nat
    requires IsDigit(c)
  {
    c as int - '0' as int
  }

  predicate AllDigits(s: string) {
    forall i :: 0 <= i < |s| ==> IsDigit(s[i])
  }

  /** The value of a run of ASCII digits, read most significant first. */
  function DigitsValue(s: string): nat
    requires AllDigits(s)
  {
    if s == [] then 0 else DigitsValue(s[..|s| - 1]) * 10 + DigitOf(s[|s| - 1])
  }

  /** Decimal rendering of a non-negative integer, as `f"{n}"` prints it. */
  function NatToString(n: nat): (s: string)
    ensures |s| > 0 && AllDigits(s)
    ensures s[0] == '0' ==> n == 0
  {
    if n < 10 then [DigitChar(n)] else NatToString(n / 10) + [DigitChar(n % 10)]
  }

  lemma {:induction false} NatToStringRoundTrip(n: nat)
    ensures DigitsValue(NatToString(n)) == n
  {
    var s := NatToString(n);
    if n >= 10 {
      NatToStringRoundTrip(n / 10);
      assert s[..|s| - 1] == NatToString(n / 10);
    }
  }

  /** `sep.join(parts)`. */
  function Join(parts: seq<string>, sep: string): string {
    if |parts| == 0 then ""
    else if |parts| == 1 then parts[0]
    else parts[0] + sep + Join(parts[1..], sep)
  }

  // ----- de-duplication that keeps first occurrences -----

  predicate Distinct(s: seq<string>) {
    forall i, j :: 0 <= i < j < |s| ==> s[i] != s[j]
  }

  /** Reference definition: keep `s[k]` exactly when it does not occur in `s[..k]`. */
  function KeepFirst(s: seq<string>): seq<string> {
    if s == [] then []
    else
      var p := s[..|s| - 1];
      var x := s[|s| - 1];
      KeepFirst(p) + (if x in p then [] else [x])
  }

  lemma {:induction false} KeepFirstHas(s: seq<string>, x: string)
    ensures x in KeepFirst(s) <==> x in s
  {
    if s != [] {
      var p := s[..|s| - 1];
      KeepFirstHas(p, x);
      assert s == p + [s[|s| - 1]];
    }
  }

  lemma {:induction false} KeepFirstDistinct(s: seq<string>)
    ensures Distinct(KeepFirst(s))
  {
    if s != [] {
      var p := s[..|s| - 1];
      KeepFirstDistinct(p);
      KeepFirstHas(p, s[|s| - 1]);
    }
  }

  /** `list(dict.fromkeys(s))`: insert each element into an insertion-ordered
      dictionary unless its key is already there; `acc` holds the keys so far. */
  function FromKeys(s: seq<string>, acc: seq<string>): seq<string> {
    if s == [] then acc else FromKeys(s[1..], if s[0] in acc then acc else acc + [s[0]])
  }

  function Dedup(s: seq<string>): seq<string> {
    FromKeys(s, [])
  }

  lemma KeepFirstSnoc(done: seq<string>, x: string)
    ensures KeepFirst(done + [x]) == if x in done then KeepFirst(done) else KeepFirst(done) + [x]
  {
    assert (done + [x])[..|done|] == done;
  }

  lemma {:induction false} FromKeysExtendsKeepFirst(done: seq<string>, rest: seq<string>)
    ensures FromKeys(rest, KeepFirst(done)) == KeepFirst(done + rest)
    decreases |rest|
  {
    if rest == [] {
      assert done + rest == done;
    } else {
      var x := rest[0];
      var acc := KeepFirst(done);
      assert FromKeys(rest, acc) == FromKeys(rest[1..], if x in acc then acc else acc + [x]);
      assert (if x in acc then acc else acc + [x]) == KeepFirst(done + [x]) by {
        KeepFirstHas(done, x);
        KeepFirstSnoc(done, x);
      }
      FromKeysExtendsKeepFirst(done + [x], rest[1..]);
      assert (done + [x]) + rest[1..] == done + rest;
    }
  }

  /** Exact-equality de-duplication keeps the first occurrence of each element. */
  lemma DedupKeepsFirstOccurrences(s: seq<string>)
    ensures Dedup(s) == KeepFirst(s)
    ensures Distinct(Dedup(s))
    ensures forall x :: x in Dedup(s) <==> x in s
  {
    FromKeysExtendsKeepFirst([], s);
    KeepFirstDistinct(s);
    forall x {
      KeepFirstHas(s, x);
    }
    assert KeepFirst([]) == [];
    assert [] + s == s;
  }
}
