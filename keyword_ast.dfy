/**
 * The syntax tree of a keyword filter (`KeywordNode`, `AndNode`, `OrNode`)
 * and its three queries: `evaluate`, `get_keywords` and
 * `get_matched_keywords`.
 */
module KeywordAst {
  import opened Text

  datatype Node =
    | KeywordNode(keyword: string)
    | AndNode(left: Node, right: Node)
    | OrNode(left: Node, right: Node)

  /** A keyword occurs in a text when its lower-case form is a substring of
      the lower-cased text. */
  predicate KeywordIn(keyword: string, text: string) {
    Contains(Lower(text), Lower(keyword))
  }

  /** `evaluate`: leaves test for a substring, inner nodes combine their children. */
  predicate Evaluate(n: Node, text: string) {
    match n
    case KeywordNode(k) => KeywordIn(k, text)
    case AndNode(l, r) => Evaluate(l, text) && Evaluate(r, text)
    case OrNode(l, r) => Evaluate(l, text) || Evaluate(r, text)
  }

  /** `get_keywords`: every leaf, left subtree first. */
  function Keywords(n: Node): seq<string> {
    match n
    case KeywordNode(k) => [k]
    case AndNode(l, r) => Keywords(l) + Keywords(r)
    case OrNode(l, r) => Keywords(l) + Keywords(r)
  }

  /** `get_matched_keywords`: the leaves that occur in the text, whatever the
      operators above them. */
  function MatchedKeywords(n: Node, text: string): seq<string> {
    match n
    case KeywordNode(k) => if KeywordIn(k, text) then [k] else []
    case AndNode(l, r) => MatchedKeywords(l, text) + MatchedKeywords(r, text)
    case OrNode(l, r) => MatchedKeywords(l, text) + MatchedKeywords(r, text)
  }

  /** Reference definition: the keywords of a list that occur in the text, in order. */
  function OccurringIn(ks: seq<string>, text: string): seq<string> {
    if ks == [] then []
    else (if KeywordIn(ks[0], text) then [ks[0]] else []) + OccurringIn(ks[1..], text)
  }

  /** `a` is obtained from `b` by deleting elements: each element of `b` is
      either kept as the next element of `a` or skipped. */
  predicate IsSubsequence(a: seq<string>, b: seq<string>) {
    if b == [] then a == []
    else (a != [] && a[0] == b[0] && IsSubsequence(a[1..], b[1..])) || IsSubsequence(a, b[1..])
  }

  // ----- lemmas -----

  /** A leaf's test is the textbook substring test, case-insensitively. */
  lemma KeywordInMeaning(keyword: string, text: string)
    ensures KeywordIn(keyword, text) <==> exists i :: OccursAt(Lower(text), Lower(keyword), i)
  {
    ContainsIsSubstring(Lower(text), Lower(keyword));
    assert KeywordIn(keyword, text) == Contains(Lower(text), Lower(keyword));
  }

  /** A filter never sees the case of the text: lower-casing it first changes nothing. */
  lemma {:induction false} EvaluateIgnoresCase(n: Node, text: string)
    ensures Evaluate(n, Lower(text)) == Evaluate(n, text)
  {
    match n
    case KeywordNode(_) => LowerIdempotent(text);
    case AndNode(l, r) =>
      EvaluateIgnoresCase(l, text);
      EvaluateIgnoresCase(r, text);
    case OrNode(l, r) =>
      EvaluateIgnoresCase(l, text);
      EvaluateIgnoresCase(r, text);
  }

  lemma {:induction false} KeywordsNonEmpty(n: Node)
    ensures |Keywords(n)| >= 1
  {
    match n
    case KeywordNode(_) =>
    case AndNode(l, r) => KeywordsNonEmpty(l);
    case OrNode(l, r) => KeywordsNonEmpty(r);
  }

  lemma {:induction false} OccurringInAppend(a: seq<string>, b: seq<string>, text: string)
    ensures OccurringIn(a + b, text) == OccurringIn(a, text) + OccurringIn(b, text)
  {
    if a == [] {
      assert a + b == b;
    } else {
      assert (a + b)[1..] == a[1..] + b;
      OccurringInAppend(a[1..], b, text);
    }
  }

  /** The matched keywords are exactly the keywords of the tree that occur in
      the text, in tree order and with repetitions. */
  lemma {:induction false} MatchedAreOccurringKeywords(n: Node, text: string)
    ensures MatchedKeywords(n, text) == OccurringIn(Keywords(n), text)
  {
    match n
    case KeywordNode(k) =>
      assert [k][1..] == [];
    case AndNode(l, r) =>
      MatchedAreOccurringKeywords(l, text);
      MatchedAreOccurringKeywords(r, text);
      OccurringInAppend(Keywords(l), Keywords(r), text);
    case OrNode(l, r) =>
      MatchedAreOccurringKeywords(l, text);
      MatchedAreOccurringKeywords(r, text);
      OccurringInAppend(Keywords(l), Keywords(r), text);
  }

  lemma {:induction false} OccurringInIsSubsequence(ks: seq<string>, text: string)
    ensures IsSubsequence(OccurringIn(ks, text), ks)
  {
    if ks != [] {
      OccurringInIsSubsequence(ks[1..], text);
      if KeywordIn(ks[0], text) {
        assert OccurringIn(ks, text)[1..] == OccurringIn(ks[1..], text);
      } else {
        assert OccurringIn(ks, text) == OccurringIn(ks[1..], text);
      }
    }
  }

  lemma {:induction false} OccurringInMembers(ks: seq<string>, text: string, k: string)
    ensures k in OccurringIn(ks, text) <==> k in ks && KeywordIn(k, text)
  {
    if ks != [] {
      OccurringInMembers(ks[1..], text, k);
      assert ks == [ks[0]] + ks[1..];
    }
  }

  /** `get_matched_keywords` is a subsequence of `get_keywords`, and a keyword
      is listed exactly when it is in the tree and occurs in the text. */
  lemma MatchedKeywordsShape(n: Node, text: string, k: string)
    ensures IsSubsequence(MatchedKeywords(n, text), Keywords(n))
    ensures k in MatchedKeywords(n, text) <==> k in Keywords(n) && KeywordIn(k, text)
  {
    MatchedAreOccurringKeywords(n, text);
    OccurringInIsSubsequence(Keywords(n), text);
    OccurringInMembers(Keywords(n), text, k);
  }

  /** A text that satisfies the tree has at least one matched keyword. */
  lemma {:induction false} EvaluateHasWitness(n: Node, text: string)
    requires Evaluate(n, text)
    ensures |MatchedKeywords(n, text)| > 0
  {
    match n
    case KeywordNode(_) =>
    case AndNode(l, r) => EvaluateHasWitness(l, text);
    case OrNode(l, r) =>
      if Evaluate(l, text) {
        EvaluateHasWitness(l, text);
      } else {
        EvaluateHasWitness(r, text);
      }
  }

  lemma {:induction false} MatchedNoLonger(n: Node, text: string)
    ensures |MatchedKeywords(n, text)| <= |Keywords(n)|
  {
    match n
    case KeywordNode(_) =>
    case AndNode(l, r) =>
      MatchedNoLonger(l, text);
      MatchedNoLonger(r, text);
    case OrNode(l, r) =>
      MatchedNoLonger(l, text);
      MatchedNoLonger(r, text);
  }

  /** When every keyword of the tree occurs in the text, the tree is satisfied,
      whatever its operators. */
  lemma {:induction false} AllMatchedEvaluates(n: Node, text: string)
    requires MatchedKeywords(n, text) == Keywords(n)
    ensures Evaluate(n, text)
  {
    match n
    case KeywordNode(k) =>
    case AndNode(l, r) =>
      AllMatchedSplit(l, r, text);
      AllMatchedEvaluates(l, text);
      AllMatchedEvaluates(r, text);
    case OrNode(l, r) =>
      AllMatchedSplit(l, r, text);
      AllMatchedEvaluates(l, text);
  }

  lemma AllMatchedSplit(l: Node, r: Node, text: string)
    requires MatchedKeywords(l, text) + MatchedKeywords(r, text) == Keywords(l) + Keywords(r)
    ensures MatchedKeywords(l, text) == Keywords(l) && MatchedKeywords(r, text) == Keywords(r)
  {
    MatchedNoLonger(l, text);
    MatchedNoLonger(r, text);
    var a := MatchedKeywords(l, text) + MatchedKeywords(r, text);
    assert |a| == |Keywords(l)| + |Keywords(r)|;
    assert MatchedKeywords(l, text) == a[..|MatchedKeywords(l, text)|];
    assert Keywords(l) == a[..|Keywords(l)|];
    assert MatchedKeywords(r, text) == a[|Keywords(l)|..];
  }
}
