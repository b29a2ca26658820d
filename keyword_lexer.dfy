/**
 * The tokenizer of the keyword filter language (`KeywordExpressionLexer`).
 *
 * A filter string is cut into parentheses and words; a word is a maximal run
 * of characters that are neither whitespace nor a parenthesis. A word whose
 * lower-case form is an operator spelling becomes an AND or OR token, every
 * other word a KEYWORD token, so nothing is ever rejected here.
 */
module KeywordLexer {
  import opened Text

  datatype TokenType = Keyword | And | Or | LParen | RParen | Eof

  /** The string constants of `TokenType`, as they appear in error messages. */
  function TypeName(t: TokenType): string {
    match t
    case Keyword => "KEYWORD"
    case And => "AND"
    case Or => "OR"
    case LParen => "LPAREN"
    case RParen => "RPAREN"
    case Eof => "EOF"
  }

  datatype Token = Token(kind: TokenType, value: string)

  const EofToken := Token(Eof, "")

  /** Polish and symbolic spellings of the two operators (compared lower-cased). */
  const AndKeywords: set<string> := {"i", "and", "&", "&&", "+"}
  const OrKeywords: set<string> := {"lub", "or", "|", "||"}

  /** A character that ends a word. */
  predicate IsDelimiter(c: char) {
    IsSpace(c) || c == '(' || c == ')'
  }

  /** Where `_skip_whitespace` leaves the cursor when started at `i`. */
  function SkipSpaces(s: string, i: nat): (j: nat)
    requires i <= |s|
    ensures i <= j <= |s|
    ensures j < |s| ==> !IsSpace(s[j])
    decreases |s| - i
  {
    if i < |s| && IsSpace(s[i]) then SkipSpaces(s, i + 1) else i
  }

  lemma {:induction false} SkippedAreSpaces(s: string, i: nat)
    requires i <= |s|
    ensures forall k :: i <= k < SkipSpaces(s, i) ==> IsSpace(s[k])
    decreases |s| - i
  {
    if i < |s| && IsSpace(s[i]) {
      SkippedAreSpaces(s, i + 1);
    }
  }

  /** Where `_read_word` leaves the cursor when started at `i`. */
  function WordEnd(s: string, i: nat): (j: nat)
    requires i <= |s|
    ensures i <= j <= |s|
    ensures j < |s| ==> IsDelimiter(s[j])
    decreases |s| - i
  {
    if i < |s| && !IsDelimiter(s[i]) then WordEnd(s, i + 1) else i
  }

  lemma {:induction false} WordHasNoDelimiter(s: string, i: nat)
    requires i <= |s|
    ensures forall k :: i <= k < WordEnd(s, i) ==> !IsDelimiter(s[k])
    decreases |s| - i
  {
    if i < |s| && !IsDelimiter(s[i]) {
      WordHasNoDelimiter(s, i + 1);
    }
  }

  predicate IsAndWord(word: string) { Lower(word) in AndKeywords }
  predicate IsOrWord(word: string) { Lower(word) in OrKeywords }

  /** The token a word becomes; operator words are matched case-insensitively. */
  function Classify(word: string): Token {
    if IsAndWord(word) then Token(And, word)
    else if IsOrWord(word) then Token(Or, word)
    else Token(Keyword, word)
  }

  /** The tokens `tokenize` appends while its cursor moves from `i` to the end. */
  function Scan(s: string, i: nat): seq<Token>
    requires i <= |s|
    decreases |s| - i
  {
    var j := SkipSpaces(s, i);
    if j == |s| then []
    else if s[j] == '(' then [Token(LParen, "(")] + Scan(s, j + 1)
    else if s[j] == ')' then [Token(RParen, ")")] + Scan(s, j + 1)
    else
      var w := WordEnd(s, j);
      [Classify(s[j..w])] + Scan(s, w)
  }

  /** The complete token list of `tokenize`: the scanned tokens and one EOF. */
  function Lex(s: string): seq<Token> {
    Scan(s, 0) + [EofToken]
  }

  lemma SkipSpacesIdempotent(s: string, i: nat)
    requires i <= |s|
    ensures SkipSpaces(s, SkipSpaces(s, i)) == SkipSpaces(s, i)
    ensures Scan(s, SkipSpaces(s, i)) == Scan(s, i)
  {
  }

  /** One step of `Scan` from `i` when the first non-blank character, at `j`, is a parenthesis. */
  lemma ScanParen(s: string, i: nat, j: nat)
    requires i <= j < |s| && j == SkipSpaces(s, i) && s[j] in "()"
    ensures Scan(s, i) == [if s[j] == '(' then Token(LParen, "(") else Token(RParen, ")")] + Scan(s, j + 1)
  {
  }

  /** One step of `Scan` from `i` when the first non-blank character, at `j`, starts
      a word that ends at `w`. */
  lemma ScanWord(s: string, i: nat, j: nat, w: nat)
    requires i <= j < |s| && j == SkipSpaces(s, i) && !IsDelimiter(s[j]) && w == WordEnd(s, j)
    ensures Scan(s, i) == [Classify(s[j..w])] + Scan(s, w)
  {
  }

  lemma ExtendDone(done: seq<Token>, t: Token, rest: seq<Token>, mid: seq<Token>, whole: seq<Token>)
    requires done + mid == whole && mid == [t] + rest
    ensures (done + [t]) + rest == whole
  {
  }

  lemma {:induction false} WordRunsToEnd(s: string, i: nat)
    requires i <= |s|
    requires forall k :: i <= k < |s| ==> !IsDelimiter(s[k])
    ensures WordEnd(s, i) == |s|
    decreases |s| - i
  {
    if i < |s| {
      WordRunsToEnd(s, i + 1);
    }
  }

  /** Operators are recognised only as whole words: a string with no blank and
      no parenthesis is a single token, whatever symbols it contains. */
  lemma OneWordOneToken(w: string)
    requires |w| >= 1
    requires forall k :: 0 <= k < |w| ==> !IsDelimiter(w[k])
    ensures Lex(w) == [Classify(w), EofToken]
  {
    WordRunsToEnd(w, 0);
    assert SkipSpaces(w, 0) == 0;
    ScanWord(w, 0, 0, |w|);
    assert w[0..|w|] == w;
  }

  lemma {:induction false} WordStopsAt(s: string, i: nat, w: nat)
    requires i <= w < |s| && IsDelimiter(s[w])
    requires forall k :: i <= k < w ==> !IsDelimiter(s[k])
    ensures WordEnd(s, i) == w
    decreases w - i
  {
    if i < w {
      WordStopsAt(s, i + 1, w);
    }
  }

  /** Two words separated by one space are two tokens: whatever the first word
      ends with (a comma, say) stays part of it. */
  lemma TwoWords(a: string, b: string)
    requires |a| >= 1 && |b| >= 1
    requires forall k :: 0 <= k < |a| ==> !IsDelimiter(a[k])
    requires forall k :: 0 <= k < |b| ==> !IsDelimiter(b[k])
    ensures Lex(a + " " + b) == [Classify(a), Classify(b), EofToken]
  {
    var s := a + " " + b;
    var m := |a| + 1;
    assert SkipSpaces(s, 0) == 0;
    WordStopsAt(s, 0, |a|);
    ScanWord(s, 0, 0, |a|);
    assert s[0..|a|] == a;
    assert SkipSpaces(s, |a| + 1) == m;
    assert SkipSpaces(s, |a|) == m;
    WordRunsToEnd(s, m);
    ScanWord(s, |a|, m, |s|);
    assert s[m..|s|] == b;
  }

  /** `a&&b` is one keyword, not `a AND b`. */
  lemma SymbolsInsideAWordAreText()
    ensures Lex("a&&b") == [Token(Keyword, "a&&b"), EofToken]
  {
    OneWordOneToken("a&&b");
    assert Lower("a&&b") == "a&&b";
  }

  /** Operator words are matched whatever their case. */
  lemma OperatorsIgnoreCase()
    ensures Classify("AND") == Token(And, "AND") && Classify("Lub") == Token(Or, "Lub")
    ensures Classify("Or").kind == Or && Classify("I").kind == And
  {
    assert Lower("AND") == "and";
    assert Lower("Lub") == "lub";
    assert Lower("Or") == "or";
    assert Lower("I") == "i";
  }

  class KeywordExpressionLexer {
    const expr: string
    var pos: nat

    constructor (expression: string)
      ensures expr == expression && pos == 0
    {
      expr := expression;
      pos := 0;
    }

    method SkipWhitespace()
      requires pos <= |expr|
      modifies this
      ensures pos == SkipSpaces(expr, old(pos))
    {
      while pos < |expr| && IsSpace(expr[pos])
        invariant old(pos) <= pos <= |expr|
        invariant SkipSpaces(expr, pos) == SkipSpaces(expr, old(pos))
        decreases |expr| - pos
      {
        pos := pos + 1;
      }
    }

    method ReadWord() returns (word: string)
      requires pos <= |expr|
      modifies this
      ensures pos == WordEnd(expr, old(pos))
      ensures word == expr[old(pos)..pos]
    {
      var start := pos;
      while pos < |expr| && !IsDelimiter(expr[pos])
        invariant start <= pos <= |expr|
        invariant WordEnd(expr, pos) == WordEnd(expr, start)
        decreases |expr| - pos
      {
        pos := pos + 1;
      }
      word := expr[start..pos];
    }

    /** Tokenizes from the cursor to the end of the expression. A word read
        here is never empty, because the character under the cursor is
        neither whitespace nor a parenthesis. */
    method Tokenize() returns (tokens: seq<Token>)
      requires pos <= |expr|
      modifies this
      ensures tokens == Scan(expr, old(pos)) + [EofToken]
    {
      tokens := [];
      ghost var start := pos;
      while pos < |expr|
        invariant start <= pos <= |expr|
        invariant tokens + Scan(expr, pos) == Scan(expr, start)
        decreases |expr| - pos
      {
        ghost var before := pos;
        SkipWhitespace();
        if pos >= |expr| {
          break;
        }
        var ch := expr[pos];
        ghost var j := pos;
        var token: Token;
        if ch == '(' || ch == ')' {
          token := if ch == '(' then Token(LParen, "(") else Token(RParen, ")");
          pos := pos + 1;
          ScanParen(expr, before, j);
        } else {
          var word := ReadWord();
          token := Classify(word);
          ScanWord(expr, before, j, pos);
        }
        ExtendDone(tokens, token, Scan(expr, pos), Scan(expr, before), Scan(expr, start));
        tokens := tokens + [token];
      }
      tokens := tokens + [EofToken];
    }
  }

  // ----- what the token list promises -----

  /** A token agrees with its text: keywords are non-empty words that are not
      operator spellings, operators carry one of their spellings, parentheses
      their character, and no scanned token is EOF. */
  predicate WellFormed(t: Token) {
    match t.kind
    case Keyword =>
      && |t.value| > 0
      && (forall k :: 0 <= k < |t.value| ==> !IsDelimiter(t.value[k]))
      && Lower(t.value) !in AndKeywords && Lower(t.value) !in OrKeywords
    case And => Lower(t.value) in AndKeywords && (forall k :: 0 <= k < |t.value| ==> !IsDelimiter(t.value[k]))
    case Or => Lower(t.value) in OrKeywords && (forall k :: 0 <= k < |t.value| ==> !IsDelimiter(t.value[k]))
    case LParen => t.value == "("
    case RParen => t.value == ")"
    case Eof => false
  }

  predicate AllWellFormed(tokens: seq<Token>) {
    forall k :: 0 <= k < |tokens| ==> WellFormed(tokens[k])
  }

  lemma AllWellFormedCons(t: Token, rest: seq<Token>)
    requires WellFormed(t) && AllWellFormed(rest)
    ensures AllWellFormed([t] + rest)
  {
    forall k | 0 <= k < |[t] + rest|
      ensures WellFormed(([t] + rest)[k])
    {
      if k > 0 {
        assert ([t] + rest)[k] == rest[k - 1];
      }
    }
  }

  /** A non-empty run of non-delimiters becomes a well-formed token. */
  lemma ClassifyWellFormed(s: string, j: nat, w: nat)
    requires j < w <= |s| && forall k :: j <= k < w ==> !IsDelimiter(s[k])
    ensures WellFormed(Classify(s[j..w]))
  {
    var word := s[j..w];
    assert forall k :: 0 <= k < |word| ==> word[k] == s[j + k];
  }

  lemma {:induction false} ScanWellFormed(s: string, i: nat)
    requires i <= |s|
    ensures AllWellFormed(Scan(s, i))
    decreases |s| - i
  {
    var j := SkipSpaces(s, i);
    if j < |s| {
      if s[j] == '(' || s[j] == ')' {
        ScanParen(s, i, j);
        ScanWellFormed(s, j + 1);
        AllWellFormedCons(Scan(s, i)[0], Scan(s, j + 1));
      } else {
        var w := WordEnd(s, j);
        ScanWord(s, i, j, w);
        ScanWellFormed(s, w);
        WordHasNoDelimiter(s, j);
        ClassifyWellFormed(s, j, w);
        AllWellFormedCons(Classify(s[j..w]), Scan(s, w));
      }
    }
  }

  /** Every token of `Lex(s)` before the last is well formed, and the list ends
      with exactly one EOF token. */
  lemma LexShape(s: string)
    ensures |Lex(s)| >= 1 && Lex(s)[|Lex(s)| - 1] == EofToken
    ensures forall k :: 0 <= k < |Lex(s)| - 1 ==> WellFormed(Lex(s)[k]) && Lex(s)[k].kind != Eof
  {
    ScanWellFormed(s, 0);
  }

  /** The input with every whitespace character deleted. */
  function RemoveSpaces(s: string): string {
    if s == [] then [] else (if IsSpace(s[0]) then [] else [s[0]]) + RemoveSpaces(s[1..])
  }

  /** The concatenation of the token texts. */
  function Values(tokens: seq<Token>): string {
    if tokens == [] then [] else tokens[0].value + Values(tokens[1..])
  }

  lemma {:induction false} RemoveSpacesAppend(a: string, b: string)
    ensures RemoveSpaces(a + b) == RemoveSpaces(a) + RemoveSpaces(b)
  {
    if a != [] {
      assert (a + b)[1..] == a[1..] + b;
      RemoveSpacesAppend(a[1..], b);
    } else {
      assert a + b == b;
    }
  }

  lemma {:induction false} RemoveSpacesOfSpaces(s: string)
    requires forall k :: 0 <= k < |s| ==> IsSpace(s[k])
    ensures RemoveSpaces(s) == []
  {
    if s != [] {
      RemoveSpacesOfSpaces(s[1..]);
    }
  }

  lemma {:induction false} RemoveSpacesOfWord(s: string)
    requires forall k :: 0 <= k < |s| ==> !IsSpace(s[k])
    ensures RemoveSpaces(s) == s
  {
    if s != [] {
      RemoveSpacesOfWord(s[1..]);
    }
  }

  /** `RemoveSpaces` distributes over cutting the suffix `s[i..]` at `k`. */
  lemma RemoveSpacesSplit(s: string, i: nat, k: nat)
    requires i <= k <= |s|
    ensures RemoveSpaces(s[i..]) == RemoveSpaces(s[i..k]) + RemoveSpaces(s[k..])
  {
    assert s[i..] == s[i..k] + s[k..];
    RemoveSpacesAppend(s[i..k], s[k..]);
  }

  lemma {:induction false} ScanValues(s: string, i: nat)
    requires i <= |s|
    ensures Values(Scan(s, i)) == RemoveSpaces(s[i..])
    decreases |s| - i, 1
  {
    var j := SkipSpaces(s, i);
    RemoveSpacesSplit(s, i, j);
    SkippedAreSpaces(s, i);
    RemoveSpacesOfSpaces(s[i..j]);
    SkipSpacesIdempotent(s, i);
    if j < |s| {
      ScanValuesAt(s, j);
    }
  }

  /** The text of the token that starts at the non-blank position `j`, and where it ends. */
  lemma FirstTokenText(s: string, j: nat) returns (next: nat)
    requires j < |s| && !IsSpace(s[j])
    ensures j < next <= |s|
    ensures Values(Scan(s, j)) == s[j..next] + Values(Scan(s, next))
    ensures RemoveSpaces(s[j..next]) == s[j..next]
  {
    assert SkipSpaces(s, j) == j;
    if s[j] == '(' || s[j] == ')' {
      next := j + 1;
      ScanParen(s, j, j);
      assert s[j..next] == [s[j]];
    } else {
      next := WordEnd(s, j);
      ScanWord(s, j, j, next);
      WordHasNoDelimiter(s, j);
      RemoveSpacesOfWord(s[j..next]);
    }
    ValuesCons(Scan(s, j), Scan(s, next));
  }

  lemma {:induction false} ScanValuesAt(s: string, j: nat)
    requires j < |s| && !IsSpace(s[j])
    ensures Values(Scan(s, j)) == RemoveSpaces(s[j..])
    decreases |s| - j, 0
  {
    var next := FirstTokenText(s, j);
    ScanValues(s, next);
    RemoveSpacesSplit(s, j, next);
  }

  lemma ValuesCons(tokens: seq<Token>, rest: seq<Token>)
    requires |tokens| > 0 && tokens[1..] == rest
    ensures Values(tokens) == tokens[0].value + Values(rest)
  {
  }

  /** Round trip: gluing the texts of all non-EOF tokens back together gives
      the input with its whitespace removed, so no character other than
      whitespace is lost, added or reordered by tokenizing. */
  lemma LexRoundTrip(s: string)
    ensures Values(Lex(s)[..|Lex(s)| - 1]) == RemoveSpaces(s)
  {
    assert Lex(s)[..|Lex(s)| - 1] == Scan(s, 0);
    ScanValues(s, 0);
    assert s[0..] == s;
  }
}
