/**
 * What the grammar of the keyword filter language means: a printer that
 * writes a tree with as few parentheses as the precedence rules allow, the
 * proof that the parser reads every printed tree back (so AND binds tighter
 * than OR and both group to the left), the way tokens after a complete
 * expression are ignored, and the errors the parser reports.
 */
module KeywordGrammar {
  import opened Wrappers
  import opened Text
  import opened KeywordLexer
  import opened KeywordAst
  import opened KeywordParser

  const AndToken := Token(And, "i")
  const OrToken := Token(Or, "lub")
  const OpenToken := Token(LParen, "(")
  const CloseToken := Token(RParen, ")")

  // Ranks that make the three printers' mutual recursion on one node terminate.
  function ExprRank(n: Node): nat {
    match n
    case OrNode(_, _) => 0
    case AndNode(_, _) => 1
    case KeywordNode(_) => 2
  }

  function TermRank(n: Node): nat {
    match n
    case OrNode(_, _) => 2
    case AndNode(_, _) => 0
    case KeywordNode(_) => 1
  }

  function FactorRank(n: Node): nat {
    match n
    case OrNode(_, _) => 1
    case AndNode(_, _) => 2
    case KeywordNode(_) => 0
  }

  /** A tree written as an `expression`: an OR chain of terms. */
  function PrintExpr(n: Node): seq<Token>
    decreases n, ExprRank(n)
  {
    match n
    case OrNode(l, r) => PrintExpr(l) + [OrToken] + PrintTerm(r)
    case _ => PrintTerm(n)
  }

  /** A tree written as a `term`: an AND chain of factors. */
  function PrintTerm(n: Node): seq<Token>
    decreases n, TermRank(n)
  {
    match n
    case AndNode(l, r) => PrintTerm(l) + [AndToken] + PrintFactor(r)
    case _ => PrintFactor(n)
  }

  /** A tree written as a `factor`: a keyword, or an expression in parentheses. */
  function PrintFactor(n: Node): seq<Token>
    decreases n, FactorRank(n)
  {
    match n
    case KeywordNode(k) => [Token(Keyword, k)]
    case _ => [OpenToken] + PrintExpr(n) + [CloseToken]
  }

  /** `piece` occurs in `tokens` starting at `p`. */
  predicate At(tokens: seq<Token>, p: nat, piece: seq<Token>) {
    p + |piece| <= |tokens| && forall i :: 0 <= i < |piece| ==> tokens[p + i] == piece[i]
  }

  lemma AtSplit(tokens: seq<Token>, p: nat, a: seq<Token>, b: seq<Token>, c: seq<Token>)
    requires At(tokens, p, a + b + c)
    ensures At(tokens, p, a) && At(tokens, p + |a|, b) && At(tokens, p + |a| + |b|, c)
  {
    var w := a + b + c;
    forall i | 0 <= i < |a|
      ensures tokens[p + i] == a[i]
    {
      assert w[i] == a[i];
    }
    forall i | 0 <= i < |b|
      ensures tokens[p + |a| + i] == b[i]
    {
      assert w[|a| + i] == b[i];
    }
    forall i | 0 <= i < |c|
      ensures tokens[p + |a| + |b| + i] == c[i]
    {
      assert w[|a| + |b| + i] == c[i];
    }
  }

  lemma AtOne(tokens: seq<Token>, p: nat, t: Token)
    requires At(tokens, p, [t])
    ensures Current(tokens, p) == t
  {
    assert tokens[p + 0] == [t][0];
  }

  // How a printed piece splits into the pieces of its children.

  lemma OrParts(n: Node, tokens: seq<Token>, p: nat)
    requires n.OrNode? && At(tokens, p, PrintExpr(n))
    ensures At(tokens, p, PrintExpr(n.left))
    ensures Current(tokens, p + |PrintExpr(n.left)|).kind == Or
    ensures At(tokens, p + |PrintExpr(n.left)| + 1, PrintTerm(n.right))
    ensures |PrintExpr(n)| == |PrintExpr(n.left)| + 1 + |PrintTerm(n.right)|
  {
    AtSplit(tokens, p, PrintExpr(n.left), [OrToken], PrintTerm(n.right));
    AtOne(tokens, p + |PrintExpr(n.left)|, OrToken);
  }

  lemma AndParts(n: Node, tokens: seq<Token>, p: nat)
    requires n.AndNode? && At(tokens, p, PrintTerm(n))
    ensures At(tokens, p, PrintTerm(n.left))
    ensures Current(tokens, p + |PrintTerm(n.left)|).kind == And
    ensures At(tokens, p + |PrintTerm(n.left)| + 1, PrintFactor(n.right))
    ensures |PrintTerm(n)| == |PrintTerm(n.left)| + 1 + |PrintFactor(n.right)|
  {
    AtSplit(tokens, p, PrintTerm(n.left), [AndToken], PrintFactor(n.right));
    AtOne(tokens, p + |PrintTerm(n.left)|, AndToken);
  }

  lemma ParenParts(n: Node, tokens: seq<Token>, p: nat)
    requires !n.KeywordNode? && At(tokens, p, PrintFactor(n))
    ensures Current(tokens, p).kind == LParen
    ensures At(tokens, p + 1, PrintExpr(n))
    ensures Current(tokens, p + 1 + |PrintExpr(n)|).kind == RParen
    ensures |PrintFactor(n)| == |PrintExpr(n)| + 2
  {
    assert PrintFactor(n) == [OpenToken] + PrintExpr(n) + [CloseToken];
    AtSplit(tokens, p, [OpenToken], PrintExpr(n), [CloseToken]);
    AtOne(tokens, p, OpenToken);
    AtOne(tokens, p + 1 + |PrintExpr(n)|, CloseToken);
  }

  // One unfolding of each grammar function, in the case the round trip needs.

  lemma ExprAtStep(tokens: seq<Token>, p: nat, n: Node, next: nat)
    requires p <= |tokens| && TermAt(tokens, p) == Ok(Parsed(n, next))
    ensures ExprAt(tokens, p) == ExprTail(tokens, next, n)
  {
  }

  lemma ExprTailStep(tokens: seq<Token>, p: nat, left: Node, right: Node, next: nat)
    requires p < |tokens| && Current(tokens, p).kind == Or && TermAt(tokens, p + 1) == Ok(Parsed(right, next))
    ensures ExprTail(tokens, p, left) == ExprTail(tokens, next, OrNode(left, right))
  {
  }

  lemma TermAtStep(tokens: seq<Token>, p: nat, n: Node, next: nat)
    requires p <= |tokens| && FactorAt(tokens, p) == Ok(Parsed(n, next))
    ensures TermAt(tokens, p) == TermTail(tokens, next, n)
  {
  }

  lemma TermTailStep(tokens: seq<Token>, p: nat, left: Node, right: Node, next: nat)
    requires p < |tokens| && Current(tokens, p).kind == And && FactorAt(tokens, p + 1) == Ok(Parsed(right, next))
    ensures TermTail(tokens, p, left) == TermTail(tokens, next, AndNode(left, right))
  {
  }

  lemma TermTailStop(tokens: seq<Token>, p: nat, left: Node)
    requires p <= |tokens| && Current(tokens, p).kind != And
    ensures TermTail(tokens, p, left) == Ok(Parsed(left, p))
  {
  }

  lemma ExprTailStop(tokens: seq<Token>, p: nat, left: Node)
    requires p <= |tokens| && Current(tokens, p).kind != Or
    ensures ExprTail(tokens, p, left) == Ok(Parsed(left, p))
  {
  }

  lemma FactorParenStep(tokens: seq<Token>, p: nat, n: Node, close: nat)
    requires p < |tokens| && Current(tokens, p).kind == LParen
    requires ExprAt(tokens, p + 1) == Ok(Parsed(n, close))
    requires close <= |tokens| && Current(tokens, close).kind == RParen
    ensures FactorAt(tokens, p) == Ok(Parsed(n, close + 1))
  {
  }

  // How an error travels up through the grammar functions.

  lemma FactorRejects(tokens: seq<Token>, p: nat)
    requires p <= |tokens| && Current(tokens, p).kind != Keyword && Current(tokens, p).kind != LParen
    ensures FactorAt(tokens, p) == Err(UnexpectedToken(Current(tokens, p)))
  {
  }

  lemma FactorUnclosed(tokens: seq<Token>, p: nat, n: Node, close: nat)
    requires p < |tokens| && Current(tokens, p).kind == LParen
    requires ExprAt(tokens, p + 1) == Ok(Parsed(n, close))
    requires Current(tokens, close).kind != RParen
    ensures FactorAt(tokens, p) == Err(Expected(RParen, Current(tokens, close).kind, close))
  {
  }

  lemma TermAtFails(tokens: seq<Token>, p: nat, e: ParseError)
    requires p <= |tokens| && FactorAt(tokens, p) == Err(e)
    ensures TermAt(tokens, p) == Err(e)
  {
  }

  lemma ExprAtFails(tokens: seq<Token>, p: nat, e: ParseError)
    requires p <= |tokens| && TermAt(tokens, p) == Err(e)
    ensures ExprAt(tokens, p) == Err(e)
  {
  }

  lemma TermTailFails(tokens: seq<Token>, p: nat, left: Node, e: ParseError)
    requires p < |tokens| && Current(tokens, p).kind == And && FactorAt(tokens, p + 1) == Err(e)
    ensures TermTail(tokens, p, left) == Err(e)
  {
  }

  lemma ExprTailFails(tokens: seq<Token>, p: nat, left: Node, e: ParseError)
    requires p < |tokens| && Current(tokens, p).kind == Or && TermAt(tokens, p + 1) == Err(e)
    ensures ExprTail(tokens, p, left) == Err(e)
  {
  }

  /** With an AND, OR or "(" somewhere, `parse` reports what `_parse_expression` reports. */
  lemma OperatorModeFails(tokens: seq<Token>, e: ParseError)
    requires HasOperators(tokens) && ExprAt(tokens, 0) == Err(e)
    ensures ParseTokens(tokens) == Err(e)
  {
  }

  lemma {:induction false} FactorReadsBack(n: Node, tokens: seq<Token>, p: nat)
    requires At(tokens, p, PrintFactor(n))
    ensures FactorAt(tokens, p) == Ok(Parsed(n, p + |PrintFactor(n)|))
    decreases n, FactorRank(n)
  {
    if n.KeywordNode? {
      AtOne(tokens, p, Token(Keyword, n.keyword));
    } else {
      var close := p + 1 + |PrintExpr(n)|;
      ParenParts(n, tokens, p);
      ExprReadsBack(n, tokens, p + 1);
      ExprTailStop(tokens, close, n);
      FactorParenStep(tokens, p, n, close);
    }
  }

  lemma {:induction false} TermReadsBack(n: Node, tokens: seq<Token>, p: nat)
    requires At(tokens, p, PrintTerm(n))
    ensures TermAt(tokens, p) == TermTail(tokens, p + |PrintTerm(n)|, n)
    decreases n, TermRank(n)
  {
    if n.AndNode? {
      var endL := p + |PrintTerm(n.left)|;
      AndParts(n, tokens, p);
      TermReadsBack(n.left, tokens, p);
      FactorReadsBack(n.right, tokens, endL + 1);
      TermTailStep(tokens, endL, n.left, n.right, p + |PrintTerm(n)|);
    } else {
      assert PrintTerm(n) == PrintFactor(n);
      FactorReadsBack(n, tokens, p);
      TermAtStep(tokens, p, n, p + |PrintFactor(n)|);
    }
  }

  lemma {:induction false} ExprReadsBack(n: Node, tokens: seq<Token>, p: nat)
    requires At(tokens, p, PrintExpr(n))
    requires Current(tokens, p + |PrintExpr(n)|).kind != And
    ensures ExprAt(tokens, p) == ExprTail(tokens, p + |PrintExpr(n)|, n)
    decreases n, ExprRank(n)
  {
    if n.OrNode? {
      var endL := p + |PrintExpr(n.left)|;
      var end := p + |PrintExpr(n)|;
      OrParts(n, tokens, p);
      ExprReadsBack(n.left, tokens, p);
      TermReadsBack(n.right, tokens, endL + 1);
      TermTailStop(tokens, end, n.right);
      ExprTailStep(tokens, endL, n.left, n.right, end);
    } else {
      var end := p + |PrintTerm(n)|;
      assert PrintExpr(n) == PrintTerm(n);
      TermReadsBack(n, tokens, p);
      TermTailStop(tokens, end, n);
      ExprAtStep(tokens, p, n, end);
    }
  }

  /** A printed tree followed by anything that does not start with an operator
      is read back as that tree, and the parser stops right after it. */
  lemma PrintedExpressionParses(n: Node, rest: seq<Token>)
    requires rest == [] || (rest[0].kind != And && rest[0].kind != Or)
    ensures ExprAt(PrintExpr(n) + rest, 0) == Ok(Parsed(n, |PrintExpr(n)|))
  {
    var tokens := PrintExpr(n) + rest;
    assert At(tokens, 0, PrintExpr(n));
    assert Current(tokens, |PrintExpr(n)|) == if rest == [] then EofToken else rest[0];
    ExprReadsBack(n, tokens, 0);
  }

  lemma PrintedKeyword(k: string)
    ensures PrintExpr(KeywordNode(k)) == PrintTerm(KeywordNode(k)) == PrintFactor(KeywordNode(k)) == [Token(Keyword, k)]
  {
  }

  lemma {:induction false} PrintedKeywordsOnly(n: Node)
    ensures !HasOperators(PrintExpr(n)) <==> n.KeywordNode?
  {
    match n
    case KeywordNode(k) =>
      PrintedKeyword(k);
      assert !IsStructural(PrintExpr(n)[0]);
    case AndNode(l, r) =>
      var t := PrintTerm(l) + [AndToken] + PrintFactor(r);
      assert IsStructural(t[|PrintTerm(l)|]);
    case OrNode(l, r) =>
      var t := PrintExpr(l) + [OrToken] + PrintTerm(r);
      assert IsStructural(t[|PrintExpr(l)|]);
  }

  /** Round trip: the token list of a printed tree, closed by EOF, parses to
      that tree. */
  lemma ParsePrinted(n: Node)
    ensures ParseTokens(PrintExpr(n) + [EofToken]) == Ok(n)
  {
    var tokens := PrintExpr(n) + [EofToken];
    PrintedExpressionParses(n, [EofToken]);
    PrintedKeywordsOnly(n);
    if n.KeywordNode? {
      PrintedKeyword(n.keyword);
      assert tokens == [Token(Keyword, n.keyword), EofToken];
      assert KeywordValues(tokens) == [n.keyword];
    } else {
      var k :| 0 <= k < |PrintExpr(n)| && IsStructural(PrintExpr(n)[k]);
      assert IsStructural(tokens[k]);
    }
  }

  /** `a lub b i c` is `a OR (b AND c)`: AND binds tighter than OR. */
  lemma AndBindsTighterThanOr(a: string, b: string, c: string)
    ensures ParseTokens([Token(Keyword, a), OrToken, Token(Keyword, b), AndToken, Token(Keyword, c), EofToken])
         == Ok(OrNode(KeywordNode(a), AndNode(KeywordNode(b), KeywordNode(c))))
  {
    var n := OrNode(KeywordNode(a), AndNode(KeywordNode(b), KeywordNode(c)));
    PrintedKeyword(a);
    PrintedKeyword(b);
    PrintedKeyword(c);
    assert PrintTerm(n.right) == [Token(Keyword, b), AndToken, Token(Keyword, c)];
    assert PrintExpr(n) + [EofToken]
        == [Token(Keyword, a), OrToken, Token(Keyword, b), AndToken, Token(Keyword, c), EofToken];
    ParsePrinted(n);
  }

  /** `a i b lub c` is `(a AND b) OR c`. */
  lemma AndBindsTighterOnTheLeft(a: string, b: string, c: string)
    ensures ParseTokens([Token(Keyword, a), AndToken, Token(Keyword, b), OrToken, Token(Keyword, c), EofToken])
         == Ok(OrNode(AndNode(KeywordNode(a), KeywordNode(b)), KeywordNode(c)))
  {
    var n := OrNode(AndNode(KeywordNode(a), KeywordNode(b)), KeywordNode(c));
    PrintedKeyword(a);
    PrintedKeyword(b);
    PrintedKeyword(c);
    assert PrintTerm(n.left) == [Token(Keyword, a), AndToken, Token(Keyword, b)];
    assert PrintExpr(n.left) == PrintTerm(n.left);
    assert PrintExpr(n) + [EofToken]
        == [Token(Keyword, a), AndToken, Token(Keyword, b), OrToken, Token(Keyword, c), EofToken];
    ParsePrinted(n);
  }

  /** `a lub b lub c` is `(a OR b) OR c` and `a i b i c` is `(a AND b) AND c`. */
  lemma OperatorsGroupLeft(a: string, b: string, c: string)
    ensures ParseTokens([Token(Keyword, a), OrToken, Token(Keyword, b), OrToken, Token(Keyword, c), EofToken])
         == Ok(OrNode(OrNode(KeywordNode(a), KeywordNode(b)), KeywordNode(c)))
    ensures ParseTokens([Token(Keyword, a), AndToken, Token(Keyword, b), AndToken, Token(Keyword, c), EofToken])
         == Ok(AndNode(AndNode(KeywordNode(a), KeywordNode(b)), KeywordNode(c)))
  {
    var ors := OrNode(OrNode(KeywordNode(a), KeywordNode(b)), KeywordNode(c));
    var ands := AndNode(AndNode(KeywordNode(a), KeywordNode(b)), KeywordNode(c));
    PrintedKeyword(a);
    PrintedKeyword(b);
    PrintedKeyword(c);
    assert PrintExpr(ors.left) == [Token(Keyword, a), OrToken, Token(Keyword, b)];
    assert PrintExpr(ors) + [EofToken]
        == [Token(Keyword, a), OrToken, Token(Keyword, b), OrToken, Token(Keyword, c), EofToken];
    assert PrintTerm(ands.left) == [Token(Keyword, a), AndToken, Token(Keyword, b)];
    assert PrintExpr(ands) == PrintTerm(ands);
    assert PrintExpr(ands) + [EofToken]
        == [Token(Keyword, a), AndToken, Token(Keyword, b), AndToken, Token(Keyword, c), EofToken];
    ParsePrinted(ors);
    ParsePrinted(ands);
  }

  /** Tokens after a complete expression are never looked at: a compound
      expression followed by anything that does not start with an operator
      (another keyword, a surplus ")") parses as if they were absent. */
  lemma TrailingTokensIgnored(n: Node, rest: seq<Token>)
    requires !n.KeywordNode?
    requires rest == [] || (rest[0].kind != And && rest[0].kind != Or)
    ensures ParseTokens(PrintExpr(n) + rest) == Ok(n)
  {
    var tokens := PrintExpr(n) + rest;
    PrintedExpressionParses(n, rest);
    PrintedKeywordsOnly(n);
    var k :| 0 <= k < |PrintExpr(n)| && IsStructural(PrintExpr(n)[k]);
    assert IsStructural(tokens[k]);
  }

  /** A list that starts with anything but a keyword or "(" and is in operator
      mode fails at its first token; in particular a leading AND or OR. */
  lemma LeadingTokenRejected(tokens: seq<Token>)
    requires tokens != [] && tokens[0].kind != Keyword && tokens[0].kind != LParen
    requires HasOperators(tokens)
    ensures ParseTokens(tokens) == Err(UnexpectedToken(tokens[0]))
  {
    FactorRejects(tokens, 0);
    TermAtFails(tokens, 0, UnexpectedToken(tokens[0]));
    ExprAtFails(tokens, 0, UnexpectedToken(tokens[0]));
    OperatorModeFails(tokens, UnexpectedToken(tokens[0]));
  }

  lemma LeadingOperatorRejected(tokens: seq<Token>)
    requires tokens != [] && (tokens[0].kind == And || tokens[0].kind == Or)
    ensures ParseTokens(tokens) == Err(UnexpectedToken(tokens[0]))
  {
    assert IsStructural(tokens[0]);
    LeadingTokenRejected(tokens);
  }

  /** An expression whose last term is followed by an operator with no operand
      fails at the EOF token. */
  lemma DanglingOperatorRejected(n: Node, op: Token)
    requires op.kind == And || op.kind == Or
    ensures ParseTokens(PrintExpr(n) + [op, EofToken]) == Err(UnexpectedToken(EofToken))
  {
    var tokens := PrintExpr(n) + [op, EofToken];
    var end := |PrintExpr(n)|;
    var e := UnexpectedToken(EofToken);
    assert At(tokens, 0, PrintExpr(n));
    assert Current(tokens, end) == op;
    assert Current(tokens, end + 1) == EofToken;
    assert IsStructural(tokens[end]);
    if op.kind == Or {
      ExprReadsBack(n, tokens, 0);
      FactorRejects(tokens, end + 1);
      TermAtFails(tokens, end + 1, e);
      ExprTailFails(tokens, end, n, e);
    } else {
      DanglingAndRejected(n, tokens);
    }
    OperatorModeFails(tokens, e);
  }

  lemma DanglingAndRejected(n: Node, tokens: seq<Token>)
    requires At(tokens, 0, PrintExpr(n))
    requires Current(tokens, |PrintExpr(n)|).kind == And
    requires Current(tokens, |PrintExpr(n)| + 1) == EofToken
    ensures ExprAt(tokens, 0) == Err(UnexpectedToken(EofToken))
  {
    if n.OrNode? {
      var endL := |PrintExpr(n.left)|;
      OrParts(n, tokens, 0);
      ExprReadsBack(n.left, tokens, 0);
      DanglingAndInTerm(n.right, tokens, endL + 1);
      ExprTailFails(tokens, endL, n.left, UnexpectedToken(EofToken));
    } else {
      assert PrintExpr(n) == PrintTerm(n);
      DanglingAndInTerm(n, tokens, 0);
      ExprAtFails(tokens, 0, UnexpectedToken(EofToken));
    }
  }

  /** The last term absorbs the dangling AND and then finds EOF. */
  lemma DanglingAndInTerm(n: Node, tokens: seq<Token>, p: nat)
    requires At(tokens, p, PrintTerm(n))
    requires Current(tokens, p + |PrintTerm(n)|).kind == And
    requires Current(tokens, p + |PrintTerm(n)| + 1) == EofToken
    ensures TermAt(tokens, p) == Err(UnexpectedToken(EofToken))
  {
    var end := p + |PrintTerm(n)|;
    TermReadsBack(n, tokens, p);
    FactorRejects(tokens, end + 1);
    TermTailFails(tokens, end, n, UnexpectedToken(EofToken));
  }

  /** A "(" whose expression runs into EOF fails in `_expect`, naming EOF and
      the position where ")" was expected ("Expected RPAREN, got EOF at position n"). */
  lemma UnclosedParenRejected(n: Node)
    ensures ParseTokens([OpenToken] + PrintExpr(n) + [EofToken])
         == Err(Expected(RParen, Eof, 1 + |PrintExpr(n)|))
  {
    var tokens := [OpenToken] + PrintExpr(n) + [EofToken];
    var end := 1 + |PrintExpr(n)|;
    var e := Expected(RParen, Eof, end);
    assert Current(tokens, 0) == OpenToken;
    assert Current(tokens, end) == EofToken;
    assert At(tokens, 1, PrintExpr(n)) by {
      var e := PrintExpr(n);
      forall i | 0 <= i < |e|
        ensures tokens[1 + i] == e[i]
      {
      }
    }
    UnclosedFactor(n, tokens);
    TermAtFails(tokens, 0, e);
    ExprAtFails(tokens, 0, e);
    assert IsStructural(tokens[0]);
    OperatorModeFails(tokens, e);
  }

  lemma UnclosedFactor(n: Node, tokens: seq<Token>)
    requires Current(tokens, 0) == OpenToken && At(tokens, 1, PrintExpr(n))
    requires Current(tokens, 1 + |PrintExpr(n)|) == EofToken
    ensures FactorAt(tokens, 0) == Err(Expected(RParen, Eof, 1 + |PrintExpr(n)|))
  {
    var end := 1 + |PrintExpr(n)|;
    ExprReadsBack(n, tokens, 1);
    ExprTailStop(tokens, end, n);
    FactorUnclosed(tokens, 0, n, end);
  }

  // ----- legacy mode -----

  /** The legacy chain lists the keywords in order... */
  lemma {:induction false} ChainKeywords(ks: seq<string>)
    requires |ks| >= 1
    ensures Keywords(Chain(ks)) == ks
  {
    if |ks| > 1 {
      ChainKeywords(ks[..|ks| - 1]);
      assert ks[..|ks| - 1] + [ks[|ks| - 1]] == ks;
    }
  }

  /** ...and is satisfied exactly when every keyword occurs in the text. */
  lemma {:induction false} ChainEvaluates(ks: seq<string>, text: string)
    requires |ks| >= 1
    ensures Evaluate(Chain(ks), text) <==> forall i :: 0 <= i < |ks| ==> KeywordIn(ks[i], text)
  {
    if |ks| > 1 {
      var p := ks[..|ks| - 1];
      ChainEvaluates(p, text);
      assert forall i :: 0 <= i < |p| ==> p[i] == ks[i];
    }
  }

  /** Without AND, OR or "(" the tokens are read as the AND of their keywords
      (closing parentheses are skipped); with no keyword at all that fails. */
  lemma LegacyReading(tokens: seq<Token>)
    requires !HasOperators(tokens)
    ensures ParseTokens(tokens).Ok? <==> KeywordValues(tokens) != []
    ensures ParseTokens(tokens).Err? ==> ParseTokens(tokens).error == NoKeywordsFound
    ensures ParseTokens(tokens).Ok? ==> Keywords(ParseTokens(tokens).value) == KeywordValues(tokens)
  {
    if KeywordValues(tokens) != [] {
      ChainKeywords(KeywordValues(tokens));
    }
  }

  lemma CommaWordIsKeyword()
    ensures forall k :: 0 <= k < |"laptop,"| ==> !IsDelimiter("laptop,"[k])
    ensures Classify("laptop,") == Token(Keyword, "laptop,")
  {
    assert Lower("laptop,") == "laptop,";
  }

  lemma PlainWordIsKeyword()
    ensures forall k :: 0 <= k < |"gaming"| ==> !IsDelimiter("gaming"[k])
    ensures Classify("gaming") == Token(Keyword, "gaming")
  {
    assert Lower("gaming") == "gaming";
  }

  lemma CommaExampleTokens()
    ensures Lex("laptop, gaming") == [Token(Keyword, "laptop,"), Token(Keyword, "gaming"), EofToken]
  {
    CommaWordIsKeyword();
    PlainWordIsKeyword();
    TwoWords("laptop,", "gaming");
    assert "laptop," + " " + "gaming" == "laptop, gaming";
  }

  /** A comma is part of the word before it: `laptop, gaming` is read as the
      keywords `laptop,` and `gaming`, joined by AND. */
  lemma CommaStaysWithKeyword()
    ensures ParseFilter("laptop, gaming") == Ok(AndNode(KeywordNode("laptop,"), KeywordNode("gaming")))
  {
    CommaExampleTokens();
    var tokens := [Token(Keyword, "laptop,"), Token(Keyword, "gaming"), EofToken];
    assert tokens[1..][1..] == [EofToken] && KeywordValues([EofToken]) == [];
    assert KeywordValues(tokens) == ["laptop,", "gaming"];
    assert !IsBlank("laptop, gaming") by {
      assert !IsSpace("laptop, gaming"[0]);
    }
  }

  /** Only blank input is reported as an empty expression. */
  lemma EmptyExpressionMeansBlank(expression: string)
    ensures ParseFilter(expression) == Err(EmptyExpression) <==> IsBlank(expression)
  {
  }
}
