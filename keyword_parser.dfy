/**
 * The recursive-descent parser of the keyword filter language
 * (`KeywordExpressionParser`).
 *
 *   expression -> term (OR term)*
 *   term       -> factor (AND factor)*
 *   factor     -> KEYWORD | LPAREN expression RPAREN
 *
 * Input without any AND, OR or "(" token is read in the legacy way instead:
 * all its keywords joined by AND. Parsing stops after one complete
 * expression; whatever tokens follow it are not looked at.
 */
module KeywordParser {
  import opened Wrappers
  import opened Text
  import opened KeywordLexer
  import opened KeywordAst

  /** The `ValueError`s the parser raises. */
  datatype ParseError =
    | EmptyExpression
    | NoKeywordsFound
    | UnexpectedToken(token: Token)
    | Expected(want: TokenType, got: TokenType, position: nat)

  /** The text of each error, as `str(e)` renders it. */
  function Message(e: ParseError): string {
    match e
    case EmptyExpression => "Empty expression"
    case NoKeywordsFound => "No keywords found"
    case UnexpectedToken(t) => "Unexpected token: " + TypeName(t.kind) + " '" + t.value + "'"
    case Expected(want, got, position) =>
      "Expected " + TypeName(want) + ", got " + TypeName(got) + " at position " + NatToString(position)
  }

  /** Errors the grammar rules can raise (the other two come from `parse` itself). */
  predicate IsGrammarError(e: ParseError) {
    e.UnexpectedToken? || e.Expected?
  }

  /** `not expression.strip()`: nothing but whitespace. */
  predicate IsBlank(s: string) {
    forall i :: 0 <= i < |s| ==> IsSpace(s[i])
  }

  /** `_current_token`: reading past the end yields an EOF token. */
  function Current(tokens: seq<Token>, pos: nat): Token {
    if pos < |tokens| then tokens[pos] else EofToken
  }

  /** A sub-tree and the position of the first token after it. */
  datatype Parsed = Parsed(node: Node, next: nat)

  /** `_parse_expression` started at `pos`. */
  function ExprAt(tokens: seq<Token>, pos: nat): (r: Result<Parsed, ParseError>)
    requires pos <= |tokens|
    ensures r.Ok? ==> pos < r.value.next <= |tokens|
    ensures r.Err? ==> IsGrammarError(r.error)
    decreases |tokens| - pos, 2
  {
    match TermAt(tokens, pos)
    case Err(e) => Err(e)
    case Ok(p) => ExprTail(tokens, p.next, p.node)
  }

  /** The `while OR` loop of `_parse_expression`, with `left` built so far. */
  function ExprTail(tokens: seq<Token>, pos: nat, left: Node): (r: Result<Parsed, ParseError>)
    requires pos <= |tokens|
    ensures r.Ok? ==> pos <= r.value.next <= |tokens|
    ensures r.Err? ==> IsGrammarError(r.error)
    decreases |tokens| - pos, 0
  {
    if Current(tokens, pos).kind == Or then
      match TermAt(tokens, pos + 1)
      case Err(e) => Err(e)
      case Ok(p) => ExprTail(tokens, p.next, OrNode(left, p.node))
    else Ok(Parsed(left, pos))
  }

  /** `_parse_term` started at `pos`. */
  function TermAt(tokens: seq<Token>, pos: nat): (r: Result<Parsed, ParseError>)
    requires pos <= |tokens|
    ensures r.Ok? ==> pos < r.value.next <= |tokens|
    ensures r.Err? ==> IsGrammarError(r.error)
    decreases |tokens| - pos, 1
  {
    match FactorAt(tokens, pos)
    case Err(e) => Err(e)
    case Ok(p) => TermTail(tokens, p.next, p.node)
  }

  /** The `while AND` loop of `_parse_term`, with `left` built so far. */
  function TermTail(tokens: seq<Token>, pos: nat, left: Node): (r: Result<Parsed, ParseError>)
    requires pos <= |tokens|
    ensures r.Ok? ==> pos <= r.value.next <= |tokens|
    ensures r.Err? ==> IsGrammarError(r.error)
    decreases |tokens| - pos, 0
  {
    if Current(tokens, pos).kind == And then
      match FactorAt(tokens, pos + 1)
      case Err(e) => Err(e)
      case Ok(p) => TermTail(tokens, p.next, AndNode(left, p.node))
    else Ok(Parsed(left, pos))
  }

  /** `_parse_factor` started at `pos`. */
  function FactorAt(tokens: seq<Token>, pos: nat): (r: Result<Parsed, ParseError>)
    requires pos <= |tokens|
    ensures r.Ok? ==> pos < r.value.next <= |tokens|
    ensures r.Err? ==> IsGrammarError(r.error)
    decreases |tokens| - pos, 0
  {
    var token := Current(tokens, pos);
    if token.kind == Keyword then Ok(Parsed(KeywordNode(token.value), pos + 1))
    else if token.kind == LParen then
      match ExprAt(tokens, pos + 1)
      case Err(e) => Err(e)
      case Ok(p) =>
        if Current(tokens, p.next).kind == RParen then Ok(Parsed(p.node, p.next + 1))
        else Err(Expected(RParen, Current(tokens, p.next).kind, p.next))
    else Err(UnexpectedToken(token))
  }

  /** A token that switches the parser out of legacy mode. */
  predicate IsStructural(t: Token) {
    t.kind == And || t.kind == Or || t.kind == LParen
  }

  predicate HasOperators(tokens: seq<Token>) {
    exists k :: 0 <= k < |tokens| && IsStructural(tokens[k])
  }

  /** `[t.value for t in tokens if t.type == KEYWORD]`. */
  function KeywordValues(tokens: seq<Token>): (ks: seq<string>)
    ensures |ks| <= |tokens|
  {
    if tokens == [] then []
    else (if tokens[0].kind == Keyword then [tokens[0].value] else []) + KeywordValues(tokens[1..])
  }

  /** The legacy reading: the keywords joined by AND, nested to the left. */
  function Chain(ks: seq<string>): Node
    requires |ks| >= 1
  {
    if |ks| == 1 then KeywordNode(ks[0])
    else AndNode(Chain(ks[..|ks| - 1]), KeywordNode(ks[|ks| - 1]))
  }

  /** `parse` once the token list is known. */
  function ParseTokens(tokens: seq<Token>): Result<Node, ParseError> {
    if !HasOperators(tokens) then
      var ks := KeywordValues(tokens);
      if ks == [] then Err(NoKeywordsFound) else Ok(Chain(ks))
    else
      match ExprAt(tokens, 0)
      case Err(e) => Err(e)
      case Ok(p) => Ok(p.node)
  }

  /** `KeywordExpressionParser(expression).parse()`. */
  function ParseFilter(expression: string): Result<Node, ParseError> {
    if IsBlank(expression) then Err(EmptyExpression) else ParseTokens(Lex(expression))
  }

  /** A method's result and final cursor agree with a grammar function's outcome. */
  predicate Agrees(r: Result<Node, ParseError>, pos: nat, spec: Result<Parsed, ParseError>) {
    match spec
    case Ok(p) => r == Ok(p.node) && pos == p.next
    case Err(e) => r == Err(e)
  }

  class KeywordExpressionParser {
    const expression: string
    var tokens: seq<Token>
    var pos: nat

    constructor (expression: string)
      ensures this.expression == expression && tokens == [] && pos == 0
    {
      this.expression := expression;
      tokens := [];
      pos := 0;
    }

    method Advance()
      modifies this`pos
      ensures pos == old(pos) + 1
    {
      pos := pos + 1;
    }

    /** `_expect`: consume a token of the given type, or fail naming the one found. */
    method Expect(kind: TokenType) returns (r: Result<Token, ParseError>)
      modifies this`pos
      ensures Current(tokens, old(pos)).kind == kind ==> r == Ok(Current(tokens, old(pos))) && pos == old(pos) + 1
      ensures Current(tokens, old(pos)).kind != kind ==> r == Err(Expected(kind, Current(tokens, old(pos)).kind, old(pos)))
                                                          && pos == old(pos)
    {
      var token := Current(tokens, pos);
      if token.kind != kind {
        return Err(Expected(kind, token.kind, pos));
      }
      Advance();
      return Ok(token);
    }

    method Parse() returns (r: Result<Node, ParseError>)
      modifies this
      ensures r == ParseFilter(expression)
    {
      if IsBlank(expression) {
        return Err(EmptyExpression);
      }
      var lexer := new KeywordExpressionLexer(expression);
      tokens := lexer.Tokenize();
      pos := 0;
      if !HasOperators(tokens) {
        var keywords := KeywordValues(tokens);
        if |keywords| == 0 {
          return Err(NoKeywordsFound);
        }
        if |keywords| == 1 {
          return Ok(KeywordNode(keywords[0]));
        }
        var result := KeywordNode(keywords[0]);
        for i := 1 to |keywords|
          invariant result == Chain(keywords[..i])
        {
          assert keywords[..i + 1][..i] == keywords[..i];
          result := AndNode(result, KeywordNode(keywords[i]));
        }
        assert keywords[..|keywords|] == keywords;
        return Ok(result);
      }
      r := ParseExpression();
    }

    method ParseExpression() returns (r: Result<Node, ParseError>)
      requires pos <= |tokens|
      modifies this`pos
      ensures Agrees(r, pos, ExprAt(tokens, old(pos)))
      decreases |tokens| - pos, 2
    {
      ghost var start := pos;
      var left := ParseTerm();
      if left.Err? {
        return left;
      }
      var node := left.value;
      while Current(tokens, pos).kind == Or
        invariant start < pos <= |tokens|
        invariant ExprTail(tokens, pos, node) == ExprAt(tokens, start)
        decreases |tokens| - pos
      {
        Advance();
        var right := ParseTerm();
        if right.Err? {
          return right;
        }
        node := OrNode(node, right.value);
      }
      return Ok(node);
    }

    method ParseTerm() returns (r: Result<Node, ParseError>)
      requires pos <= |tokens|
      modifies this`pos
      ensures Agrees(r, pos, TermAt(tokens, old(pos)))
      decreases |tokens| - pos, 1
    {
      ghost var start := pos;
      var left := ParseFactor();
      if left.Err? {
        return left;
      }
      var node := left.value;
      while Current(tokens, pos).kind == And
        invariant start < pos <= |tokens|
        invariant TermTail(tokens, pos, node) == TermAt(tokens, start)
        decreases |tokens| - pos
      {
        Advance();
        var right := ParseFactor();
        if right.Err? {
          return right;
        }
        node := AndNode(node, right.value);
      }
      return Ok(node);
    }

    method ParseFactor() returns (r: Result<Node, ParseError>)
      requires pos <= |tokens|
      modifies this`pos
      ensures Agrees(r, pos, FactorAt(tokens, old(pos)))
      decreases |tokens| - pos, 0
    {
      var token := Current(tokens, pos);
      if token.kind == Keyword {
        Advance();
        return Ok(KeywordNode(token.value));
      }
      if token.kind == LParen {
        Advance();
        var node := ParseExpression();
        if node.Err? {
          return node;
        }
        var closing := Expect(RParen);
        if closing.Err? {
          return Err(closing.error);
        }
        return node;
      }
      return Err(UnexpectedToken(token));
    }
  }
}
