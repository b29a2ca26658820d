/**
 * `KeywordFilter`: a filter string parsed once, at construction, into either
 * a syntax tree or the text of the parse error, and the queries answered
 * from that outcome. An invalid filter matches nothing and lists nothing.
 */
module KeywordFilters {
  import opened Wrappers
  import opened Text
  import opened KeywordAst
  import opened KeywordParser

  class KeywordFilter {
    const expression: string
    const root: Option<Node>
    const parseError: Option<string>

    /** `__init__` and `_parse`: a `ValueError` from the parser is kept as its message. */
    constructor (expression: string)
      ensures this.expression == expression
      ensures ParseFilter(expression).Ok? ==> root == Some(ParseFilter(expression).value) && parseError == None
      ensures ParseFilter(expression).Err? ==> root == None && parseError == Some(Message(ParseFilter(expression).error))
      ensures IsValid() <==> GetError().None?
    {
      this.expression := expression;
      var parser := new KeywordExpressionParser(expression);
      var outcome := parser.Parse();
      if outcome.Ok? {
        root := Some(outcome.value);
        parseError := None;
      } else {
        root := None;
        parseError := Some(Message(outcome.error));
      }
    }

    predicate IsValid() {
      root.Some?
    }

    function GetError(): Option<string> {
      parseError
    }

    predicate Matches(text: string) {
      root.Some? && Evaluate(root.value, text)
    }

    function AllKeywords(): seq<string> {
      if root.None? then [] else Keywords(root.value)
    }

    function MatchedKeywordsIn(text: string): seq<string> {
      if root.None? then [] else MatchedKeywords(root.value, text)
    }

    /** `get_search_terms`: the keywords with exact duplicates removed. */
    function SearchTerms(): seq<string> {
      if root.None? then [] else Dedup(Keywords(root.value))
    }
  }

  /** A filter that did not parse never matches and lists no keywords. */
  lemma InvalidFilterIsInert(f: KeywordFilter, text: string)
    requires !f.IsValid()
    ensures !f.Matches(text)
    ensures f.AllKeywords() == [] && f.MatchedKeywordsIn(text) == [] && f.SearchTerms() == []
  {
  }

  /** A valid filter's listings: at least one keyword; the matched ones are
      the keywords that occur in the text, in order; a matching text has at
      least one of them. */
  lemma ValidFilterListings(f: KeywordFilter, text: string, k: string)
    requires f.IsValid()
    ensures |f.AllKeywords()| >= 1
    ensures IsSubsequence(f.MatchedKeywordsIn(text), f.AllKeywords())
    ensures k in f.MatchedKeywordsIn(text) <==> k in f.AllKeywords() && KeywordIn(k, text)
    ensures f.Matches(text) ==> |f.MatchedKeywordsIn(text)| > 0
  {
    KeywordsNonEmpty(f.root.value);
    MatchedKeywordsShape(f.root.value, text, k);
    if f.Matches(text) {
      EvaluateHasWitness(f.root.value, text);
    }
  }

  /** The search terms are the keywords without exact-string duplicates, each
      kept at its first occurrence. */
  lemma SearchTermsAreFirstOccurrences(f: KeywordFilter)
    ensures f.SearchTerms() == KeepFirst(f.AllKeywords())
    ensures Distinct(f.SearchTerms())
    ensures forall k :: k in f.SearchTerms() <==> k in f.AllKeywords()
  {
    DedupKeepsFirstOccurrences(f.AllKeywords());
  }

  /** De-duplication compares exact strings: keywords that differ only in case
      are both kept. */
  lemma SearchTermsKeepCaseVariants()
    ensures Dedup(Keywords(AndNode(KeywordNode("DDR5"), KeywordNode("ddr5")))) == ["DDR5", "ddr5"]
  {
    assert Keywords(AndNode(KeywordNode("DDR5"), KeywordNode("ddr5"))) == ["DDR5", "ddr5"];
    assert "ddr5" != "DDR5" by {
      assert "ddr5"[0] != "DDR5"[0];
    }
    assert FromKeys(["DDR5", "ddr5"], []) == FromKeys(["ddr5"], ["DDR5"]);
    assert FromKeys(["ddr5"], ["DDR5"]) == FromKeys([], ["DDR5", "ddr5"]);
  }
}
