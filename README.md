# marketmap core in Dafny

marketmap searches several Polish listing sites (Allegro, OLX, Vinted) for
offers that match a keyword filter and a price range, and streams the
matching offers to a GUI. This project models the core of that program:

- **The keyword filter language** (`keyword_lexer.dfy`, `keyword_ast.dfy`,
  `keyword_parser.dfy`, `keyword_filter.dfy`, `keyword_grammar.dfy`).
  - Filters are written like `ddr5 i ram i (cl30 lub cl40)`: `i`/`and`/`&`/`&&`/`+` mean AND, `lub`/`or`/`|`/`||` mean OR, and parentheses group. Operators match without regard to case.
  - The model covers:
    - the lexer class with its cursor;
    - the syntax tree and its case-insensitive evaluation, its keyword list and its matched-keyword list;
    - the recursive-descent parser class. Its methods are proved against a pure grammar, including the "legacy" reading, which joins with AND the keywords of an input that has no operators;
    - `KeywordFilter`, which keeps either the tree or the text of the parse error.
  - A printer for trees shows that parsing inverts printing. It also pins down precedence, associativity and the error cases.
- **Price parsing** (`price_parser.dfy`).
  - `parse_price` and its twin `AllegroDrissionScraper._parse_price` remove spaces, turn a decimal comma into a point, and read the first `\d+\.?\d*` match as a number.
  - Both are modelled, and proved to agree on every input.
- **The scrape run** (`orchestration.dfy`, `run_properties.dfy`).
  - `ScraperManager` is a class whose `run` method visits the selected platforms in order. It passes each adapter's results through `_passes_filter` (keyword filter, then the inclusive price bounds), counts and queues what is accepted, records adapter errors, and stops at cancellation.
  - `_build_summary` renders the summary line.
  - `run` is proved equal to a function of the starting state. That function is then related to a reference definition of "accepted results" and to the per-platform counts and errors.
- **Fetching** (`http.dfy`, `base_fetch.dfy`, `allegro_fetch.dfy`).
  - `BaseScraper._fetch` retries a URL up to three times. On a 429 it takes a break, on a 403 it rotates identity, and on a request error it rotates unless that was the last attempt.
  - `AllegroScraper._fetch_with_session` walks a ladder of five strategies. Each is desktop or mobile headers, reusing or replacing the session. Each strategy warms the session up on the home page, then requests the page. The page is kept only if it shows listings and carries no anti-bot marker; otherwise the ladder goes on. When every strategy has failed, it raises.
  - Both are classes whose methods are proved equal to step functions of the state. What the source promises is then proved about those functions.

External inputs are parameters:

- the network (the response to the k-th request);
- the random choices (which mobile user agent is picked, the desktop user agent, the 30% chance of a category visit, `should_take_break`);
- the platform adapters (a function from platform and query to results or a raised exception);
- the cancellation event (the number of `is_set()` reads after which it answers true, if any).

Prices are exact `real`s. Strings are `seq<char>`.

The documented design and the code differ in a few places. The model follows the code:

- **Legacy input keeps commas.** `laptop, gaming` becomes the keywords `laptop,` and `gaming`. Nothing splits on commas; the comma stays part of the word. `KeywordGrammar.CommaStaysWithKeyword` proves this example, on top of `KeywordLexer.TwoWords` and `KeywordGrammar.LegacyReading`.
- **A trailing `)` is ignored.** In operator mode, tokens left after one complete expression are never looked at unless they are AND or OR, so `a i b)` parses as `a AND b` (`KeywordGrammar.TrailingTokensIgnored`). A leading `)` is still an error.
- **Not every requested platform is reported with a count or an error.**
  - A platform name that is not a known scraper is skipped and recorded nowhere (`RunProperties.UnknownPlatformLeavesNoTrace`).
  - After cancellation, the platforms not yet visited are shown as `—` (`RunProperties.CancelledBeforeStart`).
- **The total equals the sum of the counts only for distinct platforms.** A platform listed twice has its count overwritten (`RunProperties.RunTotals` requires distinct platforms).
- **Cancellation stops the item loop.** When the cancel event is set, `run` stops scanning the current platform's results rather than skipping single items.
- **Warm-up needs exactly 200.** Success requires status 200 (not any 2xx).
- **Exhaustion raises `RequestException`.** When every strategy has failed, the ladder raises `requests.RequestException` with a fixed Polish message.
- **A fresh session keeps the remembered agent.** It does not reset the user agent that last worked: `_last_successful_ua` survives `_create_fresh_session`.
- **A warm-up can fail with cookies set.** If the optional category visit raises, the warm-up reports failure while the cookie flag is already set (`AllegroFetch.WarmUpVerdict`). The next strategy that reuses the session then skips the warm-up.

## Model

| member | source | states |
|---|---|---|
| KeywordLexer.SkipSpaces | marketmap.py:682-684 | skipping whitespace stops at or after the cursor, within the text, on a non-space character unless at the end |
| KeywordLexer.SkippedAreSpaces | marketmap.py:682-684 | every character skipped over is whitespace |
| KeywordLexer.WordEnd | marketmap.py:686-694 | a word ends at the end of the text or at a whitespace or parenthesis character |
| KeywordLexer.WordHasNoDelimiter | marketmap.py:686-694 | no character inside a word is whitespace or a parenthesis |
| KeywordLexer.KeywordExpressionLexer.constructor | marketmap.py:669-672 | the lexer starts at position 0 of the expression |
| KeywordLexer.KeywordExpressionLexer.SkipWhitespace | marketmap.py:682-684 | the cursor moves to the first non-space position from where it was |
| KeywordLexer.KeywordExpressionLexer.ReadWord | marketmap.py:686-694 | returns exactly the text from the old cursor to the end of the word, and leaves the cursor there |
| KeywordLexer.KeywordExpressionLexer.Tokenize | marketmap.py:696-728 | the tokens are the pure scan of the rest of the text followed by one EOF token |
| KeywordLexer.ScanWellFormed | marketmap.py:700-725 | every token scanned is well formed: parentheses carry their character, a word token is non-empty, delimiter-free and has the kind its lower-cased text selects |
| KeywordLexer.LexShape | marketmap.py:696-728 | the token list ends with EOF and no other token is EOF; every other token is well formed |
| KeywordLexer.LexRoundTrip | marketmap.py:696-728 | concatenating the token texts (without EOF) gives back the input with all whitespace removed: nothing but whitespace is lost |
| KeywordLexer.SkipSpacesIdempotent | marketmap.py:682-684 | skipping whitespace twice is skipping it once, and scanning from either point gives the same tokens |
| KeywordLexer.OneWordOneToken | marketmap.py:714-725 | a non-empty text without delimiters lexes to one classified token and EOF |
| KeywordLexer.TwoWords | marketmap.py:714-725 | two delimiter-free words separated by one space lex to their two classified tokens and EOF, each word keeping its last character |
| KeywordLexer.SymbolsInsideAWordAreText | marketmap.py:686-694 | an operator symbol inside a word does not split it: `a&&b` is one keyword |
| KeywordLexer.OperatorsIgnoreCase | marketmap.py:719-723 | `AND`, `Lub`, `Or`, `I` are operators and keep their original spelling as token text |
| KeywordAst.KeywordInMeaning | marketmap.py:755-756 | a keyword occurs in a text exactly when its lower-case form is a substring of the lower-cased text |
| Text.ContainsIsSubstring | marketmap.py:756 | the substring test is true exactly when the needle occurs at some index of the haystack |
| KeywordAst.EvaluateIgnoresCase | marketmap.py:755-790 | evaluating a tree on the lower-cased text gives the same verdict as on the text |
| KeywordAst.KeywordsNonEmpty | marketmap.py:758-793 | every tree lists at least one keyword |
| KeywordAst.MatchedAreOccurringKeywords | marketmap.py:761-796 | the matched keywords are the tree's keyword list, in order and with duplicates, filtered to those occurring in the text |
| KeywordAst.MatchedKeywordsShape | marketmap.py:761-796 | the matched keywords are a subsequence of the keywords, and a string is matched exactly when it is a keyword of the tree that occurs in the text |
| KeywordAst.EvaluateHasWitness | marketmap.py:755-796 | a tree that matches a text reports at least one matched keyword |
| KeywordAst.MatchedNoLonger | marketmap.py:761-796 | there are never more matched keywords than keywords |
| KeywordAst.AllMatchedEvaluates | marketmap.py:755-796 | when every keyword of a tree is matched, the tree matches, whatever its operators |
| KeywordParser.ExprAt | marketmap.py:867-876 | an expression parsed from a position consumes at least one token and stays within the list; its only errors are grammar errors |
| KeywordParser.ExprTail | marketmap.py:871-875 | the OR loop never moves backwards or past the end, and fails only with grammar errors |
| KeywordParser.TermAt | marketmap.py:878-887 | a term consumes at least one token and stays within the list; its only errors are grammar errors |
| KeywordParser.TermTail | marketmap.py:882-886 | the AND loop never moves backwards or past the end, and fails only with grammar errors |
| KeywordParser.FactorAt | marketmap.py:889-903 | a factor consumes at least one token and stays within the list; its only errors are grammar errors |
| KeywordParser.KeywordExpressionParser.constructor | marketmap.py:815-818 | the parser starts with no tokens at position 0 |
| KeywordParser.KeywordExpressionParser.Advance | marketmap.py:825-828 | advancing moves the cursor by one |
| KeywordParser.KeywordExpressionParser.Expect | marketmap.py:830-834 | on the requested kind returns the current token and advances; otherwise fails with "Expected" naming the requested kind, the kind found and the position, cursor unchanged |
| KeywordParser.KeywordExpressionParser.Parse | marketmap.py:836-865 | the parse result is the pure reading of the expression: blank input is "Empty expression", input without operators is the legacy AND chain or "No keywords found", otherwise the grammar |
| KeywordParser.KeywordExpressionParser.ParseExpression | marketmap.py:867-876 | result and final cursor agree with the grammar function for expressions |
| KeywordParser.KeywordExpressionParser.ParseTerm | marketmap.py:878-887 | result and final cursor agree with the grammar function for terms |
| KeywordParser.KeywordExpressionParser.ParseFactor | marketmap.py:889-903 | result and final cursor agree with the grammar function for factors |
| KeywordGrammar.PrintedExpressionParses | marketmap.py:867-903 | parsing a printed tree followed by anything that does not start with an operator yields that tree and stops right after it |
| KeywordGrammar.ParsePrinted | marketmap.py:836-903 | every tree, printed with the fewest parentheses, parses back to itself |
| KeywordGrammar.PrintedKeywordsOnly | marketmap.py:847-852 | a printed tree has no operator token exactly when it is a single keyword |
| KeywordGrammar.AndBindsTighterThanOr | marketmap.py:867-887 | `a lub b i c` parses as `a OR (b AND c)` |
| KeywordGrammar.AndBindsTighterOnTheLeft | marketmap.py:867-887 | `a i b lub c` parses as `(a AND b) OR c` |
| KeywordGrammar.OperatorsGroupLeft | marketmap.py:869-886 | chains of one operator group to the left |
| KeywordGrammar.TrailingTokensIgnored | marketmap.py:865-876 | tokens after a complete operator-mode expression, unless they start with AND or OR, are ignored |
| KeywordGrammar.LeadingTokenRejected | marketmap.py:889-903 | in operator mode, an input starting with anything other than a keyword or `(` is "Unexpected token" naming that token |
| KeywordGrammar.LeadingOperatorRejected | marketmap.py:889-903 | an input starting with AND or OR is "Unexpected token" naming it |
| KeywordGrammar.DanglingOperatorRejected | marketmap.py:871-903 | an expression followed by an operator and nothing else is "Unexpected token" EOF |
| KeywordGrammar.UnclosedParenRejected | marketmap.py:897-900 | `(` and an expression without `)` fails with "Expected RPAREN, got EOF" at the position after the expression |
| KeywordGrammar.ChainKeywords | marketmap.py:854-863 | the legacy AND chain lists exactly the keywords it was built from, in order |
| KeywordGrammar.ChainEvaluates | marketmap.py:854-863 | the legacy AND chain matches a text exactly when every one of its keywords occurs in it |
| KeywordGrammar.LegacyReading | marketmap.py:846-863 | without operators, parsing succeeds exactly when there is a keyword token, fails only with "No keywords found", and the tree lists exactly the keyword tokens |
| KeywordGrammar.CommaStaysWithKeyword | marketmap.py:846-863 | `laptop, gaming` parses as the AND of the keywords `laptop,` and `gaming` |
| KeywordGrammar.EmptyExpressionMeansBlank | marketmap.py:839-840 | the parse fails with "Empty expression" exactly when the input is all whitespace |
| KeywordFilters.KeywordFilter.constructor | marketmap.py:916-929 | a filter holds the parsed tree when parsing succeeds and the error message otherwise; it is valid exactly when it has no error |
| KeywordFilters.InvalidFilterIsInert | marketmap.py:939-964 | a filter that did not parse matches nothing and lists no keywords, matched keywords or search terms |
| KeywordFilters.ValidFilterListings | marketmap.py:939-955 | a valid filter lists at least one keyword; its matched keywords are a subsequence of its keywords, exactly those occurring in the text, and non-empty when it matches |
| KeywordFilters.SearchTermsAreFirstOccurrences | marketmap.py:957-964 | the search terms are the keywords with later exact duplicates removed: distinct, first-occurrence order, same members |
| Text.DedupKeepsFirstOccurrences | marketmap.py:964 | `dict.fromkeys` keeps the first occurrence of each string, in order, loses none and repeats none |
| KeywordFilters.SearchTermsKeepCaseVariants | marketmap.py:957-964 | deduplication is exact: `DDR5` and `ddr5` are both kept |
| PriceParser.RemoveChar | marketmap.py:629 | removing a character leaves no occurrence of it and never lengthens the text |
| PriceParser.ReplaceChar | marketmap.py:629 | replacing a character changes exactly its occurrences and keeps the length |
| PriceParser.Search | marketmap.py:630 | a match, when found, is a well-formed number: digits, optional point, digits |
| PriceParser.SearchFindsLeftmostMatch | marketmap.py:630 | a found match matches the pattern at a position with no digit before it |
| PriceParser.SearchIsThatMatch | marketmap.py:630 | a number matching the pattern at a position with no digit before it is the one the search finds |
| PriceParser.CleaningsAgree | marketmap.py:629 | the cleaning of `parse_price` equals the cleaning of `_parse_price` on every input |
| PriceParser.TwinsAgree | allegro_drission_scraper.py:569-582 | `parse_price` and `_parse_price` return the same value for every input |
| PriceParser.CleaningMeaning | allegro_drission_scraper.py:575 | the cleaned text has no non-breaking space, space or comma, and keeps the digits of the raw text in order |
| PriceParser.NoneIffNoDigit | allegro_drission_scraper.py:571-582 | the parser returns no price exactly when the text has no digit |
| PriceParser.NeverNegative | allegro_drission_scraper.py:576-579 | a parsed price is never negative |
| PriceParser.GroupedThousands | allegro_drission_scraper.py:570-579 | `a b,c unit`, with thousands separated by a space and a decimal comma, reads as the number `ab.c` |
| PriceParser.GroupedExample | allegro_drission_scraper.py:570 | `1 299,50 zł` reads as 1299.5 |
| PriceParser.OnlyTheFirstRunCounts | allegro_drission_scraper.py:575-579 | `1.299,50` reads as 1.299: a point used as thousands separator ends the number |
| PriceParser.TrailingPoint | allegro_drission_scraper.py:576-579 | `12.` reads as 12 |
| Text.NatToStringRoundTrip | marketmap.py:1982 | the decimal rendering of a count reads back as that count |
| Orchestration.PassesFilter | marketmap.py:1944-1960 | a result passes exactly when the title matches and a known price lies within the bounds that are set; a matching result gets its matched keywords attached even when the price rejects it, a non-matching one is unchanged |
| Orchestration.ShortError | marketmap.py:1975-1978 | an error text is at most 30 characters: unchanged if it fits, else its first 27 characters and `...` |
| Orchestration.SummaryParts | marketmap.py:1972-1984 | one part per selected platform, in order |
| Orchestration.ScraperManager.constructor | marketmap.py:1932-1942 | a manager starts with no counts, errors, queued results or messages, and a filter built from the configured expression |
| Orchestration.ScraperManager.IsSet | marketmap.py:1996 | reading the cancel event answers according to the token and counts the read |
| Orchestration.ScraperManager.ScanPlatform | marketmap.py:2014-2021 | the inner loop's new state and count are those of the pure scan from the old state |
| Orchestration.ScraperManager.Run | marketmap.py:1990-2036 | the new state is the pure run from the old state, and exactly one summary of the final state is delivered |
| RunProperties.KeptAreAcceptable | marketmap.py:2015-2021 | every result kept from a list passes the keyword and price test |
| RunProperties.AllAcceptedAreAcceptable | marketmap.py:1995-2021 | every result accepted from any platform passes the keyword and price test |
| RunProperties.InvalidFilterKeepsNothing | marketmap.py:1947-1948 | an invalid filter keeps no result |
| RunProperties.InvalidFilterQueuesNothing | marketmap.py:1944-2021 | with an invalid filter a run queues nothing |
| RunProperties.ScanFrame | marketmap.py:2015-2021 | the item loop changes only the read count, the total and the queue |
| RunProperties.ScanCount | marketmap.py:2018-2021 | the item loop adds the same amount to the total, to the platform count and to the queue length |
| RunProperties.ScanQueueWithin | marketmap.py:2015-2021 | the item loop appends a prefix of the results that pass, in their order |
| RunProperties.ScanQueueComplete | marketmap.py:2015-2021 | the item loop appends all results that pass unless it stopped because the event was set |
| RunProperties.VisitRecords | marketmap.py:1999-2033 | visiting a platform changes counts and errors only for that platform, never removes one, and records a known platform in one of them |
| RunProperties.AdapterErrorRecorded | marketmap.py:2028-2033 | an adapter exception records its message, or its type name when the message is empty, as the platform's error and reports it, counting and queueing nothing |
| RunProperties.AdapterResultRecorded | marketmap.py:2014-2026 | an adapter that returns records, as the platform's count, the number of results it queued, and records no error |
| RunProperties.VisitQueue | marketmap.py:1999-2026 | visiting a platform appends a prefix of its accepted results, all of them unless cancelled, and the total grows by the recorded count |
| RunProperties.CancelSeenStops | marketmap.py:1996-1997 | once the event reads as set, the platform loop ends with only that read |
| RunProperties.RunQueueCount | marketmap.py:1995-2033 | a run only appends to the queue, and the total grows by the number appended |
| RunProperties.RunQueueWithin | marketmap.py:1995-2033 | a run's queue is a prefix of the accepted results of its platforms, in platform order |
| RunProperties.RunQueueComplete | marketmap.py:1995-2033 | without cancellation a run queues exactly the accepted results of its platforms, in platform order |
| RunProperties.RunCounts | marketmap.py:2023 | a run changes counts only for known selected platforms and removes none |
| RunProperties.RunErrors | marketmap.py:2030 | a run changes errors only for known selected platforms and removes none |
| RunProperties.UnknownPlatformLeavesNoTrace | marketmap.py:1999-2001 | a platform name with no scraper is recorded neither as a count nor as an error |
| RunProperties.EveryKnownPlatformRecorded | marketmap.py:2005-2033 | without cancellation every selected known platform ends with a count or an error |
| RunProperties.RunNeverBoth | marketmap.py:2005-2033 | over distinct platform names not yet recorded, no visited platform ends with both a count and an error |
| RunProperties.FreshRunRecordsExactlyOne | marketmap.py:1999-2033 | a fresh manager's run over distinct platform names records each known platform in exactly one of the counts and the errors when never cancelled, in at most one otherwise, and an unknown name in neither |
| RunProperties.RunTotals | marketmap.py:2019-2023 | for distinct platforms not yet counted, the total grows by the sum of their recorded counts |
| RunProperties.FreshRunTotals | marketmap.py:1937-2023 | after a run from a fresh manager, the total is the queue length and, for distinct platforms, the sum of the counts |
| RunProperties.FreshRunQueue | marketmap.py:1990-2033 | a fresh run queues only acceptable results, and without cancellation exactly the accepted results of its platforms in order |
| RunProperties.CancelledBeforeStart | marketmap.py:1995-1997 | a run cancelled before it starts queues, counts and reports nothing, and the summary shows a dash for every platform |
| RunProperties.SummaryInPlatformOrder | marketmap.py:1972-1988 | the summary has one part per selected platform, in order, each starting with the platform's name |
| RunProperties.ErrorShownInsteadOfCount | marketmap.py:1974-1979 | a platform with an error shows the same part whatever count is recorded for it: its name and the warning sign, then the whole error text if it has at most 30 characters, else its first 27 characters and `...`; at most 34 characters beyond the name |
| BaseFetch.Backoff | marketmap.py:1295-1318 | after a 429 exactly one break is taken, after a 403 exactly one rotation; any other failure rotates once unless it was the last attempt; nothing else changes |
| BaseFetch.BaseScraper.constructor | marketmap.py:1264-1268 | a scraper starts with no requests, breaks or rotations |
| BaseFetch.BaseScraper.Fetch | marketmap.py:1274-1320 | the new state and the page are those of the pure retry loop from the old state |
| BaseFetch.FirstUsable | marketmap.py:1283-1311 | finds the first response among the attempts that `raise_for_status` lets through, or states there is none |
| BaseFetch.FetchFindsFirstUsable | marketmap.py:1283-1320 | the page is the body of the first usable response among the attempts left |
| BaseFetch.FetchRequestsPerAttempt | marketmap.py:1283-1318 | the URL is requested once per attempt made, up to and including the first usable response |
| BaseFetch.FailedAttemptsBackOff | marketmap.py:1295-1318 | the loop takes one break per 429 among the failed responses and rotates once per other failed response, except that a failure other than 429 or 403 on the last attempt does not rotate |
| BaseFetch.FailedAttemptsBreaks | marketmap.py:1295-1318 | the breaks the retry loop takes are exactly the 429 replies among the failed responses before the first usable one |
| BaseFetch.FailedAttemptsRotations | marketmap.py:1295-1318 | the rotations the retry loop asks for are the failed responses that are not 429, less one when every attempt failed and the last failure was neither a 429 nor a 403 |
| BaseFetch.FetchRequests | marketmap.py:1283-1292 | the retry loop only appends requests, at most three, all for the URL |
| BaseFetch.FetchPage | marketmap.py:1283-1320 | the loop returns nothing exactly when none of its three responses is usable, and otherwise the body of the first usable one |
| AllegroFetch.AllegroScraper.constructor | marketmap.py:1354-1359 | a scraper starts without cookies, with desktop headers, no remembered agent and no requests |
| AllegroFetch.AllegroScraper.CreateFreshSession | marketmap.py:1389-1393 | a fresh session drops the cookies and rotates the identity |
| AllegroFetch.AllegroScraper.WarmUpSession | marketmap.py:1395-1437 | the new state and the verdict are those of the pure warm-up from the old state |
| AllegroFetch.AllegroScraper.FetchWithSession | marketmap.py:1439-1523 | the new state and the result are those of the pure strategy ladder from the old state |
| AllegroFetch.WarmUpFrame | marketmap.py:1395-1437 | a warm-up sends nothing when cookies are held, else starts with the home page; it sends at most two requests, keeps the headers' kind and the identity, and success means cookies are held |
| AllegroFetch.WarmUpVerdict | marketmap.py:1414-1432 | without cookies, cookies are acquired exactly on a 200 without a challenge marker, remembering the agent used; success exactly when acquired and any category visit did not raise |
| AllegroFetch.FetchPageRules | marketmap.py:1466-1517 | the page request is sent with the remembered agent; its body is kept exactly for a listing page; any other outcome drops the cookies |
| AllegroFetch.PageUsesWarmUpAgent | marketmap.py:1469-1477 | after a successful warm-up, the page request carries the agent that worked, when that agent is not empty |
| AllegroFetch.AttemptRules | marketmap.py:1456-1517 | one strategy sets the headers' kind; a fresh one starts one session, rotates once and visits the home page first; at most three requests; a page is the listing page its last request got |
| AllegroFetch.LadderAppends | marketmap.py:1449-1517 | the ladder only appends requests, at most three per remaining strategy |
| AllegroFetch.LadderPage | marketmap.py:1503-1509 | a page the ladder returns is the listing page that its last request, to the URL, got |
| AllegroFetch.LadderExhausted | marketmap.py:1449-1523 | the ladder raises its fixed message only after every remaining strategy, with one session and one rotation per fresh strategy, and the last strategy's headers selected |
| AllegroFetch.LadderFreshCount | marketmap.py:1441-1449 | three of the five strategies start a fresh session, and the last uses desktop headers |
| AllegroFetch.FetchWithSessionOutcome | marketmap.py:1439-1523 | at most fifteen requests; a returned page is a listing page for the URL; otherwise the fixed message after three fresh sessions and rotations, with desktop headers |

## Left out

- Unicode: `str.isspace`, `str.lower` and the regular expression's `\d` are modelled on ASCII (whitespace is space, `\t \n \v \f \r` and the separators `\x1c`-`\x1f`; case mapping is `A`-`Z`; digits are `0`-`9`). Non-ASCII whitespace, case mappings and digits are treated as ordinary characters.
- Floating point: prices are exact decimals (`real`). Rounding in `float()` and comparisons of rounded bounds are not modelled. The `ValueError` branch of the price parsers cannot be taken by a `\d+\.?\d*` match, so it has no counterpart.
- Python's recursion limit: a deeply nested filter that would raise `RecursionError` parses in the model.
- The `if not word: continue` branch of `tokenize`: it is unreachable, since a word starts on a character that is neither whitespace nor a parenthesis. The model has no such branch.
- `KeywordParser.Message`: the error texts are defined but no property of them is proved.
- Side effects without a bearing on the logic: `print` calls, `time.sleep`, the HumanSimulator's throttles and delays (including the backoff wait before each Allegro strategy), the request timeout, and headers other than the User-Agent (Referer, Accept, Sec-Fetch-*, Cache-Control).
- The HumanSimulator itself: only how often `_fetch`, `_create_fresh_session` and the ladder ask it to take a break or to rotate the identity is counted, and `should_take_break` is a parameter. The `rotations` counters of `BaseFetch.Visit` and `AllegroFetch.Conn` count only the explicit `rotate_identity` calls. The identity also changes inside `take_break` (marketmap.py:232) and periodically inside `get_user_agent` (marketmap.py:141), so the rotations that `AllegroFetch.LadderExhausted` and `AllegroFetch.FetchWithSessionOutcome` state are not the total number of identity changes.
- Randomness: `random.choice` of the mobile agent, the desktop agent from `get_headers` and `random.random() < 0.3` for the category visit are functions of the number of requests sent so far.
- HTML parsing: BeautifulSoup is not modelled. Whether a page has `article` elements or an `items` box travels with the reply. `BaseScraper._fetch` returns the body instead of the parsed document.
- Exceptions other than `requests.RequestException` inside the fetch functions (they would propagate) are not modelled. Every network failure is one `Failure` response.
- `AllegroScraper._attempt_count`: never read or written after `__init__`, so it has no counterpart.
- The platform adapters' `search` and their own cancellation checks: an adapter is a function from platform and query to results or an exception. Constructing a scraper is assumed to succeed or to raise like `search`. The same adapter function answers each visit to a platform.
- `_emit_status` and `on_done`: status messages and summaries are recorded as logs. The model records them even when no callback is set, where the source skips the call.
- The results queue: a sequence the manager appends to. Thread safety and consumers are not modelled.
- `_passes_filter` mutates the result object it is given. The model returns the annotated copy instead, so aliasing (the same object passed twice) is not captured.
- Concurrency: `run` executes on one background thread. The only shared state it reads is the cancel event, modelled by the read from which `is_set()` answers true.
- The rest of the repository: the GUI, settings, the site adapters' HTML extraction, the AI analysis, the quality score, and the Drission scraper apart from `_parse_price`. allegro_drission_scraper.py is otherwise not part of this model.
- AllegroFetch.FetchWithSessionOutcome: when the ladder raises, only a lower bound of three on the number of requests is stated. The exact number depends on the responses.
