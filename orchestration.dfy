/**
 * `ScraperManager`: runs the platform adapters one after another, keeps the
 * results the keyword filter and the price bounds accept, counts them per
 * platform, records adapter failures, and reports a one-line summary.
 *
 * The adapters are a function from platform name and query to either a list
 * of results or a raised exception. The cancellation event is read only
 * through `is_set()`; a `CancelToken` says from which read on it answers
 * true (it is set once and never cleared).
 */
module Orchestration {
  import opened Wrappers
  import opened Text
  import opened KeywordFilters

  datatype ScrapeResult = ScrapeResult(
    portal: string,
    title: string,
    price: Option<real>,
    priceText: string,
    url: string,
    matchedKeywords: seq<string>)

  datatype ScrapeConfig = ScrapeConfig(
    platforms: seq<string>,
    keywordExpression: string,
    priceMin: Option<real>,
    priceMax: Option<real>)

  /** The keys of `SCRAPERS`. */
  const Scrapers: set<string> := {"Allegro", "OLX", "Vinted"}

  /** What `scraper.search` is called with. */
  datatype SearchQuery = SearchQuery(keywords: seq<string>, priceMin: Option<real>, priceMax: Option<real>)

  /** What `scraper.search` does: return results, or raise an exception with a
      message (possibly empty) and a type name. */
  datatype Outcome =
    | Returned(results: seq<ScrapeResult>)
    | Raised(message: string, typeName: string)

  type Adapter = (string, SearchQuery) -> Outcome

  /** When the cancellation event reads as set: never, or from the `n`-th read on. */
  datatype CancelToken = NeverSet | SetAfter(n: nat)

  /** The answer of `is_set()` at read number `read` (counted from 0). */
  predicate IsSetAt(c: CancelToken, read: nat) {
    c.SetAfter? && read >= c.n
  }

  /** The messages `_emit_status` reports. */
  datatype Status =
    | Scanning(platform: string)
    | Finished(platform: string, count: nat)
    | Failed(platform: string, message: string)

  function StatusText(st: Status): string {
    match st
    case Scanning(p) => "Scanning " + p + "..."
    case Finished(p, n) => "\U{2713} " + p + ": " + NatToString(n) + " matches"
    case Failed(p, m) => "\U{26A0} " + p + ": " + m
  }

  // ----- `_passes_filter` -----

  /** The price test: an unknown price passes, a known one must lie within the
      bounds that are set, both inclusive. */
  predicate PriceAllowed(price: Option<real>, priceMin: Option<real>, priceMax: Option<real>) {
    price.None? ||
    ((priceMin.None? || priceMin.value <= price.value) && (priceMax.None? || price.value <= priceMax.value))
  }

  /** The verdict of `_passes_filter` and the result as it leaves the call. */
  datatype Checked = Checked(passes: bool, result: ScrapeResult)

  /** `_passes_filter`: the title must match; a matching result gets its matched
      keywords attached, even when the price then rejects it. */
  function PassesFilter(f: KeywordFilter, config: ScrapeConfig, r: ScrapeResult): (c: Checked)
    ensures c.passes <==> f.Matches(r.title) && PriceAllowed(r.price, config.priceMin, config.priceMax)
    ensures !f.Matches(r.title) ==> c.result == r
    ensures f.Matches(r.title) ==> c.result == r.(matchedKeywords := f.MatchedKeywordsIn(r.title))
  {
    if !f.Matches(r.title) then Checked(false, r)
    else
      var annotated := r.(matchedKeywords := f.MatchedKeywordsIn(r.title));
      if r.price.Some? then
        if config.priceMin.Some? && r.price.value < config.priceMin.value then Checked(false, annotated)
        else if config.priceMax.Some? && r.price.value > config.priceMax.value then Checked(false, annotated)
        else Checked(true, annotated)
      else Checked(true, annotated)
  }

  // ----- `_build_summary` -----

  /** Error messages longer than 30 characters are cut to 27 and "...". */
  function ShortError(e: string): (r: string)
    ensures |r| <= 30
    ensures |e| <= 30 ==> r == e
    ensures |e| > 30 ==> |r| == 30 && r[..27] == e[..27] && r[27..] == "..."
  {
    if |e| > 30 then e[..27] + "..." else e
  }

  /** One platform's part: its error if it has one, else its count, else a dash. */
  function SummaryPart(p: string, counts: map<string, nat>, errors: map<string, string>): string {
    if p in errors then p + ": \U{26A0} " + ShortError(errors[p])
    else if p in counts then p + ": " + NatToString(counts[p])
    else p + ": \U{2014}"
  }

  function SummaryParts(platforms: seq<string>, counts: map<string, nat>, errors: map<string, string>): (parts: seq<string>)
    ensures |parts| == |platforms|
    ensures forall i :: 0 <= i < |platforms| ==> parts[i] == SummaryPart(platforms[i], counts, errors)
  {
    if platforms == [] then []
    else [SummaryPart(platforms[0], counts, errors)] + SummaryParts(platforms[1..], counts, errors)
  }

  function BuildSummary(platforms: seq<string>, counts: map<string, nat>, errors: map<string, string>, total: nat): string {
    "\U{2705} " + NatToString(total) + " results" + "  (" + Join(SummaryParts(platforms, counts, errors), " | ") + ")"
  }

  // ----- `run`, as a function of the state it starts from -----

  /** The state `run` changes: `is_set()` calls so far, `_total_found`,
      `_platform_results`, `_platform_errors`, the queue and the status messages. */
  datatype Tally = Tally(
    checks: nat,
    total: nat,
    counts: map<string, nat>,
    errors: map<string, string>,
    queue: seq<ScrapeResult>,
    statuses: seq<Status>)

  /** What a run depends on besides the state. */
  datatype Setup = Setup(filter: KeywordFilter, config: ScrapeConfig, cancel: CancelToken, search: Adapter)

  function Query(s: Setup): SearchQuery {
    SearchQuery(s.filter.SearchTerms(), s.config.priceMin, s.config.priceMax)
  }

  /** `str(exc) if str(exc) else type(exc).__name__`. */
  function ErrorText(message: string, typeName: string): string {
    if message != "" then message else typeName
  }

  /** The inner loop over one adapter's results from index `i`, with `count`
      accepted so far; the state and the final count. */
  function ScanResults(f: KeywordFilter, config: ScrapeConfig, cancel: CancelToken,
                       t: Tally, raw: seq<ScrapeResult>, i: nat, count: nat): (Tally, nat)
    requires i <= |raw|
    decreases |raw| - i
  {
    if i == |raw| then (t, count)
    else if IsSetAt(cancel, t.checks) then (t.(checks := t.checks + 1), count)
    else
      var c := PassesFilter(f, config, raw[i]);
      var t1 := t.(checks := t.checks + 1);
      if c.passes then
        ScanResults(f, config, cancel, t1.(total := t1.total + 1, queue := t1.queue + [c.result]), raw, i + 1, count + 1)
      else ScanResults(f, config, cancel, t1, raw, i + 1, count)
  }

  /** One platform, once the cancellation check before it has passed. */
  function VisitPlatform(s: Setup, t: Tally, p: string): Tally {
    if p !in Scrapers then t
    else
      var t1 := t.(statuses := t.statuses + [Scanning(p)]);
      match s.search(p, Query(s))
      case Raised(m, tn) =>
        var e := ErrorText(m, tn);
        t1.(errors := t1.errors[p := e], statuses := t1.statuses + [Failed(p, e)])
      case Returned(raw) =>
        var (t2, n) := ScanResults(s.filter, s.config, s.cancel, t1, raw, 0, 0);
        t2.(counts := t2.counts[p := n], statuses := t2.statuses + [Finished(p, n)])
  }

  /** The platform loop of `run` from index `i`. */
  function RunFrom(s: Setup, t: Tally, i: nat): Tally
    requires i <= |s.config.platforms|
    decreases |s.config.platforms| - i
  {
    if i == |s.config.platforms| then t
    else if IsSetAt(s.cancel, t.checks) then t.(checks := t.checks + 1)
    else RunFrom(s, VisitPlatform(s, t.(checks := t.checks + 1), s.config.platforms[i]), i + 1)
  }

  class ScraperManager {
    const config: ScrapeConfig
    const filter: KeywordFilter
    const cancel: CancelToken
    var checks: nat
    var totalFound: nat
    var platformResults: map<string, nat>
    var platformErrors: map<string, string>
    var queue: seq<ScrapeResult>
    var statuses: seq<Status>
    /** The summaries handed to `on_done`, one per call. */
    var summaries: seq<string>

    function Snapshot(): Tally
      reads this
    {
      Tally(checks, totalFound, platformResults, platformErrors, queue, statuses)
    }

    constructor (config: ScrapeConfig, cancel: CancelToken)
      ensures this.config == config && this.cancel == cancel
      ensures filter.expression == config.keywordExpression
      ensures Snapshot() == Tally(0, 0, map[], map[], [], []) && summaries == []
    {
      this.config := config;
      this.cancel := cancel;
      filter := new KeywordFilter(config.keywordExpression);
      checks := 0;
      totalFound := 0;
      platformResults := map[];
      platformErrors := map[];
      queue := [];
      statuses := [];
      summaries := [];
    }

    /** `self._cancel.is_set()`. */
    method IsSet() returns (b: bool)
      modifies this`checks
      ensures b == IsSetAt(cancel, old(checks)) && checks == old(checks) + 1
    {
      b := IsSetAt(cancel, checks);
      checks := checks + 1;
    }

    /** `get_search_keywords`. */
    function SearchKeywords(): seq<string> {
      filter.SearchTerms()
    }

    /** The summary of the current state. */
    function Summary(): string
      reads this
    {
      BuildSummary(config.platforms, platformResults, platformErrors, totalFound)
    }

    method Run(search: Adapter)
      modifies this
      ensures Snapshot() == RunFrom(Setup(filter, config, cancel, search), old(Snapshot()), 0)
      ensures summaries == old(summaries) + [Summary()]
    {
      ghost var s := Setup(filter, config, cancel, search);
      var searchKeywords := SearchKeywords();
      var platforms := config.platforms;
      var i := 0;
      while i < |platforms|
        invariant i <= |platforms|
        invariant RunFrom(s, Snapshot(), i) == RunFrom(s, old(Snapshot()), 0)
        invariant summaries == old(summaries)
        decreases |platforms| - i
      {
        ghost var before := Snapshot();
        var cancelled := IsSet();
        if cancelled {
          break;
        }
        var platform := platforms[i];
        if platform in Scrapers {
          statuses := statuses + [Scanning(platform)];
          var outcome := search(platform, SearchQuery(searchKeywords, config.priceMin, config.priceMax));
          match outcome {
            case Raised(message, typeName) =>
              var errMsg := if message != "" then message else typeName;
              platformErrors := platformErrors[platform := errMsg];
              statuses := statuses + [Failed(platform, errMsg)];
            case Returned(rawResults) =>
              var platformCount := ScanPlatform(rawResults);
              platformResults := platformResults[platform := platformCount];
              statuses := statuses + [Finished(platform, platformCount)];
          }
        }
        assert Snapshot() == VisitPlatform(s, before.(checks := before.checks + 1), platform);
        i := i + 1;
      }
      summaries := summaries + [Summary()];
    }

    /** The `for result in raw_results` loop of `run`. */
    method ScanPlatform(rawResults: seq<ScrapeResult>) returns (platformCount: nat)
      modifies this`checks, this`totalFound, this`queue
      ensures (Snapshot(), platformCount) == ScanResults(filter, config, cancel, old(Snapshot()), rawResults, 0, 0)
    {
      ghost var start := Snapshot();
      platformCount := 0;
      var j := 0;
      while j < |rawResults|
        invariant j <= |rawResults|
        invariant ScanResults(filter, config, cancel, Snapshot(), rawResults, j, platformCount)
               == ScanResults(filter, config, cancel, start, rawResults, 0, 0)
        decreases |rawResults| - j
      {
        var stop := IsSet();
        if stop {
          break;
        }
        var checked := PassesFilter(filter, config, rawResults[j]);
        if checked.passes {
          totalFound := totalFound + 1;
          platformCount := platformCount + 1;
          queue := queue + [checked.result];
        }
        j := j + 1;
      }
    }
  }
}
