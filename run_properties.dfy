/**
 * What `ScraperManager.run` guarantees, proved about `RunFrom`, the function
 * its `Run` method is shown to compute: the queue holds accepted results
 * only, in platform order and in each adapter's order; `_total_found` counts
 * the queue and, for distinct platform names, the recorded per-platform
 * counts; unknown platform names leave no trace; without cancellation every
 * known platform ends up counted or failed; once cancellation is seen
 * nothing else happens.
 */
module RunProperties {
  import opened Wrappers
  import opened Text
  import opened KeywordFilters
  import opened Orchestration

  // ----- reference definitions -----

  /** What a finished result looks like: its title matches, its price is
      allowed, and it carries the keywords its title matched. */
  predicate Acceptable(f: KeywordFilter, config: ScrapeConfig, r: ScrapeResult) {
    f.Matches(r.title) && PriceAllowed(r.price, config.priceMin, config.priceMax)
    && r.matchedKeywords == f.MatchedKeywordsIn(r.title)
  }

  /** The results of one list that pass the filter, annotated, in list order. */
  function Kept(f: KeywordFilter, config: ScrapeConfig, raw: seq<ScrapeResult>): seq<ScrapeResult> {
    if raw == [] then []
    else
      var c := PassesFilter(f, config, raw[0]);
      (if c.passes then [c.result] else []) + Kept(f, config, raw[1..])
  }

  /** What one platform contributes to the queue when nothing is cancelled. */
  function Accepted(s: Setup, p: string): seq<ScrapeResult> {
    if p !in Scrapers then []
    else
      match s.search(p, Query(s))
      case Raised(_, _) => []
      case Returned(raw) => Kept(s.filter, s.config, raw)
  }

  /** The contributions of several platforms, in the order given. */
  function AllAccepted(s: Setup, ps: seq<string>): seq<ScrapeResult> {
    if ps == [] then [] else Accepted(s, ps[0]) + AllAccepted(s, ps[1..])
  }

  /** The known platform names among `ps`. */
  function Known(ps: seq<string>): set<string> {
    set p | p in ps && p in Scrapers
  }

  /** Two maps agree on every key outside `ks`. */
  ghost predicate SameOutside<V>(a: map<string, V>, b: map<string, V>, ks: set<string>) {
    forall k :: k !in ks ==> (k in a <==> k in b) && (k in a ==> a[k] == b[k])
  }

  /** The sum of the counts recorded for the names of `ps`. */
  function Recorded(ps: seq<string>, counts: map<string, nat>): nat {
    if ps == [] then 0
    else (if ps[0] in counts then counts[ps[0]] else 0) + Recorded(ps[1..], counts)
  }

  // ----- acceptance -----

  lemma {:induction false} KeptAreAcceptable(f: KeywordFilter, config: ScrapeConfig, raw: seq<ScrapeResult>)
    ensures forall r :: r in Kept(f, config, raw) ==> Acceptable(f, config, r)
  {
    if raw != [] {
      KeptAreAcceptable(f, config, raw[1..]);
      var c := PassesFilter(f, config, raw[0]);
      if c.passes {
        assert c.result.title == raw[0].title;
      }
    }
  }

  lemma {:induction false} AllAcceptedAreAcceptable(s: Setup, ps: seq<string>)
    ensures forall r :: r in AllAccepted(s, ps) ==> Acceptable(s.filter, s.config, r)
  {
    if ps != [] {
      AllAcceptedAreAcceptable(s, ps[1..]);
      var p := ps[0];
      if p in Scrapers && s.search(p, Query(s)).Returned? {
        KeptAreAcceptable(s.filter, s.config, s.search(p, Query(s)).results);
      }
    }
  }

  lemma {:induction false} InvalidFilterKeepsNothing(f: KeywordFilter, config: ScrapeConfig, raw: seq<ScrapeResult>)
    requires !f.IsValid()
    ensures Kept(f, config, raw) == []
  {
    if raw != [] {
      InvalidFilterKeepsNothing(f, config, raw[1..]);
    }
  }

  lemma {:induction false} InvalidFilterAcceptsNothing(s: Setup, ps: seq<string>)
    requires !s.filter.IsValid()
    ensures AllAccepted(s, ps) == []
  {
    if ps != [] {
      InvalidFilterAcceptsNothing(s, ps[1..]);
      var p := ps[0];
      if p in Scrapers && s.search(p, Query(s)).Returned? {
        InvalidFilterKeepsNothing(s.filter, s.config, s.search(p, Query(s)).results);
      }
    }
  }

  // ----- the inner loop -----

  /** One result of the inner loop, when the event is not set. */
  lemma ScanStep(f: KeywordFilter, config: ScrapeConfig, cancel: CancelToken,
                 t: Tally, raw: seq<ScrapeResult>, i: nat, count: nat)
    requires i < |raw| && !IsSetAt(cancel, t.checks)
    ensures var c := PassesFilter(f, config, raw[i]);
      ScanResults(f, config, cancel, t, raw, i, count)
      == if c.passes
         then ScanResults(f, config, cancel, t.(checks := t.checks + 1, total := t.total + 1, queue := t.queue + [c.result]), raw, i + 1, count + 1)
         else ScanResults(f, config, cancel, t.(checks := t.checks + 1), raw, i + 1, count)
  {
  }

  lemma KeptStep(f: KeywordFilter, config: ScrapeConfig, raw: seq<ScrapeResult>, i: nat)
    requires i < |raw|
    ensures var c := PassesFilter(f, config, raw[i]);
      Kept(f, config, raw[i..]) == (if c.passes then [c.result] else []) + Kept(f, config, raw[i + 1..])
  {
    assert raw[i..][1..] == raw[i + 1..];
  }

  /** The inner loop touches only the counter, the queue and the reads of the event. */
  lemma {:induction false} ScanFrame(f: KeywordFilter, config: ScrapeConfig, cancel: CancelToken,
                                     t: Tally, raw: seq<ScrapeResult>, i: nat, count: nat)
    requires i <= |raw|
    ensures var r := ScanResults(f, config, cancel, t, raw, i, count).0;
      r.counts == t.counts && r.errors == t.errors && r.statuses == t.statuses && t.checks <= r.checks
    decreases |raw| - i
  {
    if i < |raw| && !IsSetAt(cancel, t.checks) {
      ScanStep(f, config, cancel, t, raw, i, count);
      var c := PassesFilter(f, config, raw[i]);
      if c.passes {
        ScanFrame(f, config, cancel, t.(checks := t.checks + 1, total := t.total + 1, queue := t.queue + [c.result]), raw, i + 1, count + 1);
      } else {
        ScanFrame(f, config, cancel, t.(checks := t.checks + 1), raw, i + 1, count);
      }
    }
  }

  /** The count the inner loop returns is what it added to the counter and to the queue. */
  lemma {:induction false} ScanCount(f: KeywordFilter, config: ScrapeConfig, cancel: CancelToken,
                                     t: Tally, raw: seq<ScrapeResult>, i: nat, count: nat)
    requires i <= |raw|
    ensures var (r, n) := ScanResults(f, config, cancel, t, raw, i, count);
      r.total - t.total == n - count == |r.queue| - |t.queue|
    decreases |raw| - i
  {
    if i < |raw| && !IsSetAt(cancel, t.checks) {
      ScanStep(f, config, cancel, t, raw, i, count);
      var c := PassesFilter(f, config, raw[i]);
      if c.passes {
        ScanCount(f, config, cancel, t.(checks := t.checks + 1, total := t.total + 1, queue := t.queue + [c.result]), raw, i + 1, count + 1);
      } else {
        ScanCount(f, config, cancel, t.(checks := t.checks + 1), raw, i + 1, count);
      }
    }
  }

  lemma Assoc<T>(a: seq<T>, b: seq<T>, c: seq<T>)
    ensures a + (b + c) == (a + b) + c
  {
  }

  /** The inner loop queues a prefix of the accepted results. */
  lemma {:induction false} ScanQueueWithin(f: KeywordFilter, config: ScrapeConfig, cancel: CancelToken,
                                           t: Tally, raw: seq<ScrapeResult>, i: nat, count: nat)
    requires i <= |raw|
    ensures t.queue <= ScanResults(f, config, cancel, t, raw, i, count).0.queue <= t.queue + Kept(f, config, raw[i..])
    decreases |raw| - i
  {
    if i < |raw| && !IsSetAt(cancel, t.checks) {
      ScanStep(f, config, cancel, t, raw, i, count);
      KeptStep(f, config, raw, i);
      var c := PassesFilter(f, config, raw[i]);
      if c.passes {
        var t2 := t.(checks := t.checks + 1, total := t.total + 1, queue := t.queue + [c.result]);
        ScanQueueWithin(f, config, cancel, t2, raw, i + 1, count + 1);
        Assoc(t.queue, [c.result], Kept(f, config, raw[i + 1..]));
      } else {
        ScanQueueWithin(f, config, cancel, t.(checks := t.checks + 1), raw, i + 1, count);
      }
    }
  }

  /** The inner loop queues all the accepted results unless it saw the event set. */
  lemma {:induction false} ScanQueueComplete(f: KeywordFilter, config: ScrapeConfig, cancel: CancelToken,
                                             t: Tally, raw: seq<ScrapeResult>, i: nat, count: nat)
    requires i <= |raw|
    ensures var r := ScanResults(f, config, cancel, t, raw, i, count).0;
      r.queue == t.queue + Kept(f, config, raw[i..]) || (r.checks >= 1 && IsSetAt(cancel, r.checks - 1))
    decreases |raw| - i
  {
    if i < |raw| && !IsSetAt(cancel, t.checks) {
      ScanStep(f, config, cancel, t, raw, i, count);
      KeptStep(f, config, raw, i);
      var c := PassesFilter(f, config, raw[i]);
      if c.passes {
        var t2 := t.(checks := t.checks + 1, total := t.total + 1, queue := t.queue + [c.result]);
        ScanQueueComplete(f, config, cancel, t2, raw, i + 1, count + 1);
        Assoc(t.queue, [c.result], Kept(f, config, raw[i + 1..]));
      } else {
        ScanQueueComplete(f, config, cancel, t.(checks := t.checks + 1), raw, i + 1, count);
      }
    } else if i == |raw| {
      assert raw[i..] == [];
    }
  }

  // ----- one platform -----

  /** The names a visit may record: the platform, if it is an adapter. */
  function KnownOne(p: string): set<string> {
    if p in Scrapers then {p} else {}
  }

  lemma VisitRecords(s: Setup, t: Tally, p: string)
    ensures var t' := VisitPlatform(s, t, p);
      && SameOutside(t'.counts, t.counts, KnownOne(p)) && SameOutside(t'.errors, t.errors, KnownOne(p))
      && t.counts.Keys <= t'.counts.Keys && t.errors.Keys <= t'.errors.Keys
      && (p in Scrapers ==> p in t'.counts || p in t'.errors)
  {
    if p in Scrapers {
      var t1 := t.(statuses := t.statuses + [Scanning(p)]);
      if s.search(p, Query(s)).Returned? {
        ScanFrame(s.filter, s.config, s.cancel, t1, s.search(p, Query(s)).results, 0, 0);
      }
    }
  }

  /** An adapter that raises: its message (or the exception's type name when the
      message is empty) is recorded as the platform's error and reported, and
      nothing is counted or queued. */
  lemma AdapterErrorRecorded(s: Setup, t: Tally, p: string)
    requires p in Scrapers && s.search(p, Query(s)).Raised?
    ensures var o, t' := s.search(p, Query(s)), VisitPlatform(s, t, p);
      var e := if o.message != "" then o.message else o.typeName;
      && t'.errors == t.errors[p := e]
      && t'.counts == t.counts && t'.total == t.total && t'.queue == t.queue && t'.checks == t.checks
      && t'.statuses == t.statuses + [Scanning(p), Failed(p, e)]
  {
  }

  /** An adapter that returns: the platform gets the number of results it queued
      as its count, and no error is recorded. */
  lemma AdapterResultRecorded(s: Setup, t: Tally, p: string)
    requires p in Scrapers && s.search(p, Query(s)).Returned?
    ensures var t' := VisitPlatform(s, t, p);
      && t'.errors == t.errors
      && t.queue <= t'.queue
      && t'.counts == t.counts[p := |t'.queue| - |t.queue|]
  {
    var t1 := t.(statuses := t.statuses + [Scanning(p)]);
    var raw := s.search(p, Query(s)).results;
    ScanFrame(s.filter, s.config, s.cancel, t1, raw, 0, 0);
    ScanCount(s.filter, s.config, s.cancel, t1, raw, 0, 0);
    VisitQueue(s, t, p);
  }

  lemma VisitQueue(s: Setup, t: Tally, p: string)
    ensures var t' := VisitPlatform(s, t, p);
      && t.checks <= t'.checks
      && t.queue <= t'.queue <= t.queue + Accepted(s, p)
      && t'.total - t.total == |t'.queue| - |t.queue|
      && (p !in t.counts ==> t'.total - t.total == if p in t'.counts then t'.counts[p] else 0)
      && (t'.queue == t.queue + Accepted(s, p) || (t'.checks >= 1 && IsSetAt(s.cancel, t'.checks - 1)))
  {
    if p in Scrapers {
      var t1 := t.(statuses := t.statuses + [Scanning(p)]);
      if s.search(p, Query(s)).Returned? {
        var raw := s.search(p, Query(s)).results;
        ScanFrame(s.filter, s.config, s.cancel, t1, raw, 0, 0);
        ScanCount(s.filter, s.config, s.cancel, t1, raw, 0, 0);
        ScanQueueWithin(s.filter, s.config, s.cancel, t1, raw, 0, 0);
        ScanQueueComplete(s.filter, s.config, s.cancel, t1, raw, 0, 0);
        assert raw[0..] == raw;
      }
    }
  }

  // ----- the platform loop -----

  lemma CancelMonotone(c: CancelToken, r: nat, r': nat)
    requires r <= r' && IsSetAt(c, r)
    ensures IsSetAt(c, r')
  {
  }

  /** Once the event has been seen set, the loop stops and changes nothing but
      the read it makes. */
  lemma CancelSeenStops(s: Setup, t: Tally, i: nat)
    requires i <= |s.config.platforms| && IsSetAt(s.cancel, t.checks)
    ensures RunFrom(s, t, i).(checks := t.checks) == t
  {
  }

  /** One platform of the loop, when the event is not set. */
  lemma RunStep(s: Setup, t: Tally, i: nat)
    requires i < |s.config.platforms| && !IsSetAt(s.cancel, t.checks)
    ensures RunFrom(s, t, i) == RunFrom(s, VisitPlatform(s, t.(checks := t.checks + 1), s.config.platforms[i]), i + 1)
  {
  }

  lemma AllAcceptedStep(s: Setup, ps: seq<string>, i: nat)
    requires i < |ps|
    ensures AllAccepted(s, ps[i..]) == Accepted(s, ps[i]) + AllAccepted(s, ps[i + 1..])
  {
    assert ps[i..][1..] == ps[i + 1..];
  }

  /** The queue only grows, and the counter counts what is queued. */
  lemma {:induction false} RunQueueCount(s: Setup, t: Tally, i: nat)
    requires i <= |s.config.platforms|
    ensures t.queue <= RunFrom(s, t, i).queue
    ensures RunFrom(s, t, i).total - t.total == |RunFrom(s, t, i).queue| - |t.queue|
    decreases |s.config.platforms| - i
  {
    var ps := s.config.platforms;
    if i < |ps| && !IsSetAt(s.cancel, t.checks) {
      var t0 := t.(checks := t.checks + 1);
      RunStep(s, t, i);
      VisitQueue(s, t0, ps[i]);
      RunQueueCount(s, VisitPlatform(s, t0, ps[i]), i + 1);
    }
  }

  /** The queue grows by a prefix of the accepted results of the platforms still
      to come. */
  lemma {:induction false} RunQueueWithin(s: Setup, t: Tally, i: nat)
    requires i <= |s.config.platforms|
    ensures RunFrom(s, t, i).queue <= t.queue + AllAccepted(s, s.config.platforms[i..])
    decreases |s.config.platforms| - i
  {
    var ps := s.config.platforms;
    if i < |ps| && !IsSetAt(s.cancel, t.checks) {
      var t0 := t.(checks := t.checks + 1);
      var t1 := VisitPlatform(s, t0, ps[i]);
      RunStep(s, t, i);
      VisitQueue(s, t0, ps[i]);
      AllAcceptedStep(s, ps, i);
      var whole := t.queue + Accepted(s, ps[i]);
      Assoc(t.queue, Accepted(s, ps[i]), AllAccepted(s, ps[i + 1..]));
      if t1.queue == whole {
        RunQueueWithin(s, t1, i + 1);
      } else {
        CancelMonotone(s.cancel, t1.checks - 1, t1.checks);
        CancelSeenStops(s, t1, i + 1);
      }
    }
  }

  /** Without cancellation the queue grows by exactly the accepted results of the
      platforms still to come, in order. */
  lemma {:induction false} RunQueueComplete(s: Setup, t: Tally, i: nat)
    requires i <= |s.config.platforms| && s.cancel.NeverSet?
    ensures RunFrom(s, t, i).queue == t.queue + AllAccepted(s, s.config.platforms[i..])
    decreases |s.config.platforms| - i
  {
    var ps := s.config.platforms;
    if i < |ps| {
      var t0 := t.(checks := t.checks + 1);
      var t1 := VisitPlatform(s, t0, ps[i]);
      RunStep(s, t, i);
      VisitQueue(s, t0, ps[i]);
      AllAcceptedStep(s, ps, i);
      RunQueueComplete(s, t1, i + 1);
      Assoc(t.queue, Accepted(s, ps[i]), AllAccepted(s, ps[i + 1..]));
    }
  }

  lemma SameOutsideChain<V>(a: map<string, V>, b: map<string, V>, c: map<string, V>,
                            kab: set<string>, kbc: set<string>, k: set<string>)
    requires SameOutside(a, b, kab) && SameOutside(b, c, kbc) && kab <= k && kbc <= k
    ensures SameOutside(a, c, k)
  {
  }

  lemma KnownStep(ps: seq<string>, i: nat)
    requires i < |ps|
    ensures Known(ps[i..]) == KnownOne(ps[i]) + Known(ps[i + 1..])
  {
    assert ps[i..] == [ps[i]] + ps[i + 1..];
  }

  /** Names the loop does not visit, and names that are not adapters, keep
      their counts; no count is ever removed. */
  lemma {:induction false} RunCounts(s: Setup, t: Tally, i: nat)
    requires i <= |s.config.platforms|
    ensures SameOutside(RunFrom(s, t, i).counts, t.counts, Known(s.config.platforms[i..]))
    ensures t.counts.Keys <= RunFrom(s, t, i).counts.Keys
    decreases |s.config.platforms| - i
  {
    var ps := s.config.platforms;
    if i < |ps| && !IsSetAt(s.cancel, t.checks) {
      var t0 := t.(checks := t.checks + 1);
      var t1 := VisitPlatform(s, t0, ps[i]);
      RunStep(s, t, i);
      VisitRecords(s, t0, ps[i]);
      RunCounts(s, t1, i + 1);
      KnownStep(ps, i);
      SameOutsideChain(RunFrom(s, t1, i + 1).counts, t1.counts, t0.counts, Known(ps[i + 1..]), KnownOne(ps[i]), Known(ps[i..]));
    }
  }

  /** The same for the recorded errors. */
  lemma {:induction false} RunErrors(s: Setup, t: Tally, i: nat)
    requires i <= |s.config.platforms|
    ensures SameOutside(RunFrom(s, t, i).errors, t.errors, Known(s.config.platforms[i..]))
    ensures t.errors.Keys <= RunFrom(s, t, i).errors.Keys
    decreases |s.config.platforms| - i
  {
    var ps := s.config.platforms;
    if i < |ps| && !IsSetAt(s.cancel, t.checks) {
      var t0 := t.(checks := t.checks + 1);
      var t1 := VisitPlatform(s, t0, ps[i]);
      RunStep(s, t, i);
      VisitRecords(s, t0, ps[i]);
      RunErrors(s, t1, i + 1);
      KnownStep(ps, i);
      SameOutsideChain(RunFrom(s, t1, i + 1).errors, t1.errors, t0.errors, Known(ps[i + 1..]), KnownOne(ps[i]), Known(ps[i..]));
    }
  }

  /** A platform name that is not an adapter is recorded nowhere. */
  lemma UnknownPlatformLeavesNoTrace(s: Setup, t: Tally, p: string)
    requires p !in Scrapers && p !in t.counts && p !in t.errors
    ensures p !in RunFrom(s, t, 0).counts && p !in RunFrom(s, t, 0).errors
  {
    RunCounts(s, t, 0);
    RunErrors(s, t, 0);
    assert p !in Known(s.config.platforms[0..]);
  }

  /** Without cancellation every known platform ends up with a count or an
      error: an adapter that raises does not stop the run. */
  lemma {:induction false} EveryKnownPlatformRecorded(s: Setup, t: Tally, i: nat)
    requires i <= |s.config.platforms| && s.cancel.NeverSet?
    ensures forall j :: i <= j < |s.config.platforms| && s.config.platforms[j] in Scrapers ==>
      s.config.platforms[j] in RunFrom(s, t, i).counts || s.config.platforms[j] in RunFrom(s, t, i).errors
    decreases |s.config.platforms| - i
  {
    var ps := s.config.platforms;
    if i < |ps| {
      var t0 := t.(checks := t.checks + 1);
      var t1 := VisitPlatform(s, t0, ps[i]);
      RunStep(s, t, i);
      VisitRecords(s, t0, ps[i]);
      EveryKnownPlatformRecorded(s, t1, i + 1);
      RunCounts(s, t1, i + 1);
      RunErrors(s, t1, i + 1);
      var r := RunFrom(s, t1, i + 1);
      forall j | i <= j < |ps| && ps[j] in Scrapers
        ensures ps[j] in r.counts || ps[j] in r.errors
      {
        if j == i {
          assert ps[i] in t1.counts || ps[i] in t1.errors;
        }
      }
    }
  }

  /** With distinct platform names not yet recorded, no platform the loop
      visits ends with both a count and an error. */
  lemma {:induction false} RunNeverBoth(s: Setup, t: Tally, i: nat)
    requires i <= |s.config.platforms| && Distinct(s.config.platforms)
    requires forall j :: i <= j < |s.config.platforms| ==>
      s.config.platforms[j] !in t.counts && s.config.platforms[j] !in t.errors
    ensures forall j :: i <= j < |s.config.platforms| ==>
      !(s.config.platforms[j] in RunFrom(s, t, i).counts && s.config.platforms[j] in RunFrom(s, t, i).errors)
    decreases |s.config.platforms| - i
  {
    var ps := s.config.platforms;
    if i == |ps| {
    } else if IsSetAt(s.cancel, t.checks) {
      CancelSeenStops(s, t, i);
    } else {
      var p := ps[i];
      var t0 := t.(checks := t.checks + 1);
      var t1 := VisitPlatform(s, t0, p);
      RunStep(s, t, i);
      VisitRecords(s, t0, p);
      forall j | i + 1 <= j < |ps|
        ensures ps[j] !in t1.counts && ps[j] !in t1.errors
      {
        assert ps[j] != p;
      }
      RunNeverBoth(s, t1, i + 1);
      RunCounts(s, t1, i + 1);
      RunErrors(s, t1, i + 1);
      if p in Scrapers {
        if s.search(p, Query(s)).Raised? {
          AdapterErrorRecorded(s, t0, p);
        } else {
          AdapterResultRecorded(s, t0, p);
        }
      }
      assert !(p in t1.counts && p in t1.errors);
      assert p !in Known(ps[i + 1..]);
    }
  }

  /** A fresh manager's run over distinct platform names records each known
      platform in exactly one of the counts and the errors when the event is
      never set, in at most one of them otherwise, and an unknown name in
      neither. */
  lemma FreshRunRecordsExactlyOne(s: Setup)
    requires Distinct(s.config.platforms)
    ensures var r := RunFrom(s, Tally(0, 0, map[], map[], [], []), 0);
      forall p :: p in s.config.platforms ==>
        && !(p in r.counts && p in r.errors)
        && (p !in Scrapers ==> p !in r.counts && p !in r.errors)
        && (s.cancel.NeverSet? && p in Scrapers ==> (p in r.counts <==> p !in r.errors))
  {
    var t := Tally(0, 0, map[], map[], [], []);
    var ps := s.config.platforms;
    RunNeverBoth(s, t, 0);
    RunCounts(s, t, 0);
    RunErrors(s, t, 0);
    if s.cancel.NeverSet? {
      EveryKnownPlatformRecorded(s, t, 0);
    }
    forall p | p in ps
      ensures var r := RunFrom(s, t, 0);
        && !(p in r.counts && p in r.errors)
        && (p !in Scrapers ==> p !in r.counts && p !in r.errors)
        && (s.cancel.NeverSet? && p in Scrapers ==> (p in r.counts <==> p !in r.errors))
    {
      var j :| 0 <= j < |ps| && ps[j] == p;
      assert ps[0..] == ps;
    }
  }

  // ----- totals -----

  lemma {:induction false} RecordedNone(ps: seq<string>, counts: map<string, nat>)
    requires forall j :: 0 <= j < |ps| ==> ps[j] !in counts
    ensures Recorded(ps, counts) == 0
  {
    if ps != [] {
      RecordedNone(ps[1..], counts);
    }
  }

  lemma RecordedStep(ps: seq<string>, i: nat, counts: map<string, nat>)
    requires i < |ps|
    ensures Recorded(ps[i..], counts) == (if ps[i] in counts then counts[ps[i]] else 0) + Recorded(ps[i + 1..], counts)
  {
    assert ps[i..][1..] == ps[i + 1..];
  }

  /** With distinct platform names, the counter grows by the sum of the counts
      the loop records. */
  lemma {:induction false} RunTotals(s: Setup, t: Tally, i: nat)
    requires i <= |s.config.platforms| && Distinct(s.config.platforms)
    requires forall j :: i <= j < |s.config.platforms| ==> s.config.platforms[j] !in t.counts
    ensures RunFrom(s, t, i).total - t.total == Recorded(s.config.platforms[i..], RunFrom(s, t, i).counts)
    decreases |s.config.platforms| - i
  {
    var ps := s.config.platforms;
    if i == |ps| {
    } else if IsSetAt(s.cancel, t.checks) {
      CancelSeenStops(s, t, i);
      RecordedNone(ps[i..], t.counts);
    } else {
      var p := ps[i];
      var t0 := t.(checks := t.checks + 1);
      var t1 := VisitPlatform(s, t0, p);
      RunStep(s, t, i);
      VisitRecords(s, t0, p);
      VisitQueue(s, t0, p);
      forall j | i + 1 <= j < |ps|
        ensures ps[j] !in t1.counts
      {
        assert ps[j] != p;
        assert ps[j] !in t0.counts;
      }
      RunTotals(s, t1, i + 1);
      RunCounts(s, t1, i + 1);
      var r := RunFrom(s, t1, i + 1);
      assert p !in Known(ps[i + 1..]);
      assert (p in r.counts <==> p in t1.counts) && (p in t1.counts ==> r.counts[p] == t1.counts[p]);
      RecordedStep(ps, i, r.counts);
    }
  }

  /** A fresh manager's run: `_total_found` is the length of the queue and, when
      no platform is named twice, the sum of the recorded counts. */
  lemma FreshRunTotals(s: Setup)
    ensures RunFrom(s, Tally(0, 0, map[], map[], [], []), 0).total == |RunFrom(s, Tally(0, 0, map[], map[], [], []), 0).queue|
    ensures Distinct(s.config.platforms) ==>
      RunFrom(s, Tally(0, 0, map[], map[], [], []), 0).total
      == Recorded(s.config.platforms, RunFrom(s, Tally(0, 0, map[], map[], [], []), 0).counts)
  {
    var t := Tally(0, 0, map[], map[], [], []);
    RunQueueCount(s, t, 0);
    if Distinct(s.config.platforms) {
      RunTotals(s, t, 0);
      assert s.config.platforms[0..] == s.config.platforms;
    }
  }

  // ----- the queue -----

  /** Everything a run queues passes the filter and carries its matched keywords;
      without cancellation the queue is exactly the accepted results, platform
      by platform in the order given, each in its adapter's order. */
  lemma FreshRunQueue(s: Setup)
    ensures forall r :: r in RunFrom(s, Tally(0, 0, map[], map[], [], []), 0).queue ==> Acceptable(s.filter, s.config, r)
    ensures s.cancel.NeverSet? ==> RunFrom(s, Tally(0, 0, map[], map[], [], []), 0).queue == AllAccepted(s, s.config.platforms)
  {
    var t := Tally(0, 0, map[], map[], [], []);
    var ps := s.config.platforms;
    assert ps[0..] == ps;
    RunQueueWithin(s, t, 0);
    AllAcceptedAreAcceptable(s, ps);
    PrefixElements(RunFrom(s, t, 0).queue, AllAccepted(s, ps));
    if s.cancel.NeverSet? {
      RunQueueComplete(s, t, 0);
    }
  }

  lemma PrefixElements<T>(a: seq<T>, b: seq<T>)
    requires a <= b
    ensures forall x :: x in a ==> x in b
  {
    forall x | x in a
      ensures x in b
    {
      var k :| 0 <= k < |a| && a[k] == x;
      assert b[k] == x;
    }
  }

  /** An expression that does not parse lets nothing through. */
  lemma InvalidFilterQueuesNothing(s: Setup, t: Tally)
    requires !s.filter.IsValid()
    ensures RunFrom(s, t, 0).queue == t.queue
  {
    RunQueueCount(s, t, 0);
    RunQueueWithin(s, t, 0);
    InvalidFilterAcceptsNothing(s, s.config.platforms[0..]);
  }

  /** Cancelled before the start: nothing is queued, counted, failed or reported,
      and the summary shows a dash for every platform. */
  lemma CancelledBeforeStart(s: Setup)
    requires IsSetAt(s.cancel, 0)
    ensures var r := RunFrom(s, Tally(0, 0, map[], map[], [], []), 0);
      r.queue == [] && r.total == 0 && r.counts == map[] && r.errors == map[] && r.statuses == []
    ensures forall j :: 0 <= j < |s.config.platforms| ==>
      SummaryParts(s.config.platforms, map[], map[])[j] == s.config.platforms[j] + ": \U{2014}"
  {
    CancelSeenStops(s, Tally(0, 0, map[], map[], [], []), 0);
  }

  // ----- the summary -----

  /** The summary lists every platform in the order given, each part starting
      with the platform's name. */
  lemma SummaryInPlatformOrder(ps: seq<string>, counts: map<string, nat>, errors: map<string, string>)
    ensures |SummaryParts(ps, counts, errors)| == |ps|
    ensures forall j :: 0 <= j < |ps| ==> ps[j] + ": " <= SummaryParts(ps, counts, errors)[j]
  {
    forall j | 0 <= j < |ps|
      ensures ps[j] + ": " <= SummaryParts(ps, counts, errors)[j]
    {
      PartStartsWithName(ps[j], counts, errors);
    }
  }

  /** Each part starts with the platform's name and a colon. */
  lemma PartStartsWithName(p: string, counts: map<string, nat>, errors: map<string, string>)
    ensures p + ": " <= SummaryPart(p, counts, errors)
  {
    var rest := if p in errors then "\U{26A0} " + ShortError(errors[p])
                else if p in counts then NatToString(counts[p]) else "\U{2014}";
    assert SummaryPart(p, counts, errors) == (p + ": ") + rest;
  }

  /** An error, when there is one, is shown in place of the count: the part
      is the same whatever count is recorded, it starts with the name and the
      warning sign, and goes on with the whole error text when that fits in 30
      characters, or else with its first 27 characters and "...". */
  lemma ErrorShownInsteadOfCount(p: string, counts: map<string, nat>, other: map<string, nat>, errors: map<string, string>)
    requires p in errors
    ensures SummaryPart(p, other, errors) == SummaryPart(p, counts, errors)
    ensures var part, head, e := SummaryPart(p, counts, errors), p + ": \U{26A0} ", errors[p];
      && head <= part
      && (|e| <= 30 ==> part[|head|..] == e)
      && (|e| > 30 ==> part[|head|..] == e[..27] + "...")
      && |part| <= |p| + 34
  {
    var head := p + ": \U{26A0} ";
    assert SummaryPart(p, counts, errors) == head + ShortError(errors[p]);
  }
}
