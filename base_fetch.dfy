/**
 * `BaseScraper._fetch`: up to `MAX_RETRIES` requests for one URL. A reply
 * that `raise_for_status` lets through is returned as the page; a 429 makes
 * the human simulator take a break, a 403 rotates the identity, and a request
 * error rotates it too unless it happened on the last attempt. When every
 * attempt has failed the result is `None`; nothing is raised.
 *
 * The delays and the headers are left to the human simulator; what the model
 * keeps of it is how often it was asked to take a break or to rotate the
 * identity. Whether it wants a break before the first attempt is a random
 * choice and comes in as a parameter.
 */
module BaseFetch {
  import opened Wrappers
  import opened Http

  const MaxRetries: nat := 3

  /** The requested URLs, in order, and the breaks and identity rotations so far. */
  datatype Visit = Visit(sent: seq<string>, rotations: nat, breaks: nat)

  /** The state after `_fetch` and the page it returned, if any. */
  datatype Fetched = Fetched(state: Visit, page: Option<string>)

  /** The `except requests.RequestException` branch, after the request is logged. */
  function AfterError(v: Visit, attempt: nat): Visit {
    if attempt < MaxRetries - 1 then v.(rotations := v.rotations + 1) else v
  }

  /** What a failed attempt asks of the simulator: a break after a 429, a new
      identity after a 403, and the error branch after a request error or an
      error status. */
  function Backoff(v: Visit, r: Response, attempt: nat): (b: Visit)
    ensures RateLimited(r) ==> b == v.(breaks := v.breaks + 1)
    ensures Forbidden(r) ==> b == v.(rotations := v.rotations + 1)
    ensures !RateLimited(r) && !Forbidden(r) ==>
      b == v.(rotations := v.rotations + (if attempt < MaxRetries - 1 then 1 else 0))
  {
    match r
    case Failure(_) => AfterError(v, attempt)
    case Reply(status, _, _, _) =>
      if status == 429 then v.(breaks := v.breaks + 1)
      else if status == 403 then v.(rotations := v.rotations + 1)
      else AfterError(v, attempt)
  }

  /** A 429 reply: the simulator takes a break. */
  predicate RateLimited(r: Response) {
    r.Reply? && r.status == 429
  }

  /** A 403 reply: the simulator rotates the identity. */
  predicate Forbidden(r: Response) {
    r.Reply? && r.status == 403
  }

  /** The retry loop from attempt number `attempt` on. */
  function FetchFrom(respond: Network, url: string, v: Visit, attempt: nat): Fetched
    requires attempt <= MaxRetries
    decreases MaxRetries - attempt
  {
    if attempt == MaxRetries then Fetched(v, None)
    else
      var r := respond(|v.sent|);
      var v1 := v.(sent := v.sent + [url]);
      match r
      case Failure(_) => FetchFrom(respond, url, Backoff(v1, r, attempt), attempt + 1)
      case Reply(status, body, _, _) =>
        if status == 429 || status == 403 || RaisesForStatus(status) then
          FetchFrom(respond, url, Backoff(v1, r, attempt), attempt + 1)
        else Fetched(v1, Some(body))
  }

  /** `_fetch` as a whole: an optional break first, then the retry loop. */
  function FetchResult(respond: Network, url: string, v: Visit, breakFirst: bool): Fetched {
    FetchFrom(respond, url, if breakFirst then v.(breaks := v.breaks + 1) else v, 0)
  }

  class BaseScraper {
    const respond: Network
    var sent: seq<string>
    var rotations: nat
    var breaks: nat

    function Snapshot(): Visit
      reads this
    {
      Visit(sent, rotations, breaks)
    }

    constructor (respond: Network)
      ensures this.respond == respond
      ensures Snapshot() == Visit([], 0, 0)
    {
      this.respond := respond;
      sent := [];
      rotations := 0;
      breaks := 0;
    }

    /** `_fetch(url)`, with `should_take_break()` answering `breakFirst`. */
    method Fetch(url: string, breakFirst: bool) returns (page: Option<string>)
      modifies this
      ensures FetchResult(respond, url, old(Snapshot()), breakFirst) == Fetched(Snapshot(), page)
    {
      if breakFirst {
        breaks := breaks + 1;
      }
      for attempt := 0 to MaxRetries
        invariant FetchFrom(respond, url, Snapshot(), attempt) == FetchResult(respond, url, old(Snapshot()), breakFirst)
      {
        ghost var before := Snapshot();
        FetchStep(respond, url, before, attempt);
        var resp := respond(|sent|);
        sent := sent + [url];
        if resp.Reply? && resp.status == 429 {
          breaks := breaks + 1;
          assert Snapshot() == Backoff(before.(sent := sent), resp, attempt);
          continue;
        }
        if resp.Reply? && resp.status == 403 {
          rotations := rotations + 1;
          assert Snapshot() == Backoff(before.(sent := sent), resp, attempt);
          continue;
        }
        if resp.Failure? || RaisesForStatus(resp.status) {
          if attempt < MaxRetries - 1 {
            rotations := rotations + 1;
          }
          assert Snapshot() == Backoff(before.(sent := sent), resp, attempt);
          continue;
        }
        return Some(resp.body);
      }
      return None;
    }
  }

  // ----- properties -----

  /** A reply the loop keeps: `raise_for_status` lets it through, which rules
      out 403 and 429 as well. */
  predicate Usable(r: Response) {
    r.Reply? && !RaisesForStatus(r.status)
  }

  /** The first of the `n` responses from number `k` on that is usable, as its
      offset from `k`. */
  function FirstUsable(respond: Network, k: nat, n: nat): (j: Option<nat>)
    ensures j.Some? ==> j.value < n && Usable(respond(k + j.value))
    ensures j.Some? ==> forall i :: k <= i < k + j.value ==> !Usable(respond(i))
    ensures j.None? ==> forall i :: k <= i < k + n ==> !Usable(respond(i))
    decreases n
  {
    if n == 0 then None
    else if Usable(respond(k)) then Some(0)
    else
      match FirstUsable(respond, k + 1, n - 1)
      case None => None
      case Some(j) => Some(j + 1)
  }

  /** `n` copies of `x`. */
  function Repeat(x: string, n: nat): (r: seq<string>)
    ensures |r| == n && forall i :: 0 <= i < n ==> r[i] == x
  {
    if n == 0 then [] else [x] + Repeat(x, n - 1)
  }

  /** One attempt of the loop, when attempts are left. */
  lemma FetchStep(respond: Network, url: string, v: Visit, a: nat)
    requires a < MaxRetries
    ensures var r := respond(|v.sent|);
      var v1 := v.(sent := v.sent + [url]);
      FetchFrom(respond, url, v, a)
      == if Usable(r) then Fetched(v1, Some(r.body)) else FetchFrom(respond, url, Backoff(v1, r, a), a + 1)
  {
  }

  /** The body of the first usable response among the `n` from number `k` on. */
  function FirstPage(respond: Network, k: nat, n: nat): Option<string>
    decreases n
  {
    if n == 0 then None
    else if Usable(respond(k)) then Some(respond(k).body)
    else FirstPage(respond, k + 1, n - 1)
  }

  lemma {:induction false} FirstPageIsFirstUsable(respond: Network, k: nat, n: nat)
    ensures FirstPage(respond, k, n)
            == match FirstUsable(respond, k, n)
               case Some(j) => Some(respond(k + j).body)
               case None => None
    decreases n
  {
    if n > 0 && !Usable(respond(k)) {
      FirstPageIsFirstUsable(respond, k + 1, n - 1);
      match FirstUsable(respond, k + 1, n - 1)
      case Some(j) =>
        assert k + 1 + j == k + (j + 1);
      case None =>
    }
  }

  /** The loop returns the first usable response among the attempts left, and
      `None` when there is none. */
  lemma {:induction false} FetchFindsFirstUsable(respond: Network, url: string, v: Visit, a: nat)
    requires a <= MaxRetries
    ensures FetchFrom(respond, url, v, a).page == FirstPage(respond, |v.sent|, MaxRetries - a)
    decreases MaxRetries - a
  {
    if a < MaxRetries {
      var k := |v.sent|;
      FetchStep(respond, url, v, a);
      if !Usable(respond(k)) {
        FetchFindsFirstUsable(respond, url, Backoff(v.(sent := v.sent + [url]), respond(k), a), a + 1);
      }
    }
  }

  /** How many of the `n` attempts from response number `k` on are made: up to
      and including the first usable response. */
  function AttemptsMade(respond: Network, k: nat, n: nat): nat
    decreases n
  {
    if n == 0 then 0
    else if Usable(respond(k)) then 1
    else 1 + AttemptsMade(respond, k + 1, n - 1)
  }

  lemma {:induction false} AttemptsMadeIsFirstUsable(respond: Network, k: nat, n: nat)
    ensures AttemptsMade(respond, k, n)
            == match FirstUsable(respond, k, n)
               case Some(j) => j + 1
               case None => n
    decreases n
  {
    if n > 0 && !Usable(respond(k)) {
      AttemptsMadeIsFirstUsable(respond, k + 1, n - 1);
    }
  }

  /** The loop requests the URL once per attempt it makes. */
  lemma {:induction false} FetchRequestsPerAttempt(respond: Network, url: string, v: Visit, a: nat)
    requires a <= MaxRetries
    ensures FetchFrom(respond, url, v, a).state.sent == v.sent + Repeat(url, AttemptsMade(respond, |v.sent|, MaxRetries - a))
    decreases MaxRetries - a
  {
    if a < MaxRetries {
      var k := |v.sent|;
      var v1 := v.(sent := v.sent + [url]);
      FetchStep(respond, url, v, a);
      if !Usable(respond(k)) {
        FetchRequestsPerAttempt(respond, url, Backoff(v1, respond(k), a), a + 1);
        var m := AttemptsMade(respond, k + 1, MaxRetries - a - 1);
        assert v1.sent + Repeat(url, m) == v.sent + Repeat(url, m + 1);
      } else {
        assert v1.sent == v.sent + Repeat(url, 1);
      }
    }
  }

  /** How many of the `n` responses from number `k` on are 429 replies. */
  function RateLimits(respond: Network, k: nat, n: nat): nat
    decreases n
  {
    if n == 0 then 0 else (if RateLimited(respond(k)) then 1 else 0) + RateLimits(respond, k + 1, n - 1)
  }

  /** Every failed attempt takes a break after a 429 and otherwise rotates the
      identity, except that a failure other than a 429 or a 403 on the last
      attempt does neither. */
  /** The breaks `_fetch` takes: one per 429 among the failed responses. */
  lemma {:induction false} FailedAttemptsBreaks(respond: Network, url: string, v: Visit, a: nat)
    requires a <= MaxRetries
    ensures var f, k := FetchFrom(respond, url, v, a), |v.sent|;
      match FirstUsable(respond, k, MaxRetries - a)
      case Some(j) => f.state.breaks - v.breaks == RateLimits(respond, k, j)
      case None => f.state.breaks - v.breaks == RateLimits(respond, k, MaxRetries - a)
    decreases MaxRetries - a
  {
    if a < MaxRetries {
      var k := |v.sent|;
      FetchStep(respond, url, v, a);
      if !Usable(respond(k)) {
        FailedAttemptsBreaks(respond, url, Backoff(v.(sent := v.sent + [url]), respond(k), a), a + 1);
      }
    }
  }

  /** The rotations `_fetch` asks for: one per other failed response, except an error on the last attempt. */
  lemma {:induction false} FailedAttemptsRotations(respond: Network, url: string, v: Visit, a: nat)
    requires a <= MaxRetries
    ensures var f, k := FetchFrom(respond, url, v, a), |v.sent|;
      match FirstUsable(respond, k, MaxRetries - a)
      case Some(j) => f.state.rotations - v.rotations == j - RateLimits(respond, k, j)
      case None =>
        a < MaxRetries ==>
          var last := respond(k + (MaxRetries - a - 1));
          f.state.rotations - v.rotations
          == MaxRetries - a - RateLimits(respond, k, MaxRetries - a)
             - (if RateLimited(last) || Forbidden(last) then 0 else 1)
    decreases MaxRetries - a
  {
    if a < MaxRetries {
      var k := |v.sent|;
      FetchStep(respond, url, v, a);
      var r := respond(k);
      if !Usable(r) {
        var b := Backoff(v.(sent := v.sent + [url]), r, a);
        assert RateLimits(respond, k, MaxRetries - a)
          == (if RateLimited(r) then 1 else 0) + RateLimits(respond, k + 1, MaxRetries - a - 1);
        if a + 1 < MaxRetries {
          assert b.rotations == v.rotations + (if RateLimited(r) then 0 else 1);
          FailedAttemptsRotations(respond, url, b, a + 1);
        } else {
          assert FetchFrom(respond, url, v, a) == Fetched(b, None);
        }
      }
    }
  }

  lemma FailedAttemptsBackOff(respond: Network, url: string, v: Visit, a: nat)
    requires a <= MaxRetries
    ensures var f, k := FetchFrom(respond, url, v, a), |v.sent|;
      match FirstUsable(respond, k, MaxRetries - a)
      case Some(j) =>
        && f.state.breaks - v.breaks == RateLimits(respond, k, j)
        && f.state.rotations - v.rotations == j - RateLimits(respond, k, j)
      case None =>
        && f.state.breaks - v.breaks == RateLimits(respond, k, MaxRetries - a)
        && (a < MaxRetries ==>
              var last := respond(k + (MaxRetries - a - 1));
              f.state.rotations - v.rotations
              == MaxRetries - a - RateLimits(respond, k, MaxRetries - a)
                 - (if RateLimited(last) || Forbidden(last) then 0 else 1))
  {
    FailedAttemptsBreaks(respond, url, v, a);
    FailedAttemptsRotations(respond, url, v, a);
  }


  /** The retry loop as a whole: at most three requests, all for the URL. */
  lemma FetchRequests(respond: Network, url: string, v: Visit)
    ensures var sent := FetchFrom(respond, url, v, 0).state.sent;
      && v.sent <= sent && |sent| <= |v.sent| + MaxRetries
      && (forall i :: |v.sent| <= i < |sent| ==> sent[i] == url)
  {
    FetchRequestsPerAttempt(respond, url, v, 0);
    AttemptsMadeIsFirstUsable(respond, |v.sent|, MaxRetries);
  }

  /** The retry loop as a whole: `None` exactly when none of the responses to its
      three attempts is usable, and otherwise the first usable one. */
  lemma FetchPage(respond: Network, url: string, v: Visit)
    ensures var page := FetchFrom(respond, url, v, 0).page;
      var first := FirstUsable(respond, |v.sent|, MaxRetries);
      && (page.None? <==> forall i :: |v.sent| <= i < |v.sent| + MaxRetries ==> !Usable(respond(i)))
      && (page.Some? ==> first.Some? && page.value == respond(|v.sent| + first.value).body)
  {
    FetchFindsFirstUsable(respond, url, v, 0);
    FirstPageIsFirstUsable(respond, |v.sent|, MaxRetries);
  }
}
