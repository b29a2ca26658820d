/**
 * The request ladder of `AllegroScraper`: up to five strategies, each a
 * choice of desktop or mobile headers and of reusing the session or starting
 * a fresh one. Each strategy warms the session up on the home page unless
 * cookies are already held, then requests the page; a page is returned only
 * when it shows listings, and when every strategy has failed the ladder
 * raises.
 *
 * The network and the random choices (which mobile user agent is picked,
 * the user agent of the desktop headers, whether a warm-up goes on to browse
 * a category) come from an `Env`, each indexed by the number of requests
 * sent before it.
 */
module AllegroFetch {
  import opened Wrappers
  import opened Text
  import opened Http

  const AllegroBase := "https://allegro.pl"
  const CategoryUrl := "https://allegro.pl/kategoria/elektronika"
  const MaxRetries := 5

  const MobileUserAgents: seq<string> := [
    "Mozilla/5.0 (Linux; Android 13; SM-S918B) AppleWebKit/537.36 (KHTML, like Gecko) Chrome/120.0.0.0 Mobile Safari/537.36",
    "Mozilla/5.0 (iPhone; CPU iPhone OS 17_2 like Mac OS X) AppleWebKit/605.1.15 (KHTML, like Gecko) Version/17.2 Mobile/15E148 Safari/604.1",
    "Mozilla/5.0 (Linux; Android 14; Pixel 8 Pro) AppleWebKit/537.36 (KHTML, like Gecko) Chrome/120.0.0.0 Mobile Safari/537.36"
  ]

  /** The message of the exception raised when every strategy has failed. */
  const ExhaustedMessage := "Allegro anti-bot active. Spr\U{00F3}buj p\U{00F3}\U{017A}niej lub u\U{017C}yj VPN."

  datatype Strategy = Strategy(mobile: bool, freshSession: bool)

  const Strategies: seq<Strategy> := [
    Strategy(false, false),
    Strategy(false, true),
    Strategy(true, true),
    Strategy(true, false),
    Strategy(false, true)
  ]

  /** `strategies[:self.MAX_RETRIES]`. */
  const Ladder: seq<Strategy> := Strategies[..MaxRetries]

  datatype Env = Env(
    respond: Network,
    mobilePick: nat -> nat,
    desktopAgent: nat -> string,
    browseCategory: nat -> bool)

  /** A user agent the headers carry: the entry of `MobileUserAgents` that
      `random.choice` picks (any number, taken modulo the length of the list),
      or the one the desktop headers came with. */
  datatype Agent = Mobile(pick: nat) | Desktop(ua: string)

  function AgentText(a: Agent): string {
    match a
    case Mobile(i) => MobileUserAgents[i % |MobileUserAgents|]
    case Desktop(ua) => ua
  }

  /** `if self._last_successful_ua:` on a remembered agent. */
  predicate Truthy(a: Agent) {
    a.Mobile? || a.ua != ""
  }

  /** A request sent on the session: where to, and with which user agent. */
  datatype Request = Request(url: string, userAgent: Agent)

  /** The state the ladder changes: `_cookies_acquired`, `_use_mobile`,
      `_last_successful_ua`, the fresh sessions and identity rotations so far,
      and the requests sent. */
  datatype Conn = Conn(
    cookies: bool,
    mobile: bool,
    lastAgent: Option<Agent>,
    freshSessions: nat,
    rotations: nat,
    sent: seq<Request>)

  /** The user agent `_get_allegro_headers` puts in the headers it builds
      before request number `k`. */
  function HeaderAgent(env: Env, k: nat, mobile: bool): Agent {
    if mobile then Mobile(env.mobilePick(k)) else Desktop(env.desktopAgent(k))
  }

  /** `_create_fresh_session`. */
  function Fresh(c: Conn): Conn {
    c.(cookies := false, freshSessions := c.freshSessions + 1, rotations := c.rotations + 1)
  }

  /** A Cloudflare challenge seen during the warm-up. */
  predicate Challenged(status: int, body: string) {
    status == 403 || BodyHas(body, "cf-") || BodyHas(body, "challenge")
  }

  /** The state after a warm-up, and whether it reported success. */
  datatype Warmed = Warmed(conn: Conn, ok: bool)

  /** The state after a page request or a strategy, and the page, if one was kept. */
  datatype Step = Step(conn: Conn, page: Option<string>)

  /** The state after the whole ladder, and the page or the raised message. */
  datatype Outcome = Outcome(conn: Conn, result: Result<string, string>)

  /** `_warm_up_session`. */
  function WarmUp(env: Env, c: Conn): Warmed {
    if c.cookies then Warmed(c, true)
    else
      var k := |c.sent|;
      var agent := HeaderAgent(env, k, c.mobile);
      var c1 := c.(sent := c.sent + [Request(AllegroBase, agent)]);
      match env.respond(k)
      case Failure(_) => Warmed(c1, false)
      case Reply(status, body, _, _) =>
        if Challenged(status, body) then Warmed(c1, false)
        else if status != 200 then Warmed(c1, false)
        else
          var c2 := c1.(cookies := true, lastAgent := Some(agent));
          if !env.browseCategory(k) then Warmed(c2, true)
          else
            var c3 := c2.(sent := c2.sent + [Request(CategoryUrl, agent)]);
            if env.respond(k + 1).Failure? then Warmed(c3, false) else Warmed(c3, true)
  }

  /** An anti-bot page: one of the markers in the lower-cased body. */
  predicate CaptchaIn(body: string) {
    BodyHas(body, "captcha") || BodyHas(body, "cf-browser-verification") || BodyHas(body, "challenge-running")
  }

  /** The user agent of the page request: the one that worked for the warm-up,
      when there is a non-empty one. */
  function PageAgent(env: Env, c: Conn): Agent {
    if c.lastAgent.Some? && Truthy(c.lastAgent.value) then c.lastAgent.value
    else HeaderAgent(env, |c.sent|, c.mobile)
  }

  /** The page request of one strategy, once the warm-up has succeeded. */
  function FetchPage(env: Env, url: string, c: Conn): Step {
    var k := |c.sent|;
    var c1 := c.(sent := c.sent + [Request(url, PageAgent(env, c))]);
    var rejected := Step(c1.(cookies := false), None);
    match env.respond(k)
    case Failure(_) => rejected
    case Reply(status, body, finalUrl, markup) =>
      if status == 429 then rejected
      else if status == 403 then rejected
      else if CaptchaIn(body) then rejected
      else if RaisesForStatus(status) then rejected
      else if markup || Contains(finalUrl, "listing") then Step(c1, Some(body))
      else rejected
  }

  /** One strategy of the ladder. */
  function Attempt(env: Env, url: string, c: Conn, s: Strategy): Step {
    var c1 := c.(mobile := s.mobile);
    var c2 := if s.freshSession then Fresh(c1) else c1;
    var w := WarmUp(env, c2);
    if !w.ok then Step(w.conn, None) else FetchPage(env, url, w.conn)
  }

  /** `_fetch_with_session` from strategy number `a` on. */
  function LadderFrom(env: Env, url: string, c: Conn, a: nat): Outcome
    requires a <= |Ladder|
    decreases |Ladder| - a
  {
    if a == |Ladder| then Outcome(c, Err(ExhaustedMessage))
    else
      var st := Attempt(env, url, c, Ladder[a]);
      if st.page.Some? then Outcome(st.conn, Ok(st.page.value)) else LadderFrom(env, url, st.conn, a + 1)
  }

  class AllegroScraper {
    const env: Env
    var cookiesAcquired: bool
    var useMobile: bool
    var lastSuccessfulUa: Option<Agent>
    var freshSessions: nat
    var rotations: nat
    var sent: seq<Request>

    function Snapshot(): Conn
      reads this
    {
      Conn(cookiesAcquired, useMobile, lastSuccessfulUa, freshSessions, rotations, sent)
    }

    constructor (env: Env)
      ensures this.env == env
      ensures Snapshot() == Conn(false, false, None, 0, 0, [])
    {
      this.env := env;
      cookiesAcquired := false;
      useMobile := false;
      lastSuccessfulUa := None;
      freshSessions := 0;
      rotations := 0;
      sent := [];
    }

    /** `self._session.get(url)` with the given user agent in the headers. */
    method Get(url: string, agent: Agent) returns (resp: Response)
      modifies this`sent
      ensures sent == old(sent) + [Request(url, agent)]
      ensures resp == env.respond(|old(sent)|)
    {
      resp := env.respond(|sent|);
      sent := sent + [Request(url, agent)];
    }

    method CreateFreshSession()
      modifies this`cookiesAcquired, this`freshSessions, this`rotations
      ensures Snapshot() == Fresh(old(Snapshot()))
    {
      freshSessions := freshSessions + 1;
      cookiesAcquired := false;
      rotations := rotations + 1;
    }

    method WarmUpSession() returns (ok: bool)
      modifies this`cookiesAcquired, this`lastSuccessfulUa, this`sent
      ensures WarmUp(env, old(Snapshot())) == Warmed(Snapshot(), ok)
    {
      if cookiesAcquired {
        return true;
      }
      var agent := HeaderAgent(env, |sent|, useMobile);
      var k := |sent|;
      var resp := Get(AllegroBase, agent);
      if resp.Failure? {
        return false;
      }
      if Challenged(resp.status, resp.body) {
        return false;
      }
      if resp.status == 200 {
        cookiesAcquired := true;
        lastSuccessfulUa := Some(agent);
        if env.browseCategory(k) {
          var category := Get(CategoryUrl, agent);
          if category.Failure? {
            return false;
          }
        }
        return true;
      }
      return false;
    }

    method FetchWithSession(url: string) returns (r: Result<string, string>)
      modifies this
      ensures LadderFrom(env, url, old(Snapshot()), 0) == Outcome(Snapshot(), r)
    {
      for attempt := 0 to |Ladder|
        invariant LadderFrom(env, url, Snapshot(), attempt) == LadderFrom(env, url, old(Snapshot()), 0)
      {
        ghost var before := Snapshot();
        var strategy := Ladder[attempt];
        useMobile := strategy.mobile;
        if strategy.freshSession {
          CreateFreshSession();
        }
        var warm := WarmUpSession();
        if !warm {
          continue;
        }
        var agent := PageAgent(env, Snapshot());
        var resp := Get(url, agent);
        if resp.Failure? || resp.status == 429 || resp.status == 403 || CaptchaIn(resp.body)
           || RaisesForStatus(resp.status) {
          cookiesAcquired := false;
          continue;
        }
        if resp.listingMarkup || Contains(resp.finalUrl, "listing") {
          assert Attempt(env, url, before, strategy) == Step(Snapshot(), Some(resp.body));
          return Ok(resp.body);
        }
        cookiesAcquired := false;
      }
      return Err(ExhaustedMessage);
    }
  }

  // ----- properties -----

  /** The page a strategy keeps: a reply that `raise_for_status` lets through
      (which rules out 403 and 429 as well), with no anti-bot marker, that
      shows listings. */
  predicate ListingPage(r: Response) {
    r.Reply? && !RaisesForStatus(r.status) && !CaptchaIn(r.body) && (r.listingMarkup || Contains(r.finalUrl, "listing"))
  }

  /** The warm-up never changes the headers' kind, the sessions or the identity;
      it sends nothing when cookies are held and otherwise starts with the home
      page; it sends at most two requests. */
  lemma WarmUpFrame(env: Env, c: Conn)
    ensures var c', ok := WarmUp(env, c).conn, WarmUp(env, c).ok;
      && c'.mobile == c.mobile && c'.freshSessions == c.freshSessions && c'.rotations == c.rotations
      && c.sent <= c'.sent && |c'.sent| <= |c.sent| + 2
      && (ok ==> c'.cookies)
      && (c.cookies ==> c' == c && ok)
      && (!c.cookies ==> |c'.sent| > |c.sent| && c'.sent[|c.sent|] == Request(AllegroBase, HeaderAgent(env, |c.sent|, c.mobile)))
  {
  }

  /** Without cookies, the warm-up gets them exactly when the home page answers
      200 without a challenge, and then remembers the user agent it used; it
      reports success exactly when it got them and the category visit, if any,
      did not raise. */
  lemma WarmUpVerdict(env: Env, c: Conn)
    requires !c.cookies
    ensures var c', ok := WarmUp(env, c).conn, WarmUp(env, c).ok;
      var resp := env.respond(|c.sent|);
      && (c'.cookies <==> resp.Reply? && resp.status == 200 && !Challenged(resp.status, resp.body))
      && (c'.cookies ==> c'.lastAgent == Some(HeaderAgent(env, |c.sent|, c.mobile)))
      && (!c'.cookies ==> c'.lastAgent == c.lastAgent)
      && (ok <==> c'.cookies && (env.browseCategory(|c.sent|) ==> env.respond(|c.sent| + 1).Reply?))
  {
  }

  /** The page request: sent with the remembered user agent, kept exactly when
      it is a listing page, and any other outcome drops the cookies. */
  lemma FetchPageRules(env: Env, url: string, c: Conn)
    ensures var c', page := FetchPage(env, url, c).conn, FetchPage(env, url, c).page;
      var resp := env.respond(|c.sent|);
      && c'.sent == c.sent + [Request(url, PageAgent(env, c))]
      && c'.mobile == c.mobile && c'.lastAgent == c.lastAgent
      && c'.freshSessions == c.freshSessions && c'.rotations == c.rotations
      && (page.Some? <==> ListingPage(resp))
      && (page.Some? ==> page.value == resp.body && c'.cookies == c.cookies)
      && (page.None? ==> !c'.cookies)
  {
  }

  /** The page request carries the user agent that worked for the warm-up,
      when that one is not empty. */
  lemma PageUsesWarmUpAgent(env: Env, url: string, c: Conn)
    requires !c.cookies
    requires WarmUp(env, c).ok
    ensures var c' := WarmUp(env, c).conn;
      var agent := HeaderAgent(env, |c.sent|, c.mobile);
      Truthy(agent) ==> FetchPage(env, url, c').conn.sent[|c'.sent|].userAgent == agent
  {
    WarmUpVerdict(env, c);
  }

  /** One strategy: it sets the headers' kind, a fresh one starts a session,
      rotates the identity and always visits the home page first; it sends at
      most three requests; a page it returns is the listing page its last
      request got. */
  lemma AttemptRules(env: Env, url: string, c: Conn, s: Strategy)
    ensures var c', page := Attempt(env, url, c, s).conn, Attempt(env, url, c, s).page;
      && c'.mobile == s.mobile
      && c'.freshSessions == c.freshSessions + (if s.freshSession then 1 else 0)
      && c'.rotations == c.rotations + (if s.freshSession then 1 else 0)
      && c.sent <= c'.sent && |c'.sent| <= |c.sent| + 3
      && (s.freshSession ==> |c'.sent| > |c.sent| && c'.sent[|c.sent|].url == AllegroBase)
      && (page.Some? ==> EndsWithPage(env, url, |c.sent|, c'.sent, page.value))
  {
    var c1 := c.(mobile := s.mobile);
    var c2 := if s.freshSession then Fresh(c1) else c1;
    WarmUpFrame(env, c2);
    var w := WarmUp(env, c2);
    if w.ok {
      FetchPageRules(env, url, w.conn);
    }
  }

  /** The requests grew past `before`, and the last one went to `url` and got
      the listing page `v`. */
  predicate EndsWithPage(env: Env, url: string, before: nat, sent: seq<Request>, v: string) {
    |sent| > before && sent[|sent| - 1].url == url
    && ListingPage(env.respond(|sent| - 1)) && v == env.respond(|sent| - 1).body
  }

  /** The number of strategies that start a fresh session. */
  function FreshCount(ss: seq<Strategy>): nat {
    if ss == [] then 0 else (if ss[0].freshSession then 1 else 0) + FreshCount(ss[1..])
  }

  /** Whatever the outcome, the ladder only appends requests, at most three per
      strategy. */
  lemma {:induction false} LadderAppends(env: Env, url: string, c: Conn, a: nat)
    requires a <= |Ladder|
    ensures var c' := LadderFrom(env, url, c, a).conn;
      c.sent <= c'.sent && |c'.sent| <= |c.sent| + 3 * (|Ladder| - a)
    decreases |Ladder| - a
  {
    if a < |Ladder| {
      AttemptRules(env, url, c, Ladder[a]);
      var st := Attempt(env, url, c, Ladder[a]);
      if st.page.None? {
        LadderAppends(env, url, st.conn, a + 1);
      }
    }
  }

  /** A page the ladder returns is the listing page its last request got. */
  lemma {:induction false} LadderPage(env: Env, url: string, c: Conn, a: nat)
    requires a <= |Ladder|
    ensures var c', r := LadderFrom(env, url, c, a).conn, LadderFrom(env, url, c, a).result;
      r.Ok? ==> EndsWithPage(env, url, |c.sent|, c'.sent, r.value)
    decreases |Ladder| - a
  {
    if a < |Ladder| {
      AttemptRules(env, url, c, Ladder[a]);
      var st := Attempt(env, url, c, Ladder[a]);
      if st.page.None? {
        LadderPage(env, url, st.conn, a + 1);
      }
    }
  }

  lemma FreshCountStep(a: nat)
    requires a < |Ladder|
    ensures FreshCount(Ladder[a..]) == (if Ladder[a].freshSession then 1 else 0) + FreshCount(Ladder[a + 1..])
  {
    assert Ladder[a..][1..] == Ladder[a + 1..];
  }

  /** The ladder raises only after trying every remaining strategy: each fresh
      one has started a session, rotated the identity and sent a request, and
      the headers' kind is that of the last strategy. */
  lemma {:induction false} LadderExhausted(env: Env, url: string, c: Conn, a: nat)
    requires a <= |Ladder|
    ensures var c', r := LadderFrom(env, url, c, a).conn, LadderFrom(env, url, c, a).result;
      r.Err? ==>
        && r.error == ExhaustedMessage
        && c'.freshSessions == c.freshSessions + FreshCount(Ladder[a..])
        && c'.rotations == c.rotations + FreshCount(Ladder[a..])
        && |c'.sent| >= |c.sent| + FreshCount(Ladder[a..])
        && (a < |Ladder| ==> c'.mobile == Ladder[|Ladder| - 1].mobile)
    decreases |Ladder| - a
  {
    if a < |Ladder| {
      AttemptRules(env, url, c, Ladder[a]);
      FreshCountStep(a);
      var st := Attempt(env, url, c, Ladder[a]);
      if st.page.None? {
        LadderExhausted(env, url, st.conn, a + 1);
      }
    } else {
      assert Ladder[a..] == [];
    }
  }

  lemma LadderFreshCount()
    ensures FreshCount(Ladder) == 3 && !Ladder[|Ladder| - 1].mobile
  {
    assert Ladder == Strategies;
    assert Ladder[1..][1..][1..][1..][1..] == [];
  }

  /** `_fetch_with_session` as a whole: it sends at most fifteen requests, returns
      only a listing page, and otherwise raises after three fresh sessions,
      with desktop headers selected. */
  lemma FetchWithSessionOutcome(env: Env, url: string, c: Conn)
    ensures var c', r := LadderFrom(env, url, c, 0).conn, LadderFrom(env, url, c, 0).result;
      && c.sent <= c'.sent && |c'.sent| <= |c.sent| + 15
      && (r.Ok? ==> EndsWithPage(env, url, |c.sent|, c'.sent, r.value))
      && (r.Err? ==> r.error == ExhaustedMessage && c'.freshSessions == c.freshSessions + 3
                     && c'.rotations == c.rotations + 3 && |c'.sent| >= |c.sent| + 3 && !c'.mobile)
  {
    LadderAppends(env, url, c, 0);
    LadderPage(env, url, c, 0);
    LadderExhausted(env, url, c, 0);
    LadderFreshCount();
    assert Ladder[0..] == Ladder;
  }
}
