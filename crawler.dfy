/** The `Crawler` base class of abstract_crawler.py: the shared request headers and their
    user-agent rotation, the fetch dispatch of `get_soup_from_url`, the proxy retry loop of
    `get_soup_with_proxy`, and the URL gate of `crawl`. */
module Crawling {
  import opened Errors
  import opened PyStr
  import opened ProxyRetry
  import opened Captcha

  const UserAgentKey: string := "User-Agent"

  /** The media types of the initial `Accept` header, in order; the header joins them with commas. */
  const AcceptedTypes: seq<string> := [
    "text/html", "application/xhtml+xml", "application/xml;q=0.9", "image/webp",
    "image/apng", "*/*;q=0.8", "application/signed-exchange;v=b3;q=0.9"
  ]

  /** The initial `HEADERS` dictionary, with `agent` as its first random user agent. */
  function DefaultHeaders(agent: string): map<string, string>
  {
    map[
      "Connection" := "keep-alive",
      "Pragma" := "no-cache",
      "Cache-Control" := "no-cache",
      "Upgrade-Insecure-Requests" := "1",
      UserAgentKey := agent,
      "Accept" := Join(AcceptedTypes, ','),
      "Sec-Fetch-Site" := "none",
      "Sec-Fetch-Mode" := "navigate",
      "Sec-Fetch-User" := "?1",
      "Sec-Fetch-Dest" := "document",
      "Accept-Language" := "en-US,en;q=0.9"
    ]
  }

  /** The headers after `HEADERS['User-Agent'] = agent`: that entry holds the new agent and
      every other entry is as it was. */
  function WithUserAgent(h: map<string, string>, agent: string): map<string, string>
  {
    h[UserAgentKey := agent]
  }

  /** A rotation adds the User-Agent entry if missing, sets it to the new agent, and leaves
      every other entry as it was. */
  lemma RotationTouchesOnlyUserAgent(h: map<string, string>, agent: string)
    ensures WithUserAgent(h, agent).Keys == h.Keys + {UserAgentKey}
    ensures WithUserAgent(h, agent)[UserAgentKey] == agent
    ensures forall k :: k in h && k != UserAgentKey ==> WithUserAgent(h, agent)[k] == h[k]
  {
  }

  /** Only the last rotation shows: rotating twice is rotating once to the second agent. */
  lemma LastRotationWins(h: map<string, string>, a1: string, a2: string)
    ensures WithUserAgent(WithUserAgent(h, a1), a2) == WithUserAgent(h, a2)
  {
  }

  /** The headers after `n` rotations drawing `agents(0)`, ..., `agents(n - 1)` in turn: only
      the last agent drawn shows. */
  function Rotated(h: map<string, string>, agents: nat -> string, n: nat): map<string, string>
  {
    if n == 0 then h else WithUserAgent(h, agents(n - 1))
  }

  /** One more rotation draws `agents(n)` on top of the first `n`. */
  lemma RotateOnce(h: map<string, string>, agents: nat -> string, n: nat)
    ensures WithUserAgent(Rotated(h, agents, n), agents(n)) == Rotated(h, agents, n + 1)
  {
    if n > 0 {
      LastRotationWins(h, agents(n - 1), agents(n));
    }
  }

  /** Which way `get_soup_from_url` goes after its direct GET. */
  datatype Path =
    | DirectRaised(exc: Exc)   // the direct GET raised; nothing else runs
    | ViaProxy                 // config.use_proxy(): the proxy loop's result is returned
    | ViaGeetest               // a driver whose page mentions "geetest"
    | ViaRecaptcha             // a driver whose page mentions "g-recaptcha" but not "geetest"
    | ViaDriver                // a driver and no CAPTCHA signature
    | DirectBody(body: string) // no proxy, no driver: the direct response's body

  /** The dispatch of `get_soup_from_url`. `driverPage` is the driver's page source after
      navigating to the URL, None when no driver was passed. A failing direct GET propagates
      before anything else; otherwise the proxy path wins whatever the driver; a Geetest
      signature is looked for before a reCAPTCHA one; and without proxy or driver the direct
      body is returned whatever its status. */
  function FetchPath(direct: Attempt, useProxy: bool, driverPage: Option<string>): (p: Path)
    ensures !direct.Responded? ==> p == DirectRaised(ExcOf(direct))
    ensures direct.Responded? && useProxy ==> p == ViaProxy
    ensures p == ViaGeetest
      <==> direct.Responded? && !useProxy && driverPage.Some? && Contains(driverPage.value, "geetest")
    ensures p == ViaRecaptcha
      <==> direct.Responded? && !useProxy && driverPage.Some?
           && !Contains(driverPage.value, "geetest") && Contains(driverPage.value, "g-recaptcha")
    ensures direct.Responded? && !useProxy && driverPage.None? ==> p == DirectBody(direct.body)
    ensures p.ViaGeetest? || p.ViaRecaptcha? || p.ViaDriver? ==> driverPage.Some?
  {
    if !direct.Responded? then DirectRaised(ExcOf(direct))
    else if useProxy then ViaProxy
    else if driverPage.Some? then
      if Contains(driverPage.value, "geetest") then ViaGeetest
      else if Contains(driverPage.value, "g-recaptcha") then ViaRecaptcha
      else ViaDriver
    else DirectBody(direct.body)
  }

  /** A driver page mentioning both CAPTCHA kinds is treated as Geetest. */
  lemma GeetestBeforeRecaptcha(status: int, body: string, page: string)
    requires Contains(page, "geetest") && Contains(page, "g-recaptcha")
    ensures FetchPath(Responded(status, body), false, Some(page)) == ViaGeetest
  {
  }

  /** How `get_soup_from_url` ends and what it did to the browser and the solving service. */
  datatype Fetch = Fetch(result: Outcome<string>, effects: seq<Effect>)

  /** The page source returned after a CAPTCHA step, unless that step raised or never ended. */
  function AfterCaptcha(status: Outcome<()>, finalPage: string): Outcome<string>
  {
    match status
    case Done(_) => Done(finalPage)
    case Raised(e) => Raised(e)
    case Stalled => Stalled
  }

  function DriverPage(driver: Option<Browser>): Option<string>
  {
    if driver.Some? then Some(driver.value.page) else None
  }

  /** `get_soup_from_url` on the given inputs: `direct` is what the direct GET produced,
      `supply` the proxy lists and `sv` the solving service's replies. */
  function FetchSpec(url: string, useProxy: bool, driver: Option<Browser>, apiKey: Option<string>,
                     checkbox: Flag, afterlogin: Option<string>, direct: Attempt,
                     supply: seq<seq<Attempt>>, sv: SolverReplies): (r: Fetch)
    ensures r.effects != [] <==> direct.Responded? && !useProxy && driver.Some?
    ensures r.effects != [] ==> r.effects[0] == Navigate(url)
    ensures direct.Responded? && useProxy ==> (r.result.Done? <==> ProxyLoop(supply).Fetched?)
  {
    match FetchPath(direct, useProxy, DriverPage(driver))
    case DirectRaised(e) => Fetch(Raised(e), [])
    case ViaProxy => Fetch(ProxyOutcome(ProxyLoop(supply)), [])
    case ViaGeetest =>
      var run := ResolveGeetestSpec(apiKey, driver.value, sv);
      Fetch(AfterCaptcha(run.status, driver.value.finalPage), [Navigate(url)] + run.effects)
    case ViaRecaptcha =>
      var run := ResolveRecaptcha(checkbox, afterlogin, apiKey, driver.value, sv);
      Fetch(AfterCaptcha(run.status, driver.value.finalPage), [Navigate(url)] + run.effects)
    case ViaDriver => Fetch(Done(driver.value.finalPage), [Navigate(url)])
    case DirectBody(body) => Fetch(Done(body), [])
  }

  /** The headers after `get_soup_from_url`: rotated once before the direct GET, then once
      per proxy attempt on the proxy path; `agents(n)` is the n-th random user agent drawn. */
  function HeadersAfterFetch(h: map<string, string>, path: Path, supply: seq<seq<Attempt>>,
                             agents: nat -> string): map<string, string>
  {
    var attempts := ProxyLoop(supply).attempts;
    if path == ViaProxy && attempts > 0 then WithUserAgent(h, agents(attempts))
    else WithUserAgent(h, agents(0))
  }

  /** The state a crawler changes in place: the shared header dictionary. */
  class Crawler {
    /** `Crawler.HEADERS`, the class-level dictionary shared by all crawlers. */
    var headers: map<string, string>
    /** `config.use_proxy()`. */
    const useProxy: bool

    constructor (useProxy: bool, firstAgent: string)
      ensures this.useProxy == useProxy
      ensures headers == DefaultHeaders(firstAgent)
    {
      this.useProxy := useProxy;
      headers := DefaultHeaders(firstAgent);
    }

    /** `rotate_user_agent`: only the User-Agent entry changes. */
    method RotateUserAgent(agent: string)
      modifies this
      ensures headers == WithUserAgent(old(headers), agent)
    {
      headers := headers[UserAgentKey := agent];
    }

    /** One pass of the `for proxy in proxies_list` loop: rotate the user agent and try each
        proxy in order, stopping at the first status 200. `start` attempts were made before. */
    method TryProxies(proxies: seq<Attempt>, agents: nat -> string, start: nat, ghost initial: map<string, string>)
      returns (found: Option<nat>, tried: nat)
      requires headers == Rotated(initial, agents, start)
      modifies this
      ensures found == FirstSuccess(proxies)
      ensures tried == if found.Some? then found.value + 1 else |proxies|
      ensures headers == Rotated(initial, agents, start + tried)
    {
      var index: nat := 0;
      while index < |proxies|
        invariant 0 <= index <= |proxies|
        invariant headers == Rotated(initial, agents, start + index)
        invariant forall j :: 0 <= j < index ==> !Succeeded(proxies[j])
      {
        RotateOnce(initial, agents, start + index);
        RotateUserAgent(agents(start + index));
        var outcome := proxies[index];
        if outcome.Responded? && outcome.status == 200 {
          return Some(index), index + 1;
        }
        // a non-200 status or any exception: log and try the next proxy
        index := index + 1;
      }
      found, tried := None, |proxies|;
    }

    /** `get_soup_with_proxy`: fetch a proxy list, try each proxy in order after rotating the
        user agent, stop at the first status 200, fetch a new list when one is used up.
        `supply` holds the successive lists as the outcomes of their attempts; when it runs
        out the loop stops with Unresolved, where the source would keep asking for lists. */
    method GetSoupWithProxy(supply: seq<seq<Attempt>>, agents: nat -> string) returns (fetch: ProxyFetch)
      modifies this
      ensures fetch == ProxyLoop(supply)
      ensures headers == Rotated(old(headers), agents, fetch.attempts)
    {
      var resolved := false;
      var resp: Option<Attempt> := None;
      var round: nat, index: nat, attempts: nat := 0, 0, 0;
      ghost var initial := headers;
      while !resolved
        invariant 0 <= round <= |supply|
        invariant headers == Rotated(initial, agents, attempts)
        invariant !resolved ==> ProxyLoopFrom(supply, round, attempts) == ProxyLoop(supply)
        invariant resolved ==> round < |supply| && index < |supply[round]| && Succeeded(supply[round][index])
        invariant resolved ==> resp == Some(supply[round][index])
        invariant resolved ==> ProxyLoop(supply) == Fetched(supply[round][index].body, round, index, attempts)
        decreases |supply| - round + (if resolved then 0 else 1)
      {
        if round == |supply| {
          return Unresolved(attempts);
        }
        var proxies := supply[round];
        var found, tried := TryProxies(proxies, agents, attempts, initial);
        if found.Some? {
          index := found.value;
          resp := Some(proxies[index]);
          resolved := true;
        } else {
          round := round + 1;
        }
        attempts := attempts + tried;
      }
      // `if not resp: raise ...` cannot fire: the response held has status 200.
      assert resp.Some? && ResponseTruthy(resp.value);
      fetch := Fetched(resp.value.body, round, index, attempts);
    }

    /** `get_soup_from_url`: rotate the user agent, make the direct GET, then return the proxy
        loop's result, or the driver's page after any CAPTCHA handling, or the direct body. */
    method GetSoupFromUrl(url: string, driver: Option<Browser>, apiKey: Option<string>,
                          checkbox: Flag, afterlogin: Option<string>, direct: Attempt,
                          supply: seq<seq<Attempt>>, sv: SolverReplies, agents: nat -> string)
      returns (fetch: Fetch)
      modifies this
      ensures fetch == FetchSpec(url, useProxy, driver, apiKey, checkbox, afterlogin, direct, supply, sv)
      ensures headers == HeadersAfterFetch(old(headers), FetchPath(direct, useProxy, DriverPage(driver)), supply, agents)
    {
      RotateUserAgent(agents(0));
      if !direct.Responded? {
        return Fetch(Raised(ExcOf(direct)), []);
      }
      // a status other than 200 is only logged
      if useProxy {
        var proxied := GetSoupWithProxy(supply, (n: nat) => agents(n + 1));
        if proxied.attempts > 0 {
          LastRotationWins(old(headers), agents(0), agents(proxied.attempts));
        }
        return Fetch(ProxyOutcome(proxied), []);
      }
      if driver.Some? {
        var b := driver.value;
        var effects := [Navigate(url)];
        if Contains(b.page, "geetest") {
          var run := ResolveGeetest(apiKey, b, sv);
          return Fetch(AfterCaptcha(run.status, b.finalPage), effects + run.effects);
        } else if Contains(b.page, "g-recaptcha") {
          var run := ResolveCaptcha(checkbox, afterlogin, apiKey, b, sv);
          return Fetch(AfterCaptcha(run.status, b.finalPage), effects + run.effects);
        }
        return Fetch(Done(b.finalPage), effects);
      }
      fetch := Fetch(Done(direct.body), []);
    }
  }

  /** `URL_PATTERN`: None in the base class, otherwise a regular expression, given here by
      what `re.search` answers for a URL. */
  datatype UrlPattern = NoPattern | Pattern(matches: string -> bool)

  /** `crawl`: the results of `get_results` for a URL the pattern accepts, [] for any other
      URL, and [] again when `get_results` raises ConnectionError. `results` is what
      `get_results` returned or raised. The warning logged for a ConnectionError reads
      `url.split('/')[2]`, which itself raises IndexError for a URL with fewer than two '/'.
      So a URL the pattern rejects yields [] whatever `get_results` would do, a
      ConnectionError on a URL with a host part yields [] too, every other outcome of
      `get_results` is passed on unchanged, and without a pattern `re.search` raises. */
  function Crawl<E>(pattern: UrlPattern, url: string, results: Outcome<seq<E>>): (r: Outcome<seq<E>>)
    ensures pattern.Pattern? && !pattern.matches(url) ==> r == Done([])
    ensures pattern.Pattern? && pattern.matches(url) && results == Raised(ConnectionError)
      ==> r == (if Field(url, '/', 2).Some? then Done([]) else Raised(IndexError))
    ensures pattern.Pattern? && pattern.matches(url) && results != Raised(ConnectionError) ==> r == results
    ensures pattern.NoPattern? ==> r == Raised(TypeError)
  {
    match pattern
    case NoPattern => Raised(TypeError)
    case Pattern(matches) =>
      if !matches(url) then Done([])
      else
        match results
        case Raised(ConnectionError) =>
          if Field(url, '/', 2).Some? then Done([]) else Raised(IndexError)
        case other => other
  }

  /** Any URL of the form "<scheme>//<host>..." has the host part the warning reads, so a
      ConnectionError on it yields []. */
  lemma CrawlConnectionErrorWithHost<E>(matches: string -> bool, scheme: string, host: string, path: string)
    requires '/' !in scheme && '/' !in host && matches(scheme + "//" + host + path)
    ensures Crawl<E>(Pattern(matches), scheme + "//" + host + path, Raised(ConnectionError)) == Done([])
  {
    var url := scheme + "//" + host + path;
    assert url == scheme + ['/'] + ("" + ['/'] + (host + path));
    SplitAtFirst(scheme, '/', "" + ['/'] + (host + path));
    SplitAtFirst("", '/', host + path);
  }

  /** A matched URL with fewer than two '/' makes the ConnectionError handler itself raise
      IndexError instead of returning []. */
  lemma CrawlConnectionErrorWithoutHost<E>(matches: string -> bool, url: string)
    requires matches(url)
    requires forall i, j :: 0 <= i < j < |url| && url[i] == '/' ==> url[j] != '/'
    ensures Crawl<E>(Pattern(matches), url, Raised(ConnectionError)) == Raised(IndexError)
  {
    if '/' in url {
      var k := Find(url, '/');
      var head, tail := url[..k], url[k + 1..];
      assert url == head + ['/'] + tail;
      assert forall m :: 0 <= m < |tail| ==> tail[m] == url[k + 1 + m];
      SplitAtFirst(head, '/', tail);
    }
  }
}
