/** CAPTCHA handling of the crawler's browser path (abstract_crawler.py, `resolvecaptcha`,
    `resolvegeetest`, `_solve`, `_clickcaptcha`, `_wait_for_captcha_resolution` and the four
    `_check_if_*` helpers). The browser and the solving service are abstract: what they return
    is an input, and what the crawler does to them is recorded as a sequence of effects. */
module Captcha {
  import opened Errors
  import opened PyStr
  import opened Solver

  /** How a `WebDriverWait(...).until(...)` call ends: the condition was met (Appeared), the
      wait timed out (TimeoutException), or NoSuchElementException was raised (Missing).
      A `WebDriverWait` built with its default arguments ignores NoSuchElementException and
      keeps polling, so the waits of abstract_crawler.py do not produce Missing; it stands for
      the exception the `except NoSuchElementException` branches are written for, and the
      model keeps those branches. */
  datatype Wait = Appeared | TimedOut | Missing

  /** The `_check_if_*` helpers: the element (truthy) when the condition is met, None when
      NoSuchElementException is caught. They catch nothing else, so a timeout propagates. */
  function CheckVisible(w: Wait): (r: Result<bool>)
    ensures r == Err(SeleniumTimeout) <==> w == TimedOut
    ensures r == Ok(true) <==> w == Appeared
    ensures r == Ok(false) <==> w == Missing
  {
    match w
    case Appeared => Ok(true)
    case Missing => Ok(false)
    case TimedOut => Err(SeleniumTimeout)
  }

  /** `_wait_for_captcha_resolution`: the 120-second wait swallows its timeout, and only its
      timeout. */
  function AwaitResolution(w: Wait): (r: Result<()>)
    ensures r.Err? <==> w == Missing
    ensures r.Err? ==> r.exc == NoSuchElement
  {
    if w == Missing then Err(NoSuchElement) else Ok(())
  }

  /** The `checkbox` argument: None (the default of `get_soup_from_url`), False or True. */
  datatype Flag = Unset | Off | On

  /** The three ways `resolvecaptcha` deals with a reCAPTCHA. */
  datatype Route = AutoSolve | ClickCheckbox | AwaitMarker

  /** The routing of `resolvecaptcha`. `afterlogin` is None when the caller left the argument
      at None. Auto-solving needs `checkbox is False` (not merely falsy), an empty after-login
      string (None is not "") and a visible iframe; a truthy checkbox clicks; everything else,
      the default checkbox None included, waits. The api key takes no part. */
  function RecaptchaRoute(checkbox: Flag, afterlogin: Option<string>, iframePresent: bool): (r: Route)
    ensures r == AutoSolve <==> checkbox == Off && afterlogin == Some("") && iframePresent
    ensures r == ClickCheckbox <==> checkbox == On
    ensures r == AwaitMarker <==> checkbox != On && !(checkbox == Off && afterlogin == Some("") && iframePresent)
    ensures checkbox == Unset ==> r == AwaitMarker
  {
    if checkbox == Off && afterlogin == Some("") && iframePresent then AutoSolve
    else if checkbox == On then ClickCheckbox
    else AwaitMarker
  }

  /** The job posted to the solving service's `in.php`. */
  datatype Submission =
    | RecaptchaJob(apiKey: Option<string>, siteKey: string, pageUrl: string)
    | GeetestJob(apiKey: Option<string>, gt: string, challenge: string, pageUrl: string)

  /** The scripts run in the page once an answer is known. */
  datatype Script =
    | FillResponse(token: string)         // document.getElementById("g-recaptcha-response").innerHTML = token
    | RecaptchaCallback(token: string)    // solvedCaptcha(token)
    | GeetestCallback(answer: GeetestAnswer, data: string)  // solvedCaptcha({... data: ...})

  /** What the crawler does to the outside world while handling a CAPTCHA. */
  datatype Effect =
    | Navigate(url: string)
    | Submit(job: Submission)
    | FetchResult(apiKey: Option<string>, jobId: string)
    | Sleep
    | RunScript(script: Script)
    | SwitchToCaptchaFrame
    | ClickCheckmark
    | AwaitCheckmark
    | AwaitText(xpath: string)
    | SwitchToDefault

  /** What the browser shows the crawler: the markup and globals it reads, and how each of
      its waits ends. */
  datatype Browser = Browser(
    page: string,            // driver.page_source after navigation, while the CAPTCHA is handled
    finalPage: string,       // driver.page_source once CAPTCHA handling has returned
    currentUrl: string,      // driver.current_url
    siteKey: string,         // the data-sitekey of the g-recaptcha element
    geeGT: Option<string>,   // window.GeeGT (None for null/undefined)
    geeChallenge: Option<string>,  // window.GeeChallenge
    iframeVisible: Wait,     // _check_if_iframe_visible
    iframeHidden: Wait,      // _check_if_iframe_not_visible
    checkmarkChecked: Wait,  // wait for "recaptcha-checkbox-checked"
    markerVisible: Wait,     // wait for the after-login text
    geetestBox: Wait,        // _check_if_geetest_visible
    geetestHidden: Wait      // _check_if_geetest_not_visible
  )

  /** What the solving service replies: the text of the `in.php` POST, the texts of the
      successive `res.php` GETs, and `json.loads` for the Geetest payload. */
  datatype SolverReplies = SolverReplies(
    submitReply: string,
    results: seq<string>,
    loads: string -> Option<JsonValue>
  )

  /** How a CAPTCHA step ended, and what it did on the way. */
  datatype Run = Run(status: Outcome<()>, effects: seq<Effect>)

  /** One GET of `res.php`, then a sleep and another GET per not-ready reply. */
  function PollEffects(apiKey: Option<string>, jobId: string, sleeps: nat): (r: seq<Effect>)
    ensures |r| == 2 * sleeps + 1
    ensures r[0] == FetchResult(apiKey, jobId) && r[|r| - 1] == FetchResult(apiKey, jobId)
  {
    if sleeps == 0 then [FetchResult(apiKey, jobId)]
    else PollEffects(apiKey, jobId, sleeps - 1) + [Sleep, FetchResult(apiKey, jobId)]
  }

  function SleepCount(effects: seq<Effect>): nat
  {
    if |effects| == 0 then 0
    else SleepCount(effects[..|effects| - 1]) + (if effects[|effects| - 1] == Sleep then 1 else 0)
  }

  lemma SleepCountAppend(a: seq<Effect>, b: seq<Effect>)
    ensures SleepCount(a + b) == SleepCount(a) + SleepCount(b)
    decreases |b|
  {
    if |b| > 0 {
      assert (a + b)[..|a + b| - 1] == a + b[..|b| - 1];
      SleepCountAppend(a, b[..|b| - 1]);
    } else {
      assert a + b == a;
    }
  }

  /** Polling sleeps exactly once per not-ready reply and fetches once more than it sleeps. */
  lemma {:induction false} PollSleeps(apiKey: Option<string>, jobId: string, sleeps: nat)
    ensures SleepCount(PollEffects(apiKey, jobId, sleeps)) == sleeps
    ensures |PollEffects(apiKey, jobId, sleeps)| == 2 * sleeps + 1
  {
    if sleeps > 0 {
      PollSleeps(apiKey, jobId, sleeps - 1);
      SleepCountAppend(PollEffects(apiKey, jobId, sleeps - 1), [Sleep, FetchResult(apiKey, jobId)]);
      assert SleepCount([Sleep, FetchResult(apiKey, jobId)]) == 1 by {
        assert [Sleep, FetchResult(apiKey, jobId)][..1] == [Sleep];
        assert [Sleep][..0] == [];
      }
    }
  }

  // ---------------------------------------------------------------------------------------
  // reCAPTCHA auto-solve: `_solve`

  /** What `_solve` does: submit the site key and page URL, take the job id from the reply,
      poll, take the token from the final reply, put it into the response field, call the
      page's callback with it, and wait for the iframe to disappear. */
  function SolveRecaptcha(apiKey: Option<string>, b: Browser, sv: SolverReplies): (r: Run)
    ensures |r.effects| > 0 && r.effects[0] == Submit(RecaptchaJob(apiKey, b.siteKey, b.currentUrl))
    ensures r.status == Stalled <==> SecondField(sv.submitReply).Some? && FirstReady(sv.results).Unanswered?
    ensures r.status.Done? ==>
      var polled := FirstReady(sv.results);
      && SecondField(sv.submitReply).Some? && polled.Answered? && SecondField(polled.answer).Some?
      && r.effects[|r.effects| - 1] == RunScript(RecaptchaCallback(SecondField(polled.answer).value))
  {
    var submitted := [Submit(RecaptchaJob(apiKey, b.siteKey, b.currentUrl))];
    match SecondField(sv.submitReply)
    case None => Run(Raised(IndexError), submitted)
    case Some(jobId) =>
      var polled := FirstReady(sv.results);
      var polling := submitted + PollEffects(apiKey, jobId, polled.sleeps);
      match polled
      case Unanswered(_) => Run(Stalled, polling)
      case Answered(reply, _) =>
        match SecondField(reply)
        case None => Run(Raised(IndexError), polling)
        case Some(token) =>
          var injected := polling + [RunScript(FillResponse(token)), RunScript(RecaptchaCallback(token))];
          match CheckVisible(b.iframeHidden)
          case Err(e) => Run(Raised(e), injected)
          case Ok(_) => Run(Done(()), injected)
  }

  method Solve(apiKey: Option<string>, b: Browser, sv: SolverReplies) returns (run: Run)
    ensures run == SolveRecaptcha(apiKey, b, sv)
  {
    var effects := [Submit(RecaptchaJob(apiKey, b.siteKey, b.currentUrl))];
    var captchaId := SecondField(sv.submitReply);
    if captchaId.None? {
      return Run(Raised(IndexError), effects);
    }
    var polled := Poll(sv.results);
    effects := effects + PollEffects(apiKey, captchaId.value, polled.sleeps);
    if polled.Unanswered? {
      return Run(Stalled, effects);
    }
    var token := SecondField(polled.answer);
    if token.None? {
      return Run(Raised(IndexError), effects);
    }
    effects := effects + [RunScript(FillResponse(token.value)), RunScript(RecaptchaCallback(token.value))];
    var hidden := CheckVisible(b.iframeHidden);
    if hidden.Err? {
      return Run(Raised(hidden.exc), effects);
    }
    run := Run(Done(()), effects);
  }

  /** A well-formed exchange ("<status>|<id>", then not-ready replies, then "<status>|<token>")
      injects exactly that token, after one sleep per not-ready reply. */
  lemma SolveInjectsToken(apiKey: Option<string>, b: Browser, sv: SolverReplies,
                          status: string, jobId: string, pending: seq<string>,
                          final: string, token: string, later: seq<string>)
    requires '|' !in status && '|' !in jobId && '|' !in final && '|' !in token
    requires sv.submitReply == status + "|" + jobId
    requires forall j :: 0 <= j < |pending| ==> NotReady(pending[j])
    requires !NotReady(final + "|" + token)
    requires sv.results == pending + [final + "|" + token] + later
    requires b.iframeHidden != TimedOut
    ensures SolveRecaptcha(apiKey, b, sv) == Run(Done(()),
      [Submit(RecaptchaJob(apiKey, b.siteKey, b.currentUrl))]
      + PollEffects(apiKey, jobId, |pending|)
      + [RunScript(FillResponse(token)), RunScript(RecaptchaCallback(token))])
  {
    SecondFieldOf(status, jobId);
    FirstReadyAfter(pending, final + "|" + token, later);
    SecondFieldOf(final, token);
  }

  /** The exchange "OK|777", then "CAPCHA_NOT_READY" twice, then "OK|tok_abc": the token
      "tok_abc" is injected after exactly two sleeps (see PollSleeps). */
  lemma SolveTwoPollsExample(apiKey: Option<string>, b: Browser, loads: string -> Option<JsonValue>)
    requires b.iframeHidden != TimedOut
    ensures SolveRecaptcha(apiKey, b,
              SolverReplies("OK|777", ["CAPCHA_NOT_READY", "CAPCHA_NOT_READY", "OK|tok_abc"], loads))
         == Run(Done(()), [Submit(RecaptchaJob(apiKey, b.siteKey, b.currentUrl))]
              + PollEffects(apiKey, "777", 2)
              + [RunScript(FillResponse("tok_abc")), RunScript(RecaptchaCallback("tok_abc"))])
  {
    var notReady := "CAPCHA_NOT_READY";
    var sv := SolverReplies("OK|777", [notReady, notReady, "OK|tok_abc"], loads);
    assert sv.submitReply == "OK" + "|" + "777";
    assert "OK" + "|" + "tok_abc" == "OK|tok_abc";
    assert sv.results == [notReady, notReady] + ["OK" + "|" + "tok_abc"] + [];
    assert NotReady(notReady) by { assert notReady[..|NotReadySentinel|] == NotReadySentinel; }
    assert !NotReady("OK|tok_abc");
    SolveInjectsToken(apiKey, b, sv, "OK", "777", [notReady, notReady], "OK", "tok_abc", []);
  }

  // ---------------------------------------------------------------------------------------
  // `_clickcaptcha` and `_wait_for_captcha_resolution`

  /** Python's `str(afterlogin_string)`, as the f-string renders it. */
  function Render(s: Option<string>): string
  {
    match s
    case None => "None"
    case Some(t) => t
  }

  /** The XPath `_wait_for_captcha_resolution` waits for. */
  function MarkerXPath(afterlogin: Option<string>): string
  {
    "//*[contains(text(), '" + Render(afterlogin) + "')]"
  }

  /** `_clickcaptcha`: into the iframe, click the checkmark, wait for it to show checked,
      back out. An exception from the wait leaves the driver inside the iframe. */
  function ClickCaptcha(b: Browser): (r: Run)
    ensures |r.effects| >= 3 && r.effects[..3] == [SwitchToCaptchaFrame, ClickCheckmark, AwaitCheckmark]
    ensures r.status.Done? <==> b.checkmarkChecked != Missing
    ensures r.status.Done? ==> |r.effects| == 4 && r.effects[3] == SwitchToDefault
    ensures !r.status.Done? ==> r.status == Raised(NoSuchElement) && |r.effects| == 3
  {
    var clicked := [SwitchToCaptchaFrame, ClickCheckmark, AwaitCheckmark];
    match AwaitResolution(b.checkmarkChecked)
    case Err(e) => Run(Raised(e), clicked)
    case Ok(_) => Run(Done(()), clicked + [SwitchToDefault])
  }

  /** `_wait_for_captcha_resolution` with a falsy checkbox: wait for the after-login text. */
  function AwaitMarkerText(afterlogin: Option<string>, b: Browser): (r: Run)
    ensures r.effects == [AwaitText(MarkerXPath(afterlogin))]
    ensures r.status.Done? <==> b.markerVisible != Missing
    ensures !r.status.Done? ==> r.status == Raised(NoSuchElement)
  {
    var waited := [AwaitText(MarkerXPath(afterlogin))];
    match AwaitResolution(b.markerVisible)
    case Err(e) => Run(Raised(e), waited)
    case Ok(_) => Run(Done(()), waited)
  }

  /** A 120-second wait that times out is swallowed: clicking still switches back out of the
      iframe, and waiting for the marker still returns normally. Only a missing element
      escapes, and then the driver stays inside the iframe. */
  lemma TimedOutWaitsAreSwallowed(afterlogin: Option<string>, b: Browser)
    ensures b.checkmarkChecked == TimedOut ==>
      ClickCaptcha(b) == Run(Done(()), [SwitchToCaptchaFrame, ClickCheckmark, AwaitCheckmark, SwitchToDefault])
    ensures b.checkmarkChecked == Missing ==>
      ClickCaptcha(b) == Run(Raised(NoSuchElement), [SwitchToCaptchaFrame, ClickCheckmark, AwaitCheckmark])
    ensures AwaitMarkerText(afterlogin, b).status.Done? <==> b.markerVisible != Missing
  {
  }

  // ---------------------------------------------------------------------------------------
  // `resolvecaptcha`

  /** What `resolvecaptcha` does: check for the iframe, then auto-solve, click or wait. A
      timeout of the iframe check propagates before anything is done; once the check returns,
      something is always done. */
  function ResolveRecaptcha(checkbox: Flag, afterlogin: Option<string>, apiKey: Option<string>,
                            b: Browser, sv: SolverReplies): (r: Run)
    ensures b.iframeVisible == TimedOut ==> r == Run(Raised(SeleniumTimeout), [])
    ensures b.iframeVisible != TimedOut ==> |r.effects| > 0
  {
    match CheckVisible(b.iframeVisible)
    case Err(e) => Run(Raised(e), [])
    case Ok(present) =>
      match RecaptchaRoute(checkbox, afterlogin, present)
      case AutoSolve => SolveRecaptcha(apiKey, b, sv)
      case ClickCheckbox => ClickCaptcha(b)
      case AwaitMarker => AwaitMarkerText(afterlogin, b)
  }

  method ResolveCaptcha(checkbox: Flag, afterlogin: Option<string>, apiKey: Option<string>,
                        b: Browser, sv: SolverReplies) returns (run: Run)
    ensures run == ResolveRecaptcha(checkbox, afterlogin, apiKey, b, sv)
  {
    var iframePresent := CheckVisible(b.iframeVisible);
    if iframePresent.Err? {
      return Run(Raised(iframePresent.exc), []);
    }
    if checkbox == Off && afterlogin == Some("") && iframePresent.value {
      run := Solve(apiKey, b, sv);
    } else if checkbox == On {
      run := ClickCaptcha(b);
    } else {
      run := AwaitMarkerText(afterlogin, b);
    }
  }

  /** `get_soup_from_url` passes its defaults checkbox=None and afterlogin_string=None on,
      so a reCAPTCHA reached with the defaults is never solved: the crawler waits for an
      element whose text contains "None". */
  lemma DefaultArgumentsAwaitNone(apiKey: Option<string>, b: Browser, sv: SolverReplies)
    requires b.iframeVisible != TimedOut
    ensures ResolveRecaptcha(Unset, None, apiKey, b, sv).effects
         == [AwaitText("//*[contains(text(), 'None')]")]
  {
    assert RecaptchaRoute(Unset, None, CheckVisible(b.iframeVisible).value) == AwaitMarker;
    assert MarkerXPath(None) == "//*[contains(text(), '" + "None" + "')]";
    assert "//*[contains(text(), '" + "None" + "')]" == "//*[contains(text(), 'None')]";
  }

  /** The solving service is contacted at all only when a reCAPTCHA is auto-solved. */
  predicate ContactsSolver(effects: seq<Effect>)
  {
    exists i :: 0 <= i < |effects| && effects[i].Submit?
  }

  /** `resolvecaptcha` submits a job exactly when the iframe check found the iframe, the
      checkbox is False and the after-login string is empty. */
  lemma SolverOnlyWhenAutoSolving(checkbox: Flag, afterlogin: Option<string>, apiKey: Option<string>,
                                  b: Browser, sv: SolverReplies)
    ensures ContactsSolver(ResolveRecaptcha(checkbox, afterlogin, apiKey, b, sv).effects)
      <==> b.iframeVisible == Appeared && checkbox == Off && afterlogin == Some("")
  {
    var run := ResolveRecaptcha(checkbox, afterlogin, apiKey, b, sv);
    match CheckVisible(b.iframeVisible)
    case Err(_) =>
      assert run.effects == [];
    case Ok(present) =>
      match RecaptchaRoute(checkbox, afterlogin, present)
      case AutoSolve =>
      case ClickCheckbox =>
        var effects := ClickCaptcha(b).effects;
        assert forall i :: 0 <= i < |effects| ==> !effects[i].Submit?;
      case AwaitMarker =>
        var effects := AwaitMarkerText(afterlogin, b).effects;
        assert forall i :: 0 <= i < |effects| ==> !effects[i].Submit?;
  }

  /** The api key decides nothing: with any two keys `resolvecaptcha` ends the same way
      and does the same number of things. */
  lemma ApiKeyDecidesNothing(checkbox: Flag, afterlogin: Option<string>, key1: Option<string>,
                             key2: Option<string>, b: Browser, sv: SolverReplies)
    ensures ResolveRecaptcha(checkbox, afterlogin, key1, b, sv).status
         == ResolveRecaptcha(checkbox, afterlogin, key2, b, sv).status
    ensures |ResolveRecaptcha(checkbox, afterlogin, key1, b, sv).effects|
         == |ResolveRecaptcha(checkbox, afterlogin, key2, b, sv).effects|
  {
    match CheckVisible(b.iframeVisible)
    case Err(_) =>
    case Ok(present) =>
      if RecaptchaRoute(checkbox, afterlogin, present) == AutoSolve {
        SolveKeyIndependent(key1, key2, b, sv);
      }
  }

  /** `_solve` with two api keys: the same outcome after the same number of steps. */
  lemma SolveKeyIndependent(key1: Option<string>, key2: Option<string>, b: Browser, sv: SolverReplies)
    ensures SolveRecaptcha(key1, b, sv).status == SolveRecaptcha(key2, b, sv).status
    ensures |SolveRecaptcha(key1, b, sv).effects| == |SolveRecaptcha(key2, b, sv).effects|
  {
  }

  // ---------------------------------------------------------------------------------------
  // `resolvegeetest`

  /** The literal part of the pattern `data: "(.+)"` before the group. */
  const DataPrefix: string := "data: \""

  /** The end of the line that holds index `k`: the next newline, or the end of the text. */
  function LineEnd(s: string, k: nat): (e: nat)
    requires k <= |s|
    ensures k <= e <= |s|
    ensures forall j :: k <= j < e ==> s[j] != '\n'
    ensures e < |s| ==> s[e] == '\n'
    decreases |s| - k
  {
    if k == |s| || s[k] == '\n' then k else LineEnd(s, k + 1)
  }

  /** The last double quote in `s[lo..hi]`, where the greedy `.+` stops. */
  function LastQuote(s: string, lo: nat, hi: nat): (r: Option<nat>)
    requires lo <= hi <= |s|
    ensures r.Some? ==> lo <= r.value < hi && s[r.value] == '"'
    ensures r.None? ==> forall j :: lo <= j < hi ==> s[j] != '"'
    ensures r.Some? ==> forall j :: r.value < j < hi ==> s[j] != '"'
    decreases hi - lo
  {
    if lo == hi then None
    else if s[hi - 1] == '"' then Some(hi - 1)
    else LastQuote(s, lo, hi - 1)
  }

  /** `re.search('data: "(.+)"', s).group(1)` with the search starting at index `i`: at the
      leftmost position where the prefix is followed, on the same line, by at least one
      character and a closing quote, the group runs up to the last quote on that line. */
  function DataTokenFrom(s: string, i: nat): (r: Option<string>)
    requires i <= |s|
    ensures r.Some? ==> r.value != [] && '\n' !in r.value
    ensures r.Some? ==> exists p :: i <= p && OccursAt(s, DataPrefix + r.value + "\"", p)
    decreases |s| - i
  {
    if |s| < i + |DataPrefix| then None
    else if s[i..i + |DataPrefix|] == DataPrefix then
      var k := i + |DataPrefix|;
      var e := LineEnd(s, k);
      if k < e then
        match LastQuote(s, k + 1, e)
        case Some(j) =>
          var t := s[k..j];
          assert forall c | c in t :: c != '\n';
          assert s[i..j + 1] == DataPrefix + t + "\"";
          assert OccursAt(s, DataPrefix + t + "\"", i);
          Some(t)
        case None => DataTokenFrom(s, i + 1)
      else DataTokenFrom(s, i + 1)
    else DataTokenFrom(s, i + 1)
  }

  /** The `data: "..."` token `resolvegeetest` extracts from the page; None when the pattern
      does not match. It is the group of the leftmost match, and a match always has a
      non-empty group, so `m.group(1)` adds nothing to the guard once `m` holds. */
  function DataToken(page: string): (r: Option<string>)
    ensures r.Some? ==> r.value != [] && '\n' !in r.value
    ensures r.Some? ==> exists p: nat :: MatchAt(page, p, r.value) && forall q: nat, t :: q < p ==> !MatchAt(page, q, t)
    ensures r.None? ==> forall q: nat, t :: !MatchAt(page, q, t)
  {
    DataTokenLeftmost(page, 0);
    DataTokenFrom(page, 0)
  }

  /** `data: "(.+)"` matches at index `q` with group `t`: the prefix stands at `q`, followed by
      `t`, which is non-empty and has no newline, and by a closing quote that is the last
      quote on its line, as far as the greedy `.+` gives characters back. */
  predicate MatchAt(s: string, q: nat, t: string)
  {
    var k := q + |DataPrefix|;
    && t != [] && '\n' !in t
    && k + |t| < |s| && s[q..k] == DataPrefix && s[k..k + |t|] == t && s[k + |t|] == '"'
    && forall j :: k + |t| < j < LineEnd(s, k + |t|) ==> s[j] != '"'
  }

  /** Every index from `a` up to the end of its line ends the line at the same place. */
  lemma {:induction false} LineEndFrom(s: string, a: nat, b: nat)
    requires a <= |s| && a <= b <= LineEnd(s, a)
    ensures LineEnd(s, b) == LineEnd(s, a)
    decreases b - a
  {
    if a < b {
      LineEndFrom(s, a + 1, b);
    }
  }

  /** A quote with no quote after it before `hi` is the one LastQuote finds. */
  lemma {:induction false} LastQuoteIs(s: string, lo: nat, hi: nat, j: nat)
    requires lo <= j < hi <= |s| && s[j] == '"'
    requires forall m :: j < m < hi ==> s[m] != '"'
    ensures LastQuote(s, lo, hi) == Some(j)
    decreases hi - lo
  {
    if j < hi - 1 {
      LastQuoteIs(s, lo, hi - 1, j);
    }
  }

  /** A match at `q` is what the search looks for at `q`: the prefix, then a closing quote on
      the same line, the last of which ends the group. */
  lemma MatchAtSearched(s: string, q: nat, t: string)
    ensures MatchAt(s, q, t) ==>
      var k := q + |DataPrefix|;
      && k + |t| < |s| && s[q..k] == DataPrefix && s[k..k + |t|] == t
      && k + |t| < LineEnd(s, k) && LastQuote(s, k + 1, LineEnd(s, k)) == Some(k + |t|)
  {
    if MatchAt(s, q, t) {
      var k := q + |DataPrefix|;
      QuoteOnLine(s, k, t);
      LineEndFrom(s, k, k + |t|);
      LastQuoteIs(s, k + 1, LineEnd(s, k), k + |t|);
    }
  }

  /** At a given index the pattern matches with at most one group. */
  lemma MatchAtUnique(s: string, q: nat, t1: string, t2: string)
    ensures MatchAt(s, q, t1) && MatchAt(s, q, t2) ==> t1 == t2
  {
    MatchAtSearched(s, q, t1);
    MatchAtSearched(s, q, t2);
  }

  /** The search at index `i` finds the prefix followed, on the same line, by at least one
      character and a quote. */
  predicate SearchHitsAt(s: string, i: nat)
  {
    var k := i + |DataPrefix|;
    k <= |s| && s[i..k] == DataPrefix && k < LineEnd(s, k) && LastQuote(s, k + 1, LineEnd(s, k)).Some?
  }

  /** The search stops at `i` exactly when the pattern matches at `i`, and then returns the
      group of that match; otherwise it moves on to `i + 1`. */
  lemma SearchAt(s: string, i: nat)
    requires i <= |s|
    ensures SearchHitsAt(s, i) ==> DataTokenFrom(s, i).Some? && MatchAt(s, i, DataTokenFrom(s, i).value)
    ensures !SearchHitsAt(s, i) ==> forall t :: !MatchAt(s, i, t)
    ensures !SearchHitsAt(s, i) && i < |s| ==> DataTokenFrom(s, i) == DataTokenFrom(s, i + 1)
    ensures i == |s| ==> DataTokenFrom(s, i).None?
  {
    var k := i + |DataPrefix|;
    if SearchHitsAt(s, i) {
      var j := LastQuote(s, k + 1, LineEnd(s, k)).value;
      assert DataTokenFrom(s, i) == Some(s[k..j]);
      LineEndFrom(s, k, j);
    } else {
      forall t
        ensures !MatchAt(s, i, t)
      {
        MatchAtSearched(s, i, t);
      }
    }
  }

  /** The search from `i` returns the group of the leftmost match at or after `i`, and finds
      nothing exactly when there is no match there: what `re.search` returns. */
  lemma {:induction false} DataTokenLeftmost(s: string, i: nat)
    requires i <= |s|
    ensures DataTokenFrom(s, i).Some? ==>
      exists p: nat :: i <= p && MatchAt(s, p, DataTokenFrom(s, i).value)
                       && forall q: nat, t :: i <= q < p ==> !MatchAt(s, q, t)
    ensures DataTokenFrom(s, i).None? ==> forall q: nat, t :: i <= q ==> !MatchAt(s, q, t)
    decreases |s| - i
  {
    SearchAt(s, i);
    if SearchHitsAt(s, i) {
    } else if i == |s| {
      NoMatchPastEnd(s, i);
    } else {
      DataTokenLeftmost(s, i + 1);
      var r := DataTokenFrom(s, i + 1);
      if r.Some? {
        var p: nat :| i + 1 <= p && MatchAt(s, p, r.value)
                      && forall q: nat, t :: i + 1 <= q < p ==> !MatchAt(s, q, t);
        NoMatchBefore(s, i, p);
      } else {
        NoMatchBefore(s, i, |s| + 1);
        NoMatchPastEnd(s, |s| + 1);
      }
    }
  }

  /** No match starts beyond the end of the text. */
  lemma NoMatchPastEnd(s: string, i: nat)
    requires |s| <= i
    ensures forall q: nat, t :: i <= q ==> !MatchAt(s, q, t)
  {
  }

  /** No match at `i` and none from `i + 1` up to `p`: none from `i` up to `p`. */
  lemma NoMatchBefore(s: string, i: nat, p: nat)
    requires forall t :: !MatchAt(s, i, t)
    requires forall q: nat, t :: i + 1 <= q < p ==> !MatchAt(s, q, t)
    ensures forall q: nat, t :: i <= q < p ==> !MatchAt(s, q, t)
  {
  }

  /** A closing quote after a non-empty, newline-free run makes the search at that prefix
      succeed. */
  lemma QuoteOnLine(s: string, k: nat, t: string)
    requires k + |t| < |s| && t != [] && '\n' !in t
    requires s[k..k + |t|] == t && s[k + |t|] == '"'
    ensures k + |t| < LineEnd(s, k)
    ensures LastQuote(s, k + 1, LineEnd(s, k)).Some?
  {
    assert forall j :: k <= j < k + |t| ==> s[j] == t[j - k];
    assert forall j :: k <= j <= k + |t| ==> s[j] != '\n';
  }

  /** A `data: "<token>"` with a non-empty token on one line, at or after `i`, makes the
      search from `i` succeed: the search misses nothing. */
  lemma {:induction false} FoundFrom(s: string, i: nat, p: nat, t: string)
    requires i <= |s|
    requires i <= p && t != [] && '\n' !in t
    ensures OccursAt(s, DataPrefix + t + "\"", p) ==> DataTokenFrom(s, i).Some?
    decreases |s| - i
  {
    var w := DataPrefix + t + "\"";
    if OccursAt(s, w, p) {
      var k := i + |DataPrefix|;
      if p == i {
        assert s[i..i + |w|] == w;
        assert |w| == |DataPrefix| + |t| + 1;
        assert forall j :: k <= j < k + |t| ==> s[j] == s[i..i + |w|][j - i];
        assert s[i..k] == s[i..i + |w|][..|DataPrefix|] == DataPrefix;
        assert w[|DataPrefix|..|DataPrefix| + |t|] == t;
        assert s[k..k + |t|] == s[i..i + |w|][|DataPrefix|..|DataPrefix| + |t|];
        assert s[k + |t|] == w[|w| - 1];
        QuoteOnLine(s, k, t);
      } else {
        FoundFrom(s, i + 1, p, t);
      }
    }
  }

  /** When `resolvegeetest` finds no token, the page holds no `data: "<token>"` with a
      non-empty token on one line. */
  lemma NoDataToken(page: string, p: nat, t: string)
    requires t != [] && '\n' !in t
    ensures DataToken(page).None? ==> !OccursAt(page, DataPrefix + t + "\"", p)
  {
    FoundFrom(page, 0, p, t);
  }

  /** JavaScript truthiness of a global read with `execute_script`, for the string values
      the page stores there: null/undefined and "" are falsy. */
  predicate Truthy(v: Option<string>)
  {
    v.Some? && v.value != ""
  }

  /** The guard of `resolvegeetest`: `gt and challenge and m and m.group(1)`. It holds exactly
      when both globals are truthy and the pattern matches somewhere in the page. */
  predicate GeetestGuard(b: Browser)
    ensures GeetestGuard(b) <==> Truthy(b.geeGT) && Truthy(b.geeChallenge) && exists p, t :: MatchAt(b.page, p, t)
  {
    Truthy(b.geeGT) && Truthy(b.geeChallenge) && DataToken(b.page).Some? && DataToken(b.page).value != ""
  }

  /** What `resolvegeetest` does: wait for the captcha box, read the globals and the data
      token, and only when all are present submit gt and challenge, poll, decode the answer
      after the first `|`, hand the three answer fields and the data token to the page's
      callback, and wait for the captcha to disappear. */
  function ResolveGeetestSpec(apiKey: Option<string>, b: Browser, sv: SolverReplies): (r: Run)
    ensures r.effects != [] <==> b.geetestBox != TimedOut && GeetestGuard(b)
    ensures r.effects != [] ==>
      r.effects[0] == Submit(GeetestJob(apiKey, b.geeGT.value, b.geeChallenge.value, b.currentUrl))
    ensures b.geetestBox != TimedOut && !GeetestGuard(b) ==> r.status == Done(())
    ensures b.geetestBox == TimedOut ==> r.status == Raised(SeleniumTimeout)
  {
    match CheckVisible(b.geetestBox)
    case Err(e) => Run(Raised(e), [])
    case Ok(_) =>
      if !GeetestGuard(b) then Run(Done(()), [])
      else
        var data := DataToken(b.page).value;
        var submitted := [Submit(GeetestJob(apiKey, b.geeGT.value, b.geeChallenge.value, b.currentUrl))];
        match SecondField(sv.submitReply)
        case None => Run(Raised(IndexError), submitted)
        case Some(jobId) =>
          var polled := FirstReady(sv.results);
          var polling := submitted + PollEffects(apiKey, jobId, polled.sleeps);
          match polled
          case Unanswered(_) => Run(Stalled, polling)
          case Answered(reply, _) =>
            match ReadGeetestAnswer(GeetestPayload(reply), sv.loads)
            case Err(e) => Run(Raised(e), polling)
            case Ok(answer) =>
              var injected := polling + [RunScript(GeetestCallback(answer, data))];
              match CheckVisible(b.geetestHidden)
              case Err(e) => Run(Raised(e), injected)
              case Ok(_) => Run(Done(()), injected)
  }

  method ResolveGeetest(apiKey: Option<string>, b: Browser, sv: SolverReplies) returns (run: Run)
    ensures run == ResolveGeetestSpec(apiKey, b, sv)
  {
    var geetestPresent := CheckVisible(b.geetestBox);
    if geetestPresent.Err? {
      return Run(Raised(geetestPresent.exc), []);
    }
    var m := DataToken(b.page);
    if !(Truthy(b.geeGT) && Truthy(b.geeChallenge) && m.Some? && m.value != "") {
      return Run(Done(()), []);
    }
    var effects := [Submit(GeetestJob(apiKey, b.geeGT.value, b.geeChallenge.value, b.currentUrl))];
    var captchaId := SecondField(sv.submitReply);
    if captchaId.None? {
      return Run(Raised(IndexError), effects);
    }
    var polled := Poll(sv.results);
    effects := effects + PollEffects(apiKey, captchaId.value, polled.sleeps);
    if polled.Unanswered? {
      return Run(Stalled, effects);
    }
    var answer := ReadGeetestAnswer(GeetestPayload(polled.answer), sv.loads);
    if answer.Err? {
      return Run(Raised(answer.exc), effects);
    }
    effects := effects + [RunScript(GeetestCallback(answer.value, m.value))];
    var hidden := CheckVisible(b.geetestHidden);
    if hidden.Err? {
      return Run(Raised(hidden.exc), effects);
    }
    run := Run(Done(()), effects);
  }

  /** A well-formed exchange ("<status>|<id>", not-ready replies, then "<status>|<json>" whose
      object has the three fields) hands exactly those fields and the page's data token to
      the callback. */
  lemma GeetestInjectsAnswer(apiKey: Option<string>, b: Browser, sv: SolverReplies,
                             status: string, jobId: string, pending: seq<string>,
                             final: string, payload: string, later: seq<string>)
    requires GeetestGuard(b) && b.geetestBox != TimedOut && b.geetestHidden != TimedOut
    requires '|' !in status && '|' !in jobId && '|' !in final
    requires sv.submitReply == status + "|" + jobId
    requires forall j :: 0 <= j < |pending| ==> NotReady(pending[j])
    requires !NotReady(final + "|" + payload)
    requires sv.results == pending + [final + "|" + payload] + later
    requires sv.loads(payload).Some? && sv.loads(payload).value.JsonObject?
    requires GeetestKeys <= sv.loads(payload).value.fields.Keys
    ensures var obj := sv.loads(payload).value.fields;
      ResolveGeetestSpec(apiKey, b, sv) == Run(Done(()),
        [Submit(GeetestJob(apiKey, b.geeGT.value, b.geeChallenge.value, b.currentUrl))]
        + PollEffects(apiKey, jobId, |pending|)
        + [RunScript(GeetestCallback(
             GeetestAnswer(obj["geetest_challenge"], obj["geetest_seccode"], obj["geetest_validate"]),
             DataToken(b.page).value))])
  {
    SecondFieldOf(status, jobId);
    FirstReadyAfter(pending, final + "|" + payload, later);
    GeetestPayloadOf(final, payload);
  }
}
