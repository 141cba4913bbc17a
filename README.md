# Flathunter crawler core in Dafny

This project models the decision and control logic of the `Crawler` base class in
`flathunter/abstract_crawler.py`, the class every flathunter site crawler extends. It covers:

- the shared `HEADERS` dictionary and its in-place user-agent rotation (`rotate_user_agent`);
- the fetch dispatch of `get_soup_from_url`: a direct GET, then the proxy path, the browser
  path with Geetest or reCAPTCHA handling, or the direct body;
- the proxy retry loop of `get_soup_with_proxy`, which walks successive proxy lists until
  some proxy answers with status 200;
- the URL gate of `crawl`;
- reCAPTCHA routing in `resolvecaptcha`, with `_solve`, `_clickcaptcha` and
  `_wait_for_captcha_resolution`;
- the `resolvegeetest` guard and its handling of the solver's replies;
- the handling of the 2captcha solving service's replies: the job id, polling while the reply
  says `CAPCHA_NOT_READY`, the reCAPTCHA token and the Geetest JSON payload.

HTTP, Selenium and the solving service are not called. What they return is an input to the
model:

- an `Attempt` for each HTTP request;
- a `Browser` record for what the driver shows and how each wait ends;
- `SolverReplies` for the texts the service returns, with `json.loads` as a function parameter;
- `agents: nat -> string`, where `agents(n)` is the n-th random user agent drawn.

What the crawler does to the browser and the service comes out as a sequence of `Effect`s:
submissions, result fetches, sleeps, scripts run, clicks and frame switches. The source loops
without a bound when proxies keep failing or the solver never gets ready. In the model, the
finite input sequences stand in for those loops, and running out of input gives `Unresolved`
or `Stalled`.

Modules:

- `Errors`: exception kinds, `Option`, `Result`, and `Outcome` (Done, Raised, Stalled).
- `PyStr`: Python's `str.split` on one character, `str.find` with slicing, and `sub in s`.
- `Solver`: reply parsing, the poll loop (`Poll`, a method proved against the function
  `FirstReady`) and the Geetest answer lookup.
- `Captcha`: the CAPTCHA handlers, each as a specification function. `_solve`,
  `resolvecaptcha` and `resolvegeetest`, which run the poll loop, are also methods proved
  equal to their functions; `_clickcaptcha` and `_wait_for_captcha_resolution` are functions
  only.
- `ProxyRetry`: the proxy loop as a function of the attempt outcomes.
- `Crawling`: the `Crawler` class. Its `headers` field is updated in place. The loop methods
  are proved against the functions above. `Crawl` models the URL gate.

Notes on what the code does, which the model follows:

- The `_check_if_*` helpers catch only `NoSuchElementException`; `_check_if_iframe_visible`
  has a timeout handler, but it is commented out, and the other three never had one. So a
  `TimeoutException` from those 10-second waits propagates (`CheckVisible`). Only
  `_wait_for_captcha_resolution` swallows timeouts (`AwaitResolution`).
- The api key takes no part in the `resolvecaptcha` routing. `None` is sent to the service
  as is (`ApiKeyDecidesNothing`).
- A Geetest answer lacking one of its three fields raises `KeyError` for the first missing
  name. A payload that is not JSON raises the decode error, and one that decodes to a JSON
  value other than an object raises `TypeError` on the first lookup (`ReadGeetestAnswer`).
- The Geetest data token is the group of the leftmost match of `data: "(.+)"`, and the
  greedy group runs to the last quote on that line (`DataTokenLeftmost`).
- In the base class `URL_PATTERN` is `None`, so `crawl` raises `TypeError` from `re.search`.
- The `ConnectionError` handler of `crawl` evaluates `url.split('/')[2]`. For a URL with fewer
  than two `/` (none, or exactly one) that raises `IndexError` instead of returning `[]`
  (`CrawlConnectionErrorWithoutHost`).
- `get_soup_from_url` passes its defaults `checkbox=None` and `afterlogin_string=None` on.
  A reCAPTCHA met with those defaults is therefore never auto-solved: the crawler waits for
  an element whose text contains "None" (`DefaultArgumentsAwaitNone`).
- The direct GET happens before the proxy check, so an exception it raises propagates even
  when proxies are in use.
- The `if not resp` check after the proxy loop cannot fire. The loop only ends holding a
  status-200 response, and such a response is truthy.

## Model

| member | source | states |
|---|---|---|
| PyStr.Split | flathunter/abstract_crawler.py:180 | `s.split(sep)`: at least one field, no field contains the separator, joining the fields back gives `s`, one field exactly when the separator is absent |
| PyStr.SplitAtFirst | flathunter/abstract_crawler.py:180 | splitting `head + sep + tail` with `head` separator-free gives `head` followed by the fields of `tail` |
| PyStr.Find | flathunter/abstract_crawler.py:187 | `s.find(c)` is -1 exactly when `c` is absent, otherwise the index of the first `c` |
| PyStr.AfterFirstOf | flathunter/abstract_crawler.py:187 | the slice after the first separator of `head + sep + tail` is exactly `tail`, later separators included |
| PyStr.ContainsIff | flathunter/abstract_crawler.py:182 | `sub in s` holds exactly when `sub` occurs at some index of `s` |
| Solver.SecondField | flathunter/abstract_crawler.py:180 | field 1 of the reply split on the bar is missing (IndexError) exactly when the reply has no bar, and never contains a bar |
| Solver.SecondFieldOf | flathunter/abstract_crawler.py:203 | the job id of a reply made of a status, a bar and an id is that id |
| Solver.SecondFieldStopsAtBar | flathunter/abstract_crawler.py:210 | the reCAPTCHA token stops at the next bar: whatever follows it is dropped |
| Solver.GeetestPayloadOf | flathunter/abstract_crawler.py:187 | the Geetest payload of a status, a bar and a payload is all of the payload, later bars included |
| Solver.GeetestPayloadWithoutBar | flathunter/abstract_crawler.py:187 | a reply without a bar is passed on whole, since `find` gives -1 |
| Solver.FirstReady | flathunter/abstract_crawler.py:181-185 | polling ends at the first reply without `CAPCHA_NOT_READY`, after one sleep per earlier reply, all of which were not ready; if none is ready every reply was slept on |
| Solver.FirstReadyAfter | flathunter/abstract_crawler.py:204-208 | not-ready replies followed by a ready one: polling answers that one after exactly one sleep per not-ready reply and never reads further |
| Solver.Poll | flathunter/abstract_crawler.py:204-208 | the `while "CAPCHA_NOT_READY" in answer` loop computes exactly `FirstReady` of the replies |
| Solver.ReadGeetestAnswer | flathunter/abstract_crawler.py:188-191 | the three lookups succeed exactly when the payload decodes to an object holding all three keys, and then return those three values; a payload that is not JSON raises the decode error; a JSON value that is not an object raises TypeError; an object missing a key raises KeyError naming a missing key |
| Solver.MissingValidate | flathunter/abstract_crawler.py:189-191 | an object lacking only `geetest_validate` raises KeyError naming it |
| Captcha.CheckVisible | flathunter/abstract_crawler.py:240-272 | the `_check_if_*` helpers: element present gives truthy, NoSuchElement gives None, a timeout raises |
| Captcha.AwaitResolution | flathunter/abstract_crawler.py:225-238 | the 120-second wait raises only when the element is missing; a timeout is swallowed |
| Captcha.RecaptchaRoute | flathunter/abstract_crawler.py:155-163 | auto-solve exactly when checkbox is False, afterlogin is "" and the iframe is present; click exactly when checkbox is truthy; wait in every other case, including checkbox None |
| Captcha.PollEffects | flathunter/abstract_crawler.py:204-208 | polling records 2n + 1 effects for n not-ready replies, starting and ending with a result fetch |
| Captcha.SolveRecaptcha | flathunter/abstract_crawler.py:195-216 | `_solve` always submits first; it stalls exactly when the job id was read and no reply became ready; it returns normally only after a ready reply with a token, and then the last thing done is calling the page callback with that token |
| Captcha.TimedOutWaitsAreSwallowed | flathunter/abstract_crawler.py:218-238 | a timed-out checkmark wait still switches back out of the iframe; a missing checkmark (an outcome the default waits do not produce, see Left out) raises and leaves the driver in the iframe; the marker wait returns normally unless the element is missing |
| Captcha.PollSleeps | flathunter/abstract_crawler.py:204-208 | polling with n not-ready replies records exactly n sleeps among its 2n + 1 effects |
| Captcha.Solve | flathunter/abstract_crawler.py:195-216 | `_solve` step by step (submit, job id, poll, token, two scripts, iframe check) equals `SolveRecaptcha` |
| Captcha.SolveInjectsToken | flathunter/abstract_crawler.py:203-216 | for a submission reply "status, bar, id", not-ready replies, then "status, bar, token", `_solve` submits, polls with one sleep per not-ready reply, and injects exactly that token into the response field and the callback |
| Captcha.SolveTwoPollsExample | flathunter/abstract_crawler.py:203-215 | the replies OK-bar-777, two not-ready replies, then OK-bar-tok_abc: the token "tok_abc" is injected after two sleeps |
| Captcha.ClickCaptcha | flathunter/abstract_crawler.py:218-223 | `_clickcaptcha` switches into the iframe, clicks and waits; it returns normally exactly when the checkmark wait does not raise, and then switches back out; otherwise it raises NoSuchElement with the driver still in the iframe |
| Captcha.AwaitMarkerText | flathunter/abstract_crawler.py:225-238 | `_wait_for_captcha_resolution` with a falsy checkbox only waits for the after-login text; it returns normally exactly when that wait does not raise NoSuchElement |
| Captcha.ResolveRecaptcha | flathunter/abstract_crawler.py:155-163 | a timeout of the iframe check raises before anything is done; once the check returns, `resolvecaptcha` always does something |
| Captcha.ResolveCaptcha | flathunter/abstract_crawler.py:155-163 | `resolvecaptcha` step by step equals `ResolveRecaptcha` |
| Captcha.DefaultArgumentsAwaitNone | flathunter/abstract_crawler.py:155-163 | with checkbox None and afterlogin None, `resolvecaptcha` only waits for an element whose text contains "None" |
| Captcha.SolverOnlyWhenAutoSolving | flathunter/abstract_crawler.py:155-163 | the solving service is contacted exactly when the iframe is present, checkbox is False and afterlogin is "" |
| Captcha.ApiKeyDecidesNothing | flathunter/abstract_crawler.py:155-163 | two different api keys give the same outcome and the same number of effects |
| Captcha.SolveKeyIndependent | flathunter/abstract_crawler.py:195-216 | `_solve` with two api keys ends the same way after the same number of steps |
| Captcha.DataTokenFrom | flathunter/abstract_crawler.py:173 | a hit of the search from index i has a non-empty group without newlines, and the page holds `data: "<group>"` at or after i; which match it is, is stated by DataTokenLeftmost |
| Captcha.DataToken | flathunter/abstract_crawler.py:173 | the token is the group of the leftmost match of `data: "(.+)"`, ending at the last quote of its line, non-empty and single-line; None exactly when the pattern matches nowhere |
| Captcha.FoundFrom | flathunter/abstract_crawler.py:173 | the search from i finds a match whenever the page holds `data: "<t>"` at or after i with t non-empty and on one line |
| Captcha.NoDataToken | flathunter/abstract_crawler.py:173-174 | when no match is found, the page holds no `data: "<t>"` with t non-empty and on one line |
| Captcha.DataTokenLeftmost | flathunter/abstract_crawler.py:173 | the search from i returns the group of the leftmost match at or after i, with the greedy group ending at the last quote on its line, and finds nothing exactly when no match starts at or after i |
| Captcha.MatchAtUnique | flathunter/abstract_crawler.py:173 | at a given index the pattern matches with at most one group |
| Captcha.GeetestGuard | flathunter/abstract_crawler.py:174 | the guard holds exactly when gt and challenge are truthy and `data: "(.+)"` matches somewhere in the page |
| Captcha.ResolveGeetestSpec | flathunter/abstract_crawler.py:165-193 | something is done to the page or the service exactly when the box check did not time out and the guard holds; the first thing done is the submission; unguarded it returns normally; a box check timeout raises |
| Captcha.ResolveGeetest | flathunter/abstract_crawler.py:165-193 | `resolvegeetest` step by step equals `ResolveGeetestSpec` |
| Captcha.GeetestInjectsAnswer | flathunter/abstract_crawler.py:173-192 | for well-formed replies, the callback receives exactly the three decoded fields and the page's data token |
| ProxyRetry.ExcOf | flathunter/abstract_crawler.py:106-111 | a failed request raises ConnectionError exactly for a connection failure and Timeout exactly for a timeout |
| ProxyRetry.FirstSuccess | flathunter/abstract_crawler.py:92-104 | the `for` loop breaks at the first candidate answering 200; every earlier candidate failed; with no break no candidate succeeded |
| ProxyRetry.ProxyLoopFrom | flathunter/abstract_crawler.py:90-104 | the loop from a given list ends, if at all, on a status-200 candidate of that list or a later one, returning its body |
| ProxyRetry.ProxyLoop | flathunter/abstract_crawler.py:86-116 | the loop ends, if at all, on a status-200 candidate and returns its body |
| ProxyRetry.StopsAtFirstSuccessFrom | flathunter/abstract_crawler.py:90-111 | from any list on: the candidates before the stopping point all failed and the attempts made are exactly those candidates plus one |
| ProxyRetry.ProxyLoopStopsAtFirstSuccess | flathunter/abstract_crawler.py:90-111 | every candidate of every earlier list and every earlier candidate of the same list failed; attempts = candidates before + 1; when unresolved, no candidate succeeded and all were tried |
| ProxyRetry.ProxyLoopSucceedsIff | flathunter/abstract_crawler.py:90-104 | the loop succeeds exactly when some candidate of some list answers 200 |
| ProxyRetry.FirstSuccessSame | flathunter/abstract_crawler.py:100-104 | within one list, only which candidates answer 200 decides where the loop breaks |
| ProxyRetry.FailureKindIrrelevant | flathunter/abstract_crawler.py:100-111 | a non-200 status, ConnectionError, Timeout and any other exception are interchangeable: the loop's result does not depend on which one a failing proxy produced |
| ProxyRetry.ProxyOutcome | flathunter/abstract_crawler.py:113-116 | `get_soup_with_proxy` returns exactly the body of the status-200 response the loop stopped at, and returns nothing while the loop is unresolved |
| ProxyRetry.FirstAnsweringProxyWins | flathunter/abstract_crawler.py:92-104 | failures then a 200 in the first list: one attempt per failure plus the success, no further list fetched |
| ProxyRetry.EmptyListsNeverResolve | flathunter/abstract_crawler.py:90-92 | lists that come back empty make no attempt and never resolve |
| Crawling.RotationTouchesOnlyUserAgent | flathunter/abstract_crawler.py:56-58 | rotation sets `User-Agent` to the new agent, adds no other key and leaves every other entry unchanged |
| Crawling.WithUserAgent | flathunter/abstract_crawler.py:56-58 | the dictionary after the User-Agent assignment; what it changes and keeps is the contract of RotationTouchesOnlyUserAgent |
| Crawling.LastRotationWins | flathunter/abstract_crawler.py:56-58 | two rotations leave the headers as the second one alone would |
| Crawling.RotateOnce | flathunter/abstract_crawler.py:92-93 | one more rotation on top of n gives the headers after n + 1 rotations |
| Crawling.FetchPath | flathunter/abstract_crawler.py:65-82 | a failing direct GET propagates first; proxy wins over driver; Geetest exactly when the page says "geetest"; reCAPTCHA exactly when it says "g-recaptcha" and not "geetest"; without proxy or driver the direct body is returned whatever its status |
| Crawling.GeetestBeforeRecaptcha | flathunter/abstract_crawler.py:76-79 | a page mentioning both is handled as Geetest |
| Crawling.FetchSpec | flathunter/abstract_crawler.py:65-82 | the browser is used exactly when the direct GET answered, no proxy is configured and a driver was passed, and then first navigates to the URL; on the proxy path a body comes back exactly when some proxy answered 200 |
| Crawling.HeadersAfterFetch | flathunter/abstract_crawler.py:65-73 | the headers after a fetch: one rotation before the direct GET and one per proxy attempt, only the last visible; tied to the method by GetSoupFromUrl |
| Crawling.Crawler.constructor | flathunter/abstract_crawler.py:32-46 | the initial `HEADERS` dictionary with the first random agent |
| Crawling.Crawler.RotateUserAgent | flathunter/abstract_crawler.py:56-58 | `HEADERS['User-Agent']` is replaced in place and nothing else changes |
| Crawling.Crawler.TryProxies | flathunter/abstract_crawler.py:92-111 | the `for` loop over one list stops at its first 200 and has rotated the user agent once per candidate tried |
| Crawling.Crawler.GetSoupWithProxy | flathunter/abstract_crawler.py:84-116 | the nested loop computes exactly `ProxyLoop` of the supplied lists, and the headers show the agent of the last attempt |
| Crawling.Crawler.GetSoupFromUrl | flathunter/abstract_crawler.py:65-82 | the dispatch computes exactly `FetchSpec`; the headers are rotated once before the direct GET and once more per proxy attempt |
| Crawling.Crawl | flathunter/abstract_crawler.py:137-145 | a URL the pattern rejects yields []; a ConnectionError yields [] when the URL has a host part and IndexError otherwise; every other outcome of `get_results` passes through; with no pattern, TypeError |
| Crawling.CrawlConnectionErrorWithHost | flathunter/abstract_crawler.py:142-144 | any "scheme//host..." URL that matches yields [] on ConnectionError |
| Crawling.CrawlConnectionErrorWithoutHost | flathunter/abstract_crawler.py:142-144 | a matching URL with fewer than two '/' turns a ConnectionError into IndexError |

## Left out

- HTTP, Selenium and BeautifulSoup: requests, sessions, driver navigation, `find_element_*`,
  `execute_script` and parsing are not modelled. Their results are inputs (`Attempt`, `Browser`,
  `SolverReplies`), and the page source is returned as a string instead of a soup.
- `find_element_by_class_name` and `find_element_by_tag_name` in `_solve` and
  `_clickcaptcha` are taken to succeed. An exception they raise is not modelled.
- The transport failures of the solver's POST and GET are not modelled. Only the reply texts are.
- URL encoding (`urllib.parse.quote_plus`) and the exact request URLs are not modelled. A
  submission records the api key, site key or gt and challenge, and the page URL.
- The script texts are not modelled. A script records the values it passes.
- The regular expression of a subclass's `URL_PATTERN` is a predicate parameter. `re.search`
  on "geetest" and "g-recaptcha" is the substring test. The `data: "(.+)"` search is written
  out for that one pattern.
- `json.loads` is the parameter `loads`. A decoded value is an object or some other JSON
  value, and the values inside an object are taken as strings.
- `Wait.Missing` stands for a NoSuchElementException escaping a `WebDriverWait`. With their
  default arguments the waits ignore that exception and keep polling, so the program does not
  take the paths that start from it. The model keeps them because the code has handlers for them.
- Time is not modelled: the sleeps, the 10-second and 120-second waits, and the request timeouts.
  Sleeps are counted.
- Random user agents: the n-th agent drawn is `agents(n)`.
- Logging and `print` are not modelled.
- The subclass hooks `extract_data`, `get_results`, `get_page`, `get_name` and
  `get_expose_details` are not modelled. `crawl` takes the outcome of `get_results` as input.
- `configure_driver` and `__init__` (storing the configuration) are not modelled.
- The page source is taken to be the same for every read during CAPTCHA handling, and to
  change only once that handling returns (`page`, then `finalPage`).
- The exception class hierarchy is not modelled. `ConnectTimeout`, which is both a
  ConnectionError and a Timeout, counts as a connection failure.
- Proxy retrying and result polling, which the source repeats without a bound, are modelled
  over finite inputs. Running out of input gives `Unresolved` or `Stalled`, and termination of
  the real loops is not claimed.
- `HEADERS` is a class attribute shared by every crawler. The model gives each `Crawler` its
  own `headers` field, so sharing between crawlers and concurrent rotation are not captured.
