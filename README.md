# MeganetAutoRefBot core, modelled in Dafny

The bot keeps a set of wallets alive on the Meganet rewards API. At start-up
every wallet receives:

- a proxy, taken by position from a proxy list;
- a browser user agent;
- either a registration or a lookup of its remote wallet.

Each wallet whose start-up succeeded then runs its own timer. Every tick sends
a GET ping for the wallet's point. On every tenth tick whose ping answered 200,
the tick also sends a PATCH uptime report for the remote wallet. Next to this
loop sits a header builder. It turns a user-agent string into the header set a
browser of that family, device and platform would send.

The model has six modules:

- `Wrappers` (`wrappers.dfy`) holds `Option`.
- `JsStrings` (`js_strings.dfy`) holds the JavaScript string operations the
  code relies on: `includes`, `startsWith`, `trim` with ECMAScript whitespace,
  `split`, and `toLowerCase` on ASCII letters.
- `Patterns` (`patterns.dfy`) holds the version regular expressions. Each is a
  leftmost scan for "marker followed by k dot-separated digit runs", and `\d+`
  takes the maximal run.
- `HeaderManager` (`header_manager.dfy`) builds the header map:
  - `GenerateHeaders` is a method that edits a local map in the source's three
    steps: the family chain, the mobile hint and the platform chain.
  - It is proved equal to the pure `Fingerprint`, and the key-level facts are
    proved about that function.
- `Proxies` (`proxies.dfy`) holds the proxy helpers:
  - the scheme classification of `getProxyAgent`;
  - the cleaning of the proxy list;
  - the positional choice of a wallet's proxy.
- `PingScheduler` (`scheduler.dfy`) holds the timer and the start-up:
  - the `Pinger` class holds the tick counter, and its `Tick` method returns
    the requests of one tick;
  - the pure `Trace` describes a run of ticks, and the counting properties are
    proved about it;
  - `HandlePing` is the success gate;
  - `LaunchAll` is `main`'s loop over the wallets.

Three behaviours of the code to note:

- The ping and uptime requests carry three fixed headers: `User-Agent`,
  `Accept: application/json` and `Content-Type: application/json`. They do
  not carry the header builder's output.
- The uptime report is sent only when the same tick's ping answered 200. It is
  not sent on every tenth tick regardless of the ping.
- A `Firefox/` marker that is not followed by a digit selects the Firefox
  branch but changes nothing. The baseline `sec-ch-ua` stays, and no later
  branch is tried.

Modelling choices:

- Absent values (`null`/`undefined`) are `None`. The empty string is the only
  falsy string.
- The adapter libraries, the wallet calls and the user-agent store are
  foreign code. Their results are inputs:
  - whether an adapter constructor accepts a proxy string
    (`proxyBuilds`/`rejected`);
  - each wallet's `WalletResult`;
  - a map from address to stored agent.
- Each ping's answer is an input `Outcome`: a status, or `Failed` for an
  error with no usable response.

## Model

| member | source | states |
|---|---|---|
| JsStrings.ContainsIff | utils/headerManager.js:24 | `includes` holds exactly when the substring occurs at some index |
| JsStrings.LowerAscii | utils/headerManager.js:77 | the lower-cased string has the same length and lower-cases every ASCII letter, leaving other characters alone |
| JsStrings.Trim | index.js:17 | the trimmed string is empty exactly when the line is all whitespace, and otherwise starts and ends with non-whitespace |
| JsStrings.SplitOn | index.js:16 | splitting yields at least one piece, no piece holds the separator, and joining the pieces with it gives the input back |
| JsStrings.SplitOnJoinOn | utils/headerManager.js:47 | splitting pieces that were joined with a separator they do not contain gives back exactly those pieces |
| Patterns.DigitRun | utils/headerManager.js:25 | `\d+` takes the maximal run of ASCII digits at a position: in bounds, all digits, and not followed by a digit |
| Patterns.GroupsAt | utils/headerManager.js:43 | a match anchored at a position captures exactly k groups, each a digit run |
| Patterns.GroupsAtOccurs | utils/headerManager.js:43 | the captured groups joined by dots are the text standing at the match position |
| Patterns.GroupsAtIsGreedy | utils/headerManager.js:43 | the character after a match is not a digit: every `\d+` took its maximal run |
| Patterns.DottedRunMatches | utils/headerManager.js:43 | conversely, wherever k digit runs joined by dots stand, the anchored pattern matches |
| Patterns.TwoGroups | utils/headerManager.js:35 | a two-group capture joined by its dot is the text from the match position to the end of the second run |
| Patterns.FindLeftmost | utils/headerManager.js:25 | `match` returns the groups of the leftmost position where marker and groups match |
| Patterns.FindNoneIffNoMatch | utils/headerManager.js:26 | `match` fails exactly when the pattern matches at no position |
| Patterns.MatchSomewhereFinds | utils/headerManager.js:26 | a match at any position makes `match` succeed |
| Patterns.MajorComponent | utils/headerManager.js:47 | `split('.')[0]` of a captured dotted version is its first digit group |
| HeaderManager.WireNamesDistinct | utils/headerManager.js:2-20 | distinct headers are sent under distinct names |
| HeaderManager.BaselineUserAgent | utils/headerManager.js:3 | the baseline carries the input as `User-Agent` |
| HeaderManager.Branch | utils/headerManager.js:24-75 | each branch is taken exactly when its own test holds and no earlier test did: Firefox; Safari without Chrome or Edge; Edge; `OPR/` or `Opera/`; Chrome; `MSIE` or `Trident/`; no branch exactly when no marker occurs |
| HeaderManager.Recognise | utils/headerManager.js:24-75 | the branch of a family yields only a browser of that family; Firefox and Chrome versions and Edge and Opera majors are digit runs; no family yields nothing |
| HeaderManager.Detected | utils/headerManager.js:24-75 | a detected browser belongs to the branch the chain picked; Firefox and Chrome versions and Edge and Opera majors are digit runs, while Safari and IE versions are dotted pairs (see the lemmas below); without a marker nothing is detected |
| HeaderManager.SafariVersionIsLeftmost | utils/headerManager.js:34-40 | in the Safari branch the version is the dotted pair after the leftmost `Version/` followed by two dot-separated digit runs |
| HeaderManager.OperaMajorFromOpr | utils/headerManager.js:49-54 | in the Opera branch with a four-part `OPR/` version present, the hint's version is the first digit run of the leftmost one |
| HeaderManager.OperaMajorFromOperaSlash | utils/headerManager.js:49-54 | in the Opera branch with no four-part `OPR/` version, the hint's version is the first digit run of the leftmost two-part `Opera/` version |
| HeaderManager.LegacyIEFromMsie | utils/headerManager.js:63-67 | in the IE branch the version is the dotted pair after the leftmost `MSIE ` followed by two dot-separated digit runs |
| HeaderManager.LegacyIEFromRv | utils/headerManager.js:63-67 | in the IE branch with no `MSIE ` pair anywhere, the version is the dotted pair after the leftmost matching `rv:` |
| HeaderManager.PlatformOf | utils/headerManager.js:85-95 | each platform is chosen exactly when its own test holds and no earlier test did: Windows; `Macintosh` or `Mac OS X`; Linux without Android; Android; iPhone, iPad or iPod; none exactly when no marker occurs |
| HeaderManager.GenerateHeaders | utils/headerManager.js:1-101 | `User-Agent` is the input, nine keys keep their baseline values, `Accept`/`sec-ch-ua` follow the detected browser, `sec-ch-ua-mobile` is `?1` exactly for mobile agents, the platform hint follows the platform chain or stays baseline/deleted, fetch keys go only for IE, `TE` only for Firefox, and an unmarked agent gets the baseline |
| HeaderManager.ApplyFamily | utils/headerManager.js:22-75 | the family step run in place on the map equals the family edit of the detected browser |
| HeaderManager.RunBranch | utils/headerManager.js:24-75 | the body of one family's branch run in place equals the family edit of what that branch recognises |
| HeaderManager.ApplyMobile | utils/headerManager.js:77-83 | the mobile step run in place equals setting `?1` exactly for a mobile agent |
| HeaderManager.ApplyPlatform | utils/headerManager.js:85-95 | the platform step run in place equals writing the hint of the detected platform, if any |
| HeaderManager.FamilyStepFrame | utils/headerManager.js:24-75 | a family branch changes only `Accept`, `sec-ch-ua`, `sec-ch-ua-platform`, the fetch keys and `TE` |
| HeaderManager.FamilyStepHints | utils/headerManager.js:29-73 | after the family step, `Accept` and `sec-ch-ua` are the values of the detected browser, with `sec-ch-ua` removed for Firefox and IE |
| HeaderManager.FamilyStepPlatform | utils/headerManager.js:29-30 | the family step removes the platform hint exactly for Firefox and IE and leaves the mobile hint at `?0` |
| HeaderManager.FamilyStepFetchKeys | utils/headerManager.js:70-72 | the family step removes the three fetch keys exactly for IE |
| HeaderManager.FamilyStepTrailers | utils/headerManager.js:32 | the family step adds `TE: trailers` exactly for Firefox and no other new key |
| HeaderManager.MobileStepFrame | utils/headerManager.js:77-83 | the mobile step writes only `sec-ch-ua-mobile` |
| HeaderManager.PlatformStepFrame | utils/headerManager.js:85-95 | the platform step writes only `sec-ch-ua-platform` |
| HeaderManager.AssembledFixedKeys | utils/headerManager.js:3-19 | `User-Agent` and the nine untouched keys survive all three steps with their baseline values |
| HeaderManager.AssembledClientHint | utils/headerManager.js:29-73 | in the returned map `Accept` and `sec-ch-ua` are those of the detected browser |
| HeaderManager.AssembledMobileHint | utils/headerManager.js:13 | `sec-ch-ua-mobile` is always present, `?1` exactly when the mobile test holds |
| HeaderManager.AssembledPlatformHint | utils/headerManager.js:85-95 | a platform marker sets the platform hint; without one it stays `"Windows"`, or stays deleted after Firefox or IE |
| HeaderManager.AssembledFetchKeys | utils/headerManager.js:15-17 | the fetch keys keep their baseline values unless IE was detected, which removes them |
| HeaderManager.AssembledTrailers | utils/headerManager.js:32 | `TE` is present, as `trailers`, exactly for Firefox, and no other key beyond the baseline appears |
| HeaderManager.FingerprintUnmarked | utils/headerManager.js:2-20 | a user agent with no family, mobile or platform marker yields exactly the baseline map |
| HeaderManager.FirefoxWithDigitsDetected | utils/headerManager.js:24-33 | `Firefox/` followed by a digit anywhere selects Firefox, which drops `sec-ch-ua` |
| HeaderManager.ChromeVersionIsLeftmost | utils/headerManager.js:56-62 | in the Chrome branch the version is the digit run after the leftmost `Chrome/` followed by a digit |
| HeaderManager.EdgeMajorIsLeftmost | utils/headerManager.js:42-48 | in the Edge branch the hint's version is the first digit run of the leftmost four-part `Edg/` version |
| HeaderManager.UnmatchedVersionKeepsBaseline | utils/headerManager.js:24-75 | when the chosen branch's version pattern fails, `sec-ch-ua`, `Accept` and the fetch keys keep their baseline values and no `TE` appears |
| HeaderManager.MobileInAnyCase | utils/headerManager.js:77 | "mobile" in any mix of ASCII case makes the agent mobile |
| Proxies.SchemeOf | index.js:20-26 | a proxy is absent when missing or empty, else `http…` (including `https…`), else `socks…`, else other; the four cases are exclusive |
| Proxies.GetProxyAgent | index.js:19-35 | an adapter is returned exactly for an `http…` or `socks…` proxy whose constructor succeeds, built from that string and of the matching kind |
| Proxies.HttpsUsesHttpAdapter | index.js:23-25 | an `https…` proxy gets the HTTP-proxy adapter |
| Proxies.SocksUsesSocksAdapter | index.js:26-28 | a `socks…` proxy gets the SOCKS adapter |
| Proxies.KeepNonBlank | index.js:17 | the filter keeps exactly the lines whose trimmed form is non-empty, in their original order |
| Proxies.KeepNonBlankCounts | index.js:17 | the filter keeps each non-blank line as many times as it occurs and drops every blank one |
| Proxies.ProxyList | index.js:14-17 | every listed proxy is non-blank and holds no line feed |
| Proxies.ProxyListFromLines | index.js:14-17 | the list is an in-order sub-sequence of the file's lines, untrimmed, holding exactly the non-blank ones, each as many times as it occurs |
| Proxies.ProxyListOfCleanLines | index.js:14-17 | a file of non-blank lines yields exactly those lines |
| Proxies.ProxyFor | index.js:146-147 | a wallet has a proxy exactly when proxies are on and its id is between 1 and the list length, and then it is entry `id - 1` |
| PingScheduler.UserAgentFor | index.js:40-42 | a stored non-empty agent is used, otherwise the Chrome 91 fallback; never empty |
| PingScheduler.TransportFor | index.js:67-76 | relaxed TLS exactly without a truthy proxy; the adapter `getProxyAgent` builds, and of its kind, exactly when one is built; the default agent for a truthy proxy without an adapter |
| PingScheduler.TickRequests | index.js:56-112 | a tick sends the ping first, and at most the uptime report after it |
| PingScheduler.OnePingPerTick | index.js:54-79 | every tick sends exactly one GET ping, whatever the earlier outcomes |
| PingScheduler.UptimesWhenAllSucceed | index.js:81-112 | with every ping answering 200, ticks `from+1..from+n` send `(from+n)/10 - from/10` uptime reports |
| PingScheduler.UptimesAtMost | index.js:81-88 | failed or non-200 pings never add uptime reports beyond that count |
| PingScheduler.FirstTenTicks | index.js:88-112 | ten successful ticks send ten pings and one uptime report, and that report is the last request |
| PingScheduler.MissedTenthTick | index.js:81-88 | a tenth tick whose ping did not answer 200 means no uptime report in ticks 1 to 19 |
| PingScheduler.TraceRequestsWellFormed | index.js:56-65 | every request carries the wallet's agent, the fixed headers, the 30-second timeout and the wallet's transport; pings go to the point URL, uptime reports to the remote wallet URL |
| PingScheduler.NoProxyMeansRelaxedTls | index.js:147 | with proxies off, every request uses the relaxed-TLS agent |
| PingScheduler.ListedProxyNeverRelaxed | index.js:67-73 | a wallet given a proxy from the cleaned list never uses relaxed TLS |
| PingScheduler.Pinger.constructor | index.js:39 | a new loop starts with the counter at zero and no requests sent |
| PingScheduler.Pinger.Configure | index.js:67-76 | the request configuration gets the wallet's transport, relaxed TLS exactly without a proxy |
| PingScheduler.Pinger.Tick | index.js:52-134 | the counter goes up by exactly one, the tick's requests are those of its new count, and the record of all requests so far stays equal to the run's trace |
| PingScheduler.SessionFor | index.js:44-49 | a loop exists exactly when the wallet result reports success, and it addresses the result's point and remote wallet with the given proxy, adapter outcome and agent |
| PingScheduler.HandlePing | index.js:37-52 | no loop (and so no request) for an unsuccessful result; otherwise a fresh loop at count zero for that session |
| PingScheduler.LaunchFor | index.js:145-168 | one wallet's start-up uses its positional proxy, its agent or the fallback, the registration or lookup call as configured, and starts a loop exactly on success, pinging the result's point and reporting uptime for its remote wallet through that proxy |
| PingScheduler.LaunchAll | index.js:144-170 | the loop over the wallets makes one start-up per wallet, in order |
| PingScheduler.EveryWalletProxied | index.js:146-147 | with wallets numbered 1 to n and at least n proxies, the wallet at position i gets the proxy at position i |
| PingScheduler.OverlappingTicksMisplaceUptime | index.js:54-88 | with overlapping ticks the code as written sends two reports in ten ticks, or none for tick 10; deciding by the tick's own number sends one |
| PingScheduler.OwnTickIgnoresInterleaving | index.js:54-88 | deciding by the tick's own number, the report count depends only on which ticks settled with which outcome, not on the interleaving |
| PingScheduler.SequentialTicksAgree | index.js:52-112 | when each ping settles before the next tick, the code as written, the own-number decision and the trace send the same reports |

## Left out

- HTTP calls, response bodies (`pointsFarmToday`) and the uptime answer's status are left out. Each ping's answer is an input `Outcome`.
- A 200 answer whose body is `null` makes reading `pointsFarmToday` (index.js:84) throw. The catch at index.js:123 then ends the tick without an uptime report, so such a tick is modelled as `Failed`.
- The header map is a set of keys and values, not their order on the wire. In JavaScript a deleted and re-added key moves to the end: after the Firefox or IE branch (utils/headerManager.js:29-30, :68-69), a platform marker re-adds `sec-ch-ua-platform` after `TE` (:86).
- `setInterval`/`setTimeout` timing, the configured interval (`config.pingInterval || 15000`) and the random start-up delay are left out. Ticks are explicit `Tick` calls; only their order matters.
- Logging, and the classification of caught errors into response, request and other errors, are left out. A failed tick is an `Outcome`, and the loop goes on.
- The adapter libraries (`HttpsProxyAgent`, `SocksProxyAgent`, `https.Agent`) are tags. The `httpAgent: false` and `protocol: "https:"` fields set next to a proxy adapter are folded into `ViaAgent`.
- Whether an adapter constructor accepts a string is an input, and the same for every request.
- Reading `wallets.json`, `config.json` and `proxy.txt`, and JSON parsing, are left out. Their contents are parameters.
- The user-agent store, `registerWallet` and `getWalletInfo` are not part of this model. Their results are inputs. Point and wallet identifiers are the text they render to in a URL.
- Interleaving across wallets is left out. Each wallet's loop is modelled on its own.
- PingScheduler.Pinger.Tick: assumes each ping settles before the next tick fires. Overlapping ticks are modelled only by the event functions behind the finding below.
- JsStrings.LowerAscii: lower-cases ASCII letters only. It is used only for the "mobile" test, and full Unicode case mapping is not modelled.
- Wallet ids are integers. A non-integer id from JSON, which would index no proxy, is not modelled.
- The tick counter is an unbounded natural number. JavaScript numbers lose exactness beyond 2^53 ticks.

## Findings

| source | as written | input that shows it | evidently intended | confidence | as-written member | corrected member |
|---|---|---|---|---|---|---|
| index.js:54-88 | the uptime test `pingCount % 10 === 0` runs after the ping's `await`. It reads the shared counter, which later ticks may already have raised | default 15 s interval, 30 s timeout. Tick 9's ping answers 200 after 16 s, when tick 10 has already fired, so ticks 9 and 10 both send a report. Or tick 10's ping answers after tick 11 fired, and no report is sent for tick 10 | each tick decides by its own number, giving one report per tenth successful tick | medium: needs a ping slower than the interval; not executed | PingScheduler.OverlappingTicksMisplaceUptime | PingScheduler.OwnTickIgnoresInterleaving |
