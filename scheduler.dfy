/**
 * The per-wallet ping loop of the bot's entry point. A wallet whose
 * registration (or lookup) succeeded gets a timer; every tick sends a GET
 * ping for its point and, on every tenth tick whose ping answered 200, a
 * PATCH uptime report for its remote wallet. The timer is modelled as
 * explicit calls to `Pinger.Tick`, and each HTTP answer as an input.
 */
module PingScheduler {
  import opened Wrappers
  import opened Proxies

  const PingUrlPrefix: string := "https://api.meganet.app/points/point-today/"
  const UptimeUrlPrefix: string := "https://api.meganet.app/wallets/uptime/"
  /** The user agent used when no agent is stored for the wallet's address. */
  const FallbackUserAgent: string :=
    "Mozilla/5.0 (Windows NT 10.0; Win64; x64) AppleWebKit/537.36 (KHTML, like Gecko) Chrome/91.0.4472.124 Safari/537.36"
  const RequestTimeoutMs: nat := 30000
  /** An uptime report goes with every tenth ping. */
  const UptimePeriod: nat := 10

  datatype Verb = Get | Patch

  /**
   * The agent a request is sent through: the proxy adapter, no agent at all
   * (the HTTP client's default), or an HTTPS agent that does not verify
   * certificates.
   */
  datatype Transport = ViaAgent(agent: Agent) | DefaultTransport | RelaxedTls

  /** The request configuration handed to the HTTP client. */
  datatype Request = Request(
    verb: Verb,
    url: string,
    headers: map<string, string>,
    timeoutMs: nat,
    transport: Transport)

  /** How a ping ended: an HTTP status, or an error with no usable response. */
  datatype Outcome = Responded(status: int) | Failed

  datatype Wallet = Wallet(id: int, address: string)

  /** What registering the wallet, or fetching its information, returned. */
  datatype WalletResult = WalletResult(success: bool, pointId: string, walletId: string)

  /** What a running ping loop knows about its wallet. */
  datatype Session = Session(
    pointId: string,
    remoteWalletId: string,
    proxy: Option<string>,
    proxyBuilds: bool,
    userAgent: string)

  /** `userAgentManager.getUserAgent(address)`: the stored agent, if any. */
  function LookupUserAgent(userAgents: map<string, string>, address: string): Option<string> {
    if address in userAgents then Some(userAgents[address]) else None
  }

  /** `lookup || fallback`: a missing or empty stored agent gives the Chrome 91 string. */
  function UserAgentFor(lookup: Option<string>): (ua: string)
    ensures ua != ""
    ensures Truthy(lookup) ==> ua == lookup.value
    ensures !Truthy(lookup) ==> ua == FallbackUserAgent
  {
    if Truthy(lookup) then lookup.value else FallbackUserAgent
  }

  /**
   * The transport a ping or uptime request uses: a truthy proxy whose adapter
   * could be built is used; a truthy proxy without an adapter leaves the
   * client's default agent; no proxy at all switches to relaxed TLS.
   */
  function TransportFor(proxy: Option<string>, proxyBuilds: bool): (t: Transport)
    ensures t.RelaxedTls? <==> !Truthy(proxy)
    ensures t.ViaAgent? <==> GetProxyAgent(proxy, proxyBuilds).Some?
    ensures t.ViaAgent? ==> t.agent == GetProxyAgent(proxy, proxyBuilds).value && t.agent.url == proxy.value
    ensures t.DefaultTransport? <==> Truthy(proxy) && GetProxyAgent(proxy, proxyBuilds).None?
  {
    if !Truthy(proxy) then RelaxedTls
    else
      match GetProxyAgent(proxy, proxyBuilds)
      case Some(agent) => ViaAgent(agent)
      case None => DefaultTransport
  }

  /** The three headers both requests carry. */
  function RequestHeaders(userAgent: string): map<string, string> {
    map["User-Agent" := userAgent, "Accept" := "application/json", "Content-Type" := "application/json"]
  }

  /** A request configuration before the transport is chosen. */
  function BaseRequest(verb: Verb, url: string, userAgent: string): Request {
    Request(verb, url, RequestHeaders(userAgent), RequestTimeoutMs, DefaultTransport)
  }

  function PingRequest(s: Session): Request {
    BaseRequest(Get, PingUrlPrefix + s.pointId, s.userAgent).(transport := TransportFor(s.proxy, s.proxyBuilds))
  }

  function UptimeRequest(s: Session): Request {
    BaseRequest(Patch, UptimeUrlPrefix + s.remoteWalletId, s.userAgent).(transport := TransportFor(s.proxy, s.proxyBuilds))
  }

  /** The uptime report is due on the tick numbered `count` with this outcome. */
  predicate UptimeDue(count: nat, outcome: Outcome) {
    outcome == Responded(200) && count % UptimePeriod == 0
  }

  /** The requests of the tick numbered `count`, in the order they are sent. */
  function TickRequests(s: Session, count: nat, outcome: Outcome): (rs: seq<Request>)
    ensures 1 <= |rs| <= 2 && rs[0] == PingRequest(s)
    ensures |rs| == 2 ==> rs[1] == UptimeRequest(s)
  {
    [PingRequest(s)] + (if UptimeDue(count, outcome) then [UptimeRequest(s)] else [])
  }

  /** The requests of the ticks numbered `from + 1`, `from + 2`, … with these outcomes. */
  function Trace(s: Session, from: nat, outcomes: seq<Outcome>): seq<Request>
    decreases |outcomes|
  {
    if |outcomes| == 0 then []
    else TickRequests(s, from + 1, outcomes[0]) + Trace(s, from + 1, outcomes[1..])
  }

  /** How many of the requests use the verb `v`. */
  function CountVerb(rs: seq<Request>, v: Verb): nat
    decreases |rs|
  {
    if |rs| == 0 then 0
    else (if rs[0].verb == v then 1 else 0) + CountVerb(rs[1..], v)
  }

  /** `n` pings in a row that all answered 200. */
  function Successes(n: nat): seq<Outcome> {
    seq(n, _ => Responded(200))
  }

  // ---------------------------------------------------------------------------
  // Properties of a run of ticks
  // ---------------------------------------------------------------------------

  lemma {:induction false} CountVerbAppend(a: seq<Request>, b: seq<Request>, v: Verb)
    ensures CountVerb(a + b, v) == CountVerb(a, v) + CountVerb(b, v)
    decreases |a|
  {
    if |a| > 0 {
      assert (a + b)[1..] == a[1..] + b;
      CountVerbAppend(a[1..], b, v);
    } else {
      assert a + b == b;
    }
  }

  /** Ticks run one after another: a run splits into its first and second part. */
  lemma {:induction false} TraceAppend(s: Session, from: nat, a: seq<Outcome>, b: seq<Outcome>)
    ensures Trace(s, from, a + b) == Trace(s, from, a) + Trace(s, from + |a|, b)
    decreases |a|
  {
    if |a| > 0 {
      assert (a + b)[1..] == a[1..] + b;
      TraceAppend(s, from + 1, a[1..], b);
    } else {
      assert a + b == b;
    }
  }

  lemma TickCounts(s: Session, count: nat, outcome: Outcome)
    ensures CountVerb(TickRequests(s, count, outcome), Get) == 1
    ensures CountVerb(TickRequests(s, count, outcome), Patch) == if UptimeDue(count, outcome) then 1 else 0
  {
    var rs := TickRequests(s, count, outcome);
    CountVerbAppend([PingRequest(s)], rs[1..], Get);
    CountVerbAppend([PingRequest(s)], rs[1..], Patch);
    assert rs == [PingRequest(s)] + rs[1..];
  }

  /** Every tick sends exactly one ping, whatever the outcomes. */
  lemma {:induction false} OnePingPerTick(s: Session, from: nat, outcomes: seq<Outcome>)
    ensures CountVerb(Trace(s, from, outcomes), Get) == |outcomes|
    decreases |outcomes|
  {
    if |outcomes| > 0 {
      TickCounts(s, from + 1, outcomes[0]);
      OnePingPerTick(s, from + 1, outcomes[1..]);
      CountVerbAppend(TickRequests(s, from + 1, outcomes[0]), Trace(s, from + 1, outcomes[1..]), Get);
    }
  }

  /** Among consecutive counts, the next one is a multiple of the period exactly when the quotient steps. */
  lemma NextQuotient(k: nat)
    ensures (k + 1) / UptimePeriod - k / UptimePeriod == if (k + 1) % UptimePeriod == 0 then 1 else 0
  {
    var q, r := k / 10, k % 10;
    assert k == 10 * q + r;
    if r == 9 {
      assert k + 1 == 10 * (q + 1);
    } else {
      assert k + 1 == 10 * q + (r + 1);
    }
  }

  /**
   * When every ping answers 200, the ticks `from + 1` to `from + n` send one
   * uptime report per multiple of ten among them.
   */
  lemma {:induction false} UptimesWhenAllSucceed(s: Session, from: nat, n: nat)
    ensures CountVerb(Trace(s, from, Successes(n)), Patch) == (from + n) / UptimePeriod - from / UptimePeriod
    decreases n
  {
    if n > 0 {
      assert Successes(n)[1..] == Successes(n - 1);
      TickCounts(s, from + 1, Responded(200));
      UptimesWhenAllSucceed(s, from + 1, n - 1);
      CountVerbAppend(TickRequests(s, from + 1, Responded(200)), Trace(s, from + 1, Successes(n - 1)), Patch);
      NextQuotient(from);
    }
  }

  /** Failed or non-200 pings never add uptime reports: the all-success count is an upper bound. */
  lemma {:induction false} UptimesAtMost(s: Session, from: nat, outcomes: seq<Outcome>)
    ensures CountVerb(Trace(s, from, outcomes), Patch) <= (from + |outcomes|) / UptimePeriod - from / UptimePeriod
    decreases |outcomes|
  {
    if |outcomes| > 0 {
      TickCounts(s, from + 1, outcomes[0]);
      UptimesAtMost(s, from + 1, outcomes[1..]);
      CountVerbAppend(TickRequests(s, from + 1, outcomes[0]), Trace(s, from + 1, outcomes[1..]), Patch);
      NextQuotient(from);
    }
  }

  /**
   * The first ten ticks, all answering 200, send eleven requests: ten pings
   * and one uptime report, which is the last request of tick ten.
   */
  lemma FirstTenTicks(s: Session)
    ensures |Trace(s, 0, Successes(10))| == 11
    ensures CountVerb(Trace(s, 0, Successes(10)), Get) == 10
    ensures CountVerb(Trace(s, 0, Successes(10)), Patch) == 1
    ensures Trace(s, 0, Successes(10))[10] == UptimeRequest(s)
  {
    OnePingPerTick(s, 0, Successes(10));
    UptimesWhenAllSucceed(s, 0, 10);
    assert Successes(10) == Successes(9) + [Responded(200)];
    TraceAppend(s, 0, Successes(9), [Responded(200)]);
    UptimesWhenAllSucceed(s, 0, 9);
    OnePingPerTick(s, 0, Successes(9));
    CountVerbAppend(Trace(s, 0, Successes(9)), Trace(s, 9, [Responded(200)]), Get);
    LengthIsCount(Trace(s, 0, Successes(9)));
  }

  /** A sequence of requests that are all pings or uptime reports has as many entries as the two counts. */
  lemma {:induction false} LengthIsCount(rs: seq<Request>)
    ensures |rs| == CountVerb(rs, Get) + CountVerb(rs, Patch)
    decreases |rs|
  {
    if |rs| > 0 {
      LengthIsCount(rs[1..]);
    }
  }

  /**
   * A tenth tick whose ping did not answer 200 sends no uptime report, and
   * none follows before tick twenty: ticks 1 to 19 send none at all, whatever
   * the other eighteen pings answered.
   */
  lemma MissedTenthTick(s: Session, before: seq<Outcome>, outcome: Outcome, after: seq<Outcome>)
    requires |before| == 9 && |after| == 9
    requires outcome != Responded(200)
    ensures CountVerb(Trace(s, 0, before + [outcome] + after), Patch) == 0
  {
    TraceAppend(s, 0, before + [outcome], after);
    TraceAppend(s, 0, before, [outcome]);
    UptimesAtMost(s, 0, before);
    UptimesAtMost(s, 10, after);
    UptimesAtMost(s, 9, [outcome]);
    CountVerbAppend(Trace(s, 0, before), Trace(s, 9, [outcome]), Patch);
    CountVerbAppend(Trace(s, 0, before + [outcome]), Trace(s, 10, after), Patch);
  }

  /**
   * Every request of a run carries the wallet's agent string, the fixed
   * headers, the 30-second timeout and the wallet's transport; pings go to
   * the point's URL and uptime reports to the remote wallet's URL.
   */
  lemma {:induction false} TraceRequestsWellFormed(s: Session, from: nat, outcomes: seq<Outcome>)
    ensures forall r | r in Trace(s, from, outcomes) ::
      && r.headers == RequestHeaders(s.userAgent)
      && r.headers["User-Agent"] == s.userAgent
      && r.timeoutMs == RequestTimeoutMs
      && r.transport == TransportFor(s.proxy, s.proxyBuilds)
      && (r.verb == Get ==> r.url == PingUrlPrefix + s.pointId)
      && (r.verb == Patch ==> r.url == UptimeUrlPrefix + s.remoteWalletId)
    decreases |outcomes|
  {
    if |outcomes| > 0 {
      TraceRequestsWellFormed(s, from + 1, outcomes[1..]);
    }
  }

  /** With proxies switched off every request goes through the relaxed-TLS agent. */
  lemma NoProxyMeansRelaxedTls(useProxy: bool, id: int, proxies: seq<string>, proxyBuilds: bool)
    requires !useProxy
    ensures TransportFor(ProxyFor(useProxy, id, proxies), proxyBuilds) == RelaxedTls
  {
  }

  /**
   * A wallet that was given a proxy from the cleaned list never falls back to
   * relaxed TLS: it uses the adapter, or the default agent if none was built.
   */
  lemma ListedProxyNeverRelaxed(text: string, useProxy: bool, id: int, proxyBuilds: bool)
    requires ProxyFor(useProxy, id, ProxyList(text)).Some?
    ensures TransportFor(ProxyFor(useProxy, id, ProxyList(text)), proxyBuilds) != RelaxedTls
  {
    ListedProxiesAreTruthy(text, id - 1);
  }

  // ---------------------------------------------------------------------------
  // The ping loop of one wallet
  // ---------------------------------------------------------------------------

  /** The timer callback of one wallet and the counter it closes over. */
  class Pinger {
    const session: Session
    var pingCount: nat
    /** The outcomes of the ticks so far. */
    ghost var outcomes: seq<Outcome>
    /** Every request sent so far, in order. */
    ghost var issued: seq<Request>

    ghost predicate Valid()
      reads this
    {
      && pingCount == |outcomes|
      && issued == Trace(session, 0, outcomes)
    }

    constructor (s: Session)
      ensures Valid()
      ensures session == s && pingCount == 0 && outcomes == [] && issued == []
    {
      session := s;
      pingCount := 0;
      outcomes := [];
      issued := [];
    }

    /** Attaches the transport to a request configuration, as the tick does to each one. */
    method Configure(request: Request) returns (configured: Request)
      ensures configured == request.(transport := TransportFor(session.proxy, session.proxyBuilds))
      ensures configured.transport.RelaxedTls? <==> !Truthy(session.proxy)
    {
      configured := request.(transport := DefaultTransport);
      if Truthy(session.proxy) {
        var agent := GetProxyAgent(session.proxy, session.proxyBuilds);
        if agent.Some? {
          configured := configured.(transport := ViaAgent(agent.value));
        }
      } else {
        configured := configured.(transport := RelaxedTls);
      }
    }

    /**
     * One timer tick: the counter goes up first, then the ping is sent and,
     * when it answered 200 on a tick whose number is a multiple of ten, the
     * uptime report follows.
     */
    method Tick(outcome: Outcome) returns (requests: seq<Request>)
      requires Valid()
      modifies this
      ensures Valid()
      ensures pingCount == old(pingCount) + 1
      ensures outcomes == old(outcomes) + [outcome]
      ensures requests == TickRequests(session, pingCount, outcome)
      ensures issued == old(issued) + requests
    {
      pingCount := pingCount + 1;
      var ping := Configure(BaseRequest(Get, PingUrlPrefix + session.pointId, session.userAgent));
      requests := [ping];
      if outcome == Responded(200) && pingCount % UptimePeriod == 0 {
        var uptime := Configure(BaseRequest(Patch, UptimeUrlPrefix + session.remoteWalletId, session.userAgent));
        requests := requests + [uptime];
      }
      TraceAppend(session, 0, outcomes, [outcome]);
      outcomes := outcomes + [outcome];
      issued := issued + requests;
    }
  }

  /**
   * The session `handlePing` would run, if any: none when the wallet's
   * result reports no success.
   */
  function SessionFor(result: WalletResult, proxy: Option<string>, proxyBuilds: bool, lookup: Option<string>): (r: Option<Session>)
    ensures r.Some? <==> result.success
    ensures r.Some? ==> r.value.pointId == result.pointId && r.value.remoteWalletId == result.walletId
    ensures r.Some? ==> r.value.proxy == proxy && r.value.userAgent == UserAgentFor(lookup)
    ensures r.Some? ==> r.value.proxyBuilds == proxyBuilds
  {
    if result.success then Some(Session(result.pointId, result.walletId, proxy, proxyBuilds, UserAgentFor(lookup)))
    else None
  }

  /**
   * `handlePing`: no timer (and so no request ever) for a wallet whose
   * result reports no success; otherwise a fresh loop at count zero.
   */
  method HandlePing(result: WalletResult, proxy: Option<string>, proxyBuilds: bool, lookup: Option<string>)
    returns (p: Pinger?)
    ensures p == null <==> !result.success
    ensures p != null ==> fresh(p) && p.Valid() && p.pingCount == 0 && p.issued == []
    ensures p != null ==> Some(p.session) == SessionFor(result, proxy, proxyBuilds, lookup)
  {
    var userAgent := UserAgentFor(lookup);
    if !result.success {
      return null;
    }
    p := new Pinger(Session(result.pointId, result.walletId, proxy, proxyBuilds, userAgent));
  }

  // ---------------------------------------------------------------------------
  // Start-up over all wallets
  // ---------------------------------------------------------------------------

  /** Which of the two wallet calls the start-up makes. */
  datatype Bootstrap = RegisterWallet | FetchWalletInfo

  /** What the start-up decided for one wallet. */
  datatype Launch = Launch(proxy: Option<string>, userAgent: string, bootstrap: Bootstrap, session: Option<Session>)

  /**
   * The start-up of one wallet: its positional proxy, its agent string, the
   * wallet call made, and the ping loop that follows (none when the call
   * reports no success). A proxy string in `rejected` is one whose adapter
   * constructor throws.
   */
  function LaunchFor(
    wallet: Wallet, proxies: seq<string>, useProxy: bool, registrationNeeded: bool,
    userAgents: map<string, string>, result: WalletResult, rejected: set<string>): (l: Launch)
    ensures l.proxy == ProxyFor(useProxy, wallet.id, proxies)
    ensures l.userAgent == UserAgentFor(LookupUserAgent(userAgents, wallet.address))
    ensures l.bootstrap == if registrationNeeded then RegisterWallet else FetchWalletInfo
    ensures l.session.Some? <==> result.success
    ensures l.session.Some? ==> l.session.value.proxy == l.proxy && l.session.value.userAgent == l.userAgent
    ensures l.session.Some? ==> l.session.value.pointId == result.pointId
    ensures l.session.Some? ==> l.session.value.remoteWalletId == result.walletId
    ensures l.session.Some? ==> l.session.value.proxyBuilds == (l.proxy.Some? && l.proxy.value !in rejected)
  {
    var proxy := ProxyFor(useProxy, wallet.id, proxies);
    var lookup := LookupUserAgent(userAgents, wallet.address);
    var builds := proxy.Some? && proxy.value !in rejected;
    Launch(proxy, UserAgentFor(lookup), if registrationNeeded then RegisterWallet else FetchWalletInfo,
      SessionFor(result, proxy, builds, lookup))
  }

  /**
   * The loop of `main` over the wallets, one start-up per wallet in order;
   * the answers of the wallet calls are inputs, one per wallet.
   */
  method LaunchAll(
    wallets: seq<Wallet>, proxies: seq<string>, useProxy: bool, registrationNeeded: bool,
    userAgents: map<string, string>, results: seq<WalletResult>, rejected: set<string>)
    returns (launches: seq<Launch>)
    requires |results| == |wallets|
    ensures |launches| == |wallets|
    ensures forall i | 0 <= i < |wallets| ::
      launches[i] == LaunchFor(wallets[i], proxies, useProxy, registrationNeeded, userAgents, results[i], rejected)
  {
    launches := [];
    var i := 0;
    while i < |wallets|
      invariant 0 <= i <= |wallets|
      invariant |launches| == i
      invariant forall j | 0 <= j < i ::
        launches[j] == LaunchFor(wallets[j], proxies, useProxy, registrationNeeded, userAgents, results[j], rejected)
    {
      var wallet := wallets[i];
      var proxy := ProxyFor(useProxy, wallet.id, proxies);
      var lookup := LookupUserAgent(userAgents, wallet.address);
      var bootstrap := if registrationNeeded then RegisterWallet else FetchWalletInfo;
      var builds := proxy.Some? && proxy.value !in rejected;
      var session := SessionFor(results[i], proxy, builds, lookup);
      launches := launches + [Launch(proxy, UserAgentFor(lookup), bootstrap, session)];
      i := i + 1;
    }
  }

  /**
   * With proxies on and at least as many proxies as wallets numbered 1 to n,
   * the wallet at position `i` is launched through the proxy at position `i`.
   */
  lemma EveryWalletProxied(
    wallets: seq<Wallet>, proxies: seq<string>, registrationNeeded: bool,
    userAgents: map<string, string>, results: seq<WalletResult>, rejected: set<string>, i: nat)
    requires |results| == |wallets| <= |proxies|
    requires forall k | 0 <= k < |wallets| :: wallets[k].id == k + 1
    requires i < |wallets|
    ensures LaunchFor(wallets[i], proxies, true, registrationNeeded, userAgents, results[i], rejected).proxy == Some(proxies[i])
  {
  }

  // ---------------------------------------------------------------------------
  // Overlapping ticks
  // ---------------------------------------------------------------------------

  /**
   * What happens to one wallet's loop, in time order: a tick fires (the
   * counter goes up and its ping leaves), or the ping of tick `tick` settles.
   * A ping may take up to the 30-second timeout, longer than the default
   * 15-second interval, so settlements can come after later ticks fired.
   */
  datatype Event = Fire | Settle(tick: nat, outcome: Outcome)

  /**
   * Uptime reports as the loop is written: the check of the counter runs
   * after the ping settles and reads the shared counter, whatever tick the
   * ping belonged to.
   */
  function UptimesAsWritten(count: nat, events: seq<Event>): nat
    decreases |events|
  {
    if |events| == 0 then 0
    else match events[0]
      case Fire => UptimesAsWritten(count + 1, events[1..])
      case Settle(_, outcome) => (if UptimeDue(count, outcome) then 1 else 0) + UptimesAsWritten(count, events[1..])
  }

  /** The uptime reports one event starts when each tick decides by its own number. */
  function OwnTickUptime(e: Event): nat {
    match e
    case Fire => 0
    case Settle(tick, outcome) => if UptimeDue(tick, outcome) then 1 else 0
  }

  /** Uptime reports when each settlement decides by the number of its own tick. */
  function UptimesByOwnTick(events: seq<Event>): nat
    decreases |events|
  {
    if |events| == 0 then 0 else OwnTickUptime(events[0]) + UptimesByOwnTick(events[1..])
  }

  /** `n` ticks firing before anything settles. */
  function Fires(n: nat): seq<Event> {
    seq(n, _ => Fire)
  }

  /** The schedule of ticks `from + 1`, … when each ping settles before the next tick fires. */
  function Sequential(from: nat, outcomes: seq<Outcome>): seq<Event>
    decreases |outcomes|
  {
    if |outcomes| == 0 then []
    else [Fire, Settle(from + 1, outcomes[0])] + Sequential(from + 1, outcomes[1..])
  }

  lemma {:induction false} AsWrittenAfterFires(count: nat, n: nat, rest: seq<Event>)
    ensures UptimesAsWritten(count, Fires(n) + rest) == UptimesAsWritten(count + n, rest)
    decreases n
  {
    if n > 0 {
      assert (Fires(n) + rest)[1..] == Fires(n - 1) + rest;
      AsWrittenAfterFires(count + 1, n - 1, rest);
    } else {
      assert Fires(n) + rest == rest;
    }
  }

  lemma {:induction false} OwnTickAppend(a: seq<Event>, b: seq<Event>)
    ensures UptimesByOwnTick(a + b) == UptimesByOwnTick(a) + UptimesByOwnTick(b)
    decreases |a|
  {
    if |a| > 0 {
      assert (a + b)[1..] == a[1..] + b;
      OwnTickAppend(a[1..], b);
    } else {
      assert a + b == b;
    }
  }

  lemma {:induction false} OwnTickAfterFires(n: nat, rest: seq<Event>)
    ensures UptimesByOwnTick(Fires(n) + rest) == UptimesByOwnTick(rest)
    decreases n
  {
    if n > 0 {
      assert (Fires(n) + rest)[1..] == Fires(n - 1) + rest;
      OwnTickAfterFires(n - 1, rest);
    } else {
      assert Fires(n) + rest == rest;
    }
  }

  /**
   * As written, overlapping ticks move uptime reports between ticks: when
   * tick 9's ping settles after tick 10 fired, both ticks 9 and 10 report
   * (two reports in ten ticks); when tick 10's ping settles after tick 11
   * fired, nobody reports. Deciding by the tick's own number reports once in
   * both schedules.
   */
  lemma OverlappingTicksMisplaceUptime()
    ensures UptimesAsWritten(0, Fires(10) + [Settle(9, Responded(200)), Settle(10, Responded(200))]) == 2
    ensures UptimesByOwnTick(Fires(10) + [Settle(9, Responded(200)), Settle(10, Responded(200))]) == 1
    ensures UptimesAsWritten(0, Fires(11) + [Settle(10, Responded(200))]) == 0
    ensures UptimesByOwnTick(Fires(11) + [Settle(10, Responded(200))]) == 1
  {
    AsWrittenAfterFires(0, 10, [Settle(9, Responded(200)), Settle(10, Responded(200))]);
    OwnTickAfterFires(10, [Settle(9, Responded(200)), Settle(10, Responded(200))]);
    AsWrittenAfterFires(0, 11, [Settle(10, Responded(200))]);
    OwnTickAfterFires(11, [Settle(10, Responded(200))]);
  }

  /**
   * Deciding by the tick's own number, the reports depend only on which ticks
   * settled with which outcome, not on how firing and settling interleave.
   */
  lemma {:induction false} OwnTickIgnoresInterleaving(a: seq<Event>, b: seq<Event>)
    requires multiset(a) == multiset(b)
    ensures UptimesByOwnTick(a) == UptimesByOwnTick(b)
    decreases |a|
  {
    if |a| == 0 {
      assert |b| == |multiset(b)| == 0;
    } else {
      var e := a[0];
      assert a == [e] + a[1..];
      assert e in multiset(b);
      var i :| 0 <= i < |b| && b[i] == e;
      var rest := b[..i] + b[i + 1..];
      assert b == b[..i] + [e] + b[i + 1..];
      assert multiset(b) == multiset(b[..i]) + multiset{e} + multiset(b[i + 1..]);
      assert multiset(a) == multiset{e} + multiset(a[1..]);
      assert multiset(rest) == multiset(b[..i]) + multiset(b[i + 1..]);
      assert multiset(a[1..]) == multiset(a) - multiset{e} == multiset(b) - multiset{e} == multiset(rest);
      OwnTickIgnoresInterleaving(a[1..], rest);
      OwnTickAppend(b[..i] + [e], b[i + 1..]);
      OwnTickAppend(b[..i], [e]);
      OwnTickAppend(b[..i], b[i + 1..]);
      OwnTickAppend([e], a[1..]);
    }
  }

  /**
   * When every ping settles before the next tick fires, the loop as written,
   * the corrected decision and the sequential model `Trace` send the same
   * number of uptime reports.
   */
  lemma {:induction false} SequentialTicksAgree(s: Session, from: nat, outcomes: seq<Outcome>)
    ensures UptimesAsWritten(from, Sequential(from, outcomes)) == CountVerb(Trace(s, from, outcomes), Patch)
    ensures UptimesByOwnTick(Sequential(from, outcomes)) == CountVerb(Trace(s, from, outcomes), Patch)
    decreases |outcomes|
  {
    if |outcomes| > 0 {
      var head := [Fire, Settle(from + 1, outcomes[0])];
      var tail := Sequential(from + 1, outcomes[1..]);
      SequentialTicksAgree(s, from + 1, outcomes[1..]);
      TickCounts(s, from + 1, outcomes[0]);
      CountVerbAppend(TickRequests(s, from + 1, outcomes[0]), Trace(s, from + 1, outcomes[1..]), Patch);
      assert (head + tail)[1..] == [Settle(from + 1, outcomes[0])] + tail;
      assert ([Settle(from + 1, outcomes[0])] + tail)[1..] == tail;
      OwnTickAppend(head, tail);
    }
  }
}
