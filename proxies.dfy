/**
 * The proxy helpers of the bot's entry point: reading the proxy list, giving
 * each wallet its positional proxy, and turning a proxy string into a
 * connection adapter.
 */
module Proxies {
  import opened Wrappers
  import opened JsStrings

  /** The adapter libraries, reduced to which one was constructed. */
  datatype AgentKind = HttpProxy | SocksProxy

  /** A constructed proxy adapter and the proxy URL it was built from. */
  datatype Agent = Agent(kind: AgentKind, url: string)

  /**
   * JavaScript truthiness of a value that is a string, `null` or `undefined`
   * (`None` stands for the last two): only the empty string is falsy.
   */
  predicate Truthy(s: Option<string>) {
    s.Some? && s.value != ""
  }

  /** How a proxy string is classified before an adapter is built. */
  datatype Scheme = NoProxy | HttpScheme | SocksScheme | OtherScheme

  /**
   * The scheme test of `getProxyAgent`: absent or empty first, then a
   * `"http"` prefix (which `"https"` also has), then a `"socks"` prefix.
   */
  function SchemeOf(proxy: Option<string>): (c: Scheme)
    ensures c == NoProxy <==> !Truthy(proxy)
    ensures c == HttpScheme <==> Truthy(proxy) && StartsWith(proxy.value, "http")
    ensures c == SocksScheme <==>
      Truthy(proxy) && !StartsWith(proxy.value, "http") && StartsWith(proxy.value, "socks")
    ensures c == OtherScheme <==>
      Truthy(proxy) && !StartsWith(proxy.value, "http") && !StartsWith(proxy.value, "socks")
  {
    if !Truthy(proxy) then NoProxy
    else if StartsWith(proxy.value, "http") then HttpScheme
    else if StartsWith(proxy.value, "socks") then SocksScheme
    else OtherScheme
  }

  /**
   * `getProxyAgent(proxyString)`. The adapter constructors are foreign code:
   * `constructs` says whether the one selected accepts the string (when it
   * throws, the error is logged and no adapter is returned).
   */
  function GetProxyAgent(proxy: Option<string>, constructs: bool): (r: Option<Agent>)
    ensures r.Some? <==> constructs && (SchemeOf(proxy) == HttpScheme || SchemeOf(proxy) == SocksScheme)
    ensures r.Some? ==> r.value.url == proxy.value
    ensures r.Some? ==> (r.value.kind == HttpProxy <==> SchemeOf(proxy) == HttpScheme)
  {
    match SchemeOf(proxy)
    case HttpScheme => if constructs then Some(Agent(HttpProxy, proxy.value)) else None
    case SocksScheme => if constructs then Some(Agent(SocksProxy, proxy.value)) else None
    case _ => None
  }

  /** An `https://` proxy is handled by the HTTP adapter, not left unclassified. */
  lemma HttpsUsesHttpAdapter(s: string)
    requires StartsWith(s, "https")
    ensures GetProxyAgent(Some(s), true) == Some(Agent(HttpProxy, s))
  {
    assert s[..4] == s[..5][..4];
  }

  /** A `socks5://` (or any `socks…`) proxy is handled by the SOCKS adapter. */
  lemma SocksUsesSocksAdapter(s: string)
    requires StartsWith(s, "socks")
    ensures GetProxyAgent(Some(s), true) == Some(Agent(SocksProxy, s))
  {
    assert s[0] == 's';
  }

  // ---------------------------------------------------------------------------
  // The proxy list
  // ---------------------------------------------------------------------------

  /** `a` is `b` with some entries left out and the rest kept in order. */
  predicate IsSubsequence(a: seq<string>, b: seq<string>)
    decreases |b|
  {
    if |a| == 0 then true
    else if |b| == 0 then false
    else (a[0] == b[0] && IsSubsequence(a[1..], b[1..])) || IsSubsequence(a, b[1..])
  }

  /** `lines.filter((proxy) => proxy.trim() !== "")`. */
  function KeepNonBlank(lines: seq<string>): (r: seq<string>)
    ensures forall x :: x in r <==> x in lines && Trim(x) != ""
    ensures IsSubsequence(r, lines)
    decreases |lines|
  {
    if |lines| == 0 then []
    else if Trim(lines[0]) != "" then [lines[0]] + KeepNonBlank(lines[1..])
    else KeepNonBlank(lines[1..])
  }

  /**
   * The filter keeps every non-blank line as often as it occurs and drops
   * every blank one.
   */
  lemma {:induction false} KeepNonBlankCounts(lines: seq<string>, x: string)
    ensures multiset(KeepNonBlank(lines))[x] == if Trim(x) != "" then multiset(lines)[x] else 0
    decreases |lines|
  {
    if |lines| > 0 {
      var rest := lines[1..];
      KeepNonBlankCounts(rest, x);
      CountHead(lines, x);
      if Trim(lines[0]) != "" {
        var kept := KeepNonBlank(lines);
        assert kept[0] == lines[0] && kept[1..] == KeepNonBlank(rest);
        CountHead(kept, x);
      } else {
        assert KeepNonBlank(lines) == KeepNonBlank(rest);
      }
    }
  }

  /** Occurrences of `x` in a non-empty sequence: those at its head plus those in its tail. */
  lemma CountHead(s: seq<string>, x: string)
    requires |s| > 0
    ensures multiset(s)[x] == (if s[0] == x then 1 else 0) + multiset(s[1..])[x]
  {
    assert s == [s[0]] + s[1..];
  }

  /** The proxy list read from the file: its text split on line feeds, blank lines dropped. */
  function ProxyList(text: string): (r: seq<string>)
    ensures forall k | 0 <= k < |r| :: Trim(r[k]) != "" && '\n' !in r[k]
  {
    var lines := SplitOn(text, '\n');
    assert forall x | x in lines :: '\n' !in x;
    KeepNonBlank(lines)
  }

  /**
   * The kept entries are the file's own lines, untrimmed and in order, and
   * every non-blank line of the file is kept as many times as it occurs.
   */
  lemma ProxyListFromLines(text: string)
    ensures IsSubsequence(ProxyList(text), SplitOn(text, '\n'))
    ensures forall x :: x in ProxyList(text) <==> x in SplitOn(text, '\n') && !Blank(x)
    ensures forall x ::
      multiset(ProxyList(text))[x] == if Blank(x) then 0 else multiset(SplitOn(text, '\n'))[x]
  {
    forall x
      ensures x in ProxyList(text) <==> x in SplitOn(text, '\n') && !Blank(x)
      ensures multiset(ProxyList(text))[x] == if Blank(x) then 0 else multiset(SplitOn(text, '\n'))[x]
    {
      assert (Trim(x) == "") == Blank(x);
      KeepNonBlankCounts(SplitOn(text, '\n'), x);
    }
  }

  /**
   * A file whose lines are all non-blank (and contain no line feed) yields
   * those very lines.
   */
  lemma {:induction false} ProxyListOfCleanLines(lines: seq<string>)
    requires |lines| >= 1
    requires forall k | 0 <= k < |lines| :: '\n' !in lines[k] && !Blank(lines[k])
    ensures ProxyList(JoinOn(lines, '\n')) == lines
  {
    SplitOnJoinOn(lines, '\n');
    KeepAllNonBlank(lines);
  }

  lemma {:induction false} KeepAllNonBlank(lines: seq<string>)
    requires forall k | 0 <= k < |lines| :: !Blank(lines[k])
    ensures KeepNonBlank(lines) == lines
    decreases |lines|
  {
    if |lines| > 0 {
      assert Trim(lines[0]) != "";
      KeepAllNonBlank(lines[1..]);
      assert [lines[0]] + lines[1..] == lines;
    }
  }

  /** Every entry of a cleaned list is a truthy proxy string. */
  lemma ListedProxiesAreTruthy(text: string, k: nat)
    requires k < |ProxyList(text)|
    ensures Truthy(Some(ProxyList(text)[k]))
  {
  }

  // ---------------------------------------------------------------------------
  // Positional assignment
  // ---------------------------------------------------------------------------

  /**
   * The proxy of the wallet with identifier `id`: the entry at index `id - 1`
   * when proxies are enabled and that index is below the list's length. An
   * identifier below 1 reads a negative index, which JavaScript answers with
   * `undefined`, so that wallet has no proxy either.
   */
  function ProxyFor(useProxy: bool, id: int, proxies: seq<string>): (r: Option<string>)
    ensures r.Some? <==> useProxy && 1 <= id <= |proxies|
    ensures r.Some? ==> r.value == proxies[id - 1]
  {
    var index := id - 1;
    if useProxy && index < |proxies| then
      if 0 <= index then Some(proxies[index]) else None
    else None
  }
}
