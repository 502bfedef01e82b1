/**
 * The browser-fingerprint header builder of `utils/headerManager.js`: from a
 * user-agent string it builds the header map a request would carry, starting
 * from a desktop-Chrome-on-Windows baseline and adjusting it for the browser
 * family, the mobile hint and the platform hint found in the string.
 */
module HeaderManager {
  import opened Wrappers
  import opened JsStrings
  import opened Patterns

  /** The header names the builder ever writes. */
  datatype Header =
    | UserAgent | Accept | AcceptLanguage | AcceptEncoding | ContentType | Connection
    | CacheControl | Pragma | Dnt | SecChUa | SecChUaMobile | SecChUaPlatform
    | SecFetchDest | SecFetchMode | SecFetchSite | Origin | Referer | Te

  /** The name each header is sent under. */
  function WireName(h: Header): string {
    match h
    case UserAgent => "User-Agent"
    case Accept => "Accept"
    case AcceptLanguage => "Accept-Language"
    case AcceptEncoding => "Accept-Encoding"
    case ContentType => "Content-Type"
    case Connection => "Connection"
    case CacheControl => "Cache-Control"
    case Pragma => "Pragma"
    case Dnt => "DNT"
    case SecChUa => "sec-ch-ua"
    case SecChUaMobile => "sec-ch-ua-mobile"
    case SecChUaPlatform => "sec-ch-ua-platform"
    case SecFetchDest => "sec-fetch-dest"
    case SecFetchMode => "sec-fetch-mode"
    case SecFetchSite => "sec-fetch-site"
    case Origin => "Origin"
    case Referer => "Referer"
    case Te => "TE"
  }

  /** Distinct headers are sent under distinct names, so no header overwrites another. */
  lemma WireNamesDistinct(a: Header, b: Header)
    requires a != b
    ensures WireName(a) != WireName(b)
  {
  }

  /** The header map a request carries, keyed by header name. */
  type Headers = map<Header, string>

  const BaselineAccept := "application/json, text/plain, */*"
  const BaselineClientHint := "\"Chromium\";v=\"134\", \"Not:A-Brand\";v=\"24\", \"Google Chrome\";v=\"134\""
  const SafariAccept := "application/json,text/plain,*/*"
  const LegacyAccept := "*/*"

  /** The headers every user agent starts from. */
  function Baseline(ua: string): Headers {
    map[
      UserAgent := ua,
      Accept := BaselineAccept,
      AcceptLanguage := "en-US,en;q=0.9",
      AcceptEncoding := "gzip, deflate, br",
      ContentType := "application/json",
      Connection := "keep-alive",
      CacheControl := "no-cache",
      Pragma := "no-cache",
      Dnt := "1",
      SecChUa := BaselineClientHint,
      SecChUaMobile := "?0",
      SecChUaPlatform := PlatformHint(Windows),
      SecFetchDest := "empty",
      SecFetchMode := "cors",
      SecFetchSite := "same-site",
      Origin := "https://meganet.app",
      Referer := "https://meganet.app/"
    ]
  }

  /** The baseline keys that no family, mobile or platform adjustment touches. */
  const UntouchedKeys: set<Header> := {
    AcceptLanguage, AcceptEncoding, ContentType, Connection, CacheControl, Pragma, Dnt, Origin, Referer
  }

  /** The fetch-metadata keys that only the Internet Explorer branch removes. */
  const FetchKeys: set<Header> := {SecFetchDest, SecFetchMode, SecFetchSite}

  // ---------------------------------------------------------------------------
  // Browser family

  /** The branches of the family chain, in the order they are tried. */
  datatype Family =
    | FirefoxFamily | SafariFamily | EdgeFamily | OperaFamily | ChromeFamily | LegacyIEFamily
    | NoFamily

  /**
   * The one branch of the `includes` chain that runs: the first marker test
   * that holds wins, and Safari only counts without a Chrome or Edge marker.
   * Each family is characterised by the markers present and absent; the
   * later tests are simplified by what an earlier one rules out (an Edge or
   * Chrome marker already defeats the Safari test).
   */
  function Branch(ua: string): (f: Family)
    ensures f == FirefoxFamily <==> Contains(ua, "Firefox/")
    ensures f == SafariFamily <==>
      && !Contains(ua, "Firefox/")
      && Contains(ua, "Safari/") && !Contains(ua, "Chrome/") && !Contains(ua, "Edg/")
    ensures f == EdgeFamily <==> !Contains(ua, "Firefox/") && Contains(ua, "Edg/")
    ensures f == OperaFamily <==>
      && !Contains(ua, "Firefox/") && !Contains(ua, "Edg/")
      && !(Contains(ua, "Safari/") && !Contains(ua, "Chrome/"))
      && (Contains(ua, "OPR/") || Contains(ua, "Opera/"))
    ensures f == ChromeFamily <==>
      && !Contains(ua, "Firefox/") && !Contains(ua, "Edg/")
      && !Contains(ua, "OPR/") && !Contains(ua, "Opera/")
      && Contains(ua, "Chrome/")
    ensures f == LegacyIEFamily <==>
      && !Contains(ua, "Firefox/") && !Contains(ua, "Safari/") && !Contains(ua, "Edg/")
      && !Contains(ua, "OPR/") && !Contains(ua, "Opera/") && !Contains(ua, "Chrome/")
      && (Contains(ua, "MSIE") || Contains(ua, "Trident/"))
    ensures f == NoFamily <==> !HasFamilyMarker(ua)
  {
    if Contains(ua, "Firefox/") then FirefoxFamily
    else if Contains(ua, "Safari/") && !Contains(ua, "Chrome/") && !Contains(ua, "Edg/") then SafariFamily
    else if Contains(ua, "Edg/") then EdgeFamily
    else if Contains(ua, "OPR/") || Contains(ua, "Opera/") then OperaFamily
    else if Contains(ua, "Chrome/") then ChromeFamily
    else if Contains(ua, "MSIE") || Contains(ua, "Trident/") then LegacyIEFamily
    else NoFamily
  }

  /** Some browser-family marker occurs in the user agent. */
  predicate HasFamilyMarker(ua: string) {
    || Contains(ua, "Firefox/") || Contains(ua, "Safari/") || Contains(ua, "Edg/")
    || Contains(ua, "OPR/") || Contains(ua, "Opera/") || Contains(ua, "Chrome/")
    || Contains(ua, "MSIE") || Contains(ua, "Trident/")
  }

  /** A recognised browser with the version text its header hint uses. */
  datatype Browser =
    | Firefox(version: string)
    | Safari(version: string)
    | Edge(major: string)
    | Opera(major: string)
    | Chrome(version: string)
    | InternetExplorer(version: string)

  function FamilyOf(b: Browser): Family {
    match b
    case Firefox(_) => FirefoxFamily
    case Safari(_) => SafariFamily
    case Edge(_) => EdgeFamily
    case Opera(_) => OperaFamily
    case Chrome(_) => ChromeFamily
    case InternetExplorer(_) => LegacyIEFamily
  }

  /** `Some(groups.join('.'))` for a match, `None` otherwise. */
  function Dotted(m: Option<seq<string>>): Option<string> {
    match m
    case Some(groups) => Some(JoinOn(groups, '.'))
    case None => None
  }

  /** `a || b` on two `match` results. */
  function Either(a: Option<seq<string>>, b: Option<seq<string>>): Option<seq<string>> {
    if a.Some? then a else b
  }

  /**
   * What the branch for family `f` makes of `ua`: the browser with the
   * version its pattern captures, or `None` when that pattern does not match.
   */
  function Recognise(ua: string, f: Family): (d: Option<Browser>)
    ensures d.Some? ==> FamilyOf(d.value) == f
    ensures d.Some? && (d.value.Firefox? || d.value.Chrome?) ==> IsDigitRun(d.value.version)
    ensures d.Some? && (d.value.Edge? || d.value.Opera?) ==> IsDigitRun(d.value.major)
    ensures f == NoFamily ==> d.None?
  {
    match f
    case FirefoxFamily =>
      (match Find(ua, "Firefox/", 1) case Some(g) => Some(Firefox(g[0])) case None => None)
    case SafariFamily =>
      (match Dotted(Find(ua, "Version/", 2)) case Some(v) => Some(Safari(v)) case None => None)
    case EdgeFamily =>
      (match Find(ua, "Edg/", 4) case Some(g) => Some(Edge(g[0])) case None => None)
    case OperaFamily =>
      (match Either(Find(ua, "OPR/", 4), Find(ua, "Opera/", 2))
       case Some(g) => Some(Opera(g[0])) case None => None)
    case ChromeFamily =>
      (match Find(ua, "Chrome/", 1) case Some(g) => Some(Chrome(g[0])) case None => None)
    case LegacyIEFamily =>
      (match Dotted(Either(Find(ua, "MSIE ", 2), Find(ua, "rv:", 2)))
       case Some(v) => Some(InternetExplorer(v)) case None => None)
    case NoFamily => None
  }

  /**
   * The browser recognised in `ua`, or `None` when no marker occurs or when the
   * version pattern of the branch the marker chain selected does not match: a
   * later branch is never tried.
   */
  function Detected(ua: string): (d: Option<Browser>)
    ensures d.Some? ==> FamilyOf(d.value) == Branch(ua)
    ensures d.Some? && (d.value.Firefox? || d.value.Chrome?) ==> IsDigitRun(d.value.version)
    ensures d.Some? && (d.value.Edge? || d.value.Opera?) ==> IsDigitRun(d.value.major)
    ensures !HasFamilyMarker(ua) ==> d.None?
  {
    Recognise(ua, Branch(ua))
  }

  /** The detected family is one whose branch deletes the client hints. */
  predicate DropsClientHints(d: Option<Browser>) {
    d.Some? && (d.value.Firefox? || d.value.InternetExplorer?)
  }

  predicate IsLegacyIE(d: Option<Browser>) {
    d.Some? && d.value.InternetExplorer?
  }

  predicate IsFirefox(d: Option<Browser>) {
    d.Some? && d.value.Firefox?
  }

  function SafariHint(version: string): string {
    "\"Safari\";v=\"" + version + "\", \"Apple WebKit\";v=\"605.1.15\""
  }

  function EdgeHint(major: string): string {
    "\"Microsoft Edge\";v=\"" + major + "\", \"Chromium\";v=\"" + major + "\", \"Not:A-Brand\";v=\"24\""
  }

  function OperaHint(major: string): string {
    "\"Opera\";v=\"" + major + "\", \"Chromium\";v=\"" + major + "\", \"Not:A-Brand\";v=\"24\""
  }

  function ChromeHint(version: string): string {
    "\"Chromium\";v=\"" + version + "\", \"Not:A-Brand\";v=\"24\", \"Google Chrome\";v=\"" + version + "\""
  }

  /** The `sec-ch-ua` value the output carries, or `None` when the key is removed. */
  function ClientHint(d: Option<Browser>): Option<string> {
    match d
    case None => Some(BaselineClientHint)
    case Some(Firefox(_)) => None
    case Some(Safari(v)) => Some(SafariHint(v))
    case Some(Edge(m)) => Some(EdgeHint(m))
    case Some(Opera(m)) => Some(OperaHint(m))
    case Some(Chrome(v)) => Some(ChromeHint(v))
    case Some(InternetExplorer(_)) => None
  }

  /** The `Accept` value the output carries. */
  function AcceptFor(d: Option<Browser>): string {
    match d
    case Some(Safari(_)) => SafariAccept
    case Some(InternetExplorer(_)) => LegacyAccept
    case _ => BaselineAccept
  }

  // ---------------------------------------------------------------------------
  // Mobile and platform hints

  /** A mobile or tablet marker occurs; only "mobile" is tested case-insensitively. */
  predicate IsMobile(ua: string) {
    || Contains(LowerAscii(ua), "mobile")
    || Contains(ua, "iPhone") || Contains(ua, "iPad") || Contains(ua, "iPod")
    || Contains(ua, "Android")
  }

  datatype Platform = Windows | MacOS | Linux | Android | IOS

  function PlatformHint(p: Platform): string {
    match p
    case Windows => "\"Windows\""
    case MacOS => "\"macOS\""
    case Linux => "\"Linux\""
    case Android => "\"Android\""
    case IOS => "\"iOS\""
  }

  /** Some platform marker occurs in the user agent. */
  predicate HasPlatformMarker(ua: string) {
    || Contains(ua, "Windows") || Contains(ua, "Macintosh") || Contains(ua, "Mac OS X")
    || Contains(ua, "Linux") || Contains(ua, "Android")
    || Contains(ua, "iPhone") || Contains(ua, "iPad") || Contains(ua, "iPod")
  }

  /**
   * The platform named by the first marker of the chain that holds; Linux
   * only counts without an Android marker.
   */
  function PlatformOf(ua: string): (p: Option<Platform>)
    ensures p == Some(Windows) <==> Contains(ua, "Windows")
    ensures p == Some(MacOS) <==>
      !Contains(ua, "Windows") && (Contains(ua, "Macintosh") || Contains(ua, "Mac OS X"))
    ensures p == Some(Linux) <==>
      && !Contains(ua, "Windows") && !Contains(ua, "Macintosh") && !Contains(ua, "Mac OS X")
      && Contains(ua, "Linux") && !Contains(ua, "Android")
    ensures p == Some(Android) <==>
      && !Contains(ua, "Windows") && !Contains(ua, "Macintosh") && !Contains(ua, "Mac OS X")
      && Contains(ua, "Android")
    ensures p == Some(IOS) <==>
      && !Contains(ua, "Windows") && !Contains(ua, "Macintosh") && !Contains(ua, "Mac OS X")
      && !Contains(ua, "Linux") && !Contains(ua, "Android")
      && (Contains(ua, "iPhone") || Contains(ua, "iPad") || Contains(ua, "iPod"))
    ensures p.None? <==> !HasPlatformMarker(ua)
  {
    if Contains(ua, "Windows") then Some(Windows)
    else if Contains(ua, "Macintosh") || Contains(ua, "Mac OS X") then Some(MacOS)
    else if Contains(ua, "Linux") && !Contains(ua, "Android") then Some(Linux)
    else if Contains(ua, "Android") then Some(Android)
    else if Contains(ua, "iPhone") || Contains(ua, "iPad") || Contains(ua, "iPod") then Some(IOS)
    else None
  }

  // ---------------------------------------------------------------------------
  // The edits, as functions on header maps

  /** What the branch of the detected family does to the map. */
  function WithFamily(h: Headers, d: Option<Browser>): Headers {
    match d
    case None => h
    case Some(Firefox(_)) =>
      (h - {SecChUa, SecChUaPlatform})[Accept := BaselineAccept][Te := "trailers"]
    case Some(Safari(v)) => h[SecChUa := SafariHint(v)][Accept := SafariAccept]
    case Some(Edge(m)) => h[SecChUa := EdgeHint(m)]
    case Some(Opera(m)) => h[SecChUa := OperaHint(m)]
    case Some(Chrome(v)) => h[SecChUa := ChromeHint(v)]
    case Some(InternetExplorer(_)) =>
      (h - {SecChUa, SecChUaPlatform} - FetchKeys)[Accept := LegacyAccept]
  }

  function WithMobile(h: Headers, mobile: bool): Headers {
    if mobile then h[SecChUaMobile := "?1"] else h
  }

  function WithPlatform(h: Headers, p: Option<Platform>): Headers {
    match p
    case None => h
    case Some(q) => h[SecChUaPlatform := PlatformHint(q)]
  }

  /** The baseline after the family, mobile and platform steps, in that order. */
  function Assemble(ua: string, d: Option<Browser>, mobile: bool, p: Option<Platform>): Headers {
    WithPlatform(WithMobile(WithFamily(Baseline(ua), d), mobile), p)
  }

  /** The header map `generateHeaders` returns for `ua`. */
  function Fingerprint(ua: string): Headers {
    Assemble(ua, Detected(ua), IsMobile(ua), PlatformOf(ua))
  }

  // ---------------------------------------------------------------------------
  // What each edit step leaves in the map

  /** The keys a family branch may write or delete. */
  const FamilyKeys: set<Header> := {Accept, SecChUa, SecChUaPlatform, SecFetchDest, SecFetchMode, SecFetchSite, Te}

  /** The family step leaves every other key of any map as it was. */
  lemma FamilyStepFrame(h: Headers, d: Option<Browser>)
    ensures var g := WithFamily(h, d);
      forall k | k !in FamilyKeys :: (k in g) == (k in h) && (k in h ==> g[k] == h[k])
  {
  }

  /** The family step sets `Accept` and `sec-ch-ua` as the detected browser dictates. */
  lemma FamilyStepHints(ua: string, d: Option<Browser>)
    ensures var g := WithFamily(Baseline(ua), d);
      && Accept in g && g[Accept] == AcceptFor(d)
      && (SecChUa in g) == ClientHint(d).Some?
      && (SecChUa in g ==> g[SecChUa] == ClientHint(d).value)
  {
  }

  /** The family step removes the platform hint exactly for Firefox and Internet Explorer. */
  lemma FamilyStepPlatform(ua: string, d: Option<Browser>)
    ensures var g := WithFamily(Baseline(ua), d);
      && (SecChUaPlatform in g) == !DropsClientHints(d)
      && (SecChUaPlatform in g ==> g[SecChUaPlatform] == PlatformHint(Windows))
      && SecChUaMobile in g && g[SecChUaMobile] == "?0"
  {
  }

  /** The family step removes fetch metadata only for Internet Explorer. */
  lemma FamilyStepFetchKeys(ua: string, d: Option<Browser>)
    ensures var g := WithFamily(Baseline(ua), d);
      forall k | k in FetchKeys :: (k in g) == !IsLegacyIE(d) && (k in g ==> g[k] == Baseline(ua)[k])
  {
  }

  /** The family step adds `TE` only for Firefox, and no other key. */
  lemma FamilyStepTrailers(ua: string, d: Option<Browser>)
    ensures var g := WithFamily(Baseline(ua), d);
      && (Te in g) == IsFirefox(d)
      && (Te in g ==> g[Te] == "trailers")
      && g.Keys <= Baseline(ua).Keys + {Te}
  {
  }

  /** The mobile step writes `sec-ch-ua-mobile` and nothing else. */
  lemma MobileStepFrame(h: Headers, mobile: bool)
    ensures var g := WithMobile(h, mobile);
      && (forall k | k != SecChUaMobile :: (k in g) == (k in h) && (k in h ==> g[k] == h[k]))
      && (mobile ==> SecChUaMobile in g && g[SecChUaMobile] == "?1")
      && (!mobile ==> g == h)
  {
  }

  /** The platform step writes `sec-ch-ua-platform` and nothing else. */
  lemma PlatformStepFrame(h: Headers, p: Option<Platform>)
    ensures var g := WithPlatform(h, p);
      && (forall k | k != SecChUaPlatform :: (k in g) == (k in h) && (k in h ==> g[k] == h[k]))
      && (p.Some? ==> SecChUaPlatform in g && g[SecChUaPlatform] == PlatformHint(p.value))
      && (p.None? ==> g == h)
  {
  }

  /** The baseline sends the user-agent string it was built from. */
  lemma BaselineUserAgent(ua: string)
    ensures UserAgent in Baseline(ua) && Baseline(ua)[UserAgent] == ua
  {
  }

  /** The untouched keys are in the baseline, and no step writes them. */
  lemma BaselineUntouchedKeys(ua: string)
    ensures forall k | k in UntouchedKeys ::
      k in Baseline(ua) && k !in FamilyKeys && k != SecChUaMobile && k != SecChUaPlatform
  {
  }

  // ---------------------------------------------------------------------------
  // What the returned map holds

  /** `User-Agent` is the input, and the untouched keys keep their baseline values. */
  lemma AssembledFixedKeys(ua: string, d: Option<Browser>, mobile: bool, p: Option<Platform>)
    ensures var h := Assemble(ua, d, mobile, p);
      && UserAgent in h && h[UserAgent] == ua
      && forall k | k in UntouchedKeys :: k in h && h[k] == Baseline(ua)[k]
  {
    BaselineUserAgent(ua);
    AssembledKeeps(ua, d, mobile, p, UserAgent);
    AssembledUntouched(ua, d, mobile, p);
  }

  lemma AssembledUntouched(ua: string, d: Option<Browser>, mobile: bool, p: Option<Platform>)
    ensures forall k | k in UntouchedKeys ::
      k in Assemble(ua, d, mobile, p) && Assemble(ua, d, mobile, p)[k] == Baseline(ua)[k]
  {
    forall k | k in UntouchedKeys
      ensures k in Assemble(ua, d, mobile, p) && Assemble(ua, d, mobile, p)[k] == Baseline(ua)[k]
    {
      AssembledKeeps(ua, d, mobile, p, k);
    }
  }

  lemma AssembledKeeps(ua: string, d: Option<Browser>, mobile: bool, p: Option<Platform>, k: Header)
    requires k in UntouchedKeys || k == UserAgent
    ensures var h := Assemble(ua, d, mobile, p); k in h && h[k] == Baseline(ua)[k]
  {
    BaselineUntouchedKeys(ua);
    StepsKeep(Baseline(ua), d, mobile, p, k);
  }

  /** A key none of the three steps writes keeps its value through all of them. */
  lemma StepsKeep(h: Headers, d: Option<Browser>, mobile: bool, p: Option<Platform>, k: Header)
    requires k in h && k !in FamilyKeys && k != SecChUaMobile && k != SecChUaPlatform
    ensures var a := WithPlatform(WithMobile(WithFamily(h, d), mobile), p); k in a && a[k] == h[k]
  {
    var g := WithFamily(h, d);
    FamilyStepFrame(h, d);
    MobileStepFrame(g, mobile);
    PlatformStepFrame(WithMobile(g, mobile), p);
  }

  /** `Accept` and `sec-ch-ua` are those of the detected browser. */
  lemma AssembledClientHint(ua: string, d: Option<Browser>, mobile: bool, p: Option<Platform>)
    ensures var h := Assemble(ua, d, mobile, p);
      && Accept in h && h[Accept] == AcceptFor(d)
      && (SecChUa in h) == ClientHint(d).Some?
      && (SecChUa in h ==> h[SecChUa] == ClientHint(d).value)
  {
    var g := WithFamily(Baseline(ua), d);
    FamilyStepHints(ua, d);
    MobileStepFrame(g, mobile);
    PlatformStepFrame(WithMobile(g, mobile), p);
  }

  /** `sec-ch-ua-mobile` is always present, and `"?1"` exactly for a mobile user agent. */
  lemma AssembledMobileHint(ua: string, d: Option<Browser>, mobile: bool, p: Option<Platform>)
    ensures var h := Assemble(ua, d, mobile, p);
      && SecChUaMobile in h
      && h[SecChUaMobile] == (if mobile then "?1" else "?0")
  {
    var g := WithFamily(Baseline(ua), d);
    FamilyStepPlatform(ua, d);
    MobileStepFrame(g, mobile);
    PlatformStepFrame(WithMobile(g, mobile), p);
  }

  /**
   * A platform marker decides `sec-ch-ua-platform`; without one the key keeps
   * its baseline value, or stays deleted after the Firefox or Internet Explorer branch.
   */
  lemma AssembledPlatformHint(ua: string, d: Option<Browser>, mobile: bool, p: Option<Platform>)
    ensures var h := Assemble(ua, d, mobile, p);
      && (p.Some? ==>
            SecChUaPlatform in h && h[SecChUaPlatform] == PlatformHint(p.value))
      && (p.None? ==>
            && (SecChUaPlatform in h) == !DropsClientHints(d)
            && (SecChUaPlatform in h ==> h[SecChUaPlatform] == PlatformHint(Windows)))
  {
    var g := WithFamily(Baseline(ua), d);
    FamilyStepPlatform(ua, d);
    MobileStepFrame(g, mobile);
    PlatformStepFrame(WithMobile(g, mobile), p);
  }

  /** The fetch-metadata keys keep their baseline values unless Internet Explorer was detected. */
  lemma AssembledFetchKeys(ua: string, d: Option<Browser>, mobile: bool, p: Option<Platform>)
    ensures var h := Assemble(ua, d, mobile, p);
      forall k | k in FetchKeys :: (k in h) == !IsLegacyIE(d) && (k in h ==> h[k] == Baseline(ua)[k])
  {
    var g := WithFamily(Baseline(ua), d);
    FamilyStepFetchKeys(ua, d);
    forall k | k in FetchKeys {
      HintStepsKeep(g, mobile, p, k);
    }
  }

  /** A key other than the two hint keys passes the mobile and platform steps unchanged. */
  lemma HintStepsKeep(h: Headers, mobile: bool, p: Option<Platform>, k: Header)
    requires k != SecChUaMobile && k != SecChUaPlatform
    ensures var a := WithPlatform(WithMobile(h, mobile), p); (k in a) == (k in h) && (k in a ==> a[k] == h[k])
  {
    MobileStepFrame(h, mobile);
    PlatformStepFrame(WithMobile(h, mobile), p);
  }

  /** `TE: trailers` appears exactly for Firefox, and no key outside the baseline besides it. */
  lemma AssembledTrailers(ua: string, d: Option<Browser>, mobile: bool, p: Option<Platform>)
    ensures var h := Assemble(ua, d, mobile, p);
      && (Te in h) == IsFirefox(d)
      && (Te in h ==> h[Te] == "trailers")
      && h.Keys <= Baseline(ua).Keys + {Te}
  {
    var g := WithFamily(Baseline(ua), d);
    FamilyStepTrailers(ua, d);
    MobileStepFrame(g, mobile);
    PlatformStepFrame(WithMobile(g, mobile), p);
  }

  /** A user agent without any family, mobile or platform marker gets exactly the baseline. */
  lemma FingerprintUnmarked(ua: string)
    requires !HasFamilyMarker(ua) && !IsMobile(ua) && !HasPlatformMarker(ua)
    ensures Fingerprint(ua) == Baseline(ua)
  {
    assert Detected(ua).None?;
    assert PlatformOf(ua).None?;
  }

  // ---------------------------------------------------------------------------
  // The fingerprint of particular user agents

  /**
   * `Firefox/` followed by a digit selects Firefox, whatever else the string
   * holds; the map then has no `sec-ch-ua` and has `TE: trailers`.
   */
  lemma FirefoxWithDigitsDetected(ua: string, i: nat)
    requires OccursAt(ua, "Firefox/", i) && i + 8 < |ua| && IsDigit(ua[i + 8])
    ensures IsFirefox(Detected(ua))
    ensures DropsClientHints(Detected(ua)) && ClientHint(Detected(ua)).None?
  {
    ContainsIff(ua, "Firefox/");
    OneGroupAtDigit(ua, i + 8);
    assert MatchesAt(ua, "Firefox/", 1, i);
    MatchSomewhereFinds(ua, "Firefox/", 1, i);
  }

  /**
   * When the Chrome branch runs, the version is the digit run after the
   * leftmost `Chrome/` that is followed by a digit.
   */
  lemma ChromeVersionIsLeftmost(ua: string, i: nat)
    requires Branch(ua) == ChromeFamily
    requires MatchesAt(ua, "Chrome/", 1, i)
    requires forall j | 0 <= j < i :: !MatchesAt(ua, "Chrome/", 1, j)
    ensures Detected(ua) == Some(Chrome(ua[i + 7..i + 7 + DigitRun(ua, i + 7)]))
  {
    assert Find(ua, "Chrome/", 1) == GroupsAt(ua, i + 7, 1) by {
      FindLeftmost(ua, "Chrome/", 1, 0, i);
    }
    ChromeFromFirstGroup(ua, i);
  }

  lemma ChromeFromFirstGroup(ua: string, i: nat)
    requires i + 7 <= |ua|
    requires Find(ua, "Chrome/", 1) == GroupsAt(ua, i + 7, 1) && GroupsAt(ua, i + 7, 1).Some?
    ensures Recognise(ua, ChromeFamily) == Some(Chrome(ua[i + 7..i + 7 + DigitRun(ua, i + 7)]))
  {
    FirstGroup(ua, i + 7, 1);
  }

  /**
   * When the Edge branch runs, the hint carries only the first component of
   * the leftmost four-part version after `Edg/`.
   */
  lemma EdgeMajorIsLeftmost(ua: string, i: nat)
    requires Branch(ua) == EdgeFamily
    requires MatchesAt(ua, "Edg/", 4, i)
    requires forall j | 0 <= j < i :: !MatchesAt(ua, "Edg/", 4, j)
    ensures Detected(ua) == Some(Edge(ua[i + 4..i + 4 + DigitRun(ua, i + 4)]))
  {
    assert Find(ua, "Edg/", 4) == GroupsAt(ua, i + 4, 4) by {
      FindLeftmost(ua, "Edg/", 4, 0, i);
    }
    EdgeFromFirstGroup(ua, i);
  }

  lemma EdgeFromFirstGroup(ua: string, i: nat)
    requires i + 4 <= |ua|
    requires Find(ua, "Edg/", 4) == GroupsAt(ua, i + 4, 4) && GroupsAt(ua, i + 4, 4).Some?
    ensures Recognise(ua, EdgeFamily) == Some(Edge(ua[i + 4..i + 4 + DigitRun(ua, i + 4)]))
  {
    var g := GroupsAt(ua, i + 4, 4).value;
    FirstGroup(ua, i + 4, 4);
    assert Recognise(ua, EdgeFamily) == Some(Edge(g[0]));
  }

  /**
   * When the Safari branch runs, the version is the two-part version after
   * the leftmost `Version/` that is followed by one, dot included.
   */
  lemma SafariVersionIsLeftmost(ua: string, i: nat)
    requires Branch(ua) == SafariFamily
    requires MatchesAt(ua, "Version/", 2, i)
    requires forall j | 0 <= j < i :: !MatchesAt(ua, "Version/", 2, j)
    ensures Detected(ua) == Some(Safari(ua[i + 8..PairEnd(ua, i + 8)]))
  {
    assert Find(ua, "Version/", 2) == GroupsAt(ua, i + 8, 2) by {
      FindLeftmost(ua, "Version/", 2, 0, i);
    }
    SafariFromGroups(ua, i);
  }

  lemma SafariFromGroups(ua: string, i: nat)
    requires i + 8 <= |ua|
    requires Find(ua, "Version/", 2) == GroupsAt(ua, i + 8, 2) && GroupsAt(ua, i + 8, 2).Some?
    ensures Recognise(ua, SafariFamily) == Some(Safari(ua[i + 8..PairEnd(ua, i + 8)]))
  {
    var g := GroupsAt(ua, i + 8, 2).value;
    assert Dotted(Find(ua, "Version/", 2)) == Some(JoinOn(g, '.'));
    TwoGroups(ua, i + 8);
  }

  /**
   * When the Opera branch runs and a four-part version follows some `OPR/`,
   * the hint carries the first component of the leftmost one.
   */
  lemma OperaMajorFromOpr(ua: string, i: nat)
    requires Branch(ua) == OperaFamily
    requires MatchesAt(ua, "OPR/", 4, i)
    requires forall j | 0 <= j < i :: !MatchesAt(ua, "OPR/", 4, j)
    ensures Detected(ua) == Some(Opera(ua[i + 4..i + 4 + DigitRun(ua, i + 4)]))
  {
    assert Find(ua, "OPR/", 4) == GroupsAt(ua, i + 4, 4) by {
      FindLeftmost(ua, "OPR/", 4, 0, i);
    }
    OperaFromOprGroups(ua, i);
  }

  lemma OperaFromOprGroups(ua: string, i: nat)
    requires i + 4 <= |ua|
    requires Find(ua, "OPR/", 4) == GroupsAt(ua, i + 4, 4) && GroupsAt(ua, i + 4, 4).Some?
    ensures Recognise(ua, OperaFamily) == Some(Opera(ua[i + 4..i + 4 + DigitRun(ua, i + 4)]))
  {
    var g := GroupsAt(ua, i + 4, 4).value;
    FirstGroup(ua, i + 4, 4);
    assert Recognise(ua, OperaFamily) == Some(Opera(g[0]));
  }

  /**
   * When no four-part version follows any `OPR/`, the Opera branch falls back
   * to the leftmost two-part version after `Opera/` and keeps its first
   * component.
   */
  lemma OperaMajorFromOperaSlash(ua: string, i: nat)
    requires Branch(ua) == OperaFamily
    requires forall j | 0 <= j <= |ua| :: !MatchesAt(ua, "OPR/", 4, j)
    requires MatchesAt(ua, "Opera/", 2, i)
    requires forall j | 0 <= j < i :: !MatchesAt(ua, "Opera/", 2, j)
    ensures Detected(ua) == Some(Opera(ua[i + 6..i + 6 + DigitRun(ua, i + 6)]))
  {
    assert Find(ua, "OPR/", 4).None? by {
      FindNoneIffNoMatch(ua, "OPR/", 4, 0);
    }
    assert Find(ua, "Opera/", 2) == GroupsAt(ua, i + 6, 2) by {
      FindLeftmost(ua, "Opera/", 2, 0, i);
    }
    OperaFromOperaGroups(ua, i);
  }

  lemma OperaFromOperaGroups(ua: string, i: nat)
    requires i + 6 <= |ua| && Find(ua, "OPR/", 4).None?
    requires Find(ua, "Opera/", 2) == GroupsAt(ua, i + 6, 2) && GroupsAt(ua, i + 6, 2).Some?
    ensures Recognise(ua, OperaFamily) == Some(Opera(ua[i + 6..i + 6 + DigitRun(ua, i + 6)]))
  {
    var g := GroupsAt(ua, i + 6, 2).value;
    FirstGroup(ua, i + 6, 2);
    assert Recognise(ua, OperaFamily) == Some(Opera(g[0]));
  }

  /**
   * When the legacy Internet Explorer branch runs, the version is the
   * two-part version after the leftmost `MSIE `, dot included.
   */
  lemma LegacyIEFromMsie(ua: string, i: nat)
    requires Branch(ua) == LegacyIEFamily
    requires MatchesAt(ua, "MSIE ", 2, i)
    requires forall j | 0 <= j < i :: !MatchesAt(ua, "MSIE ", 2, j)
    ensures Detected(ua) == Some(InternetExplorer(ua[i + 5..PairEnd(ua, i + 5)]))
  {
    assert Find(ua, "MSIE ", 2) == GroupsAt(ua, i + 5, 2) by {
      FindLeftmost(ua, "MSIE ", 2, 0, i);
    }
    LegacyIEFromMsieGroups(ua, i);
  }

  lemma LegacyIEFromMsieGroups(ua: string, i: nat)
    requires i + 5 <= |ua|
    requires Find(ua, "MSIE ", 2) == GroupsAt(ua, i + 5, 2) && GroupsAt(ua, i + 5, 2).Some?
    ensures Recognise(ua, LegacyIEFamily) == Some(InternetExplorer(ua[i + 5..PairEnd(ua, i + 5)]))
  {
    var g := GroupsAt(ua, i + 5, 2).value;
    assert Recognise(ua, LegacyIEFamily) == Some(InternetExplorer(JoinOn(g, '.'))) by {
      assert Either(Find(ua, "MSIE ", 2), Find(ua, "rv:", 2)) == Some(g);
    }
    TwoGroups(ua, i + 5);
  }

  /**
   * Without an `MSIE ` version anywhere (the Trident form), the legacy
   * Internet Explorer version is the two-part version after the leftmost `rv:`.
   */
  lemma LegacyIEFromRv(ua: string, i: nat)
    requires Branch(ua) == LegacyIEFamily
    requires forall j | 0 <= j <= |ua| :: !MatchesAt(ua, "MSIE ", 2, j)
    requires MatchesAt(ua, "rv:", 2, i)
    requires forall j | 0 <= j < i :: !MatchesAt(ua, "rv:", 2, j)
    ensures Detected(ua) == Some(InternetExplorer(ua[i + 3..PairEnd(ua, i + 3)]))
  {
    assert Find(ua, "MSIE ", 2).None? by {
      FindNoneIffNoMatch(ua, "MSIE ", 2, 0);
    }
    assert Find(ua, "rv:", 2) == GroupsAt(ua, i + 3, 2) by {
      FindLeftmost(ua, "rv:", 2, 0, i);
    }
    LegacyIEFromRvGroups(ua, i);
  }

  lemma LegacyIEFromRvGroups(ua: string, i: nat)
    requires i + 3 <= |ua| && Find(ua, "MSIE ", 2).None?
    requires Find(ua, "rv:", 2) == GroupsAt(ua, i + 3, 2) && GroupsAt(ua, i + 3, 2).Some?
    ensures Recognise(ua, LegacyIEFamily) == Some(InternetExplorer(ua[i + 3..PairEnd(ua, i + 3)]))
  {
    var g := GroupsAt(ua, i + 3, 2).value;
    assert Recognise(ua, LegacyIEFamily) == Some(InternetExplorer(JoinOn(g, '.'))) by {
      assert Either(Find(ua, "MSIE ", 2), Find(ua, "rv:", 2)) == Some(g);
    }
    TwoGroups(ua, i + 3);
  }

  /**
   * A selected branch whose version pattern fails leaves the family keys at
   * their baseline values: no later branch is tried.
   */
  lemma UnmatchedVersionKeepsBaseline(ua: string)
    requires Branch(ua) != NoFamily && Detected(ua).None?
    ensures var h := Fingerprint(ua);
      && SecChUa in h && h[SecChUa] == BaselineClientHint
      && Accept in h && h[Accept] == BaselineAccept
      && Te !in h
      && forall k | k in FetchKeys :: k in h && h[k] == Baseline(ua)[k]
  {
    var d := Detected(ua);
    AssembledClientHint(ua, d, IsMobile(ua), PlatformOf(ua));
    AssembledTrailers(ua, d, IsMobile(ua), PlatformOf(ua));
    AssembledFetchKeys(ua, d, IsMobile(ua), PlatformOf(ua));
  }

  /** "mobile" in any mix of letter cases marks the user agent as mobile. */
  lemma MobileInAnyCase(ua: string, i: nat)
    requires i + 6 <= |ua|
    requires forall j | 0 <= j < 6 :: LowerChar(ua[i + j]) == "mobile"[j]
    ensures IsMobile(ua)
  {
    var lower := LowerAscii(ua);
    assert lower[i..i + 6] == "mobile";
    assert OccursAt(lower, "mobile", i);
    ContainsIff(lower, "mobile");
  }

  // ---------------------------------------------------------------------------
  // The builder

  /**
   * `generateHeaders(userAgent)`: a mutable header map, adjusted in place by the
   * family chain, then the mobile hint, then the platform chain.
   */
  method GenerateHeaders(ua: string) returns (headers: Headers)
    ensures headers == Fingerprint(ua)
    ensures UserAgent in headers && headers[UserAgent] == ua
    ensures forall k | k in UntouchedKeys :: k in headers && headers[k] == Baseline(ua)[k]
    ensures Accept in headers && headers[Accept] == AcceptFor(Detected(ua))
    ensures (SecChUa in headers) == ClientHint(Detected(ua)).Some?
    ensures SecChUa in headers ==> headers[SecChUa] == ClientHint(Detected(ua)).value
    ensures SecChUaMobile in headers && headers[SecChUaMobile] == (if IsMobile(ua) then "?1" else "?0")
    ensures PlatformOf(ua).Some? ==>
      SecChUaPlatform in headers && headers[SecChUaPlatform] == PlatformHint(PlatformOf(ua).value)
    ensures PlatformOf(ua).None? ==>
      && (SecChUaPlatform in headers) == !DropsClientHints(Detected(ua))
      && (SecChUaPlatform in headers ==> headers[SecChUaPlatform] == PlatformHint(Windows))
    ensures forall k | k in FetchKeys ::
      (k in headers) == !IsLegacyIE(Detected(ua)) && (k in headers ==> headers[k] == Baseline(ua)[k])
    ensures (Te in headers) == IsFirefox(Detected(ua))
    ensures Te in headers ==> headers[Te] == "trailers"
    ensures headers.Keys <= Baseline(ua).Keys + {Te}
    ensures !HasFamilyMarker(ua) && !IsMobile(ua) && !HasPlatformMarker(ua) ==> headers == Baseline(ua)
  {
    headers := Baseline(ua);
    headers := ApplyFamily(ua, headers);
    headers := ApplyMobile(ua, headers);
    headers := ApplyPlatform(ua, headers);
    var d, mobile, p := Detected(ua), IsMobile(ua), PlatformOf(ua);
    AssembledFixedKeys(ua, d, mobile, p);
    AssembledClientHint(ua, d, mobile, p);
    AssembledMobileHint(ua, d, mobile, p);
    AssembledPlatformHint(ua, d, mobile, p);
    AssembledFetchKeys(ua, d, mobile, p);
    AssembledTrailers(ua, d, mobile, p);
    if !HasFamilyMarker(ua) && !IsMobile(ua) && !HasPlatformMarker(ua) {
      FingerprintUnmarked(ua);
    }
  }

  /**
   * The browser-family chain: the branch `Branch` selects runs its version
   * pattern, and only a match changes the map.
   */
  method ApplyFamily(ua: string, h: Headers) returns (headers: Headers)
    ensures headers == WithFamily(h, Detected(ua))
  {
    headers := RunBranch(ua, h, Branch(ua));
  }

  /** The body of the branch for family `f`. */
  method RunBranch(ua: string, h: Headers, f: Family) returns (headers: Headers)
    ensures headers == WithFamily(h, Recognise(ua, f))
  {
    headers := h;
    match f
    case FirefoxFamily =>
      var m := Find(ua, "Firefox/", 1);
      if m.Some? {
        headers := headers - {SecChUa, SecChUaPlatform};
        headers := headers[Accept := BaselineAccept];
        headers := headers[Te := "trailers"];
      }
      assert headers == WithFamily(h, Recognise(ua, FirefoxFamily));
    case SafariFamily =>
      var m := Find(ua, "Version/", 2);
      if m.Some? {
        var version := JoinOn(m.value, '.');
        headers := headers[SecChUa := SafariHint(version)];
        headers := headers[Accept := SafariAccept];
      }
      assert headers == WithFamily(h, Recognise(ua, SafariFamily));
    case EdgeFamily =>
      var m := Find(ua, "Edg/", 4);
      if m.Some? {
        var major := SplitOn(JoinOn(m.value, '.'), '.')[0];
        MajorComponent(m.value);
        headers := headers[SecChUa := EdgeHint(major)];
      }
      assert headers == WithFamily(h, Recognise(ua, EdgeFamily));
    case OperaFamily =>
      var m := Find(ua, "OPR/", 4);
      if m.None? {
        m := Find(ua, "Opera/", 2);
      }
      if m.Some? {
        var major := SplitOn(JoinOn(m.value, '.'), '.')[0];
        MajorComponent(m.value);
        headers := headers[SecChUa := OperaHint(major)];
      }
      assert headers == WithFamily(h, Recognise(ua, OperaFamily));
    case ChromeFamily =>
      var m := Find(ua, "Chrome/", 1);
      if m.Some? {
        headers := headers[SecChUa := ChromeHint(m.value[0])];
      }
      assert headers == WithFamily(h, Recognise(ua, ChromeFamily));
    case LegacyIEFamily =>
      var m := Find(ua, "MSIE ", 2);
      if m.None? {
        m := Find(ua, "rv:", 2);
      }
      if m.Some? {
        headers := headers - {SecChUa, SecChUaPlatform};
        headers := headers - FetchKeys;
        headers := headers[Accept := LegacyAccept];
      }
      assert headers == WithFamily(h, Recognise(ua, LegacyIEFamily));
    case NoFamily =>
  }

  /** The mobile hint: `"?1"` when a mobile or tablet marker occurs. */
  method ApplyMobile(ua: string, h: Headers) returns (headers: Headers)
    ensures headers == WithMobile(h, IsMobile(ua))
  {
    headers := h;
    if Contains(LowerAscii(ua), "mobile") || Contains(ua, "iPhone") || Contains(ua, "iPad")
      || Contains(ua, "iPod") || Contains(ua, "Android")
    {
      headers := headers[SecChUaMobile := "?1"];
    }
  }

  /** The platform `if`/`else if` chain. */
  method ApplyPlatform(ua: string, h: Headers) returns (headers: Headers)
    ensures headers == WithPlatform(h, PlatformOf(ua))
  {
    headers := h;
    if Contains(ua, "Windows") {
      headers := headers[SecChUaPlatform := PlatformHint(Windows)];
    } else if Contains(ua, "Macintosh") || Contains(ua, "Mac OS X") {
      headers := headers[SecChUaPlatform := PlatformHint(MacOS)];
    } else if Contains(ua, "Linux") && !Contains(ua, "Android") {
      headers := headers[SecChUaPlatform := PlatformHint(Linux)];
    } else if Contains(ua, "Android") {
      headers := headers[SecChUaPlatform := PlatformHint(Android)];
    } else if Contains(ua, "iPhone") || Contains(ua, "iPad") || Contains(ua, "iPod") {
      headers := headers[SecChUaPlatform := PlatformHint(IOS)];
    }
  }
}
