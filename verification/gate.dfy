/** The environment tests evaluated once when mod.ts loads (`isLocal`,
    `isRobot`, `isFrenchOrNull`, the endpoint read from the script URL) and
    the line-84 decision between POSTing a payload and logging it locally. */
module Gate {
  import opened Js
  import opened Text

  /** Where the script runs: outside a browser (`window` undefined), or in a
      page with its `location.href`, `location.hostname` and
      `navigator.userAgent`. */
  datatype Env = NotBrowser | Browser(href: string, hostname: string, userAgent: string)

  /** The hostnames listed as local. */
  const LoopbackHosts: seq<string> := ["localhost", "127.0.0.1", "[::1]"]

  /** The alternatives of the crawler regular expression, in lower case. */
  const RobotPatterns: seq<string> := ["bot", "googlebot", "crawler", "spider", "robot", "crawling"]

  /** `isLocal`: not in a browser, a listed loopback hostname, or a hostname
      containing `192.`. */
  function IsLocal(env: Env): (b: bool)
    ensures b <==> env.NotBrowser?
                   || env.hostname == "localhost" || env.hostname == "127.0.0.1" || env.hostname == "[::1]"
                   || exists i :: OccursAt(env.hostname, "192.", i)
  {
    !env.Browser? || env.hostname in LoopbackHosts || Contains(env.hostname, "192.")
  }

  /** The text the crawler test looks at: the user agent in a browser, the
      empty string elsewhere. */
  function TestedAgent(env: Env): string {
    if env.Browser? then env.userAgent else ""
  }

  /** Whether some pattern from `pats` occurs in `text`. */
  function AnyOccurs(text: string, pats: seq<string>): (b: bool)
    ensures b <==> exists k, i :: 0 <= k < |pats| && OccursAt(text, pats[k], i)
    decreases |pats|
  {
    if |pats| == 0 then false
    else if Contains(text, pats[0]) then true
    else
      var rest := AnyOccurs(text, pats[1..]);
      assert forall k, i :: 1 <= k < |pats| && OccursAt(text, pats[k], i) ==> OccursAt(text, pats[1..][k - 1], i);
      assert forall k, i :: 0 <= k < |pats| - 1 && OccursAt(text, pats[1..][k], i) ==> OccursAt(text, pats[k + 1], i);
      rest
  }

  /** `isRobot`: the case-insensitive regular expression
      `bot|googlebot|crawler|spider|robot|crawling` matches somewhere in the
      user agent. Without the `u` flag a JavaScript regular expression folds
      case only between ASCII letters, which is what `Lower` does. */
  function IsRobot(env: Env): (b: bool)
    ensures b <==> exists k, i :: 0 <= k < |RobotPatterns| && OccursAt(Lower(TestedAgent(env)), RobotPatterns[k], i)
    ensures env.NotBrowser? ==> !b
  {
    AnyOccurs(Lower(TestedAgent(env)), RobotPatterns)
  }

  /** `googlebot` and `robot` add nothing to the crawler test: a user agent is a
      robot exactly when it contains `bot`, `crawler`, `spider` or
      `crawling`, ignoring ASCII case. */
  lemma RobotCoreWords(env: Env)
    ensures var ua := Lower(TestedAgent(env));
            IsRobot(env) <==> Contains(ua, "bot") || Contains(ua, "crawler")
                              || Contains(ua, "spider") || Contains(ua, "crawling")
  {
    var ua := Lower(TestedAgent(env));
    assert OccursAt("googlebot", "bot", 6);
    assert OccursAt("robot", "bot", 2);
    if Contains(ua, "googlebot") {
      ContainsTransitive(ua, "googlebot", "bot");
    }
    if Contains(ua, "robot") {
      ContainsTransitive(ua, "robot", "bot");
    }
    assert RobotPatterns[0] == "bot" && RobotPatterns[2] == "crawler";
    assert RobotPatterns[3] == "spider" && RobotPatterns[5] == "crawling";
    assert RobotPatterns[1] == "googlebot" && RobotPatterns[4] == "robot";
  }

  /** `isFrenchOrNull(v)`: `v` is exactly the string `FR`, or falsy. */
  function IsFrenchOrNull(v: Value): (b: bool)
    ensures v.Str? ==> (b <==> v.s == "FR" || v.s == "")
    ensures Nullish(v) ==> b
    ensures v.Other? ==> (b <==> !v.truthy)
  {
    v == Str("FR") || !Truthy(v)
  }

  /** How the script's first statements end: the endpoint is resolved (and
      may be absent), or decoding it throws a `URIError` (a malformed escape
      such as `100%`), the script stops while loading and installs no hook. */
  datatype Startup = LoadFails | Loaded(endpoint: Option<string>)

  /** The configured endpoint: the decoded `endpoint` search parameter of the
      script URL when that parameter is present and non-empty, nothing
      otherwise. `raw` is the parameter (absent when missing) and `decode`
      stands for `decodeURIComponent`, giving `None` where it throws. */
  function ResolveEndpoint(raw: Option<string>, decode: string -> Option<string>): (r: Startup)
    ensures r.LoadFails? <==> raw.Some? && raw.value != "" && decode(raw.value).None?
    ensures r == Loaded(None) <==> raw.None? || raw.value == ""
    ensures r.Loaded? && r.endpoint.Some? ==> r.endpoint == decode(raw.value)
  {
    match raw
    case Some(r) =>
      if r == "" then Loaded(None)
      else if decode(r).None? then LoadFails
      else Loaded(decode(r))
    case None => Loaded(None)
  }

  /** The truthiness of `endpoint`. */
  predicate HasEndpoint(endpoint: Option<string>) {
    endpoint.Some? && endpoint.value != ""
  }

  /** Where a finished payload goes. */
  datatype Route = LogLocally | PostTo(url: string)

  /** The choice made for every finished payload: it is logged locally when
      the page is local, the visitor is a crawler, the country is not
      eligible or no endpoint is configured, and POSTed to the endpoint
      otherwise. */
  function Decide(env: Env, endpoint: Option<string>, country: Value): (r: Route)
    ensures r.PostTo? <==> !IsLocal(env) && !IsRobot(env) && IsFrenchOrNull(country) && HasEndpoint(endpoint)
    ensures r.PostTo? ==> r.url == endpoint.value
  {
    if IsLocal(env) || IsRobot(env) || !IsFrenchOrNull(country) || !HasEndpoint(endpoint) then LogLocally
    else PostTo(endpoint.value)
  }

  /** Any single failing condition keeps the payload off the network, whatever
      the other three say. */
  lemma AnyFailureLogsLocally(env: Env, endpoint: Option<string>, country: Value)
    requires IsLocal(env) || IsRobot(env) || !IsFrenchOrNull(country) || !HasEndpoint(endpoint)
    ensures Decide(env, endpoint, country) == LogLocally
  {
  }

  /** Eligible countries are exactly "FR" and the falsy values; in
      particular a failed trace (country `undefined`) is eligible and the
      test is case sensitive. */
  lemma CountryEligibility()
    ensures IsFrenchOrNull(Undefined) && IsFrenchOrNull(Str(""))
    ensures IsFrenchOrNull(Str("FR")) && !IsFrenchOrNull(Str("fr")) && !IsFrenchOrNull(Str("DE"))
  {
  }

  /** A crawler visiting a public page with an endpoint configured is never
      reported over the network. */
  lemma GooglebotNeverPosts(href: string, hostname: string, endpoint: Option<string>, country: Value)
    ensures Decide(Browser(href, hostname, "Mozilla/5.0 (compatible; Googlebot/2.1)"), endpoint, country) == LogLocally
  {
    var ua := "Mozilla/5.0 (compatible; Googlebot/2.1)";
    var l := Lower(ua);
    assert l[31] == 'b' && l[32] == 'o' && l[33] == 't';
    assert l[31..34] == "bot";
    assert OccursAt(l, RobotPatterns[0], 31);
  }
}
