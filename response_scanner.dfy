/** The response scanner of yawast (`yawast/scanner/plugins/http/response_scanner.py`):
    it turns one HTTP response into the ordered list of findings the scan reports
    for it. The local cache-header and charset checks are modelled exactly; every
    other check it runs belongs to a collaborator and is a function value in
    `Collaborators`. Each of the three source functions builds its list step by
    step, and is modelled as a method doing the same, proved equal to a pure
    specification function (`CacheHeaderFindings`, `CharsetFindings`, `Dispatch`)
    about which the lemmas in the property modules are stated. */
module ResponseScanner {
  import opened Text
  import opened Findings

  /** A parsed HTML document (BeautifulSoup); its structure is of no concern here. */
  type Markup(==)

  /** What the Rails CVE-2019-5418 probe does before it re-enters the scanner: the
      URL it re-scans, the response it fetched (`None` when it fetched nothing),
      and the findings it raises itself. */
  datatype ProbeRun = ProbeRun(target: string, response: Option<Response>, own: seq<Finding>)

  /** The functions the scanner calls but does not own. */
  datatype Collaborators = Collaborators(
    buildRaw: Response -> string,                       // network.http_build_raw_response
    isText: Response -> bool,                           // http_utils.is_text
    parse: string -> Markup,                            // BeautifulSoup(body, "html.parser")
    retireJs: (Markup, string, string) -> seq<Finding>, // retirejs.get_results(soup, url, raw)
    tomcatVersion: (string, Response) -> seq<Finding>,  // apache_tomcat.get_version(url, res)
    errorCheck: (string, Response, string) -> seq<Finding>, // error_checker.check_response(url, res, body)
    headerIssues: (Response, string, string) -> seq<Finding>, // http_basic.get_header_issues(res, raw, url)
    cookieIssues: (Response, string, string) -> seq<Finding>, // http_basic.get_cookie_issues(res, raw, url)
    railsProbe: string -> ProbeRun)                     // the request part of rails.check_cve_2019_5418(url)

  /** One step of a scan, in the order the scanner takes it. A probe step records
      the steps of the scan the probe ran on its own response. */
  datatype Call =
    | BuildRaw
    | IsText
    | Parse(body: string)
    | RetireJs(markup: Markup)
    | TomcatVersion
    | ErrorCheck(body: string)
    | CacheHeaders
    | HeaderIssues
    | CookieIssues
    | RailsProbe(url: string, nested: seq<Call>)
    | Charset

  /** The findings of one scan and the steps it took. */
  datatype Scan = Scan(findings: seq<Finding>, calls: seq<Call>)

  // ---------------------------------------------------------------------------
  // _check_cache_headers
  // ---------------------------------------------------------------------------

  /** Lines 91-98: "public" in the lower-cased `Cache-Control` value `v`. */
  function PublicDirective(url: string, res: Response, v: string): seq<Finding>
  {
    if Contains(v, "public")
    then [FromResponseEvidence(res, "Cache-Control: Public: " + url, HttpHeaderCacheControlPublic)]
    else []
  }

  /** Lines 100-107: "no-cache" not in the lower-cased value `v`. */
  function NoCacheDirective(url: string, res: Response, v: string): seq<Finding>
  {
    if !Contains(v, "no-cache")
    then [FromResponseEvidence(res, "Cache-Control: no-cache Not Found: " + url, HttpHeaderCacheControlNoCacheMissing)]
    else []
  }

  /** Lines 109-116: "no-store" not in the lower-cased value `v`. */
  function NoStoreDirective(url: string, res: Response, v: string): seq<Finding>
  {
    if !Contains(v, "no-store")
    then [FromResponseEvidence(res, "Cache-Control: no-store Not Found: " + url, HttpHeaderCacheControlNoStoreMissing)]
    else []
  }

  /** Lines 118-125: "private" not in the lower-cased value `v`. */
  function PrivateDirective(url: string, res: Response, v: string): seq<Finding>
  {
    if !Contains(v, "private")
    then [FromResponseEvidence(res, "Cache-Control: private Not Found: " + url, HttpHeaderCacheControlPrivateMissing)]
    else []
  }

  /** The findings about `Cache-Control`: when it is present, the four directive
      tests on its lower-cased value, in source order; when it is absent, a single
      missing-header finding. */
  function CacheControlFindings(url: string, res: Response): seq<Finding>
  {
    match Header(res, "cache-control")
    case Some(value) =>
      var v := Lower(value);
      PublicDirective(url, res, v) + NoCacheDirective(url, res, v)
        + NoStoreDirective(url, res, v) + PrivateDirective(url, res, v)
    case None =>
      [FromResponseEvidence(res, "Cache-Control Header Not Found: " + url, HttpHeaderCacheControlMissing)]
  }

  /** The findings about `Expires`: only its absence is reported. */
  function ExpiresFindings(url: string, res: Response): seq<Finding>
  {
    if Header(res, "expires").None?
    then [FromResponseEvidence(res, "Expires Header Not Found: " + url, HttpHeaderExpiresMissing)]
    else []
  }

  /** The findings about `Pragma`: absent, or its value as received (not
      lower-cased) does not contain "no-cache". */
  function PragmaFindings(url: string, res: Response): seq<Finding>
  {
    var pragma := Header(res, "pragma");
    if pragma.None? || !Contains(pragma.value, "no-cache")
    then [FromResponseEvidence(res, "Pragma: no-cache Not Found: " + url, HttpHeaderPragmaNoCacheMissing)]
    else []
  }

  /** What `_check_cache_headers` returns. */
  function CacheHeaderFindings(url: string, res: Response): seq<Finding>
  {
    CacheControlFindings(url, res) + ExpiresFindings(url, res) + PragmaFindings(url, res)
  }

  /** `_check_cache_headers(url, res)`. */
  method CheckCacheHeaders(url: string, res: Response) returns (results: seq<Finding>)
    ensures results == CacheHeaderFindings(url, res)
  {
    results := [];

    var cacheControl := Header(res, "cache-control");
    if cacheControl.Some? {
      if Contains(Lower(cacheControl.value), "public") {
        results := results + [FromResponseEvidence(res, "Cache-Control: Public: " + url, HttpHeaderCacheControlPublic)];
      }
      if !Contains(Lower(cacheControl.value), "no-cache") {
        results := results + [FromResponseEvidence(res, "Cache-Control: no-cache Not Found: " + url, HttpHeaderCacheControlNoCacheMissing)];
      }
      if !Contains(Lower(cacheControl.value), "no-store") {
        results := results + [FromResponseEvidence(res, "Cache-Control: no-store Not Found: " + url, HttpHeaderCacheControlNoStoreMissing)];
      }
      if !Contains(Lower(cacheControl.value), "private") {
        results := results + [FromResponseEvidence(res, "Cache-Control: private Not Found: " + url, HttpHeaderCacheControlPrivateMissing)];
      }
    } else {
      results := results + [FromResponseEvidence(res, "Cache-Control Header Not Found: " + url, HttpHeaderCacheControlMissing)];
    }
    assert results == CacheControlFindings(url, res);

    if Header(res, "expires").None? {
      results := results + [FromResponseEvidence(res, "Expires Header Not Found: " + url, HttpHeaderExpiresMissing)];
    }
    assert results == CacheControlFindings(url, res) + ExpiresFindings(url, res);

    var pragma := Header(res, "pragma");
    if pragma.None? || !Contains(pragma.value, "no-cache") {
      results := results + [FromResponseEvidence(res, "Pragma: no-cache Not Found: " + url, HttpHeaderPragmaNoCacheMissing)];
    }
  }

  // ---------------------------------------------------------------------------
  // _check_charset
  // ---------------------------------------------------------------------------

  /** The charset test on a `Content-Type` value: lower-cased, it names HTML and
      does not declare a charset. */
  predicate HtmlWithoutCharset(contentType: string)
  {
    !Contains(Lower(contentType), "charset") && Contains(Lower(contentType), "text/html")
  }

  /** What `_check_charset(url, res, raw)` returns: nothing for an empty body; for a
      `Content-Type` naming HTML without a charset, one finding whose evidence is
      the header value and `raw`; for a missing `Content-Type`, one finding whose
      message names the URL, request method and status code. */
  function CharsetFindings(url: string, res: Response, raw: string): seq<Finding>
  {
    if |res.content| == 0 then []
    else match Header(res, "content-type")
      case Some(value) =>
        if HtmlWithoutCharset(value)
        then [Finding("Charset Not Defined in '" + value + "' at " + url,
                      HttpHeaderContentTypeNoCharset, url, Values([value, raw]))]
        else []
      case None =>
        [Finding("Content-Type Missing: " + url + " (" + res.requestMethod + " - " + Decimal(res.status) + ")",
                 HttpHeaderContentTypeMissing, url, Raw(raw))]
  }

  /** `_check_charset(url, res, raw)`. */
  method CheckCharset(url: string, res: Response, raw: string) returns (results: seq<Finding>)
    ensures results == CharsetFindings(url, res, raw)
  {
    results := [];

    if |res.content| == 0 {
      return;
    }

    var header := Header(res, "content-type");
    if header.Some? {
      var contentType := Lower(header.value);
      if !Contains(contentType, "charset") && Contains(contentType, "text/html") {
        results := results + [Finding("Charset Not Defined in '" + header.value + "' at " + url,
                                      HttpHeaderContentTypeNoCharset, url, Values([header.value, raw]))];
      }
    } else {
      results := results + [Finding("Content-Type Missing: " + url + " (" + res.requestMethod + " - " + Decimal(res.status) + ")",
                                    HttpHeaderContentTypeMissing, url, Raw(raw))];
    }
  }

  // ---------------------------------------------------------------------------
  // check_response and the recursion guard
  // ---------------------------------------------------------------------------

  /** The markup the text checks work on: the caller's `soup`, if any, otherwise
      the body parsed. */
  function MarkupUsed(env: Collaborators, res: Response, soup: Option<Markup>): Markup
  {
    if soup.Some? then soup.value else env.parse(res.text)
  }

  /** The checks a text response gets: retire.js, on the caller's markup or else on
      the body parsed once; the Tomcat version check; the error page check, on
      the decoded body; and the local cache-header check. Only retire.js sees the
      markup, and nothing is parsed when the caller supplied it. */
  function MarkupScan(env: Collaborators, url: string, res: Response, raw: string, soup: Option<Markup>): Scan
  {
    var body := res.text;
    var markup := MarkupUsed(env, res, soup);
    Scan(env.retireJs(markup, url, raw) + env.tomcatVersion(url, res)
           + env.errorCheck(url, res, body) + CacheHeaderFindings(url, res),
         (if soup.Some? then [] else [Parse(body)])
           + [RetireJs(markup), TomcatVersion, ErrorCheck(body), CacheHeaders])
  }

  /** The text-only part of a scan: the markup checks for a text response, nothing
      otherwise. */
  function TextScan(env: Collaborators, url: string, res: Response, raw: string, soup: Option<Markup>): Scan
  {
    if env.isText(res) then MarkupScan(env, url, res, raw, soup) else Scan([], [])
  }

  /** What `check_response(url, res, soup)` returns, and the steps it takes.
      `calledFromProbe` stands for the source's look at its caller's name: it is
      true exactly when the Rails CVE-2019-5418 probe is the caller. */
  function Dispatch(env: Collaborators, url: string, res: Option<Response>, soup: Option<Markup>,
                    calledFromProbe: bool): Scan
    decreases if calledFromProbe then 0 else 2
  {
    match res
    case None => Scan([], [])
    case Some(r) =>
      var raw := env.buildRaw(r);
      var markupScan := TextScan(env, url, r, raw, soup);
      var probe := if calledFromProbe then Scan([], []) else Probe(env, url);
      Scan(markupScan.findings + env.headerIssues(r, raw, url) + env.cookieIssues(r, raw, url)
             + probe.findings + CharsetFindings(url, r, raw),
           [BuildRaw, IsText] + markupScan.calls + [HeaderIssues, CookieIssues]
             + probe.calls + [Charset])
  }

  /** `rails.check_cve_2019_5418(url)`: the probe's own findings, then those of the
      scan of its response, which it runs as the caller the guard recognises. */
  function Probe(env: Collaborators, url: string): Scan
    decreases 1
  {
    var run := env.railsProbe(url);
    var nested := Dispatch(env, run.target, run.response, None, true);
    Scan(run.own + nested.findings, [RailsProbe(url, nested.calls)])
  }

  /** `check_response(url, res, soup)`, with the caller test as `calledFromProbe`.
      The ghost `calls` records the steps taken. */
  method CheckResponse(env: Collaborators, url: string, res: Option<Response>, soup: Option<Markup>,
                       calledFromProbe: bool)
    returns (results: seq<Finding>, ghost calls: seq<Call>)
    ensures results == Dispatch(env, url, res, soup, calledFromProbe).findings
    ensures calls == Dispatch(env, url, res, soup, calledFromProbe).calls
    decreases if calledFromProbe then 0 else 2
  {
    if res.None? {
      return [], [];
    }
    var r := res.value;

    results := [];

    var rawFull := env.buildRaw(r);
    var textual := env.isText(r);
    calls := [BuildRaw, IsText];
    if textual {
      var body := r.text;

      var markup: Markup;
      if soup.None? {
        markup := env.parse(body);
        calls := calls + [Parse(body)];
      } else {
        markup := soup.value;
      }

      assert results + env.retireJs(markup, url, rawFull) == env.retireJs(markup, url, rawFull);
      results := results + env.retireJs(markup, url, rawFull);
      results := results + env.tomcatVersion(url, r);
      results := results + env.errorCheck(url, r, body);

      var cacheResults := CheckCacheHeaders(url, r);
      results := results + cacheResults;
      calls := calls + [RetireJs(markup), TomcatVersion, ErrorCheck(body), CacheHeaders];
    }
    ghost var markupScan := TextScan(env, url, r, rawFull, soup);
    assert results == markupScan.findings;
    assert calls == [BuildRaw, IsText] + markupScan.calls;

    results := results + env.headerIssues(r, rawFull, url);
    results := results + env.cookieIssues(r, rawFull, url);
    calls := calls + [HeaderIssues, CookieIssues];
    ghost var beforeProbe := Scan(results, calls);

    // the recursion guard: only a scan the probe did not start runs the probe
    if !calledFromProbe {
      var probeResults, probeCalls := CheckCve2019_5418(env, url);
      results := results + probeResults;
      calls := calls + probeCalls;
    }
    ghost var probe := if calledFromProbe then Scan([], []) else Probe(env, url);
    assert results == beforeProbe.findings + probe.findings;
    assert calls == beforeProbe.calls + probe.calls;

    var charsetResults := CheckCharset(url, r, rawFull);
    results := results + charsetResults;
    calls := calls + [Charset];
  }

  /** The Rails CVE-2019-5418 probe as far as the scanner sees it: it runs its
      request, then scans the response through `CheckResponse` as the caller the
      recursion guard recognises. */
  method CheckCve2019_5418(env: Collaborators, url: string)
    returns (results: seq<Finding>, ghost calls: seq<Call>)
    ensures results == Probe(env, url).findings
    ensures calls == Probe(env, url).calls
    decreases 1
  {
    var run := env.railsProbe(url);
    var nested, nestedCalls := CheckResponse(env, run.target, run.response, None, true);
    results := run.own + nested;
    calls := [RailsProbe(url, nestedCalls)];
  }
}
