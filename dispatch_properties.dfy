/** What `check_response` promises: nothing for a missing response; otherwise the
    checks run in a fixed order, the body is parsed at most once and only when no
    markup was supplied, the text-only checks run exactly for text responses, and
    the caller test stops the Rails probe from re-entering the scanner a second
    time, so one scan runs the probe exactly once. */
module DispatchProperties {
  import opened Text
  import opened Findings
  import opened ResponseScanner
  import CharsetProperties

  /** How many times the Rails probe runs in a trace, counting the probes inside
      the scans that probes run. */
  function ProbeRuns(calls: seq<Call>): nat
    decreases calls
  {
    if calls == [] then 0 else StepProbeRuns(calls[0]) + ProbeRuns(calls[1..])
  }

  /** How many times the Rails probe runs in one step. */
  function StepProbeRuns(c: Call): nat
    decreases c
  {
    match c
    case RailsProbe(_, nested) => 1 + ProbeRuns(nested)
    case _ => 0
  }

  /** Probe runs add up over concatenated traces. */
  lemma {:induction false} ProbeRunsAppend(a: seq<Call>, b: seq<Call>)
    ensures ProbeRuns(a + b) == ProbeRuns(a) + ProbeRuns(b)
    decreases a
  {
    if a == [] {
      assert a + b == b;
    } else {
      ProbeRunsAppend(a[1..], b);
      assert (a + b)[1..] == a[1..] + b;
    }
  }

  /** A trace with no probe step runs no probe. */
  lemma {:induction false} NoProbeStep(calls: seq<Call>)
    requires forall i :: 0 <= i < |calls| ==> !calls[i].RailsProbe?
    ensures ProbeRuns(calls) == 0
    decreases calls
  {
    if calls != [] {
      NoProbeStep(calls[1..]);
    }
  }

  /** Without a response there is nothing to scan: no findings, no steps. */
  lemma NoResponseNoScan(env: Collaborators, url: string, soup: Option<Markup>, calledFromProbe: bool)
    ensures Dispatch(env, url, None, soup, calledFromProbe) == Scan([], [])
  {
  }

  /** The top-level steps of a scan of a response: the raw response is built and
      the text test made first, then the text-only checks, the header and cookie
      checks, the probe, and the charset check last. */
  lemma StepsShape(env: Collaborators, url: string, res: Response, soup: Option<Markup>, calledFromProbe: bool)
    ensures var s := Dispatch(env, url, Some(res), soup, calledFromProbe).calls;
      var probe := if calledFromProbe then [] else Probe(env, url).calls;
      && s == [BuildRaw, IsText] + TextScan(env, url, res, env.buildRaw(res), soup).calls + [HeaderIssues, CookieIssues] + probe + [Charset]
      && |TextScan(env, url, res, env.buildRaw(res), soup).calls| <= 5
      && |probe| <= 1
      && (forall i :: 0 <= i < |probe| ==> probe[i].RailsProbe?)
  {
  }

  /** The frame every scan of a response keeps: first the raw response and the
      text test, last the charset check, and the header and cookie checks always. */
  lemma AlwaysRun(env: Collaborators, url: string, res: Response, soup: Option<Markup>, calledFromProbe: bool)
    ensures var s := Dispatch(env, url, Some(res), soup, calledFromProbe).calls;
      && |s| >= 5
      && s[0] == BuildRaw && s[1] == IsText && s[|s| - 1] == Charset
      && HeaderIssues in s && CookieIssues in s
  {
  }

  /** In a trace of that shape whose probe part holds only probe steps, the
      text-only checks are there exactly for a text response. */
  lemma TextOnlyStepsOf(s: seq<Call>, probe: seq<Call>, env: Collaborators, url: string, res: Response,
                        soup: Option<Markup>)
    requires forall i :: 0 <= i < |probe| ==> probe[i].RailsProbe?
    requires s == [BuildRaw, IsText] + TextScan(env, url, res, env.buildRaw(res), soup).calls + [HeaderIssues, CookieIssues] + probe + [Charset]
    ensures CacheHeaders in s <==> env.isText(res)
    ensures ErrorCheck(res.text) in s <==> env.isText(res)
    ensures TomcatVersion in s <==> env.isText(res)
    ensures RetireJs(MarkupUsed(env, res, soup)) in s <==> env.isText(res)
  {
    assert CacheHeaders !in probe && ErrorCheck(res.text) !in probe && TomcatVersion !in probe;
    assert RetireJs(MarkupUsed(env, res, soup)) !in probe;
  }

  /** The text checks parse the body once when the caller gave no markup. */
  lemma TextParseCount(env: Collaborators, url: string, res: Response, soup: Option<Markup>)
    ensures multiset(TextScan(env, url, res, env.buildRaw(res), soup).calls)[Parse(res.text)] ==
              if env.isText(res) && soup.None? then 1 else 0
  {
  }

  /** In a trace of the scan's shape, a parse step occurs as often as in its text
      part: the fixed steps and the probe steps are not parses. */
  lemma ParseCountOf(s: seq<Call>, text: seq<Call>, probe: seq<Call>, body: string)
    requires Parse(body) !in probe
    requires s == [BuildRaw, IsText] + text + [HeaderIssues, CookieIssues] + probe + [Charset]
    ensures multiset(s)[Parse(body)] == multiset(text)[Parse(body)]
  {
    var p := Parse(body);
    var a := [BuildRaw, IsText] + text;
    var b := a + [HeaderIssues, CookieIssues];
    var c := b + probe;
    assert multiset(a)[p] == multiset(text)[p];
    assert multiset(b)[p] == multiset(a)[p];
    assert multiset(c)[p] == multiset(b)[p];
    assert multiset(s)[p] == multiset(c)[p];
  }

  /** In a trace of that shape every parse step is of the response's body and
      every retire.js step is of the one markup. */
  lemma OneBodyOneMarkupOf(s: seq<Call>, probe: seq<Call>, env: Collaborators, url: string, res: Response,
                           soup: Option<Markup>)
    requires forall i :: 0 <= i < |probe| ==> probe[i].RailsProbe?
    requires s == [BuildRaw, IsText] + TextScan(env, url, res, env.buildRaw(res), soup).calls + [HeaderIssues, CookieIssues] + probe + [Charset]
    ensures forall body :: Parse(body) in s ==> body == res.text
    ensures forall markup :: RetireJs(markup) in s ==> markup == MarkupUsed(env, res, soup)
  {
    assert forall body :: Parse(body) !in probe;
    assert forall markup :: RetireJs(markup) !in probe;
  }

  /** The text-only checks, and the parse, run exactly for text responses: the
      body is parsed once and only when the caller supplied no markup, and every
      retire.js step works on that one markup. */
  lemma TextChecks(env: Collaborators, url: string, res: Response, soup: Option<Markup>, calledFromProbe: bool)
    ensures var s := Dispatch(env, url, Some(res), soup, calledFromProbe).calls;
      && (CacheHeaders in s <==> env.isText(res))
      && (ErrorCheck(res.text) in s <==> env.isText(res))
      && (TomcatVersion in s <==> env.isText(res))
      && (RetireJs(MarkupUsed(env, res, soup)) in s <==> env.isText(res))
      && multiset(s)[Parse(res.text)] == (if env.isText(res) && soup.None? then 1 else 0)
      && (forall body :: Parse(body) in s ==> body == res.text)
      && (forall markup :: RetireJs(markup) in s ==> markup == MarkupUsed(env, res, soup))
  {
    StepsShape(env, url, res, soup, calledFromProbe);
    var s := Dispatch(env, url, Some(res), soup, calledFromProbe).calls;
    var probe := if calledFromProbe then [] else Probe(env, url).calls;
    TextOnlyStepsOf(s, probe, env, url, res, soup);
    TextParseCount(env, url, res, soup);
    assert Parse(res.text) !in probe;
    ParseCountOf(s, TextScan(env, url, res, env.buildRaw(res), soup).calls, probe, res.text);
    OneBodyOneMarkupOf(s, probe, env, url, res, soup);
  }

  /** The text checks never probe. */
  lemma TextScanDoesNotProbe(env: Collaborators, url: string, res: Response, soup: Option<Markup>)
    ensures forall i :: 0 <= i < |TextScan(env, url, res, env.buildRaw(res), soup).calls| ==> !TextScan(env, url, res, env.buildRaw(res), soup).calls[i].RailsProbe?
  {
  }

  /** In a trace of the scan's shape, the probe steps are those of its probe part. */
  lemma ProbeStepsOf(s: seq<Call>, text: seq<Call>, probe: seq<Call>)
    requires forall i :: 0 <= i < |text| ==> !text[i].RailsProbe?
    requires forall i :: 0 <= i < |probe| ==> probe[i].RailsProbe?
    requires s == [BuildRaw, IsText] + text + [HeaderIssues, CookieIssues] + probe + [Charset]
    ensures (exists i :: 0 <= i < |s| && s[i].RailsProbe?) <==> probe != []
    ensures ProbeRuns(s) == ProbeRuns(probe)
  {
    var head := [BuildRaw, IsText] + text + [HeaderIssues, CookieIssues];
    assert forall i :: 0 <= i < |head| ==> !head[i].RailsProbe?;
    if probe != [] {
      assert s[|head|] == probe[0];
    }
    forall i | 0 <= i < |s| && s[i].RailsProbe?
      ensures probe != []
    {
      if i < |head| {
        assert s[i] == head[i];
      } else if i < |head| + |probe| {
        assert s[i] == probe[i - |head|];
      } else {
        assert s[i] == Charset;
      }
    }
    ProbeRunsAppend(head + probe, [Charset]);
    ProbeRunsAppend(head, probe);
    NoProbeStep(head);
    NoProbeStep([Charset]);
  }

  /** The probe step is taken exactly when the caller is not the probe. */
  lemma ProbeStepIff(env: Collaborators, url: string, res: Response, soup: Option<Markup>, calledFromProbe: bool)
    ensures var s := Dispatch(env, url, Some(res), soup, calledFromProbe).calls;
      (exists i :: 0 <= i < |s| && s[i].RailsProbe?) <==> !calledFromProbe
  {
    StepsShape(env, url, res, soup, calledFromProbe);
    TextScanDoesNotProbe(env, url, res, soup);
    var probe := if calledFromProbe then [] else Probe(env, url).calls;
    ProbeStepsOf(Dispatch(env, url, Some(res), soup, calledFromProbe).calls, TextScan(env, url, res, env.buildRaw(res), soup).calls, probe);
  }

  /** The scan a probe runs on its own response never probes again. */
  lemma GuardedScanDoesNotProbe(env: Collaborators, url: string, res: Option<Response>, soup: Option<Markup>)
    ensures ProbeRuns(Dispatch(env, url, res, soup, true).calls) == 0
  {
    if res.Some? {
      StepsShape(env, url, res.value, soup, true);
      TextScanDoesNotProbe(env, url, res.value, soup);
      ProbeStepsOf(Dispatch(env, url, res, soup, true).calls, TextScan(env, url, res.value, env.buildRaw(res.value), soup).calls, []);
    }
  }

  /** The probe step of an ordinary scan runs the probe once, and its nested scan
      runs it no more. */
  lemma ProbeRunsOnceUnguarded(env: Collaborators, url: string, res: Response, soup: Option<Markup>)
    ensures ProbeRuns(Dispatch(env, url, Some(res), soup, false).calls) == 1
  {
    StepsShape(env, url, res, soup, false);
    TextScanDoesNotProbe(env, url, res, soup);
    var probe := Probe(env, url).calls;
    ProbeStepsOf(Dispatch(env, url, Some(res), soup, false).calls, TextScan(env, url, res, env.buildRaw(res), soup).calls, probe);
    var run := env.railsProbe(url);
    GuardedScanDoesNotProbe(env, run.target, run.response, None);
    assert probe[1..] == [];
  }

  /** The recursion guard bounds the re-entry: a scan of a response that is not
      itself run by the probe runs the probe exactly once, and the probe's own
      scan runs it not at all. */
  lemma ProbeRunsOnce(env: Collaborators, url: string, res: Option<Response>, soup: Option<Markup>,
                      calledFromProbe: bool)
    ensures ProbeRuns(Dispatch(env, url, res, soup, calledFromProbe).calls) ==
              if res.Some? && !calledFromProbe then 1 else 0
  {
    if calledFromProbe {
      GuardedScanDoesNotProbe(env, url, res, soup);
    } else if res.Some? {
      ProbeRunsOnceUnguarded(env, url, res.value, soup);
    }
  }

  /** The findings come in the source's order: the text-only checks, the header
      and cookie checks, the probe's findings, and the charset check last. */
  lemma ScanFindingsOrder(env: Collaborators, url: string, res: Response, soup: Option<Markup>,
                          calledFromProbe: bool)
    ensures var raw := env.buildRaw(res);
      var text := if env.isText(res)
                  then env.retireJs(MarkupUsed(env, res, soup), url, raw) + env.tomcatVersion(url, res)
                         + env.errorCheck(url, res, res.text) + CacheHeaderFindings(url, res)
                  else [];
      var probe := if calledFromProbe then [] else Probe(env, url).findings;
      Dispatch(env, url, Some(res), soup, calledFromProbe).findings ==
        text + env.headerIssues(res, raw, url) + env.cookieIssues(res, raw, url) + probe
          + CharsetFindings(url, res, raw)
  {
  }

  /** The caller test changes nothing but the probe's contribution: the scan run
      by the probe reports what an ordinary scan reports, minus the probe's own
      findings, which sit just before the charset findings. */
  lemma GuardDropsOnlyProbe(env: Collaborators, url: string, res: Response, soup: Option<Markup>)
    ensures var raw := env.buildRaw(res);
      var charset := CharsetFindings(url, res, raw);
      var guarded := Dispatch(env, url, Some(res), soup, true).findings;
      var ordinary := Dispatch(env, url, Some(res), soup, false).findings;
      && |charset| <= |guarded|
      && ordinary == guarded[..|guarded| - |charset|] + Probe(env, url).findings + charset
  {
    var raw := env.buildRaw(res);
    var markupScan := TextScan(env, url, res, raw, soup);
    var before := markupScan.findings + env.headerIssues(res, raw, url) + env.cookieIssues(res, raw, url);
    var charset := CharsetFindings(url, res, raw);
    var guarded := Dispatch(env, url, Some(res), soup, true).findings;
    assert guarded == before + [] + charset;
    assert guarded[..|guarded| - |charset|] == before;
  }

  /** An HTML page with a non-empty body and none of the cache headers, served as
      text: the cache check reports the three missing headers in order, its
      findings sit in the scan right after those of retire.js, Tomcat and the error
      checker, and the scan ends with the missing-charset finding. */
  lemma BareHtmlPage(env: Collaborators, url: string, res: Response, soup: Option<Markup>,
                     calledFromProbe: bool)
    requires env.isText(res) && |res.content| > 0
    requires Header(res, "cache-control").None? && Header(res, "expires").None? && Header(res, "pragma").None?
    requires Header(res, "content-type").Some? && Lower(Header(res, "content-type").value) == "text/html"
    ensures Kinds(CacheHeaderFindings(url, res)) ==
              [HttpHeaderCacheControlMissing, HttpHeaderExpiresMissing, HttpHeaderPragmaNoCacheMissing]
    ensures var fs := Dispatch(env, url, Some(res), soup, calledFromProbe).findings;
      var pre := env.retireJs(MarkupUsed(env, res, soup), url, env.buildRaw(res)) + env.tomcatVersion(url, res)
                   + env.errorCheck(url, res, res.text);
      var cache := CacheHeaderFindings(url, res);
      && |pre| + |cache| <= |fs|
      && fs[|pre|..|pre| + |cache|] == cache
    ensures var fs := Dispatch(env, url, Some(res), soup, calledFromProbe).findings;
      |fs| > 0 && fs[|fs| - 1].vuln == HttpHeaderContentTypeNoCharset
  {
    CharsetProperties.HtmlWithoutCharsetReported(url, res, env.buildRaw(res), Header(res, "content-type").value);
    ScanFindingsOrder(env, url, res, soup, calledFromProbe);
    var fs := Dispatch(env, url, Some(res), soup, calledFromProbe).findings;
    var pre := env.retireJs(MarkupUsed(env, res, soup), url, env.buildRaw(res)) + env.tomcatVersion(url, res)
                 + env.errorCheck(url, res, res.text);
    var cache := CacheHeaderFindings(url, res);
    var rest := fs[|pre| + |cache|..];
    assert fs == pre + cache + rest;
  }
}
