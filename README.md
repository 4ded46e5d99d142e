# yawast response scanner, modelled in Dafny

yawast runs a response scanner on every HTTP response it fetches. The scanner
(`yawast/scanner/plugins/http/response_scanner.py`) turns one response into an
ordered list of findings.

The project models its three functions:

- `check_response` is the dispatcher. It returns nothing for a missing
  response. Otherwise it runs, in this order:
  1. for text responses only: retire.js, on the caller's markup or else on the
     body parsed once; the Tomcat version check; the error page check, on the
     decoded body; and the local cache-header check;
  2. always: the header checks and the cookie checks;
  3. the Rails CVE-2019-5418 probe, unless the probe is the caller (the
     recursion guard);
  4. the local charset check, last.
- `_check_cache_headers` tests `Cache-Control`, `Expires` and `Pragma`.
  - `Cache-Control` is tested with case-insensitive substring tests on the
    lower-cased value.
  - `Pragma` is tested case-sensitively on the value as received.
- `_check_charset` tests `Content-Type`, and only when the body is not empty.

Each source function builds a local list by appending to it step by step, and
each is modelled the same way. A method appends to a local `seq<Finding>` and
is proved equal to a pure specification function:

| method | specification function |
|---|---|
| `CheckResponse` | `Dispatch` |
| `CheckCharset` | `CharsetFindings` |
| `CheckCacheHeaders` | `CacheHeaderFindings` |

The lemmas in the three property modules are stated about those functions.

Modelling decisions:

- **Collaborators.** Every function the scanner calls but does not own is a
  function-valued field of `ResponseScanner.Collaborators`. These are the raw
  response builder, `is_text`, the HTML parser, retire.js, the Tomcat version
  check, the error checker, and the header and cookie checks. The Rails probe's
  own request is also a field. The parsed document is an abstract type
  (`Markup`).
- **The recursion guard.** The source tests the caller's name via the call
  stack. The model replaces that test with a `calledFromProbe` flag.
- **The Rails probe.** The probe is modelled as what the scanner can see of
  it (`ProbeRun`): the URL it re-scans, the response it got, and the findings
  it raises itself. It then re-enters the scanner with the flag set (`Probe`,
  `CheckCve2019_5418`).
- **The trace.** A ghost trace of `Call` steps records which collaborators run,
  in which order and on what. The recursion and parsing properties are stated
  on that trace.
- **Headers.** They are a map keyed by lower-case header names, which is how
  the `requests` case-insensitive dictionary stores them. The scanner's
  lookups by `"Cache-Control"`, `"Expires"`, `"Pragma"` and `"Content-Type"`
  become lookups of the lower-case keys, and the values stay as received.
- **Where findings are reported.** Findings built with
  `Result.from_evidence(Evidence.from_response(res), …)` are taken to be
  reported against the URL that the evidence records, the response's own `url`.
  This is an assumption about code outside this model (see "## Left out").
  Charset findings are reported against the `url` argument.

Consequences of the code that are easy to get wrong when describing the scanner
(the model follows the code, and these are proved):

- **The number of cache-header findings.** The output can be empty, and it is
  never longer than 6 (four `Cache-Control` kinds, `Expires`, `Pragma`).
  It is empty exactly in one case: `Cache-Control` has "no-cache", "no-store"
  and "private" but not "public", `Expires` is present, and `Pragma` contains
  "no-cache". See `CacheHeaderProperties.CacheHeadersSilentIff`.
- **All four directives present.** `Cache-Control: public, no-cache, no-store,
  private` in any letter case still yields `CACHE_CONTROL_PUBLIC`, because the
  "public" test does not depend on the other three. It does not yield zero
  findings. See `CacheHeaderProperties.AllDirectivesReportPublic`.
- **`Cache-Control: max-age=60`.** The `Cache-Control` tests yield exactly
  three findings: the three `*_MISSING` directive kinds, in source order. The
  whole check also reports `Expires` and `Pragma` when those headers are absent.
  See `CacheHeaderProperties.MaxAgeOnly`.

## Model

| member | source | states |
|---|---|---|
| ResponseScanner.CheckCacheHeaders | yawast/scanner/plugins/http/response_scanner.py:86-158 | the method, appending step by step, returns exactly `CacheHeaderFindings(url, res)` |
| ResponseScanner.CheckCharset | yawast/scanner/plugins/http/response_scanner.py:52-83 | the method, with its early return on an empty body, returns exactly `CharsetFindings(url, res, raw)` |
| ResponseScanner.CheckResponse | yawast/scanner/plugins/http/response_scanner.py:15-49 | the method's findings and its trace of collaborator calls are those of `Dispatch`, including the probe's nested scan |
| ResponseScanner.CheckCve2019_5418 | yawast/scanner/plugins/http/response_scanner.py:42-45 | the probe re-enters `CheckResponse` with the guard flag set; its result is its own findings followed by those of the nested scan |
| CacheHeaderProperties.PublicCount | yawast/scanner/plugins/http/response_scanner.py:91-98 | `PUBLIC` is counted once exactly when the lower-cased value contains "public", and no other kind is counted |
| CacheHeaderProperties.NoCacheCount | yawast/scanner/plugins/http/response_scanner.py:100-107 | `NO_CACHE_MISSING` is counted once exactly when "no-cache" is absent |
| CacheHeaderProperties.NoStoreCount | yawast/scanner/plugins/http/response_scanner.py:109-116 | `NO_STORE_MISSING` is counted once exactly when "no-store" is absent |
| CacheHeaderProperties.PrivateCount | yawast/scanner/plugins/http/response_scanner.py:118-125 | `PRIVATE_MISSING` is counted once exactly when "private" is absent |
| CacheHeaderProperties.CacheControlCounts | yawast/scanner/plugins/http/response_scanner.py:89-134 | the `Cache-Control` part counts each kind once when its rule holds and zero times otherwise, and never counts `Expires` or `Pragma` kinds |
| CacheHeaderProperties.CacheHeaderCounts | yawast/scanner/plugins/http/response_scanner.py:86-158 | for every kind, the count is 1 when its rule (`CacheRule`) holds and 0 otherwise: each rule holds in both directions and no kind is reported twice |
| CacheHeaderProperties.CacheControlAbsent | yawast/scanner/plugins/http/response_scanner.py:126-134 | with no `Cache-Control`: exactly one `CACHE_CONTROL_MISSING` and none of the four directive kinds |
| CacheHeaderProperties.CacheControlPresent | yawast/scanner/plugins/http/response_scanner.py:89-125 | with `Cache-Control` present: no `CACHE_CONTROL_MISSING`; each directive kind is counted exactly when its substring test on the lower-cased value fires |
| CacheHeaderProperties.ExpiresRule | yawast/scanner/plugins/http/response_scanner.py:136-147 | `EXPIRES_MISSING` is counted once exactly when `Expires` is absent; a present `Expires` yields nothing |
| CacheHeaderProperties.PragmaRule | yawast/scanner/plugins/http/response_scanner.py:149-156 | `PRAGMA_NO_CACHE_MISSING` is counted once exactly when `Pragma` is absent or its value as received lacks "no-cache" |
| CacheHeaderProperties.DirectivesOrdered | yawast/scanner/plugins/http/response_scanner.py:91-125 | the four directive tests report in the order public, no-cache, no-store, private, each built from the response's evidence |
| CacheHeaderProperties.CacheControlOrdered | yawast/scanner/plugins/http/response_scanner.py:89-134 | the `Cache-Control` findings are in rank order, below the `Expires` rank |
| CacheHeaderProperties.CacheHeaderOrder | yawast/scanner/plugins/http/response_scanner.py:86-158 | findings come in the order `Cache-Control`, `Expires`, `Pragma`; each carries the response's URL and evidence; there are at most 6; no two share a kind |
| CacheHeaderProperties.CacheHeadersSilentIff | yawast/scanner/plugins/http/response_scanner.py:86-158 | the output is empty exactly when `Cache-Control` has no-cache, no-store and private but not public, `Expires` is present, and `Pragma` contains "no-cache" |
| CacheHeaderProperties.MaxAgeOnly | yawast/scanner/plugins/http/response_scanner.py:89-125 | `Cache-Control: max-age=60` yields exactly the kinds no-cache, no-store and private missing, in that order |
| CacheHeaderProperties.AllDirectivesReportPublic | yawast/scanner/plugins/http/response_scanner.py:89-125 | a `Cache-Control` value that lower-cases to "public, no-cache, no-store, private" (such as "Public, No-Cache, no-store, private") yields `PUBLIC` and nothing else about `Cache-Control` |
| CacheHeaderProperties.PragmaUpperCaseReported | yawast/scanner/plugins/http/response_scanner.py:149-156 | `Pragma: NO-CACHE` is still reported, because the test is case-sensitive |
| CharsetProperties.CharsetAtMostOne | yawast/scanner/plugins/http/response_scanner.py:52-83 | at most one finding, reported against `url`; none for an empty body |
| CharsetProperties.CharsetKinds | yawast/scanner/plugins/http/response_scanner.py:52-83 | `CONTENT_TYPE_NO_CHARSET` exactly when the body is not empty and `Content-Type` names HTML without a charset; `CONTENT_TYPE_MISSING` exactly when the body is not empty and `Content-Type` is absent; no other kind |
| CharsetProperties.NoCharsetFindingContents | yawast/scanner/plugins/http/response_scanner.py:62-71 | the finding's evidence is the value as received plus the raw response, and its message contains that value and the URL |
| CharsetProperties.ContentTypeMissingContents | yawast/scanner/plugins/http/response_scanner.py:72-81 | exactly one finding; its evidence is the raw response, and its message contains the URL, the request method and the decimal status code |
| CharsetProperties.HtmlWithoutCharsetReported | yawast/scanner/plugins/http/response_scanner.py:59-71 | a `Content-Type` of "text/html" in any letter case, with a non-empty body, yields one `CONTENT_TYPE_NO_CHARSET` |
| CharsetProperties.HtmlWithCharsetSilent | yawast/scanner/plugins/http/response_scanner.py:59-62 | "text/html; charset=utf-8" in any letter case yields nothing |
| CharsetProperties.JsonWithoutCharsetSilent | yawast/scanner/plugins/http/response_scanner.py:59-62 | "application/json" in any letter case yields nothing, even without a charset |
| DispatchProperties.NoResponseNoScan | yawast/scanner/plugins/http/response_scanner.py:18-20 | a missing response yields no findings and calls no collaborator |
| DispatchProperties.StepsShape | yawast/scanner/plugins/http/response_scanner.py:22-49 | the steps are: build raw, text test, the text checks, header checks, cookie checks, the probe step, charset |
| DispatchProperties.AlwaysRun | yawast/scanner/plugins/http/response_scanner.py:24-47 | the first steps are building the raw response and the text test; the charset check is last; header and cookie checks always run |
| DispatchProperties.TextParseCount | yawast/scanner/plugins/http/response_scanner.py:26-30 | the text checks parse the body once when no markup was supplied, and not at all otherwise |
| DispatchProperties.TextChecks | yawast/scanner/plugins/http/response_scanner.py:26-37 | retire.js, Tomcat, the error checker and the cache-header check run exactly for text responses; the body is parsed once, and only for a text response with no supplied markup; retire.js gets the supplied markup or else the parsed body |
| DispatchProperties.ProbeStepIff | yawast/scanner/plugins/http/response_scanner.py:42-45 | the probe step is taken exactly when the caller is not the probe |
| DispatchProperties.GuardedScanDoesNotProbe | yawast/scanner/plugins/http/response_scanner.py:42-45 | the scan the probe runs on its own response runs no probe at any depth |
| DispatchProperties.ProbeRunsOnceUnguarded | yawast/scanner/plugins/http/response_scanner.py:42-45 | an ordinary scan of a response runs the probe exactly once, nested scans included |
| DispatchProperties.ProbeRunsOnce | yawast/scanner/plugins/http/response_scanner.py:18-45 | the probe runs once when there is a response and the caller is not the probe, and otherwise never, so re-entry depth is at most 1 |
| DispatchProperties.ScanFindingsOrder | yawast/scanner/plugins/http/response_scanner.py:22-49 | the findings are, in order: retire.js, Tomcat, error checker and cache headers (text responses only); header checks; cookie checks; the probe (unless guarded); charset |
| DispatchProperties.GuardDropsOnlyProbe | yawast/scanner/plugins/http/response_scanner.py:42-47 | a guarded scan's findings equal an ordinary scan's with the probe's findings removed from just before the charset findings |
| DispatchProperties.BareHtmlPage | yawast/scanner/plugins/http/response_scanner.py:15-158 | a text response with a non-empty body, `Content-Type: text/html` and no cache headers: the cache check reports the missing `Cache-Control`, `Expires` and `Pragma`, in order, and these sit in the scan right after the findings of retire.js, Tomcat and the error checker; the scan's last finding is `CONTENT_TYPE_NO_CHARSET` |
| Text.Lower | yawast/scanner/plugins/http/response_scanner.py:60 | `str.lower()` on ASCII: the same length, each character lower-cased, no upper-case letter left |
| Text.ContainsIffOccurs | yawast/scanner/plugins/http/response_scanner.py:62 | the substring test `sub in s` holds exactly when `sub` occurs at some position of `s` |
| Text.ContainsInfix | yawast/scanner/plugins/http/response_scanner.py:66 | a string is contained in any text that has it as a middle part |
| Text.ContainsOnlyItsCharacters | yawast/scanner/plugins/http/response_scanner.py:149 | every character of a contained string occurs in the text |
| Text.LacksCharacter | yawast/scanner/plugins/http/response_scanner.py:149 | a text that lacks one character of `sub` does not contain `sub` |
| Text.ContainsAt | yawast/scanner/plugins/http/response_scanner.py:62 | a character-by-character match at a position makes the substring test hold |
| Text.Decimal | yawast/scanner/plugins/http/response_scanner.py:76 | the status code in the message is rendered as decimal digits with no leading zero |
| Text.DecimalRoundTrip | yawast/scanner/plugins/http/response_scanner.py:76 | reading the rendered digits back gives the status code |

## Left out

- The collaborators are parameters (`Collaborators`): `network.http_build_raw_response`, `http_utils.is_text`, BeautifulSoup parsing, `retirejs.get_results`, `apache_tomcat.get_version`, `error_checker.check_response`, `http_basic.get_header_issues` and `get_cookie_issues`. Their code is not part of this model.
- `rails.check_cve_2019_5418` is not part of this model beyond what the scanner sees. Its request and its own findings are the `railsProbe` parameter, which does network I/O. The probe's own findings are assumed to come before those of the nested scan.
- The call-stack test `inspect.stack()[1].function` is replaced by the `calledFromProbe` parameter, which is true exactly when the probe is the caller.
- `Evidence.from_response` and `Result.from_evidence` are not part of this model. Evidence is kept abstract, as the captured response, a list of strings or one string.
- `FromResponseEvidence` assumes that `Result.from_evidence(Evidence.from_response(res), …)` reports against the response's own `url`, not the `url` argument. The two differ only when `res.url != url`. The URL clause of `CacheHeaderProperties.CacheHeaderOrder` depends on this assumption.
- `str.lower()` is modelled on ASCII letters only. Unicode case mapping is not modelled.
- Header-name case-insensitivity is modelled by keying the header map on lower-case names, rather than by modelling the `requests` dictionary itself.
- Message texts are modelled as the source builds them. Only the fields they embed are proved about.
- A present `Expires` header is not checked, because the source leaves that check as a TODO. The model does the same.
- Repeating a scan is not claimed to give the same findings. The real probe sends a new request on every scan, so two scans of one response can differ. With collaborators that return the same values, including the probe's request, repeating a scan gives the same findings. The model's collaborators are functions, so this holds by construction and has no separate lemma.
- Exceptions are not modelled, because the scanner neither raises nor catches any of its own. A collaborator that raises would abort the scan in the source.
