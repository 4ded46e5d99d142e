/** The values the response scanner reads and produces: an HTTP response as the
    `requests` library hands it over, the vulnerability kinds of
    `yawast.reporting.enums.Vulnerabilities` that the scanner itself reports, and
    the findings (`yawast.scanner.plugins.result.Result`) it returns. */
module Findings {
  datatype Option<+T> = None | Some(value: T)

  /** The vulnerability kinds the response scanner emits itself. Kinds that only
      the collaborators report (cookie flags, server banners, library versions,
      the Rails file-disclosure probe, ...) are carried by their enum name. */
  datatype Vuln =
    | HttpHeaderContentTypeNoCharset
    | HttpHeaderContentTypeMissing
    | HttpHeaderCacheControlPublic
    | HttpHeaderCacheControlNoCacheMissing
    | HttpHeaderCacheControlNoStoreMissing
    | HttpHeaderCacheControlPrivateMissing
    | HttpHeaderCacheControlMissing
    | HttpHeaderExpiresMissing
    | HttpHeaderPragmaNoCacheMissing
    | Reported(name: string)

  /** One HTTP response. `headers` is the case-insensitive header dictionary of
      `requests`, which keys every entry by the lower-cased header name and keeps
      the value as it was received; `url` is the response's own URL, `requestMethod` the
      method of the request that produced it, `content` the raw body bytes and
      `text` the body decoded to a string. */
  datatype Response = Response(
    url: string,
    status: nat,
    requestMethod: string,
    headers: map<string, string>,
    content: seq<bv8>,
    text: string)

  /** `res.headers[name]` when `name in res.headers`. The dictionary ignores the
      case of names by keying on their lower-case form, so the scanner looks a
      header up by its lower-case name `key` ("Cache-Control" as
      "cache-control"); the value comes back as received. */
  function Header(res: Response, key: string): Option<string>
  {
    if key in res.headers then Some(res.headers[key]) else None
  }

  /** What a finding records as evidence: the request and response captured by
      `Evidence.from_response`, a list of strings, or one string. */
  datatype Evidence =
    | FromResponse(res: Response)
    | Values(items: seq<string>)
    | Raw(text: string)

  /** A finding: message, kind, the URL it is reported against, and evidence. */
  datatype Finding = Finding(message: string, vuln: Vuln, url: string, evidence: Evidence)

  /** `Result.from_evidence(Evidence.from_response(res), message, vuln)`: the
      evidence captures the response and the finding is reported against the
      URL that evidence records, the response's own URL. */
  function FromResponseEvidence(res: Response, message: string, vuln: Vuln): Finding
  {
    Finding(message, vuln, res.url, FromResponse(res))
  }

  /** The kinds of a list of findings, in order. */
  function Kinds(fs: seq<Finding>): seq<Vuln>
  {
    seq(|fs|, i requires 0 <= i < |fs| => fs[i].vuln)
  }

  /** How many of the findings are of kind `v`. */
  function Count(fs: seq<Finding>, v: Vuln): nat
  {
    if fs == [] then 0 else (if fs[0].vuln == v then 1 else 0) + Count(fs[1..], v)
  }

  /** Counts add up over concatenation. */
  lemma {:induction false} CountAppend(a: seq<Finding>, b: seq<Finding>, v: Vuln)
    ensures Count(a + b, v) == Count(a, v) + Count(b, v)
  {
    if a == [] {
      assert a + b == b;
    } else {
      CountAppend(a[1..], b, v);
      assert (a + b)[1..] == a[1..] + b;
    }
  }
}
