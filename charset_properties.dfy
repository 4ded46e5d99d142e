/** What `_check_charset` promises: nothing for an empty body, otherwise at most
    one finding, `CONTENT_TYPE_NO_CHARSET` exactly for an HTML `Content-Type`
    without a charset and `CONTENT_TYPE_MISSING` exactly for a missing one, each
    reported against the URL it was given and carrying what it describes. */
module CharsetProperties {
  import opened Text
  import opened Findings
  import opened ResponseScanner

  /** At most one finding, reported against `url`; none at all for an empty body. */
  lemma CharsetAtMostOne(url: string, res: Response, raw: string)
    ensures |CharsetFindings(url, res, raw)| <= 1
    ensures |res.content| == 0 ==> CharsetFindings(url, res, raw) == []
    ensures forall i :: 0 <= i < |CharsetFindings(url, res, raw)| ==> CharsetFindings(url, res, raw)[i].url == url
  {
  }

  /** `CONTENT_TYPE_NO_CHARSET` is reported exactly when the body is not empty and
      `Content-Type` is present and names HTML without a charset;
      `CONTENT_TYPE_MISSING` exactly when the body is not empty and
      `Content-Type` is absent. Nothing else is ever reported. */
  lemma CharsetKinds(url: string, res: Response, raw: string)
    ensures Count(CharsetFindings(url, res, raw), HttpHeaderContentTypeNoCharset) == 1 <==>
              && |res.content| > 0
              && Header(res, "content-type").Some?
              && HtmlWithoutCharset(Header(res, "content-type").value)
    ensures Count(CharsetFindings(url, res, raw), HttpHeaderContentTypeMissing) == 1 <==>
              |res.content| > 0 && Header(res, "content-type").None?
    ensures forall i :: 0 <= i < |CharsetFindings(url, res, raw)| ==>
              CharsetFindings(url, res, raw)[i].vuln in {HttpHeaderContentTypeNoCharset, HttpHeaderContentTypeMissing}
  {
  }

  /** The missing-charset finding quotes the header value as received (not
      lower-cased) and the URL in its message, and keeps the value and the raw
      response as evidence. */
  lemma NoCharsetFindingContents(url: string, res: Response, raw: string, value: string)
    requires |res.content| > 0
    requires Header(res, "content-type") == Some(value)
    requires HtmlWithoutCharset(value)
    ensures |CharsetFindings(url, res, raw)| == 1
    ensures CharsetFindings(url, res, raw)[0].evidence == Values([value, raw])
    ensures Contains(CharsetFindings(url, res, raw)[0].message, value)
    ensures Contains(CharsetFindings(url, res, raw)[0].message, url)
  {
    var message := CharsetFindings(url, res, raw)[0].message;
    assert message == "Charset Not Defined in '" + value + "' at " + url;
    ContainsInfix("Charset Not Defined in '", value, "' at " + url);
    assert message == "Charset Not Defined in '" + value + ("' at " + url);
    ContainsInfix("Charset Not Defined in '" + value + "' at ", url, []);
    assert message == "Charset Not Defined in '" + value + "' at " + url + [];
  }

  /** The missing-header finding names the URL, the request method and the
      status code in its message, and keeps the raw response as evidence. */
  lemma ContentTypeMissingContents(url: string, res: Response, raw: string)
    requires |res.content| > 0
    requires Header(res, "content-type").None?
    ensures |CharsetFindings(url, res, raw)| == 1
    ensures CharsetFindings(url, res, raw)[0].evidence == Raw(raw)
    ensures Contains(CharsetFindings(url, res, raw)[0].message, url)
    ensures Contains(CharsetFindings(url, res, raw)[0].message, res.requestMethod)
    ensures Contains(CharsetFindings(url, res, raw)[0].message, Decimal(res.status))
  {
    var message := CharsetFindings(url, res, raw)[0].message;
    var m, code := res.requestMethod, Decimal(res.status);
    assert message == "Content-Type Missing: " + url + " (" + m + " - " + code + ")";
    ContainsInfix("Content-Type Missing: ", url, " (" + m + " - " + code + ")");
    assert message == "Content-Type Missing: " + url + (" (" + m + " - " + code + ")");
    ContainsInfix("Content-Type Missing: " + url + " (", m, " - " + code + ")");
    assert message == "Content-Type Missing: " + url + " (" + m + (" - " + code + ")");
    ContainsInfix("Content-Type Missing: " + url + " (" + m + " - ", code, ")");
  }

  /** "text/html" names HTML and has no "c", so no charset. */
  lemma PlainHtml(l: string)
    requires l == "text/html"
    ensures Contains(l, "text/html") && !Contains(l, "charset")
  {
    ContainsAt(l, "text/html", 0);
    LacksCharacter(l, "charset", 0);
  }

  /** "application/json" has no "x", so it does not name HTML. */
  lemma JsonIsNotHtml(l: string)
    requires l == "application/json"
    ensures !Contains(l, "text/html")
  {
    LacksCharacter(l, "text/html", 2);
  }

  /** "text/html" in any letter case has no charset: reported. */
  lemma HtmlWithoutCharsetReported(url: string, res: Response, raw: string, value: string)
    requires |res.content| > 0
    requires Header(res, "content-type") == Some(value)
    requires Lower(value) == "text/html"
    ensures Kinds(CharsetFindings(url, res, raw)) == [HttpHeaderContentTypeNoCharset]
  {
    PlainHtml(Lower(value));
  }

  /** "text/html; charset=utf-8" in any letter case declares a charset: silent. */
  lemma HtmlWithCharsetSilent(url: string, res: Response, raw: string, value: string)
    requires Header(res, "content-type") == Some(value)
    requires Lower(value) == "text/html; charset=utf-8"
    ensures CharsetFindings(url, res, raw) == []
  {
    ContainsAt(Lower(value), "charset", 11);
  }

  /** A `Content-Type` that does not name HTML is never reported, charset or not. */
  lemma JsonWithoutCharsetSilent(url: string, res: Response, raw: string, value: string)
    requires Header(res, "content-type") == Some(value)
    requires Lower(value) == "application/json"
    ensures CharsetFindings(url, res, raw) == []
  {
    JsonIsNotHtml(Lower(value));
  }
}
