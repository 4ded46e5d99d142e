/** What `_check_cache_headers` promises: one rule per reported kind, each kind
    reported at most once, the findings in the order `Cache-Control`, `Expires`,
    `Pragma`, and exactly when it reports nothing. */
module CacheHeaderProperties {
  import opened Text
  import opened Findings
  import opened ResponseScanner

  /** Whether `_check_cache_headers` reports kind `v` for `res`: a rule per kind,
      read off lines 89-156 one `if` at a time. */
  predicate CacheRule(res: Response, v: Vuln)
  {
    var cc := Header(res, "cache-control");
    var pragma := Header(res, "pragma");
    match v
    case HttpHeaderCacheControlPublic => cc.Some? && Contains(Lower(cc.value), "public")
    case HttpHeaderCacheControlNoCacheMissing => cc.Some? && !Contains(Lower(cc.value), "no-cache")
    case HttpHeaderCacheControlNoStoreMissing => cc.Some? && !Contains(Lower(cc.value), "no-store")
    case HttpHeaderCacheControlPrivateMissing => cc.Some? && !Contains(Lower(cc.value), "private")
    case HttpHeaderCacheControlMissing => cc.None?
    case HttpHeaderExpiresMissing => Header(res, "expires").None?
    case HttpHeaderPragmaNoCacheMissing => pragma.None? || !Contains(pragma.value, "no-cache")
    case _ => false
  }

  /** A single finding counts once for its own kind and not for any other. */
  lemma CountSingle(f: Finding, v: Vuln)
    ensures Count([f], v) == if f.vuln == v then 1 else 0
  {
  }

  /** The `public` test on the lower-cased value `l` reports `PUBLIC` once when it
      finds the directive. */
  lemma PublicCount(url: string, res: Response, l: string, v: Vuln)
    ensures Count(PublicDirective(url, res, l), v) ==
              if Contains(l, "public") && v == HttpHeaderCacheControlPublic then 1 else 0
  {
  }

  /** The `no-cache` test reports `NO_CACHE_MISSING` once when the directive is
      absent. */
  lemma NoCacheCount(url: string, res: Response, l: string, v: Vuln)
    ensures Count(NoCacheDirective(url, res, l), v) ==
              if !Contains(l, "no-cache") && v == HttpHeaderCacheControlNoCacheMissing then 1 else 0
  {
  }

  /** The `no-store` test reports `NO_STORE_MISSING` once when the directive is
      absent. */
  lemma NoStoreCount(url: string, res: Response, l: string, v: Vuln)
    ensures Count(NoStoreDirective(url, res, l), v) ==
              if !Contains(l, "no-store") && v == HttpHeaderCacheControlNoStoreMissing then 1 else 0
  {
  }

  /** The `private` test reports `PRIVATE_MISSING` once when the directive is
      absent. */
  lemma PrivateCount(url: string, res: Response, l: string, v: Vuln)
    ensures Count(PrivateDirective(url, res, l), v) ==
              if !Contains(l, "private") && v == HttpHeaderCacheControlPrivateMissing then 1 else 0
  {
  }

  /** The `Cache-Control` part reports kind `v` once when its rule holds and
      never otherwise. */
  lemma CacheControlCounts(url: string, res: Response, v: Vuln)
    ensures Count(CacheControlFindings(url, res), v) ==
              if CacheRule(res, v) && v != HttpHeaderExpiresMissing && v != HttpHeaderPragmaNoCacheMissing
              then 1 else 0
  {
    var cc := CacheControlFindings(url, res);
    match Header(res, "cache-control") {
      case None =>
        CountSingle(cc[0], v);
      case Some(value) =>
        var l := Lower(value);
        var p1, p2, p3, p4 := PublicDirective(url, res, l), NoCacheDirective(url, res, l),
                              NoStoreDirective(url, res, l), PrivateDirective(url, res, l);
        CountAppend(p1, p2, v);
        CountAppend(p1 + p2, p3, v);
        CountAppend(p1 + p2 + p3, p4, v);
        PublicCount(url, res, l, v);
        NoCacheCount(url, res, l, v);
        NoStoreCount(url, res, l, v);
        PrivateCount(url, res, l, v);
    }
  }

  /** The check reports kind `v` once when its rule holds and never otherwise:
      both directions of every rule, and no kind twice. */
  lemma CacheHeaderCounts(url: string, res: Response, v: Vuln)
    ensures Count(CacheHeaderFindings(url, res), v) == if CacheRule(res, v) then 1 else 0
  {
    var cc, ex, pr := CacheControlFindings(url, res), ExpiresFindings(url, res), PragmaFindings(url, res);
    CountAppend(cc, ex, v);
    CountAppend(cc + ex, pr, v);
    CacheControlCounts(url, res, v);
    if ex != [] {
      CountSingle(ex[0], v);
    }
    if pr != [] {
      CountSingle(pr[0], v);
    }
  }

  /** Without a `Cache-Control` header exactly one `CACHE_CONTROL_MISSING` is
      reported and none of the four directive kinds. */
  lemma CacheControlAbsent(url: string, res: Response)
    requires Header(res, "cache-control").None?
    ensures Count(CacheHeaderFindings(url, res), HttpHeaderCacheControlMissing) == 1
    ensures Count(CacheHeaderFindings(url, res), HttpHeaderCacheControlPublic) == 0
    ensures Count(CacheHeaderFindings(url, res), HttpHeaderCacheControlNoCacheMissing) == 0
    ensures Count(CacheHeaderFindings(url, res), HttpHeaderCacheControlNoStoreMissing) == 0
    ensures Count(CacheHeaderFindings(url, res), HttpHeaderCacheControlPrivateMissing) == 0
  {
    CacheHeaderCounts(url, res, HttpHeaderCacheControlMissing);
    CacheHeaderCounts(url, res, HttpHeaderCacheControlPublic);
    CacheHeaderCounts(url, res, HttpHeaderCacheControlNoCacheMissing);
    CacheHeaderCounts(url, res, HttpHeaderCacheControlNoStoreMissing);
    CacheHeaderCounts(url, res, HttpHeaderCacheControlPrivateMissing);
  }

  /** With a `Cache-Control` header `CACHE_CONTROL_MISSING` is never reported, and
      each directive kind is reported exactly when its test on the lower-cased
      value fails: "public" present, or "no-cache", "no-store", "private" absent. */
  lemma CacheControlPresent(url: string, res: Response, value: string)
    requires Header(res, "cache-control") == Some(value)
    ensures Count(CacheHeaderFindings(url, res), HttpHeaderCacheControlMissing) == 0
    ensures Count(CacheHeaderFindings(url, res), HttpHeaderCacheControlPublic) ==
              if Contains(Lower(value), "public") then 1 else 0
    ensures Count(CacheHeaderFindings(url, res), HttpHeaderCacheControlNoCacheMissing) ==
              if Contains(Lower(value), "no-cache") then 0 else 1
    ensures Count(CacheHeaderFindings(url, res), HttpHeaderCacheControlNoStoreMissing) ==
              if Contains(Lower(value), "no-store") then 0 else 1
    ensures Count(CacheHeaderFindings(url, res), HttpHeaderCacheControlPrivateMissing) ==
              if Contains(Lower(value), "private") then 0 else 1
  {
    CacheHeaderCounts(url, res, HttpHeaderCacheControlMissing);
    CacheHeaderCounts(url, res, HttpHeaderCacheControlPublic);
    CacheHeaderCounts(url, res, HttpHeaderCacheControlNoCacheMissing);
    CacheHeaderCounts(url, res, HttpHeaderCacheControlNoStoreMissing);
    CacheHeaderCounts(url, res, HttpHeaderCacheControlPrivateMissing);
  }

  /** `EXPIRES_MISSING` is reported, once, exactly when there is no `Expires`
      header; a present `Expires` is not examined. */
  lemma ExpiresRule(url: string, res: Response)
    ensures Count(CacheHeaderFindings(url, res), HttpHeaderExpiresMissing) ==
              if Header(res, "expires").None? then 1 else 0
  {
    CacheHeaderCounts(url, res, HttpHeaderExpiresMissing);
  }

  /** `PRAGMA_NO_CACHE_MISSING` is reported, once, exactly when `Pragma` is absent
      or its value as received lacks "no-cache": unlike the `Cache-Control`
      tests, this one is case-sensitive. */
  lemma PragmaRule(url: string, res: Response)
    ensures Count(CacheHeaderFindings(url, res), HttpHeaderPragmaNoCacheMissing) ==
              if Header(res, "pragma").None? || !Contains(Header(res, "pragma").value, "no-cache")
              then 1 else 0
  {
    CacheHeaderCounts(url, res, HttpHeaderPragmaNoCacheMissing);
  }

  /** The position of a cache-header kind in the order the check reports kinds:
      the four `Cache-Control` directives (or the missing header), then `Expires`,
      then `Pragma`. */
  function Rank(v: Vuln): nat
  {
    match v
    case HttpHeaderCacheControlPublic => 0
    case HttpHeaderCacheControlNoCacheMissing => 1
    case HttpHeaderCacheControlNoStoreMissing => 2
    case HttpHeaderCacheControlPrivateMissing => 3
    case HttpHeaderCacheControlMissing => 3
    case HttpHeaderExpiresMissing => 4
    case HttpHeaderPragmaNoCacheMissing => 5
    case _ => 6
  }

  /** `fs` is a run of findings built from the evidence of `res`, whose kinds
      have ranks in `[lo, hi)` and strictly increase along the list. */
  predicate Ordered(fs: seq<Finding>, res: Response, lo: nat, hi: nat)
  {
    && (forall i :: 0 <= i < |fs| ==>
          && lo <= Rank(fs[i].vuln) < hi
          && fs[i].url == res.url
          && fs[i].evidence == FromResponse(res))
    && (forall i, j :: 0 <= i < j < |fs| ==> Rank(fs[i].vuln) < Rank(fs[j].vuln))
  }

  /** Two ordered runs whose rank ranges follow each other make an ordered run. */
  lemma OrderedAppend(a: seq<Finding>, b: seq<Finding>, res: Response, lo: nat, mid: nat, hi: nat)
    requires lo <= mid <= hi
    requires Ordered(a, res, lo, mid) && Ordered(b, res, mid, hi)
    ensures Ordered(a + b, res, lo, hi)
  {
    var ab := a + b;
    forall i | 0 <= i < |ab|
      ensures lo <= Rank(ab[i].vuln) < hi && ab[i].url == res.url && ab[i].evidence == FromResponse(res)
    {
      if i >= |a| {
        assert ab[i] == b[i - |a|];
      } else {
        assert ab[i] == a[i];
      }
    }
    forall i, j | 0 <= i < j < |ab|
      ensures Rank(ab[i].vuln) < Rank(ab[j].vuln)
    {
      if i >= |a| {
        assert ab[i] == b[i - |a|] && ab[j] == b[j - |a|];
      } else if j >= |a| {
        assert ab[j] == b[j - |a|];
      }
    }
  }

  /** An ordered run with ranks below `hi` has at most `hi` findings. */
  lemma {:induction false} OrderedLength(fs: seq<Finding>, res: Response, hi: nat)
    requires Ordered(fs, res, 0, hi)
    ensures |fs| <= hi
    decreases hi
  {
    if fs != [] {
      var init := fs[..|fs| - 1];
      assert Rank(fs[|fs| - 1].vuln) < hi;
      forall i | 0 <= i < |init|
        ensures Rank(init[i].vuln) < hi - 1
      {
        assert Rank(fs[i].vuln) < Rank(fs[|fs| - 1].vuln);
      }
      assert Ordered(init, res, 0, hi - 1);
      OrderedLength(init, res, hi - 1);
    }
  }

  /** The four directive tests on a lower-cased value `l` give an ordered run
      with ranks below 4. */
  lemma DirectivesOrdered(url: string, res: Response, l: string)
    ensures Ordered(PublicDirective(url, res, l) + NoCacheDirective(url, res, l)
                      + NoStoreDirective(url, res, l) + PrivateDirective(url, res, l), res, 0, 4)
  {
    var p1, p2, p3, p4 := PublicDirective(url, res, l), NoCacheDirective(url, res, l),
                          NoStoreDirective(url, res, l), PrivateDirective(url, res, l);
    assert Ordered(p1, res, 0, 1) && Ordered(p2, res, 1, 2);
    assert Ordered(p3, res, 2, 3) && Ordered(p4, res, 3, 4);
    OrderedAppend(p1, p2, res, 0, 1, 2);
    OrderedAppend(p1 + p2, p3, res, 0, 2, 3);
    OrderedAppend(p1 + p2 + p3, p4, res, 0, 3, 4);
  }

  /** The `Cache-Control` findings are ordered with ranks below 4. */
  lemma CacheControlOrdered(url: string, res: Response)
    ensures Ordered(CacheControlFindings(url, res), res, 0, 4)
  {
    if Header(res, "cache-control").Some? {
      DirectivesOrdered(url, res, Lower(Header(res, "cache-control").value));
    }
  }

  /** The findings come in the order `Cache-Control` directives, `Expires`,
      `Pragma`, every one built from the response's own evidence; so there are
      at most six, and no two of the same kind. */
  lemma CacheHeaderOrder(url: string, res: Response)
    ensures Ordered(CacheHeaderFindings(url, res), res, 0, 6)
    ensures |CacheHeaderFindings(url, res)| <= 6
    ensures forall i, j :: 0 <= i < j < |CacheHeaderFindings(url, res)| ==>
              CacheHeaderFindings(url, res)[i].vuln != CacheHeaderFindings(url, res)[j].vuln
  {
    var cc, ex, pr := CacheControlFindings(url, res), ExpiresFindings(url, res), PragmaFindings(url, res);
    CacheControlOrdered(url, res);
    assert Ordered(ex, res, 4, 5) && Ordered(pr, res, 5, 6);
    OrderedAppend(cc, ex, res, 0, 4, 5);
    OrderedAppend(cc + ex, pr, res, 0, 5, 6);
    OrderedLength(cc + ex + pr, res, 6);
  }

  /** The check reports nothing exactly when `Cache-Control` is present with
      "no-cache", "no-store" and "private" and without "public", `Expires` is
      present, and `Pragma` is present with "no-cache". */
  lemma CacheHeadersSilentIff(url: string, res: Response)
    ensures CacheHeaderFindings(url, res) == [] <==>
              && Header(res, "cache-control").Some?
              && !Contains(Lower(Header(res, "cache-control").value), "public")
              && Contains(Lower(Header(res, "cache-control").value), "no-cache")
              && Contains(Lower(Header(res, "cache-control").value), "no-store")
              && Contains(Lower(Header(res, "cache-control").value), "private")
              && Header(res, "expires").Some?
              && Header(res, "pragma").Some?
              && Contains(Header(res, "pragma").value, "no-cache")
  {
  }

  /** "max-age=60" is its own lower-case form and lacks "p" and "n", so it has
      none of the directives searched for. */
  lemma MaxAgeHasNoDirective(value: string)
    requires value == "max-age=60"
    ensures !Contains(Lower(value), "public") && !Contains(Lower(value), "no-cache")
    ensures !Contains(Lower(value), "no-store") && !Contains(Lower(value), "private")
  {
    var l := Lower(value);
    assert 'p' !in l && 'n' !in l by {
      forall i | 0 <= i < |l|
        ensures l[i] != 'p' && l[i] != 'n'
      {
        assert l[i] == LowerChar(value[i]);
      }
    }
    LacksCharacter(l, "public", 0);
    LacksCharacter(l, "no-cache", 0);
    LacksCharacter(l, "no-store", 0);
    LacksCharacter(l, "private", 0);
  }

  /** "max-age=60" has none of the directives searched for: the three `*_MISSING`
      directive kinds are reported, in that order, and `PUBLIC` is not. */
  lemma MaxAgeOnly(url: string, res: Response, value: string)
    requires Header(res, "cache-control") == Some(value)
    requires value == "max-age=60"
    ensures Kinds(CacheControlFindings(url, res)) ==
              [HttpHeaderCacheControlNoCacheMissing, HttpHeaderCacheControlNoStoreMissing,
               HttpHeaderCacheControlPrivateMissing]
  {
    MaxAgeHasNoDirective(value);
  }

  /** The lower-case value that carries all four directives. */
  const AllFour := "public, no-cache, no-store, private"

  lemma AllFourPublic()
    ensures Contains(AllFour, "public")
  {
    ContainsAt(AllFour, "public", 0);
  }

  lemma AllFourNoCache()
    ensures Contains(AllFour, "no-cache")
  {
    ContainsAt(AllFour, "no-cache", 8);
  }

  lemma AllFourNoStore()
    ensures Contains(AllFour, "no-store")
  {
    ContainsAt(AllFour, "no-store", 18);
  }

  lemma AllFourPrivate()
    ensures Contains(AllFour, "private")
  {
    ContainsAt(AllFour, "private", 28);
  }

  /** A value carrying all four directives, in any letter case, such as
      "Public, No-Cache, no-store, private": the three `*_MISSING` directive
      kinds stay silent but `PUBLIC` is still reported, because the `public`
      test is independent of the other three. */
  lemma AllDirectivesReportPublic(url: string, res: Response, value: string)
    requires Header(res, "cache-control") == Some(value)
    requires Lower(value) == AllFour
    ensures Kinds(CacheControlFindings(url, res)) == [HttpHeaderCacheControlPublic]
  {
    AllFourPublic();
    AllFourNoCache();
    AllFourNoStore();
    AllFourPrivate();
  }

  /** The `Pragma` test is case-sensitive: "NO-CACHE" is still reported. */
  lemma PragmaUpperCaseReported(url: string, res: Response, value: string)
    requires Header(res, "pragma") == Some(value)
    requires value == "NO-CACHE"
    ensures Count(CacheHeaderFindings(url, res), HttpHeaderPragmaNoCacheMissing) == 1
  {
    LacksCharacter(value, "no-cache", 0);
    PragmaRule(url, res);
  }
}
