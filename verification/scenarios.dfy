/**
 * Worked link checks: `http://bit.ly/abc?utm_source=x` scored by the local rules
 * alone, and the same link once Safe Browsing lists it.
 */
module Scenarios {
  import opened Wrappers
  import opened Text
  import opened UrlNorm
  import opened Heuristics
  import opened Severity
  import opened Reputation
  import opened Alerts
  import opened Routes

  /** `http://bit.ly/abc?utm_source=x` as the parser yields it. */
  predicate IsShortLink(u: Url) {
    u.protocol == "http:" && u.username == "" && u.password == "" && u.hostname == "bit.ly"
    && u.port == "" && u.pathname == "/abc" && u.query == [("utm_source", "x")] && u.hash == ""
  }

  /** `http://bit.ly/abc` as a normalised URL. */
  predicate IsShortLinkNormal(u: Url) {
    u.protocol == "http:" && u.username == "" && u.password == "" && u.hostname == "bit.ly"
    && u.port == "" && u.pathname == "/abc" && u.query == [] && u.hash == ""
  }

  /** A string is missing from any text drawn from characters that lack one of its own. */
  lemma MissingChar(s: string, chars: set<char>, k: string, j: nat)
    requires forall x :: x in s ==> x in chars
    requires j < |k| && k[j] !in chars
    ensures !Includes(s, k)
  {
    if Includes(s, k) {
      IncludesChars(s, k, k[j]);
    }
  }

  /** The characters of `http://bit.ly/abc`. */
  const LINK_CHARS: set<char> := {'h', 't', 'p', ':', '/', 'b', 'i', '.', 'l', 'y', 'a', 'c'}

  lemma HrefChars(v: Url)
    requires IsShortLinkNormal(v)
    ensures forall c :: c in Href(v) ==> c in LINK_CHARS
    ensures Lower(Href(v)) == Href(v)
  {
    var h := Href(v);
    assert Userinfo(v) == "";
    assert h == v.protocol + "//" + "" + v.hostname + "" + v.pathname + "" + "";
    forall c | c in h
      ensures c in LINK_CHARS
    {
    }
    LowerKeeps(h);
  }

  /** Normalising drops `utm_source` and keeps everything else. */
  lemma ShortLinkNormalizes(u: Url)
    requires IsShortLink(u)
    ensures IsShortLinkNormal(Normalize(u))
  {
    var q := RemoveKeys(u.query, TRACKING_PARAMS);
    assert ("utm_source", "x") !in q;
    assert q == [];
    LowerKeeps(u.hostname);
  }

  /** No suspicious keyword fits in a text written with the characters of the link. */
  lemma NoKeyword(s: string)
    requires forall x :: x in s ==> x in LINK_CHARS
    ensures forall k :: k in SUSPICIOUS_KEYWORDS ==> !Includes(s, k)
  {
    NoKeywordAt(s);
  }

  lemma NoKeywordAt(s: string)
    requires forall x :: x in s ==> x in LINK_CHARS
    ensures forall i :: 0 <= i < |SUSPICIOUS_KEYWORDS| ==> !Includes(s, SUSPICIOUS_KEYWORDS[i])
  {
    forall i | 0 <= i < |SUSPICIOUS_KEYWORDS|
      ensures !Includes(s, SUSPICIOUS_KEYWORDS[i])
    {
      var k := SUSPICIOUS_KEYWORDS[i];
      if i == 0 {
        MissingChar(s, LINK_CHARS, k, 2);
      } else if i == 1 {
        MissingChar(s, LINK_CHARS, k, 1);
      } else if i == 2 {
        MissingChar(s, LINK_CHARS, k, 1);
      } else if i == 3 {
        MissingChar(s, LINK_CHARS, k, 0);
      } else if i == 4 {
        MissingChar(s, LINK_CHARS, k, 0);
      } else if i == 5 {
        MissingChar(s, LINK_CHARS, k, 0);
      } else if i == 6 {
        MissingChar(s, LINK_CHARS, k, 2);
      } else if i == 7 {
        MissingChar(s, LINK_CHARS, k, 3);
      } else if i == 8 {
        MissingChar(s, LINK_CHARS, k, 2);
      } else if i == 9 {
        MissingChar(s, LINK_CHARS, k, 2);
      } else if i == 10 {
        MissingChar(s, LINK_CHARS, k, 3);
      } else if i == 11 {
        MissingChar(s, LINK_CHARS, k, 0);
      } else if i == 12 {
        MissingChar(s, LINK_CHARS, k, 1);
      } else if i == 13 {
        MissingChar(s, LINK_CHARS, k, 0);
      } else {
        MissingChar(s, LINK_CHARS, k, 0);
      }
    }
  }

  /** No uncommon top-level domain ends in `y`. */
  lemma NoUncommonTld(host: string)
    requires |host| > 0 && host[|host| - 1] == 'y'
    ensures forall t :: t in UNCOMMON_TLDS ==> !EndsWith(host, "." + t)
  {
    forall t | t in UNCOMMON_TLDS
      ensures !EndsWith(host, "." + t)
    {
    }
  }

  lemma ShortLinkHost(v: Url)
    requires IsShortLinkNormal(v)
    ensures Lower(v.hostname) == "bit.ly"
  {
    LowerKeeps(v.hostname);
  }

  lemma ShortenerFires(v: Url)
    requires IsShortLinkNormal(v)
    ensures Detect(v).shortener
  {
    ShortLinkHost(v);
    assert EndsWith(Lower(v.hostname), SHORTENERS[0]);
  }

  lemma FewDots(v: Url)
    requires IsShortLinkNormal(v)
    ensures !Detect(v).manySubdomains
  {
    ShortLinkHost(v);
    var host := Lower(v.hostname);
    assert host == "bit" + "." + "ly";
    assert '.' !in "bit" && '.' !in "ly";
    assert multiset(host)['.'] == 1;
  }

  lemma CommonTld(v: Url)
    requires IsShortLinkNormal(v)
    ensures !Detect(v).uncommonTld
  {
    ShortLinkHost(v);
    NoUncommonTld(Lower(v.hostname));
  }

  lemma NoKeywordFires(v: Url)
    requires IsShortLinkNormal(v)
    ensures !Detect(v).keywords
  {
    HrefChars(v);
    NoKeyword(Lower(Href(v)));
  }

  /** A shortener on plain HTTP: only `url_shortener` and `no_https` fire. */
  lemma ShortLinkSignals(v: Url)
    requires IsShortLinkNormal(v)
    ensures Detect(v) == Signals(true, false, false, false, true)
  {
    ShortenerFires(v);
    FewDots(v);
    CommonTld(v);
    NoKeywordFires(v);
  }

  /** A shortener on plain HTTP fires two rules worth 25 + 10 points. */
  lemma ShortenerOverHttp(sig: Signals)
    requires sig == Signals(true, false, false, false, true)
    ensures FiredRules(RULES, sig) == [UrlShortener, NoHttps]
    ensures WeightSum(FiredRules(RULES, sig)) == 35
  {
    LocalRulesUnfold(sig);
    assert Step(UrlShortener, sig) == [UrlShortener];
    assert Step(ManySubdomains, sig) == [] && Step(UncommonTld, sig) == [] && Step(SuspiciousKeywords, sig) == [];
    assert Step(NoHttps, sig) == [NoHttps];
    LocalPointsUnfold(sig);
  }

  lemma ShortLinkLocal(v: Url)
    requires IsShortLinkNormal(v)
    ensures LocalReasons(v) == [UrlShortener, NoHttps]
    ensures LocalScore(v) == 35
  {
    ShortLinkSignals(v);
    ShortenerOverHttp(Detect(v));
    LocalScoreIsExactSum(v);
  }

  /** Without reputation hits a link scoring 35 stays at 35, which is `low`: no alert. */
  lemma ShortLinkUnlisted(v: Url, ext1: Lookup, ext2: Lookup)
    requires LocalScore(v) == 35 && LocalReasons(v) == [UrlShortener, NoHttps]
    requires !ext1.hit && !ext2.hit
    ensures var a := Assess(v, DEFAULT_THRESHOLDS, ext1, ext2);
      a.score == 35 && a.severity == Low && a.reasons == [UrlShortener, NoHttps] && a.sources == ["local"]
      && LinkAlert(v, a) == None
  {
    assert HitReasons(ext1, ext2) == [] && HitSources(ext1, ext2) == [];
  }

  /** Listed by Safe Browsing, a link scoring 35 rises to the floor 90, which is `high`: an alert. */
  lemma ShortLinkListed(v: Url, ext1: Lookup, ext2: Lookup)
    requires LocalScore(v) == 35 && LocalReasons(v) == [UrlShortener, NoHttps]
    requires ext1.hit && !ext2.hit
    ensures var a := Assess(v, DEFAULT_THRESHOLDS, ext1, ext2);
      a.score == 90 && a.severity == High
      && a.reasons == [UrlShortener, NoHttps, SafeBrowsingMatch]
      && a.sources == ["local", ext1.source]
      && LinkAlert(v, a).Some?
  {
    assert HitReasons(ext1, ext2) == [SafeBrowsingMatch] && HitSources(ext1, ext2) == [ext1.source];
  }

  /**
   * `http://bit.ly/abc?utm_source=x` normalises to `http://bit.ly/abc`, scores 35 with
   * reasons `url_shortener`, `no_https`, and is `low` under the default thresholds: the
   * check stores it and raises no alert. Once Safe Browsing lists it, the score rises
   * to 90, the severity is `high` and a `LINK_SUSPECT` alert is raised.
   */
  lemma ShortLinkScenario(u: Url)
    requires IsShortLink(u)
    ensures IsShortLinkNormal(Normalize(u))
    ensures var a := Assess(Normalize(u), DEFAULT_THRESHOLDS, CheckSafeBrowsing(Unconfigured), CheckOpenPhish(Unconfigured));
      a.score == 35 && a.severity == Low && a.reasons == [UrlShortener, NoHttps]
      && LinkAlert(Normalize(u), a) == None
    ensures var a := Assess(Normalize(u), DEFAULT_THRESHOLDS, CheckSafeBrowsing(Answered(true)), CheckOpenPhish(Unconfigured));
      a.score == 90 && a.severity == High && a.sources == ["local", "safe_browsing"]
      && LinkAlert(Normalize(u), a).Some?
  {
    ShortLinkNormalizes(u);
    ShortLinkLocal(Normalize(u));
    ShortLinkUnlisted(Normalize(u), CheckSafeBrowsing(Unconfigured), CheckOpenPhish(Unconfigured));
    ShortLinkListed(Normalize(u), CheckSafeBrowsing(Answered(true)), CheckOpenPhish(Unconfigured));
  }

  /** The user name is written right after `//` in the serialisation. */
  lemma UsernameInHref(u: Url)
    requires u.username != ""
    ensures InfixAt(Href(u), u.username, |u.protocol| + 2)
  {
    var i := |u.protocol| + 2;
    var front := u.protocol + "//" + Userinfo(u);
    forall j | 0 <= j < |u.username|
      ensures Href(u)[i + j] == u.username[j]
    {
      assert Userinfo(u)[j] == u.username[j];
      assert front[i + j] == u.username[j];
    }
  }

  /** Lower-casing keeps an infix that has no upper-case letter where it is. */
  lemma LowerInfix(h: string, k: string, i: nat)
    requires InfixAt(h, k, i)
    requires forall j :: 0 <= j < |k| ==> !IsUpper(k[j])
    ensures InfixAt(Lower(h), k, i)
  {
    var l := Lower(h);
    forall j | i <= j < i + |k|
      ensures l[j] == h[j]
    {
      assert h[j] == h[i..i + |k|][j - i] == k[j - i];
    }
    assert l[i..i + |k|] == h[i..i + |k|];
  }

  /** A keyword without upper-case letters used as the user name fires the keyword rule. */
  lemma KeywordAsUsername(u: Url, k: string)
    requires k in SUSPICIOUS_KEYWORDS && u.username == k
    requires forall j :: 0 <= j < |k| ==> !IsUpper(k[j])
    ensures Detect(u).keywords
  {
    var h := Href(u);
    UsernameInHref(u);
    LowerInfix(h, k, |u.protocol| + 2);
    IncludesAt(Lower(h), k, |u.protocol| + 2);
    assert Includes(Lower(Href(u)), k);
  }

  /**
   * `http://nubank@evil.example/`: a bank's name written as the user name before `@`
   * is part of the serialisation, so the keyword rule fires whatever the host is.
   */
  lemma UsernameKeyword(u: Url)
    requires u.username == "nubank"
    ensures Detect(u).keywords
  {
    var k := SUSPICIOUS_KEYWORDS[11];
    assert k == "nubank";
    KeywordAsUsername(u, k);
  }
}
