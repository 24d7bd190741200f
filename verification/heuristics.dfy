/**
 * `heuristicScore` (index.js:70-88): five independent additive rules over a parsed
 * URL, each worth a fixed number of points and reported by a fixed reason code.
 */
module Heuristics {
  import opened Text
  import opened UrlNorm

  const SUSPICIOUS_KEYWORDS: seq<string> :=
    ["pix", "premio", "brinde", "ganhou", "suporte", "senha", "bloqueio", "liberar",
     "cartão", "banco", "itau", "nubank", "correios", "receita", "fgts"]

  const SHORTENERS: seq<string> :=
    ["bit.ly", "tinyurl.com", "t.co", "is.gd", "goo.gl", "cutt.ly", "ow.ly", "rebrand.ly"]

  /** The alternatives of the top-level-domain pattern `\.(top|xyz|...)$`. */
  const UNCOMMON_TLDS: seq<string> :=
    ["top", "xyz", "click", "link", "fit", "rest", "gq", "ml", "cf", "tk"]

  /**
   * The reasons a link check reports: the five local rules, then the two reputation
   * hits appended by the merge.
   */
  datatype Reason =
    | UrlShortener | ManySubdomains | UncommonTld | SuspiciousKeywords | NoHttps
    | SafeBrowsingMatch | OpenPhishMatch

  /** Position of a reason in the order the service can push it. */
  function Rank(r: Reason): nat {
    match r
    case UrlShortener => 0
    case ManySubdomains => 1
    case UncommonTld => 2
    case SuspiciousKeywords => 3
    case NoHttps => 4
    case SafeBrowsingMatch => 5
    case OpenPhishMatch => 6
  }

  /** The local rules in the order `heuristicScore` applies them. */
  const RULES: seq<Reason> := [UrlShortener, ManySubdomains, UncommonTld, SuspiciousKeywords, NoHttps]

  /** The points a reason adds in `heuristicScore`; the reputation hits add none there. */
  function Weight(r: Reason): nat {
    match r
    case UrlShortener => 25
    case ManySubdomains => 10
    case UncommonTld => 15
    case SuspiciousKeywords => 20
    case NoHttps => 10
    case SafeBrowsingMatch => 0
    case OpenPhishMatch => 0
  }

  /** The outcome of the five tests on one URL. */
  datatype Signals = Signals(
    shortener: bool,
    manySubdomains: bool,
    uncommonTld: bool,
    keywords: bool,
    plainHttp: bool)

  /**
   * The five tests of `heuristicScore`. The host is lower-cased first; the shortener
   * test is a plain suffix test, so `notbit.ly` passes it too; "many subdomains" means
   * at least three dots; the keyword test looks at the lower-cased `Href`, credentials
   * included, which writes the query pairs decoded where `toString()` encodes them.
   */
  function Detect(u: Url): Signals {
    var host := Lower(u.hostname);
    Signals(
      exists s :: s in SHORTENERS && EndsWith(host, s),
      Count(host, '.') >= 3,
      exists t :: t in UNCOMMON_TLDS && EndsWith(host, "." + t),
      exists k :: k in SUSPICIOUS_KEYWORDS && Includes(Lower(Href(u)), k),
      u.protocol == "http:")
  }

  /** Whether a local rule fires; a reputation reason is never a local rule. */
  predicate Fires(r: Reason, sig: Signals) {
    match r
    case UrlShortener => sig.shortener
    case ManySubdomains => sig.manySubdomains
    case UncommonTld => sig.uncommonTld
    case SuspiciousKeywords => sig.keywords
    case NoHttps => sig.plainHttp
    case SafeBrowsingMatch => false
    case OpenPhishMatch => false
  }

  /** The one-rule contribution: the rule itself when it fires, nothing otherwise. */
  function Step(r: Reason, sig: Signals): seq<Reason> {
    if Fires(r, sig) then [r] else []
  }

  /** The rules among `rules` that fire, in the order of `rules`. */
  function FiredRules(rules: seq<Reason>, sig: Signals): seq<Reason> {
    if rules == [] then [] else Step(rules[0], sig) + FiredRules(rules[1..], sig)
  }

  function WeightSum(rs: seq<Reason>): nat {
    if rs == [] then 0 else Weight(rs[0]) + WeightSum(rs[1..])
  }

  /** The score of a URL: the points of the rules that fire, clamped to [0, 100]. */
  function LocalScore(u: Url): (score: int)
    ensures 0 <= score <= 100
  {
    var total := WeightSum(FiredRules(RULES, Detect(u)));
    if total < 0 then 0 else if total > 100 then 100 else total
  }

  /** The reasons of a URL, one per firing rule, in rule order. */
  function LocalReasons(u: Url): seq<Reason> {
    FiredRules(RULES, Detect(u))
  }

  /** A rule is among the fired ones exactly when it is listed and fires. */
  lemma {:induction false} FiredRulesMembers(rules: seq<Reason>, sig: Signals)
    ensures forall r :: r in FiredRules(rules, sig) <==> r in rules && Fires(r, sig)
  {
    if rules != [] {
      FiredRulesMembers(rules[1..], sig);
      assert rules == [rules[0]] + rules[1..];
    }
  }

  lemma FiredCons(r: Reason, rest: seq<Reason>, sig: Signals)
    ensures FiredRules([r] + rest, sig) == Step(r, sig) + FiredRules(rest, sig)
  {
    assert ([r] + rest)[1..] == rest;
  }

  lemma {:induction false} WeightSumAppend(a: seq<Reason>, b: seq<Reason>)
    ensures WeightSum(a + b) == WeightSum(a) + WeightSum(b)
  {
    if a == [] {
      assert a + b == b;
    } else {
      assert (a + b)[1..] == a[1..] + b;
      WeightSumAppend(a[1..], b);
    }
  }

  /** Concatenation regrouped from the right-nested form `FiredRules` builds. */
  lemma Regroup(a: seq<Reason>, b: seq<Reason>, c: seq<Reason>, d: seq<Reason>, e: seq<Reason>)
    ensures a + (b + (c + (d + e))) == a + b + c + d + e
  {
  }

  /** The five rules spelt out one after the other. */
  lemma LocalRulesUnfold(sig: Signals)
    ensures FiredRules(RULES, sig) ==
      Step(UrlShortener, sig) + Step(ManySubdomains, sig) + Step(UncommonTld, sig)
      + Step(SuspiciousKeywords, sig) + Step(NoHttps, sig)
  {
    var r4: seq<Reason> := [NoHttps];
    var r3 := [SuspiciousKeywords] + r4;
    var r2 := [UncommonTld] + r3;
    var r1 := [ManySubdomains] + r2;
    assert RULES == [UrlShortener] + r1;
    FiredCons(NoHttps, [], sig);
    assert [NoHttps] + [] == r4;
    assert FiredRules([], sig) == [];
    var f4 := FiredRules(r4, sig);
    assert f4 == Step(NoHttps, sig);
    FiredCons(SuspiciousKeywords, r4, sig);
    var f3 := FiredRules(r3, sig);
    FiredCons(UncommonTld, r3, sig);
    var f2 := FiredRules(r2, sig);
    FiredCons(ManySubdomains, r2, sig);
    var f1 := FiredRules(r1, sig);
    FiredCons(UrlShortener, r1, sig);
    assert FiredRules(RULES, sig) == Step(UrlShortener, sig) + f1;
    Regroup(Step(UrlShortener, sig), Step(ManySubdomains, sig), Step(UncommonTld, sig),
      Step(SuspiciousKeywords, sig), Step(NoHttps, sig));
  }

  /** A rule's contribution weighs its points when it fires and nothing otherwise. */
  lemma StepWeight(r: Reason, sig: Signals)
    ensures WeightSum(Step(r, sig)) == if Fires(r, sig) then Weight(r) else 0
  {
    assert [r][1..] == [];
  }

  /** The points of the five rules, spelt out. */
  lemma LocalPointsUnfold(sig: Signals)
    ensures WeightSum(FiredRules(RULES, sig)) ==
      (if sig.shortener then 25 else 0) + (if sig.manySubdomains then 10 else 0)
      + (if sig.uncommonTld then 15 else 0) + (if sig.keywords then 20 else 0)
      + (if sig.plainHttp then 10 else 0)
  {
    LocalRulesUnfold(sig);
    var s1, s2, s3, s4, s5 := Step(UrlShortener, sig), Step(ManySubdomains, sig),
      Step(UncommonTld, sig), Step(SuspiciousKeywords, sig), Step(NoHttps, sig);
    WeightSumAppend(s1 + s2 + s3 + s4, s5);
    WeightSumAppend(s1 + s2 + s3, s4);
    WeightSumAppend(s1 + s2, s3);
    WeightSumAppend(s1, s2);
    StepWeight(UrlShortener, sig);
    StepWeight(ManySubdomains, sig);
    StepWeight(UncommonTld, sig);
    StepWeight(SuspiciousKeywords, sig);
    StepWeight(NoHttps, sig);
  }

  /** The raw total lies in [0, 80], so the clamp to [0, 100] never changes it. */
  lemma LocalScoreIsExactSum(u: Url)
    ensures 0 <= WeightSum(FiredRules(RULES, Detect(u))) <= 80
    ensures LocalScore(u) == WeightSum(FiredRules(RULES, Detect(u)))
  {
    LocalPointsUnfold(Detect(u));
  }

  /** Reasons listed by strictly increasing rank, hence without duplicates. */
  predicate RankSorted(rs: seq<Reason>) {
    forall i, j :: 0 <= i < j < |rs| ==> Rank(rs[i]) < Rank(rs[j])
  }

  /** Fired rules keep the order of the rule list. */
  lemma {:induction false} FiredRulesOrdered(rules: seq<Reason>, sig: Signals)
    requires RankSorted(rules)
    ensures RankSorted(FiredRules(rules, sig))
  {
    if rules != [] {
      var tail := rules[1..];
      FiredRulesOrdered(tail, sig);
      FiredRulesMembers(tail, sig);
      var rest := FiredRules(tail, sig);
      forall r | r in rest
        ensures Rank(rules[0]) < Rank(r)
      {
        var k :| 0 <= k < |tail| && tail[k] == r;
        assert rules[k + 1] == r;
      }
      var fired := FiredRules(rules, sig);
      if Fires(rules[0], sig) {
        assert fired == [rules[0]] + rest;
        forall i, j | 0 <= i < j < |fired|
          ensures Rank(fired[i]) < Rank(fired[j])
        {
          assert fired[j] == rest[j - 1] && rest[j - 1] in rest;
          if i > 0 {
            assert fired[i] == rest[i - 1];
            assert Rank(rest[i - 1]) < Rank(rest[j - 1]);
          }
        }
      } else {
        assert fired == rest;
      }
    }
  }

  /**
   * The reasons follow the fixed order url_shortener, many_subdomains, uncommon_tld,
   * suspicious_keywords, no_https, hold no duplicates, and name a rule exactly when
   * that rule fires.
   */
  lemma LocalReasonsSpec(u: Url)
    ensures RankSorted(LocalReasons(u))
    ensures forall i, j :: 0 <= i < j < |LocalReasons(u)| ==> LocalReasons(u)[i] != LocalReasons(u)[j]
    ensures forall r :: r in LocalReasons(u) <==> r in RULES && Fires(r, Detect(u))
    ensures forall r :: r in LocalReasons(u) ==> Rank(r) < 5
  {
    FiredRulesOrdered(RULES, Detect(u));
    FiredRulesMembers(RULES, Detect(u));
  }

  /**
   * The accumulating half of `heuristicScore`: from 0 and no reasons, each rule that
   * fired adds its points and pushes its reason, in rule order.
   */
  method Accumulate(sig: Signals) returns (score: int, reasons: seq<Reason>)
    ensures score == WeightSum(FiredRules(RULES, sig))
    ensures reasons == FiredRules(RULES, sig)
  {
    score := 0;
    reasons := [];
    if sig.shortener {
      score, reasons := score + 25, reasons + [UrlShortener];
    }
    assert reasons == Step(UrlShortener, sig);
    if sig.manySubdomains {
      score, reasons := score + 10, reasons + [ManySubdomains];
    }
    assert reasons == Step(UrlShortener, sig) + Step(ManySubdomains, sig);
    if sig.uncommonTld {
      score, reasons := score + 15, reasons + [UncommonTld];
    }
    assert reasons == Step(UrlShortener, sig) + Step(ManySubdomains, sig) + Step(UncommonTld, sig);
    if sig.keywords {
      score, reasons := score + 20, reasons + [SuspiciousKeywords];
    }
    assert reasons == Step(UrlShortener, sig) + Step(ManySubdomains, sig) + Step(UncommonTld, sig)
      + Step(SuspiciousKeywords, sig);
    if sig.plainHttp {
      score, reasons := score + 10, reasons + [NoHttps];
    }
    LocalRulesUnfold(sig);
    LocalPointsUnfold(sig);
  }

  /**
   * `heuristicScore(urlObj)`: runs the five tests on the URL, accumulates the points
   * and reasons of the rules that fired, and clamps the total to [0, 100].
   */
  method HeuristicScore(u: Url) returns (score: int, reasons: seq<Reason>)
    ensures score == WeightSum(FiredRules(RULES, Detect(u))) && 0 <= score <= 80
    ensures score == LocalScore(u)
    ensures reasons == LocalReasons(u)
  {
    var sig := Detect(u);
    score, reasons := Accumulate(sig);
    LocalScoreIsExactSum(u);
    score := if score > 100 then 100 else if score < 0 then 0 else score;
  }
}
