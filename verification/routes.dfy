/**
 * The decision logic of the handlers `POST /v1/links/check` (index.js:136-173),
 * `POST /v1/reports` (index.js:177-225), `GET /v1/alerts` (index.js:237-244) and
 * `PATCH /v1/alerts/:id/ack` (index.js:247-258), over the in-memory store.
 */
module Routes {
  import opened Wrappers
  import opened Text
  import opened UrlNorm
  import opened Heuristics
  import opened Severity
  import opened Reputation
  import opened Alerts

  /** What a link check computes before it stores anything. */
  datatype Assessment = Assessment(
    score: int,
    severity: Severity,
    reasons: seq<Reason>,
    sources: seq<string>)

  /** The response of a link check. */
  datatype LinkResponse = LinkResponse(
    url: Url,
    isSafe: bool,
    score: int,
    severity: Severity,
    reasons: seq<Reason>,
    sources: seq<string>,
    savedId: nat)

  /** The local heuristics merged with the two lookups, then classified. */
  function Assess(u: Url, t: Thresholds, ext1: Lookup, ext2: Lookup): Assessment {
    var score := MergedScore(LocalScore(u), ext1.hit, ext2.hit);
    Assessment(score, SeverityFromScore(score, t), LocalReasons(u) + HitReasons(ext1, ext2),
      ["local"] + HitSources(ext1, ext2))
  }

  /**
   * A link assessment keeps its score in [0, 100] and never below the local score,
   * lists its sources from `local`, and reports each reason once, local rules first.
   */
  lemma AssessSpec(u: Url, t: Thresholds, ext1: Lookup, ext2: Lookup)
    ensures var a := Assess(u, t, ext1, ext2);
      0 <= a.score <= 100 && a.score >= LocalScore(u)
      && (!ext1.hit && !ext2.hit ==> a.score == LocalScore(u))
      && |a.sources| >= 1 && a.sources[0] == "local"
      && RankSorted(a.reasons)
      && (SafeBrowsingMatch in a.reasons <==> ext1.hit)
      && (OpenPhishMatch in a.reasons <==> ext2.hit)
  {
    MergedScoreBounds(LocalScore(u), ext1.hit, ext2.hit);
    LocalReasonsSpec(u);
    MergedReasonsSpec(LocalReasons(u), ext1, ext2);
  }

  /** Scores a normalised URL, merges both lookups and classifies the result. */
  method AssessUrl(u: Url, t: Thresholds, ext1: Lookup, ext2: Lookup) returns (a: Assessment)
    ensures a == Assess(u, t, ext1, ext2)
  {
    var localScore, localReasons := HeuristicScore(u);
    var score, reasons, sources := Merge(localScore, localReasons, ext1, ext2);
    a := Assessment(score, SeverityFromScore(score, t), reasons, sources);
  }

  /** The link check alerts exactly when the severity is not low. */
  function LinkAlert(u: Url, a: Assessment): (d: Option<Draft>)
    ensures d.Some? <==> a.severity != Low
    ensures d.Some? ==>
      d.value.kind == LinkSuspect && d.value.url == Some(u) && d.value.severity == a.severity && d.value.score == Some(a.score)
  {
    if a.severity == Low then None
    else Some(Draft(LinkSuspect, Some(u), "Link com indícios de phishing", a.severity, Some(a.score)))
  }

  function DraftList(d: Option<Draft>, id: nat, now: int): seq<Alert> {
    if d.Some? then [Materialize(d.value, id, now)] else []
  }

  /** `x || ''` on an optional text: a missing text is the empty string. */
  function OrEmpty(url: Option<string>): string {
    if url.Some? then url.value else ""
  }

  /** JavaScript truthiness of an optional string: absent and empty are both false. */
  function Truthy(s: Option<string>): Option<string>
  {
    if s.Some? && s.value != "" then s else None
  }

  /**
   * `POST /v1/links/check`: normalises the URL (400 `invalid_url` when it does not
   * parse), scores it, merges the lookups, stores the check and, when the severity is
   * not low, one `LINK_SUSPECT` alert.
   */
  method CheckLink(store: Store, url: Option<string>, parse: string -> Option<Url>, t: Thresholds,
                   safeBrowsing: Outcome, openPhish: Outcome, now: int)
    returns (res: Result<LinkResponse, ApiError>)
    requires store.Valid()
    requires parse("").None?
    modifies store
    ensures store.Valid()
    ensures store.reports == old(store.reports)
    ensures parse(Trim(OrEmpty(url))).None? ==>
      res == Failure(InvalidUrl)
      && store.alerts == old(store.alerts) && store.linkChecks == old(store.linkChecks)
    ensures url.None? || url == Some("") ==> res == Failure(InvalidUrl)
    ensures parse(Trim(OrEmpty(url))).Some? ==>
      var u := Normalize(parse(Trim(OrEmpty(url))).value);
      var a := Assess(u, t, CheckSafeBrowsing(safeBrowsing), CheckOpenPhish(openPhish));
      var id := |old(store.linkChecks)| + 1;
      res == Success(LinkResponse(u, a.severity == Low, a.score, a.severity, a.reasons, a.sources, id))
      && store.linkChecks == old(store.linkChecks) + [LinkCheck(id, u, a.severity == Low, a.score, a.reasons, a.sources)]
      && store.alerts == old(store.alerts) + DraftList(LinkAlert(u, a), |old(store.alerts)| + 1, now)
  {
    var norm := NormalizeUrl(OrEmpty(url), parse);
    if norm.None? {
      return Failure(InvalidUrl);
    }
    var response := CheckNormalized(store, norm.value, t, CheckSafeBrowsing(safeBrowsing), CheckOpenPhish(openPhish), now);
    res := Success(response);
  }

  /** The link check once the URL is normalised: assess, store, answer. */
  method CheckNormalized(store: Store, u: Url, t: Thresholds, ext1: Lookup, ext2: Lookup, now: int)
    returns (response: LinkResponse)
    requires store.Valid()
    modifies store
    ensures store.Valid()
    ensures store.reports == old(store.reports)
    ensures var a := Assess(u, t, ext1, ext2);
      var id := |old(store.linkChecks)| + 1;
      response == LinkResponse(u, a.severity == Low, a.score, a.severity, a.reasons, a.sources, id)
      && store.linkChecks == old(store.linkChecks) + [LinkCheck(id, u, a.severity == Low, a.score, a.reasons, a.sources)]
      && store.alerts == old(store.alerts) + DraftList(LinkAlert(u, a), |old(store.alerts)| + 1, now)
  {
    var a := AssessUrl(u, t, ext1, ext2);
    var id := RecordLinkCheck(store, u, a, now);
    response := LinkResponse(u, a.severity == Low, a.score, a.severity, a.reasons, a.sources, id);
  }

  /** Stores the audit record of a link check and, unless it is low, its alert. */
  method RecordLinkCheck(store: Store, u: Url, a: Assessment, now: int) returns (id: nat)
    requires store.Valid()
    modifies store
    ensures store.Valid()
    ensures id == |old(store.linkChecks)| + 1
    ensures store.linkChecks == old(store.linkChecks) + [LinkCheck(id, u, a.severity == Low, a.score, a.reasons, a.sources)]
    ensures store.alerts == old(store.alerts) + DraftList(LinkAlert(u, a), |old(store.alerts)| + 1, now)
    ensures store.reports == old(store.reports)
  {
    var saved := store.CreateLinkCheck(u, a.severity == Low, a.score, a.reasons, a.sources);
    var alert := LinkAlert(u, a);
    if alert.Some? {
      var _ := store.CreateAlert(alert.value, now);
    }
    id := saved.id;
  }

  /** The words that make a report's description look risky on their own. */
  const REPORT_KEYWORDS: seq<string> := ["pix", "senha", "cobrança", "bloqueio", "link", "golpe", "phishing"]

  /** `(description || '').toLowerCase()` contains one of the report keywords. */
  predicate TextSuggestsRisk(description: Option<string>) {
    var text := Lower(OrEmpty(description));
    exists k :: k in REPORT_KEYWORDS && Includes(text, k)
  }

  /**
   * The report alert: raised when a supplied URL scored medium or high, or when the
   * description looks risky. Without a URL it is `medium` with no score; with one it
   * carries the computed severity and score, even `low` when only the text triggered it.
   */
  function ReportAlert(norm: Option<Url>, score: int, severity: Severity, description: Option<string>)
    : (d: Option<Draft>)
    ensures d.Some? <==> (norm.Some? && severity in {Medium, High}) || TextSuggestsRisk(description)
    ensures d.Some? ==> d.value.kind == ReportSuspect && d.value.url == norm
    ensures d.Some? && norm.None? ==> d.value.severity == Medium && d.value.score == None
    ensures d.Some? && norm.Some? ==> d.value.severity == severity && d.value.score == Some(score)
    ensures d.Some? ==>
      d.value.description == if Truthy(description).Some? then description.value else "Denúncia recebida"
  {
    if (norm.Some? && (severity == Medium || severity == High)) || TextSuggestsRisk(description) then
      Some(Draft(ReportSuspect, norm,
        if Truthy(description).Some? then description.value else "Denúncia recebida",
        if norm.Some? then severity else Medium,
        if norm.Some? then Some(score) else None))
    else None
  }

  /** The score a report computes for its URL: the local score raised to the hit floors. */
  function ReportScore(u: Url, ext1: Lookup, ext2: Lookup): int {
    MergedScore(LocalScore(u), ext1.hit, ext2.hit)
  }

  /**
   * `POST /v1/reports`: a supplied URL that does not parse is rejected (400) before
   * anything is stored; otherwise the report is stored, then at most one
   * `REPORT_SUSPECT` alert.
   */
  method SubmitReport(store: Store, url: Option<string>, description: Option<string>,
                      reporterHash: Option<string>, evidence: Option<seq<string>>,
                      parse: string -> Option<Url>, t: Thresholds,
                      safeBrowsing: Outcome, openPhish: Outcome, now: int)
    returns (res: Result<Report, ApiError>)
    requires store.Valid()
    modifies store
    ensures store.Valid()
    ensures store.linkChecks == old(store.linkChecks)
    ensures Truthy(url).Some? && parse(Trim(url.value)).None? ==>
      res == Failure(InvalidUrl)
      && store.alerts == old(store.alerts) && store.reports == old(store.reports)
    ensures Truthy(url).None? ==>
      var saved := Report(|old(store.reports)| + 1, None, Truthy(description), Truthy(reporterHash), evidence);
      res == Success(saved)
      && store.reports == old(store.reports) + [saved]
      && store.alerts == old(store.alerts) + DraftList(ReportAlert(None, 0, Low, description), |old(store.alerts)| + 1, now)
    ensures Truthy(url).Some? && parse(Trim(url.value)).Some? ==>
      var u := Normalize(parse(Trim(url.value)).value);
      var score := ReportScore(u, CheckSafeBrowsing(safeBrowsing), CheckOpenPhish(openPhish));
      var saved := Report(|old(store.reports)| + 1, Some(u), Truthy(description), Truthy(reporterHash), evidence);
      res == Success(saved)
      && store.reports == old(store.reports) + [saved]
      && store.alerts == old(store.alerts)
         + DraftList(ReportAlert(Some(u), score, SeverityFromScore(score, t), description), |old(store.alerts)| + 1, now)
  {
    if Truthy(url).None? {
      var saved := RecordReport(store, None, 0, Low, description, reporterHash, evidence, now);
      return Success(saved);
    }
    var norm := NormalizeUrl(url.value, parse);
    if norm.None? {
      return Failure(InvalidUrl);
    }
    var score := ScoreReportUrl(norm.value, CheckSafeBrowsing(safeBrowsing), CheckOpenPhish(openPhish));
    var saved := RecordReport(store, norm, score, SeverityFromScore(score, t), description, reporterHash, evidence, now);
    res := Success(saved);
  }

  /**
   * The score of a reported URL: the local score raised to the floor of each lookup
   * that lists it, without collecting reasons.
   */
  method ScoreReportUrl(u: Url, ext1: Lookup, ext2: Lookup) returns (score: int)
    ensures score == ReportScore(u, ext1, ext2)
  {
    var localScore, _ := HeuristicScore(u);
    score := localScore;
    if ext1.hit {
      score := if score > SAFE_BROWSING_FLOOR then score else SAFE_BROWSING_FLOOR;
    }
    if ext2.hit {
      score := if score > OPENPHISH_FLOOR then score else OPENPHISH_FLOOR;
    }
  }

  /** Stores a report, with empty texts stored as absent, then at most one alert. */
  method RecordReport(store: Store, norm: Option<Url>, score: int, severity: Severity,
                      description: Option<string>, reporterHash: Option<string>,
                      evidence: Option<seq<string>>, now: int)
    returns (saved: Report)
    requires store.Valid()
    modifies store
    ensures store.Valid()
    ensures saved == Report(|old(store.reports)| + 1, norm, Truthy(description), Truthy(reporterHash), evidence)
    ensures store.reports == old(store.reports) + [saved]
    ensures store.alerts == old(store.alerts)
      + DraftList(ReportAlert(norm, score, severity, description), |old(store.alerts)| + 1, now)
    ensures store.linkChecks == old(store.linkChecks)
  {
    saved := store.CreateReport(norm, Truthy(description), Truthy(reporterHash), evidence);
    var alert := ReportAlert(norm, score, severity, description);
    if alert.Some? {
      var _ := store.CreateAlert(alert.value, now);
    }
  }

  /** `GET /v1/alerts?status=...`: the alerts with the asked status, newest first. */
  method ListAlerts(store: Store, statusQuery: Option<string>) returns (items: seq<Alert>)
    requires store.Valid()
    ensures forall a :: a in items <==> a in store.alerts && a.status == StatusFromQuery(statusQuery)
    ensures NewestFirst(items)
  {
    var status := StatusFromQuery(statusQuery);
    items := store.FindMany(status);
  }

  /** `PATCH /v1/alerts/:id/ack`: acknowledges one alert, or answers 404 `not_found`. */
  method AckAlert(store: Store, id: Option<int>, now: int) returns (res: Result<Alert, ApiError>)
    requires store.Valid()
    modifies store
    ensures store.Valid()
    ensures Acknowledge(old(store.alerts), id, now).Failure? ==>
      res == Failure(NotFound) && store.alerts == old(store.alerts)
    ensures Acknowledge(old(store.alerts), id, now).Success? ==>
      store.alerts == Acknowledge(old(store.alerts), id, now).value
      && id.Some? && 1 <= id.value <= |store.alerts| && res == Success(store.alerts[id.value - 1])
      && res.value.status == Acked && res.value.ackAt == Some(now)
    ensures store.linkChecks == old(store.linkChecks) && store.reports == old(store.reports)
  {
    res := store.Ack(id, now);
  }
}
