# Guardião60+ link-risk core, modelled in Dafny

Guardião60+ is a small HTTP service that helps older users spot phishing links. A
client posts a link. The service normalises it and scores it with five local rules. It
then merges in the verdicts of two reputation services (Google Safe Browsing and the
OpenPhish feed) and classifies the score as `low`, `medium` or `high`. Every check is
stored, and a check that is not `low` raises a `LINK_SUSPECT` alert. Users can also
report a link or a message, which may raise a `REPORT_SUSPECT` alert. Operators list the
alerts by status and acknowledge them.

The project models the decision core of `index.js`:

- `UrlNorm` (`url.dfy`): `normalizeUrl`. It trims the input, parses it, clears the
  fragment, deletes the seven tracking parameters one by one and lower-cases the host.
- `Text` (`text.dfy`): the string operations the rules rely on, such as `trim`,
  `toLowerCase`, `endsWith`, `includes` and counting dots.
- `Heuristics` (`heuristics.dfy`): `heuristicScore`. It has five additive rules (25, 10,
  15, 20 and 10 points), reasons pushed in rule order, and a clamp to [0, 100].
- `Severity` (`severity.dfy`): `severityFromScore` with thresholds 50/80 by default.
- `Reputation` (`reputation.dfy`):
  - the two lookups, given their outcome;
  - the merge, which raises the score to a floor of 90 (Safe Browsing) or 95 (OpenPhish)
    and appends a reason and a source for each hit.
- `Alerts` (`alerts.dfy`): the persisted records. `Store` is a class with three
  append-only tables and auto-increment ids. It holds alert creation, the status-filtered
  list (newest first) and acknowledgement.
- `Routes` (`routes.dfy`): the four handlers `POST /v1/links/check`,
  `POST /v1/reports`, `GET /v1/alerts` and `PATCH /v1/alerts/:id/ack`, as methods on
  the store.
- `Scenarios` (`scenarios.dfy`): a worked check of `http://bit.ly/abc?utm_source=x`,
  and the keyword rule firing on a bank's name written as the user name
  (`http://nubank@evil.example/`).

The imperative parts stay imperative:
- the deletion loop of `normalizeUrl`;
- the accumulating `if` chain of `heuristicScore`;
- the merge;
- the store's tables;
- the handlers.

Each method is proved against a function. Lemmas then prove what the service promises
about that function:
- scores stay in range;
- reasons are ordered and free of duplicates;
- hits only raise the score;
- normalisation is idempotent and removes every tracking pair;
- the alert list holds exactly the alerts with the asked status, newest first;
- acknowledgement changes one alert only.

The URL parser is a foreign step. Each operation that parses takes it as a parameter
`parse: string -> Option<Url>`, which yields `None` where `new URL(...)` throws. The
reputation lookups' network calls are also parameters: each gives an `Outcome` (not
configured, failed, or answered listed/unlisted). So are the thresholds and the clock
(`now`).

## Model

| member | source | states |
|---|---|---|
| Text.Lower | index.js:63 | lower-casing keeps the length, maps each character through `LowerChar`, and leaves no upper-case letter |
| Text.LowerIdempotent | index.js:76 | lower-casing an already lower-cased host changes nothing |
| Text.LowerKeeps | index.js:63 | text without upper-case letters is its own lower-case form |
| Text.TrimStartSpec | index.js:60 | dropping leading space keeps a suffix, drops only white space, and leaves no leading space |
| Text.TrimEndSpec | index.js:60 | dropping trailing space keeps a prefix, drops only white space, and leaves no trailing space |
| Text.TrimSpec | index.js:60 | `trim()` yields the infix of the input with only white space cut at both ends, and the result neither starts nor ends with white space |
| Text.Trim | index.js:60 | `trim()`: `TrimStart` then `TrimEnd`; its properties are those of `Text.TrimSpec` |
| Text.EndsWith | index.js:78 | `endsWith`: the text is at least as long as the suffix and its last characters equal the suffix |
| Text.Includes | index.js:83 | `includes`: the keyword is a prefix of some suffix of the text; tied to occurrences by `Text.IncludesAt` and `Text.IncludesOccurs` |
| Text.IncludesChars | index.js:83 | every character of an included keyword occurs in the searched text |
| Text.IncludesAt | index.js:83 | a keyword occurring at some position is found by `includes` |
| Text.IncludesOccurs | index.js:83 | a keyword found by `includes` occurs at some position of the text |
| Text.Count | index.js:79 | the dot count is the number of occurrences, the multiset count of the character |
| UrlNorm.RemoveKeys | index.js:62 | the filtered query keeps exactly the pairs whose name is not deleted, each from the original query |
| UrlNorm.DeleteParam | index.js:62 | `searchParams.delete(name)`: the query filtered by the one name, with the properties of `UrlNorm.RemoveKeys` |
| UrlNorm.RemoveNothing | index.js:62 | deleting no names keeps the query unchanged |
| UrlNorm.RemoveKeysAppend | index.js:62 | deletion keeps the surviving pairs in order: it distributes over concatenation |
| UrlNorm.DeleteAfterRemove | index.js:62 | one more `searchParams.delete(name)` after a batch of deletions equals one batch with that name added |
| UrlNorm.DeleteStep | index.js:62 | each pass of the deletion loop extends the prefix of tracking names already deleted |
| UrlNorm.RemoveKeysIdempotent | index.js:62 | deleting the same names twice is deleting them once |
| UrlNorm.Normalize | index.js:61-63 | the normal form: fragment cleared, tracking pairs deleted, host lower-cased; its properties are those of `UrlNorm.NormalizeSpec` |
| UrlNorm.Userinfo | index.js:82 | the credentials part of `toString()`: `user[:pass]@`, or nothing when both are empty |
| UrlNorm.Href | index.js:82 | `toString()`: protocol, `//`, credentials, host, `:port`, path, `?query`, `#fragment`, path and credentials as stored (encoded), query pairs unencoded |
| UrlNorm.NormalizeSpec | index.js:58-68 | the normal form has no fragment, no tracking pair and a lower-case host; it keeps scheme, port, path and the other pairs in order |
| UrlNorm.NormalizeIdempotent | index.js:58-68 | normalising a normalised URL changes nothing |
| UrlNorm.NormalizeUrl | index.js:58-68 | `None` exactly when the trimmed input does not parse; otherwise the normal form of the parsed URL, which is normal |
| Heuristics.Detect | index.js:76-84 | the five tests on the lower-cased host and serialisation: shortener suffix, at least three dots, uncommon top-level domain, a keyword in the serialisation, plain `http:` |
| Heuristics.LocalScore | index.js:86 | the local score lies in [0, 100] |
| Heuristics.FiredRulesMembers | index.js:78-84 | a reason is reported exactly when its rule is one of the five and fires |
| Heuristics.LocalRulesUnfold | index.js:78-84 | the reasons are the five rules' contributions in the order they are tested |
| Heuristics.StepWeight | index.js:78-84 | a rule contributes its points when it fires and nothing otherwise |
| Heuristics.WeightSumAppend | index.js:78-84 | points add up across concatenated reason lists |
| Heuristics.LocalPointsUnfold | index.js:78-84 | the total is 25·shortener + 10·subdomains + 15·tld + 20·keywords + 10·http |
| Heuristics.LocalScoreIsExactSum | index.js:86 | the raw total lies in [0, 80], so the clamp never changes it |
| Heuristics.FiredRulesOrdered | index.js:75-84 | reasons keep the order of the rule list |
| Heuristics.LocalReasonsSpec | index.js:75-84 | reasons are in rule order, without duplicates, name exactly the rules that fire, and are all local rules |
| Heuristics.Accumulate | index.js:74-84 | the accumulated score is the points of the fired rules and the reasons are the fired rules in order |
| Heuristics.HeuristicScore | index.js:73-88 | the returned score is the clamped local score (at most 80) and the reasons are the local reasons |
| Severity.SeverityFromScore | index.js:90-94 | `high` iff score ≥ minHigh; `medium` iff minMedium ≤ score < minHigh; `low` iff below both |
| Severity.SeverityMonotone | index.js:90-94 | a higher score never gets a lower tier, whatever the thresholds |
| Severity.DefaultBoundaries | index.js:22-23 | under 50/80: 49 is low, 50 and 79 are medium, 80 is high |
| Reputation.Consult | index.js:97-129 | a lookup hits only when the provider answered "listed"; a hit is tagged with the provider's name; not configured gives `:stub` and failure gives `:error` |
| Reputation.CheckSafeBrowsing | index.js:97-118 | the Safe Browsing lookup as `Reputation.Consult` states it, under the name `safe_browsing` |
| Reputation.CheckOpenPhish | index.js:120-129 | the OpenPhish lookup as `Reputation.Consult` states it, under the name `openphish` |
| Reputation.MergedScore | index.js:145-150 | the merged score is never below the local score, reaches each hit's floor, and equals the local score or a floor that was hit |
| Reputation.MergedScoreBounds | index.js:145-150 | without hits the score is the local score; the merged score stays in [0, 100] |
| Reputation.Merge | index.js:145-150 | the merge yields the merged score, the local reasons followed by the hit reasons, and `local` followed by the hit sources |
| Reputation.MergedReasonsSpec | index.js:146-150 | merged reasons stay ordered and free of duplicates, and name each hit exactly when it happened |
| Alerts.StatusFromQuery | index.js:238 | the list asks for `ack` exactly when the query is `ack`, and for `new` otherwise |
| Alerts.WithStatus | index.js:239-242 | the alerts with the status, newest first; its properties are those of `Alerts.WithStatusSpec` and `Alerts.WithStatusNewestFirst` |
| Alerts.WithStatusSpec | index.js:239-242 | the listed alerts are exactly the stored alerts with the asked status |
| Alerts.WithStatusNewestFirst | index.js:239-242 | when ids follow creation order, the list is strictly newest first |
| Alerts.Acknowledge | index.js:250-253 | the table after acknowledging `id` at `now`, or `NotFound`; its properties are those of `Alerts.AcknowledgeSpec` |
| Alerts.AcknowledgeSpec | index.js:250-256 | an unknown id fails and changes nothing; otherwise only that alert's status and `ackAt` change |
| Alerts.AckTwiceRestamps | index.js:250-253 | acknowledging twice succeeds twice, and the second call re-stamps `ackAt` |
| Alerts.Store.constructor | index.js:53 | the store starts with three empty tables |
| Alerts.Store.CreateAlert | index.js:160-169 | appends a `new`, unacknowledged alert with the next id and the creation time; the other tables are unchanged |
| Alerts.Store.CreateLinkCheck | index.js:155-157 | appends the audit record with the next id; the other tables are unchanged |
| Alerts.Store.CreateReport | index.js:198-205 | appends the report with the next id; the other tables are unchanged |
| Alerts.Store.Ack | index.js:247-258 | on a known id sets that alert to `ack` with the given time and returns it; otherwise `NotFound` with no change |
| Alerts.Store.FindMany | index.js:239-242 | returns exactly the alerts with the status, newest first |
| Routes.Assess | index.js:141-152 | the link assessment: merged score, its severity, local then hit reasons, `local` then hit sources; its properties are those of `Routes.AssessSpec` |
| Routes.AssessSpec | index.js:140-153 | the link score lies in [0, 100] and is never below the local score (equal without hits); sources start with `local`; reasons are ordered; each match reason appears exactly when its provider hit |
| Routes.AssessUrl | index.js:140-152 | scoring, merging and classifying a normalised URL yields its assessment |
| Routes.LinkAlert | index.js:153-170 | a `LINK_SUSPECT` alert is raised exactly when the severity is not `low`, carrying the URL, severity and score |
| Routes.CheckLink | index.js:136-173 | an unparsable URL gives `invalid_url` and stores nothing, and so does a missing or empty one since the parser rejects the empty text; otherwise the response has the normalised URL and its assessment, one link check is stored, plus one alert exactly when not `low` |
| Routes.CheckNormalized | index.js:140-172 | for a normalised URL: the response, the appended link check and the optional alert |
| Routes.RecordLinkCheck | index.js:155-170 | stores the check with the next id and, unless `low`, the alert |
| Routes.TextSuggestsRisk | index.js:207-209 | the lower-cased description, or the empty text, includes one of the seven report keywords |
| Routes.ReportAlert | index.js:207-221 | a `REPORT_SUSPECT` alert is raised exactly when a given URL scored medium/high or the description holds a risk keyword; without a URL it is `medium` with no score; the description defaults to `Denúncia recebida` |
| Routes.SubmitReport | index.js:177-225 | an unparsable URL gives `invalid_url` and stores nothing; otherwise the report is stored with empty texts as absent, then the report alert for the computed score and severity |
| Routes.ScoreReportUrl | index.js:187-194 | a reported URL's score is the local score raised to the floor of each hit |
| Routes.RecordReport | index.js:198-221 | stores the report, then at most one alert |
| Routes.ListAlerts | index.js:237-244 | lists exactly the alerts with the asked status, newest first |
| Routes.AckAlert | index.js:247-258 | acknowledges a known alert and returns the updated stored record (status `ack`, `ackAt` = now), or answers `not_found` with no change |
| Scenarios.ShortLinkNormalizes | index.js:58-68 | `http://bit.ly/abc?utm_source=x` normalises to `http://bit.ly/abc` |
| Scenarios.ShortLinkSignals | index.js:78-84 | on `http://bit.ly/abc` only the shortener and plain-HTTP rules fire |
| Scenarios.ShortenerOverHttp | index.js:78-84 | those two rules give reasons `url_shortener`, `no_https` and 35 points |
| Scenarios.ShortLinkLocal | index.js:73-88 | the local score of `http://bit.ly/abc` is 35 with those two reasons |
| Scenarios.ShortLinkUnlisted | index.js:145-170 | without hits a 35-point link stays at 35, is `low`, has source `local` only, and raises no alert |
| Scenarios.ShortLinkListed | index.js:145-170 | with a Safe Browsing hit a 35-point link rises to 90 and is `high`, gains reason and source, and raises an alert |
| Scenarios.UsernameInHref | index.js:82 | a user name is written right after `//` in the serialisation |
| Scenarios.LowerInfix | index.js:82 | lower-casing the serialisation keeps a lower-case infix in place |
| Scenarios.KeywordAsUsername | index.js:82-83 | a keyword used as the user name fires the keyword rule, whatever the host |
| Scenarios.UsernameKeyword | index.js:82-83 | `http://nubank@evil.example/` fires `suspicious_keywords` |
| Scenarios.ShortLinkScenario | index.js:136-173 | the whole check of `http://bit.ly/abc?utm_source=x`: `low` without alert when unlisted, `high` with alert when Safe Browsing lists it |

## Left out

- The WHATWG URL parser is not modelled. It is the `parse` parameter, and the URL
  record keeps only protocol, user name, password, host, port, path, query pairs and
  fragment. `CheckLink` requires of the parser that it rejects the empty text, as
  `new URL('')` does.
- `UrlNorm.Href` writes the stored components as they are. `pathname`, `username` and
  `password` hold the parser's percent-encoded text and `hostname` the parser's ASCII
  host, so for these `Href` writes what `toString()` writes. `query` holds the decoded
  `searchParams` pairs. `searchParams.delete` makes `toString()` write them through the
  form-urlencoded serialiser. That serialiser percent-encodes every byte except ASCII
  letters, digits and `*-._`, uses upper-case hex, and writes a space as `+`. `Href`
  writes the pairs unencoded. So the keyword rule can differ on the query, in both
  directions:
  - A non-ASCII keyword such as `cartão` can match in the model, through the pair
    `("q", "cartão")`, but never in the service.
  - The hex digits of an escape, once lower-cased, can complete a keyword in the service
    and not in the model. `?q=,orreios` is written `?q=%2Correios`, which contains
    `correios` once lower-cased. Likewise `?n=/gts` gives `%2fgts` (matching `fgts`),
    `?q=%2Banco` gives `%2banco` (`banco`) and `?q=;loqueio` gives `%3bloqueio` (`bloqueio`).
  A keyword that the input percent-encodes in the query is decoded into its pair and
  matches in both. One percent-encoded in the path or in the credentials stays encoded
  and matches in neither.
  `UrlNorm.Href` also always writes `//` after the scheme. `toString()` writes none for a
  URL without a host such as `mailto:x`. No keyword contains `/` or `:`, so the keyword
  rule is not affected.
- Each handler is one atomic step on the store. The service yields at every `await`
  (index.js:142-143, 155, 160, 189-190, 198, 212, 250), and other requests can add rows
  in between. Interleaving requests are not modelled. The consecutive ids that
  `Routes.CheckLink`, `Routes.SubmitReport`, `Routes.RecordLinkCheck` and
  `Routes.RecordReport` promise hold only for requests that do not interleave.
- `normalizeUrl` returns a string and the handlers re-parse it with `new URL(norm)`. The
  model keeps the normalised record and treats this re-parse as the identity.
- Lower-casing covers ASCII letters only. `trim` removes ASCII white space and the
  Unicode spaces U+00A0, U+2028, U+2029 and U+FEFF, not every Unicode space.
- The network bodies of `checkSafeBrowsing` and `checkOpenPhish` are not modelled (the
  HTTP request, timeouts, the feed's substring search). Each lookup is given as an
  `Outcome`.
- Prisma and MySQL are replaced by the in-memory `Store`. Ids are auto-increment from 1.
  `createdAt` ordering is modelled as id order; clock ties are not modelled.
- `Routes.ListAlerts`: ordering by `createdAt` is stated as strictly decreasing id.
- Thresholds from the environment are plain integers. `NaN` and non-numeric settings are
  not modelled.
- Express plumbing is not part of this model: rate limiting, API key check, CORS, helmet,
  JSON body limits, logging, `/health`, the 404 and 500 handlers, and `GET /v1/reports/:id`.
- `app.js`, `server.js` and `public/app.js` are not part of this model.
- Body fields are modelled as strings or absent. Non-string JSON values and an
  `evidence` that is not an array are not modelled; `evidence` is given as present or
  absent.
- `Alerts.AckTwiceRestamps`: acknowledgement is not idempotent. A second `PATCH`
  re-stamps `ackAt` (index.js:252).
- Reasons are carried as `Reason` values. The response sends them as the codes
  `url_shortener`, `many_subdomains`, `uncommon_tld`, `suspicious_keywords`, `no_https`,
  `safe_browsing_match` and `openphish_match`, one per value.
