/**
 * The external reputation lookups (index.js:97-129) and the merge of their results
 * into the local score (index.js:145-150, and 192-194 without reasons).
 */
module Reputation {
  import opened Heuristics

  /**
   * What one provider does for a URL: it is not configured, its request fails, or it
   * answers whether the URL is listed.
   */
  datatype Outcome = Unconfigured | Failed | Answered(listed: bool)

  /** The `{ hit, source }` record a lookup returns. */
  datatype Lookup = Lookup(hit: bool, source: string)

  /** A provider that is not configured or fails reports no hit, tagged `:stub` or `:error`. */
  function Consult(name: string, o: Outcome): (l: Lookup)
    ensures l.hit <==> o == Answered(true)
    ensures l.hit ==> l.source == name
    ensures o == Unconfigured ==> l.source == name + ":stub"
    ensures o == Failed ==> l.source == name + ":error"
  {
    match o
    case Unconfigured => Lookup(false, name + ":stub")
    case Failed => Lookup(false, name + ":error")
    case Answered(listed) => Lookup(listed, name)
  }

  /** `checkSafeBrowsing(url)`, given what the service does for that URL. */
  function CheckSafeBrowsing(o: Outcome): Lookup {
    Consult("safe_browsing", o)
  }

  /** `checkOpenPhish(url)`, given what the feed download does. */
  function CheckOpenPhish(o: Outcome): Lookup {
    Consult("openphish", o)
  }

  const SAFE_BROWSING_FLOOR := 90
  const OPENPHISH_FLOOR := 95

  /**
   * The merged score: the largest of the local score and the floor of every provider
   * that reported a hit. Hits raise the score to a floor; they never add points.
   */
  function MergedScore(local: int, safeBrowsingHit: bool, openPhishHit: bool): (score: int)
    ensures score >= local
    ensures safeBrowsingHit ==> score >= SAFE_BROWSING_FLOOR
    ensures openPhishHit ==> score >= OPENPHISH_FLOOR
    ensures score == local || (safeBrowsingHit && score == SAFE_BROWSING_FLOOR)
      || (openPhishHit && score == OPENPHISH_FLOOR)
  {
    var afterSafeBrowsing := if safeBrowsingHit && local < SAFE_BROWSING_FLOOR then SAFE_BROWSING_FLOOR else local;
    if openPhishHit && afterSafeBrowsing < OPENPHISH_FLOOR then OPENPHISH_FLOOR else afterSafeBrowsing
  }

  /** Without a hit the merge leaves the local score alone; it never leaves [0, 100]. */
  lemma MergedScoreBounds(local: int, safeBrowsingHit: bool, openPhishHit: bool)
    requires 0 <= local <= 100
    ensures !safeBrowsingHit && !openPhishHit ==> MergedScore(local, safeBrowsingHit, openPhishHit) == local
    ensures 0 <= MergedScore(local, safeBrowsingHit, openPhishHit) <= 100
  {
  }

  /** The reasons and sources the merge appends, in Safe Browsing then OpenPhish order. */
  function HitReasons(ext1: Lookup, ext2: Lookup): seq<Reason> {
    (if ext1.hit then [SafeBrowsingMatch] else []) + (if ext2.hit then [OpenPhishMatch] else [])
  }

  function HitSources(ext1: Lookup, ext2: Lookup): seq<string> {
    (if ext1.hit then [ext1.source] else []) + (if ext2.hit then [ext2.source] else [])
  }

  /**
   * The merge step of the link check: starts from the local score, its reasons and the
   * single source `local`, and lets each hit raise the score and append one reason and
   * its source.
   */
  method Merge(localScore: int, localReasons: seq<Reason>, ext1: Lookup, ext2: Lookup)
    returns (score: int, reasons: seq<Reason>, sources: seq<string>)
    ensures score == MergedScore(localScore, ext1.hit, ext2.hit)
    ensures reasons == localReasons + HitReasons(ext1, ext2)
    ensures sources == ["local"] + HitSources(ext1, ext2)
  {
    score := localScore;
    reasons := localReasons;
    sources := ["local"];
    if ext1.hit {
      score := if score > SAFE_BROWSING_FLOOR then score else SAFE_BROWSING_FLOOR;
      reasons := reasons + [SafeBrowsingMatch];
      sources := sources + [ext1.source];
    }
    if ext2.hit {
      score := if score > OPENPHISH_FLOOR then score else OPENPHISH_FLOOR;
      reasons := reasons + [OpenPhishMatch];
      sources := sources + [ext2.source];
    }
  }

  /**
   * The merged reasons of a URL keep the local ones first, stay free of duplicates and
   * in rank order, and name each reputation hit exactly when it happened.
   */
  lemma MergedReasonsSpec(local: seq<Reason>, ext1: Lookup, ext2: Lookup)
    requires RankSorted(local)
    requires forall r :: r in local ==> Rank(r) < 5
    ensures RankSorted(local + HitReasons(ext1, ext2))
    ensures SafeBrowsingMatch in local + HitReasons(ext1, ext2) <==> ext1.hit
    ensures OpenPhishMatch in local + HitReasons(ext1, ext2) <==> ext2.hit
  {
    var merged := local + HitReasons(ext1, ext2);
    forall i, j | 0 <= i < j < |merged|
      ensures Rank(merged[i]) < Rank(merged[j])
    {
      if j < |local| {
      } else if i < |local| {
        assert local[i] in local;
      }
    }
    assert Rank(SafeBrowsingMatch) == 5 && Rank(OpenPhishMatch) == 6;
  }
}
