/**
 * The records the service persists and the in-memory store that stands for the
 * database: alert creation (index.js:160-169, 212-221), the alert list
 * (index.js:237-243) and acknowledgement (index.js:247-258).
 */
module Alerts {
  import opened Wrappers
  import opened UrlNorm
  import opened Heuristics
  import opened Severity

  /** An alert's status: `'new'` until acknowledged, then `'ack'`. */
  datatype Status = New | Acked

  datatype AlertType = LinkSuspect | ReportSuspect

  /** The fields a handler chooses for a new alert. */
  datatype Draft = Draft(
    kind: AlertType,
    url: Option<Url>,
    description: string,
    severity: Severity,
    score: Option<int>)

  datatype Alert = Alert(
    id: nat,
    draft: Draft,
    status: Status,
    createdAt: int,
    ackAt: Option<int>)

  /** The audit record of one link check. */
  datatype LinkCheck = LinkCheck(
    id: nat,
    url: Url,
    isSafe: bool,
    score: int,
    reasons: seq<Reason>,
    sources: seq<string>)

  /** The record of one user report. */
  datatype Report = Report(
    id: nat,
    url: Option<Url>,
    description: Option<string>,
    reporterHash: Option<string>,
    evidence: Option<seq<string>>)

  datatype ApiError = InvalidUrl | NotFound

  /** A freshly created alert: status `new`, stamped with its creation time, not acknowledged. */
  function Materialize(d: Draft, id: nat, now: int): Alert {
    Alert(id, d, New, now, None)
  }

  /** Auto-increment ids: the k-th alert ever created has id k. */
  predicate IdsAreIndices(alerts: seq<Alert>) {
    forall k :: 0 <= k < |alerts| ==> alerts[k].id == k + 1
  }

  predicate LinkCheckIds(checks: seq<LinkCheck>) {
    forall k :: 0 <= k < |checks| ==> checks[k].id == k + 1
  }

  predicate ReportIds(reports: seq<Report>) {
    forall k :: 0 <= k < |reports| ==> reports[k].id == k + 1
  }

  /** `status === 'ack' ? 'ack' : 'new'`: any other query lists the new alerts. */
  function StatusFromQuery(query: Option<string>): (s: Status)
    ensures s == Acked <==> query == Some("ack")
  {
    if query == Some("ack") then Acked else New
  }

  /** The alerts with status `st`, newest first. */
  function WithStatus(alerts: seq<Alert>, st: Status): seq<Alert> {
    if alerts == [] then []
    else WithStatus(alerts[1..], st) + (if alerts[0].status == st then [alerts[0]] else [])
  }

  /** The list holds exactly the alerts with the asked status. */
  lemma {:induction false} WithStatusSpec(alerts: seq<Alert>, st: Status)
    ensures forall a :: a in WithStatus(alerts, st) <==> a in alerts && a.status == st
    ensures forall k :: 0 <= k < |WithStatus(alerts, st)| ==> WithStatus(alerts, st)[k].status == st
  {
    if alerts != [] {
      WithStatusSpec(alerts[1..], st);
      assert alerts == [alerts[0]] + alerts[1..];
    }
  }

  /** Listed by strictly decreasing id. */
  predicate NewestFirst(items: seq<Alert>) {
    forall i, j :: 0 <= i < j < |items| ==> items[i].id > items[j].id
  }

  /** Newest first: when ids follow creation order, the listed ids strictly decrease. */
  lemma {:induction false} WithStatusNewestFirst(alerts: seq<Alert>, st: Status, base: nat)
    requires forall k :: 0 <= k < |alerts| ==> alerts[k].id == base + k + 1
    ensures NewestFirst(WithStatus(alerts, st))
    ensures forall a :: a in WithStatus(alerts, st) ==> base < a.id <= base + |alerts|
  {
    if alerts != [] {
      var tail := alerts[1..];
      WithStatusNewestFirst(tail, st, base + 1);
      var rest := WithStatus(tail, st);
      var items := WithStatus(alerts, st);
      if alerts[0].status == st {
        assert items == rest + [alerts[0]];
        forall i, j | 0 <= i < j < |items|
          ensures items[i].id > items[j].id
        {
          if j == |rest| {
            assert items[i] == rest[i] && rest[i] in rest;
          } else {
            assert items[i] == rest[i] && items[j] == rest[j];
          }
        }
      } else {
        assert items == rest;
      }
    }
  }

  /**
   * The acknowledgement of `id` at time `now`: `NotFound` when no alert has that id
   * (or the path parameter is not a number); otherwise that alert gets status `ack`
   * and the acknowledgement time, whatever its status was.
   */
  function Acknowledge(alerts: seq<Alert>, id: Option<int>, now: int): Result<seq<Alert>, ApiError>
    requires IdsAreIndices(alerts)
  {
    if id.Some? && 1 <= id.value <= |alerts| then
      var k := id.value - 1;
      Success(alerts[k := alerts[k].(status := Acked, ackAt := Some(now))])
    else Failure(NotFound)
  }

  /**
   * An unknown id changes nothing; otherwise only that alert's status and ack time
   * change, its draft, id and creation time stay, and every other alert stays as it was.
   */
  lemma AcknowledgeSpec(alerts: seq<Alert>, id: Option<int>, now: int)
    requires IdsAreIndices(alerts)
    ensures Acknowledge(alerts, id, now).Failure? <==> !(exists a :: a in alerts && Some(a.id as int) == id)
    ensures Acknowledge(alerts, id, now).Success? ==>
      var after := Acknowledge(alerts, id, now).value;
      |after| == |alerts| && IdsAreIndices(after)
      && forall k :: 0 <= k < |alerts| ==>
        if Some(alerts[k].id as int) == id then
          after[k] == alerts[k].(status := Acked, ackAt := Some(now))
        else after[k] == alerts[k]
  {
    if id.Some? && 1 <= id.value <= |alerts| {
      assert alerts[id.value - 1] in alerts;
    }
  }

  /**
   * Acknowledging twice succeeds twice and the second call stamps its own time: the
   * acknowledgement time is not kept from the first call.
   */
  lemma AckTwiceRestamps(alerts: seq<Alert>, id: int, first: int, second: int)
    requires IdsAreIndices(alerts)
    requires 1 <= id <= |alerts|
    ensures Acknowledge(alerts, Some(id), first).Success?
    ensures var once := Acknowledge(alerts, Some(id), first).value;
      IdsAreIndices(once)
      && Acknowledge(once, Some(id), second).Success?
      && Acknowledge(once, Some(id), second).value[id - 1].ackAt == Some(second)
      && Acknowledge(once, Some(id), second).value[id - 1].status == Acked
  {
    AcknowledgeSpec(alerts, Some(id), first);
  }

  /** The persistence store: three append-only tables with auto-increment ids. */
  class Store {
    var alerts: seq<Alert>
    var linkChecks: seq<LinkCheck>
    var reports: seq<Report>

    ghost predicate Valid()
      reads this
    {
      IdsAreIndices(alerts) && LinkCheckIds(linkChecks) && ReportIds(reports)
    }

    constructor ()
      ensures Valid()
      ensures alerts == [] && linkChecks == [] && reports == []
    {
      alerts, linkChecks, reports := [], [], [];
    }

    /** `prisma.alert.create`: appends a new alert with the next id. */
    method CreateAlert(d: Draft, now: int) returns (a: Alert)
      requires Valid()
      modifies this
      ensures Valid()
      ensures a == Materialize(d, |old(alerts)| + 1, now)
      ensures alerts == old(alerts) + [a]
      ensures linkChecks == old(linkChecks) && reports == old(reports)
    {
      a := Materialize(d, |alerts| + 1, now);
      alerts := alerts + [a];
    }

    /** `prisma.linkCheck.create`: appends the audit record of a link check. */
    method CreateLinkCheck(url: Url, isSafe: bool, score: int, reasons: seq<Reason>, sources: seq<string>)
      returns (c: LinkCheck)
      requires Valid()
      modifies this
      ensures Valid()
      ensures c == LinkCheck(|old(linkChecks)| + 1, url, isSafe, score, reasons, sources)
      ensures linkChecks == old(linkChecks) + [c]
      ensures alerts == old(alerts) && reports == old(reports)
    {
      c := LinkCheck(|linkChecks| + 1, url, isSafe, score, reasons, sources);
      linkChecks := linkChecks + [c];
    }

    /** `prisma.report.create`: appends a report. */
    method CreateReport(url: Option<Url>, description: Option<string>, reporterHash: Option<string>,
                        evidence: Option<seq<string>>)
      returns (r: Report)
      requires Valid()
      modifies this
      ensures Valid()
      ensures r == Report(|old(reports)| + 1, url, description, reporterHash, evidence)
      ensures reports == old(reports) + [r]
      ensures alerts == old(alerts) && linkChecks == old(linkChecks)
    {
      r := Report(|reports| + 1, url, description, reporterHash, evidence);
      reports := reports + [r];
    }

    /**
     * `prisma.alert.update({ where: { id }, data: { status: 'ack', ackAt: now } })`,
     * with the failure of an unknown id reported as `NotFound`.
     */
    method Ack(id: Option<int>, now: int) returns (r: Result<Alert, ApiError>)
      requires Valid()
      modifies this
      ensures Valid()
      ensures Acknowledge(old(alerts), id, now).Failure? ==> r == Failure(NotFound) && alerts == old(alerts)
      ensures Acknowledge(old(alerts), id, now).Success? ==>
        alerts == Acknowledge(old(alerts), id, now).value
        && r == Success(alerts[id.value - 1])
      ensures linkChecks == old(linkChecks) && reports == old(reports)
    {
      if id.Some? && 1 <= id.value <= |alerts| {
        var k := id.value - 1;
        var updated := alerts[k].(status := Acked, ackAt := Some(now));
        alerts := alerts[k := updated];
        r := Success(updated);
      } else {
        r := Failure(NotFound);
      }
    }

    /**
     * `prisma.alert.findMany({ where: { status }, orderBy: { createdAt: 'desc' } })`:
     * walks the table from the newest alert to the oldest, keeping those with the status.
     */
    method FindMany(st: Status) returns (items: seq<Alert>)
      requires Valid()
      ensures items == WithStatus(alerts, st)
      ensures forall a :: a in items <==> a in alerts && a.status == st
      ensures NewestFirst(items)
    {
      items := [];
      var i := |alerts|;
      while i > 0
        invariant 0 <= i <= |alerts|
        invariant items == WithStatus(alerts[i..], st)
      {
        i := i - 1;
        assert alerts[i..][1..] == alerts[i + 1..];
        if alerts[i].status == st {
          items := items + [alerts[i]];
        }
      }
      assert alerts[0..] == alerts;
      WithStatusSpec(alerts, st);
      WithStatusNewestFirst(alerts, st, 0);
    }
  }
}
