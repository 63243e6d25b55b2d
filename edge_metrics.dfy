/**
 * The edge-metrics aggregator of lib/agent/metrics/edge/index.js: a table
 * protocol → target host → record, filled by `report` and shipped and
 * cleared by `sendMetrics`. The payload handed to the collector is the
 * result of SendMetrics; the interval timer is left to the caller.
 */
module Edge {
  import opened Options
  import opened Dicts
  import opened EdgeStats
  import opened EdgeLog

  /** The `metrics` object shipped for one host. */
  datatype HostSummary = HostSummary(
    targetServiceKey: int,
    responseTime: Times,
    networkDelayIncoming: Times,
    networkDelayOutgoing: Times,
    status: StatusCounts)

  datatype TargetHost = TargetHost(name: string, metrics: HostSummary)

  datatype ProtocolEntry = ProtocolEntry(protocol: string, targetHosts: seq<TargetHost>)

  /**
   * The shipped form of one record: the service key and the status counts
   * are copied, each list is reduced to its median and 95th percentile.
   */
  function Summarize(r: HostRecord): (s: HostSummary)
    ensures s.targetServiceKey == r.targetServiceKey
    ensures s.status == r.status
    ensures s.responseTime == CalculateTimes(r.responseTime)
    ensures s.networkDelayIncoming == CalculateTimes(r.networkDelayIncoming)
    ensures s.networkDelayOutgoing == CalculateTimes(r.networkDelayOutgoing)
  {
    HostSummary(
      r.targetServiceKey,
      CalculateTimes(r.responseTime),
      CalculateTimes(r.networkDelayIncoming),
      CalculateTimes(r.networkDelayOutgoing),
      StatusCounts(r.status.ok, r.status.notOk))
  }

  /** `Object.keys(metrics[protocol]).map(...)`: one item per host, in key order. */
  function TargetHosts(hosts: Dict<HostRecord>): (r: seq<TargetHost>)
    requires hosts.Valid()
    ensures |r| == |hosts.keys|
    ensures forall j :: 0 <= j < |r| ==>
      r[j].name == hosts.keys[j] && r[j].metrics == Summarize(hosts.entries[hosts.keys[j]])
  {
    seq(|hosts.keys|, j requires 0 <= j < |hosts.keys| =>
      TargetHost(hosts.keys[j], Summarize(hosts.entries[hosts.keys[j]])))
  }

  /** `Object.keys(metrics).map(...)`: one entry per protocol, in key order. */
  function Payload(m: EdgeTable): (r: seq<ProtocolEntry>)
    requires TableValid(m)
    ensures |r| == |m.keys|
    ensures forall i :: 0 <= i < |r| ==>
      r[i].protocol == m.keys[i] && r[i].targetHosts == TargetHosts(m.entries[m.keys[i]])
  {
    seq(|m.keys|, i requires 0 <= i < |m.keys| =>
      ProtocolEntry(m.keys[i], TargetHosts(m.entries[m.keys[i]])))
  }

  /** What the reports `ms` of one (protocol, host) should ship as. */
  ghost function ReportsSummary(ms: seq<EdgeReport>): HostSummary
    requires ms != []
  {
    HostSummary(
      ms[0].targetServiceKey,
      CalculateTimes(ResponseTimes(ms)),
      CalculateTimes(Incomings(ms)),
      CalculateTimes(Outgoings(ms)),
      StatusCounts(CountStatus(ms, EDGE_STATUS_OK), CountStatus(ms, EDGE_STATUS_NOT_OK)))
  }

  /**
   * A flush ships one entry per reported protocol and one item per reported
   * host under it, both in first-seen order; each item carries the service
   * key of the host's first report, its ok / not-ok counts and the
   * statistics of its samples, all of them defined.
   */
  lemma PayloadReflectsReports(m: EdgeTable, log: seq<EdgeReport>)
    requires TableValid(m) && Summarises(m, log)
    ensures var r := Payload(m);
      && |r| == |ProtocolsSeen(log)|
      && forall i :: 0 <= i < |r| ==>
        && r[i].protocol == ProtocolsSeen(log)[i]
        && |r[i].targetHosts| == |HostsSeen(log, r[i].protocol)|
        && forall j :: 0 <= j < |r[i].targetHosts| ==>
          var h := HostsSeen(log, r[i].protocol)[j];
          && Matching(log, r[i].protocol, h) != []
          && r[i].targetHosts[j].name == h
          && r[i].targetHosts[j].metrics == ReportsSummary(Matching(log, r[i].protocol, h))
          && r[i].targetHosts[j].metrics.responseTime.median.Some?
  {
    var r := Payload(m);
    forall i, j | 0 <= i < |r| && 0 <= j < |r[i].targetHosts|
      ensures var h := HostsSeen(log, r[i].protocol)[j];
        && Matching(log, r[i].protocol, h) != []
        && r[i].targetHosts[j].metrics == ReportsSummary(Matching(log, r[i].protocol, h))
        && r[i].targetHosts[j].metrics.responseTime.median.Some?
    {
      var p := m.keys[i];
      var h := m.entries[p].keys[j];
      ExpectedWellFormed(Matching(log, p, h));
    }
  }

  /**
   * Writing the updated record back into the table that `initProtocol` and
   * `initHost` prepared gives the table AfterReport describes.
   */
  lemma ReportWriteBack(m: EdgeTable, d: EdgeReport, created: EdgeTable, edge: HostRecord)
    requires TableValid(m)
    requires var hosts := if d.protocol in m.entries then m.entries[d.protocol] else Empty();
      && (d.protocol in m.entries && d.targetHost in hosts.entries ==> created == m)
      && (d.protocol in m.entries && d.targetHost !in hosts.entries ==>
            created == Put(m, d.protocol, Put(hosts, d.targetHost, NewHostRecord(d.targetServiceKey))))
      && (d.protocol !in m.entries ==>
            created == Put(Put(m, d.protocol, hosts), d.protocol, Put(hosts, d.targetHost, NewHostRecord(d.targetServiceKey))))
      && edge == Record(if d.targetHost in hosts.entries then hosts.entries[d.targetHost]
                        else NewHostRecord(d.targetServiceKey), d)
    ensures created.Valid() && d.protocol in created.entries && created.entries[d.protocol].Valid()
    ensures Put(created, d.protocol, Put(created.entries[d.protocol], d.targetHost, edge)) == AfterReport(m, d)
  {
    var hosts := if d.protocol in m.entries then m.entries[d.protocol] else Empty();
    var newHost := Put(hosts, d.targetHost, NewHostRecord(d.targetServiceKey));
    if d.protocol !in m.entries {
      PutTwice(m, d.protocol, hosts, newHost);
    }
    if d.targetHost !in hosts.entries {
      PutTwice(hosts, d.targetHost, NewHostRecord(d.targetServiceKey), edge);
      PutTwice(m, d.protocol, newHost, Put(hosts, d.targetHost, edge));
    }
  }

  class EdgeMetrics {
    var metrics: EdgeTable
    /** Reports received since the last flush. */
    ghost var reported: seq<EdgeReport>

    ghost predicate Valid()
      reads this
    {
      TableValid(metrics)
    }

    /** The table is what the reports since the last flush describe. */
    ghost predicate Tracks()
      reads this
    {
      Summarises(metrics, reported)
    }

    constructor ()
      ensures Valid() && Tracks()
      ensures metrics == Empty() && reported == []
    {
      metrics := Empty();
      reported := [];
    }

    /** `initProtocol`: creates the protocol's host table only when it is absent. */
    method InitProtocol(protocol: string) returns (hosts: Dict<HostRecord>)
      requires Valid()
      modifies this`metrics
      ensures Valid()
      ensures old(protocol in metrics.entries) ==> metrics == old(metrics)
      ensures old(protocol !in metrics.entries) ==> metrics == Put(old(metrics), protocol, Empty())
      ensures protocol in metrics.entries && hosts == metrics.entries[protocol]
    {
      if protocol !in metrics.entries {
        metrics := Put(metrics, protocol, Empty());
      }
      hosts := metrics.entries[protocol];
    }

    /**
     * `initHost`: creates the host's record, with the report's service key,
     * only when it is absent, and returns the host's record. The protocol
     * table must exist (the source reads a property of it).
     */
    method InitHost(data: EdgeReport) returns (edge: HostRecord)
      requires Valid() && data.protocol in metrics.entries
      modifies this`metrics
      ensures Valid()
      ensures var hosts := old(metrics.entries[data.protocol]);
        data.targetHost in hosts.entries ==> metrics == old(metrics) && edge == hosts.entries[data.targetHost]
      ensures var hosts := old(metrics.entries[data.protocol]);
        data.targetHost !in hosts.entries ==>
          && edge == NewHostRecord(data.targetServiceKey)
          && metrics == Put(old(metrics), data.protocol, Put(hosts, data.targetHost, edge))
    {
      var hosts := metrics.entries[data.protocol];
      if data.targetHost !in hosts.entries {
        metrics := Put(metrics, data.protocol, Put(hosts, data.targetHost, NewHostRecord(data.targetServiceKey)));
      }
      edge := metrics.entries[data.protocol].entries[data.targetHost];
    }

    /** `report`: records one observation of a call to a target host. */
    method Report(data: EdgeReport)
      requires Valid()
      modifies this`metrics, this`reported
      ensures Valid()
      ensures metrics == AfterReport(old(metrics), data)
      ensures reported == old(reported) + [data]
      ensures old(Tracks()) ==> Tracks()
    {
      ghost var tracking := Tracks();
      ghost var before := metrics;
      var hosts := InitProtocol(data.protocol);
      var edge := InitHost(data);
      ghost var created := metrics;
      edge := Record(edge, data);
      ReportWriteBack(before, data, created, edge);
      metrics := Put(metrics, data.protocol, Put(metrics.entries[data.protocol], data.targetHost, edge));
      assert metrics == AfterReport(before, data);
      reported := reported + [data];
      if tracking {
        ReportKeepsSummary(before, old(reported), data);
      }
    }

    /**
     * `sendMetrics`: returns the summary of the table, which the source hands
     * to `collectorApi.sendEdgeMetrics`, and starts an empty table.
     */
    method SendMetrics() returns (dataToSend: seq<ProtocolEntry>)
      requires Valid()
      modifies this`metrics, this`reported
      ensures Valid() && Tracks()
      ensures dataToSend == Payload(old(metrics))
      ensures metrics == Empty() && reported == []
      ensures Payload(metrics) == []
    {
      dataToSend := Payload(metrics);
      metrics := Empty();
      reported := [];
    }
  }

  // The edge test's reports, one step at a time, from any empty table.

  lemma EdgeTestStepOne(m0: EdgeTable)
    requires TableValid(m0) && m0.keys == []
    ensures var m := AfterReport(m0, EdgeReport("psql", "rstckapp.com", 3, 30, 40, EDGE_STATUS_OK, 10));
      && m.keys == ["psql"] && m.entries["psql"].keys == ["rstckapp.com"]
      && Lookup(m, "psql", "rstckapp.com") == Some(HostRecord(3, [10], [30], [40], StatusCounts(1, 0)))
  {
    assert [] + [10] == [10] && [] + [30] == [30] && [] + [40] == [40];
  }

  lemma EdgeTestStepTwo(m1: EdgeTable)
    requires TableValid(m1) && m1.keys == ["psql"] && m1.entries["psql"].keys == ["rstckapp.com"]
    requires Lookup(m1, "psql", "rstckapp.com") == Some(HostRecord(3, [10], [30], [40], StatusCounts(1, 0)))
    ensures var m := AfterReport(m1, EdgeReport("psql", "rstckapp.com", 3, 20, 60, EDGE_STATUS_OK, 20));
      && m.keys == ["psql"] && m.entries["psql"].keys == ["rstckapp.com"]
      && Lookup(m, "psql", "rstckapp.com") == Some(HostRecord(3, [10, 20], [30, 20], [40, 60], StatusCounts(2, 0)))
  {
    assert [10] + [20] == [10, 20] && [30] + [20] == [30, 20] && [40] + [60] == [40, 60];
  }

  lemma EdgeTestStepThree(m2: EdgeTable)
    requires TableValid(m2) && m2.keys == ["psql"] && m2.entries["psql"].keys == ["rstckapp.com"]
    requires Lookup(m2, "psql", "rstckapp.com") == Some(HostRecord(3, [10, 20], [30, 20], [40, 60], StatusCounts(2, 0)))
    ensures var m := AfterReport(m2, EdgeReport("psql", "rstckapp.com", 3, 1, 3, EDGE_STATUS_OK, 3));
      && m.keys == ["psql"] && m.entries["psql"].keys == ["rstckapp.com"]
      && Lookup(m, "psql", "rstckapp.com") == Some(HostRecord(3, [10, 20, 3], [30, 20, 1], [40, 60, 3], StatusCounts(3, 0)))
  {
    assert [10, 20] + [3] == [10, 20, 3] && [30, 20] + [1] == [30, 20, 1] && [40, 60] + [3] == [40, 60, 3];
  }

  lemma EdgeTestStepFour(m3: EdgeTable)
    requires TableValid(m3) && m3.keys == ["psql"] && m3.entries["psql"].keys == ["rstckapp.com"]
    requires Lookup(m3, "psql", "rstckapp.com") == Some(HostRecord(3, [10, 20, 3], [30, 20, 1], [40, 60, 3], StatusCounts(3, 0)))
    ensures var m := AfterReport(m3, EdgeReport("http", "herokuapp.com", 3, 20, 40, EDGE_STATUS_NOT_OK, 10));
      && m.keys == ["psql", "http"]
      && m.entries["psql"].keys == ["rstckapp.com"] && m.entries["http"].keys == ["herokuapp.com"]
      && Lookup(m, "psql", "rstckapp.com") == Some(HostRecord(3, [10, 20, 3], [30, 20, 1], [40, 60, 3], StatusCounts(3, 0)))
      && Lookup(m, "http", "herokuapp.com") == Some(HostRecord(3, [10], [20], [40], StatusCounts(0, 1)))
  {
    assert [] + [10] == [10] && [] + [20] == [20] && [] + [40] == [40];
    assert "http"[0] != "psql"[0];
    assert "http" !in m3.keys;
    assert ["psql"] + ["http"] == ["psql", "http"];
  }

  /** A protocol with one host ships one entry with one item. */
  lemma OneHostEntry(m: EdgeTable, i: nat, p: string, h: string, r: HostRecord)
    requires TableValid(m) && i < |m.keys| && m.keys[i] == p
    requires m.entries[p].keys == [h] && Lookup(m, p, h) == Some(r)
    ensures Payload(m)[i] == ProtocolEntry(p, [TargetHost(h, Summarize(r))])
  {
    var hosts := m.entries[p];
    assert hosts.entries[h] == r;
    var t := TargetHosts(hosts);
    assert t == [TargetHost(h, Summarize(r))] by {
      assert |t| == 1 && t[0].name == h && t[0].metrics == Summarize(r);
    }
    assert Payload(m)[i].protocol == p && Payload(m)[i].targetHosts == t;
  }

  /** A table with two protocols of one host each ships two entries in key order. */
  lemma PayloadOfTwo(m: EdgeTable, p1: string, h1: string, r1: HostRecord, p2: string, h2: string, r2: HostRecord)
    requires TableValid(m)
    requires m.keys == [p1, p2]
    requires m.entries[p1].keys == [h1] && m.entries[p2].keys == [h2]
    requires Lookup(m, p1, h1) == Some(r1) && Lookup(m, p2, h2) == Some(r2)
    ensures |Payload(m)| == 2
    ensures Payload(m)[0] == ProtocolEntry(p1, [TargetHost(h1, Summarize(r1))])
    ensures Payload(m)[1] == ProtocolEntry(p2, [TargetHost(h2, Summarize(r2))])
  {
    OneHostEntry(m, 0, p1, h1, r1);
    OneHostEntry(m, 1, p2, h2, r2);
  }

  /** The table after the edge test's four reports, from any empty table. */
  lemma EdgeTestTable(m0: EdgeTable)
    requires TableValid(m0) && m0.keys == []
    ensures
      var m1 := AfterReport(m0, EdgeReport("psql", "rstckapp.com", 3, 30, 40, EDGE_STATUS_OK, 10));
      var m2 := AfterReport(m1, EdgeReport("psql", "rstckapp.com", 3, 20, 60, EDGE_STATUS_OK, 20));
      var m3 := AfterReport(m2, EdgeReport("psql", "rstckapp.com", 3, 1, 3, EDGE_STATUS_OK, 3));
      var m4 := AfterReport(m3, EdgeReport("http", "herokuapp.com", 3, 20, 40, EDGE_STATUS_NOT_OK, 10));
      TestTable(m4)
  {
    var m1 := AfterReport(m0, EdgeReport("psql", "rstckapp.com", 3, 30, 40, EDGE_STATUS_OK, 10));
    EdgeTestStepOne(m0);
    var m2 := AfterReport(m1, EdgeReport("psql", "rstckapp.com", 3, 20, 60, EDGE_STATUS_OK, 20));
    EdgeTestStepTwo(m1);
    var m3 := AfterReport(m2, EdgeReport("psql", "rstckapp.com", 3, 1, 3, EDGE_STATUS_OK, 3));
    EdgeTestStepThree(m2);
    EdgeTestStepFour(m3);
  }

  /** The shape of the table the edge test's reports build. */
  ghost predicate TestTable(m: EdgeTable) {
    && TableValid(m)
    && m.keys == ["psql", "http"]
    && m.entries["psql"].keys == ["rstckapp.com"] && m.entries["http"].keys == ["herokuapp.com"]
    && Lookup(m, "psql", "rstckapp.com") == Some(HostRecord(3, [10, 20, 3], [30, 20, 1], [40, 60, 3], StatusCounts(3, 0)))
    && Lookup(m, "http", "herokuapp.com") == Some(HostRecord(3, [10], [20], [40], StatusCounts(0, 1)))
  }

  /**
   * The flush of that table: the code ships an array in first-seen order
   * (psql, then http) carrying the statistics the edge test expects.
   */
  lemma TestTablePayload(m: EdgeTable)
    requires TestTable(m)
    ensures |Payload(m)| == 2
    ensures Payload(m)[0] == ProtocolEntry("psql", [TargetHost("rstckapp.com", HostSummary(3,
      Times(Some(10), Some(20)), Times(Some(20), Some(30)), Times(Some(40), Some(60)), StatusCounts(3, 0)))])
    ensures Payload(m)[1] == ProtocolEntry("http", [TargetHost("herokuapp.com", HostSummary(3,
      Times(Some(10), Some(10)), Times(Some(20), Some(20)), Times(Some(40), Some(40)), StatusCounts(0, 1)))])
  {
    var r1 := HostRecord(3, [10, 20, 3], [30, 20, 1], [40, 60, 3], StatusCounts(3, 0));
    var r2 := HostRecord(3, [10], [20], [40], StatusCounts(0, 1));
    PayloadOfTwo(m, "psql", "rstckapp.com", r1, "http", "herokuapp.com", r2);
    assert Summarize(r1) == HostSummary(3,
      Times(Some(10), Some(20)), Times(Some(20), Some(30)), Times(Some(40), Some(60)), StatusCounts(3, 0)) by {
      ResponseTimeExample();
      IncomingDelayExample();
      OutgoingDelayExample();
    }
    assert Summarize(r2) == HostSummary(3,
      Times(Some(10), Some(10)), Times(Some(20), Some(20)), Times(Some(40), Some(40)), StatusCounts(0, 1)) by {
      SingleSample(10);
      SingleSample(20);
      SingleSample(40);
    }
  }

  /**
   * The edge test replayed on an aggregator with an empty table: four
   * reports and a flush hand the collector one payload, psql before
   * http, with the statistics and counters the test expects, and leave the
   * table empty.
   */
  method EdgeTestReplay(e: EdgeMetrics) returns (payload: seq<ProtocolEntry>)
    requires e.Valid() && e.metrics.keys == []
    modifies e
    ensures |payload| == 2
    ensures payload[0] == ProtocolEntry("psql", [TargetHost("rstckapp.com", HostSummary(3,
           Times(Some(10), Some(20)), Times(Some(20), Some(30)), Times(Some(40), Some(60)), StatusCounts(3, 0)))])
    ensures payload[1] == ProtocolEntry("http", [TargetHost("herokuapp.com", HostSummary(3,
           Times(Some(10), Some(10)), Times(Some(20), Some(20)), Times(Some(40), Some(40)), StatusCounts(0, 1)))])
    ensures e.Valid() && e.metrics == Empty() && e.reported == []
  {
    ghost var m0 := e.metrics;
    e.Report(EdgeReport("psql", "rstckapp.com", 3, 30, 40, EDGE_STATUS_OK, 10));
    e.Report(EdgeReport("psql", "rstckapp.com", 3, 20, 60, EDGE_STATUS_OK, 20));
    e.Report(EdgeReport("psql", "rstckapp.com", 3, 1, 3, EDGE_STATUS_OK, 3));
    e.Report(EdgeReport("http", "herokuapp.com", 3, 20, 40, EDGE_STATUS_NOT_OK, 10));
    EdgeTestTable(m0);
    TestTablePayload(e.metrics);
    payload := e.SendMetrics();
  }
}
