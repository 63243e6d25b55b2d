/**
 * What `report` in lib/agent/metrics/edge/index.js does to the edge table,
 * and a reference description of the table in terms of the reports received
 * since the last flush.
 */
module EdgeLog {
  import opened Options
  import opened Dicts

  /**
   * The values of `consts.EDGE_STATUS` (lib/consts.js is not part of this
   * model; these are the values the edge test relies on).
   */
  const EDGE_STATUS_OK: int := 0
  const EDGE_STATUS_NOT_OK: int := 1

  /** The argument of `report`. */
  datatype EdgeReport = EdgeReport(
    protocol: string,
    targetHost: string,
    targetServiceKey: int,
    incoming: int,
    outgoing: int,
    status: int,
    responseTime: int)

  datatype StatusCounts = StatusCounts(ok: nat, notOk: nat)

  /** The record kept per (protocol, target host). */
  datatype HostRecord = HostRecord(
    targetServiceKey: int,
    responseTime: seq<int>,
    networkDelayIncoming: seq<int>,
    networkDelayOutgoing: seq<int>,
    status: StatusCounts)

  /** protocol → target host → record */
  type EdgeTable = Dict<Dict<HostRecord>>

  /** The three lists grow together and the status counters never outrun them. */
  ghost predicate WellFormed(r: HostRecord) {
    && |r.networkDelayIncoming| == |r.responseTime|
    && |r.networkDelayOutgoing| == |r.responseTime|
    && r.status.ok + r.status.notOk <= |r.responseTime|
  }

  ghost predicate TableValid(m: EdgeTable) {
    && m.Valid()
    && (forall p :: p in m.entries ==> m.entries[p].Valid())
    && (forall p, h :: p in m.entries && h in m.entries[p].entries ==> WellFormed(m.entries[p].entries[h]))
  }

  /** The record `initHost` creates for a host seen for the first time. */
  function NewHostRecord(targetServiceKey: int): (r: HostRecord)
    ensures WellFormed(r) && r.targetServiceKey == targetServiceKey
    ensures r.responseTime == [] && r.status == StatusCounts(0, 0)
  {
    HostRecord(targetServiceKey, [], [], [], StatusCounts(0, 0))
  }

  /** What one report does to the record of its (protocol, host). */
  function Record(r: HostRecord, d: EdgeReport): (r': HostRecord)
    ensures r'.targetServiceKey == r.targetServiceKey
    ensures r'.responseTime == r.responseTime + [d.responseTime]
    ensures r'.networkDelayIncoming == r.networkDelayIncoming + [d.incoming]
    ensures r'.networkDelayOutgoing == r.networkDelayOutgoing + [d.outgoing]
    ensures d.status == EDGE_STATUS_OK ==> r'.status == StatusCounts(r.status.ok + 1, r.status.notOk)
    ensures d.status == EDGE_STATUS_NOT_OK ==> r'.status == StatusCounts(r.status.ok, r.status.notOk + 1)
    ensures d.status != EDGE_STATUS_OK && d.status != EDGE_STATUS_NOT_OK ==> r'.status == r.status
    ensures WellFormed(r) ==> WellFormed(r')
  {
    var ok := if d.status == EDGE_STATUS_OK then r.status.ok + 1 else r.status.ok;
    var notOk := if d.status != EDGE_STATUS_OK && d.status == EDGE_STATUS_NOT_OK then r.status.notOk + 1 else r.status.notOk;
    HostRecord(
      r.targetServiceKey,
      r.responseTime + [d.responseTime],
      r.networkDelayIncoming + [d.incoming],
      r.networkDelayOutgoing + [d.outgoing],
      StatusCounts(ok, notOk))
  }

  /** The record of (protocol, host), or `undefined`. */
  function Lookup(m: EdgeTable, protocol: string, host: string): Option<HostRecord> {
    if protocol in m.entries && host in m.entries[protocol].entries
    then Some(m.entries[protocol].entries[host]) else None
  }

  /**
   * `metrics[protocol][host]` as `initHost` reads it: the stored record, and
   * `undefined` exactly when the protocol or the host has none.
   */
  lemma LookupFindsStoredRecord(m: EdgeTable, protocol: string, host: string)
    ensures Lookup(m, protocol, host).Some? <==> protocol in m.entries && host in m.entries[protocol].entries
    ensures Lookup(m, protocol, host).Some? ==>
      Lookup(m, protocol, host).value == m.entries[protocol].entries[host]
  {
  }

  /**
   * Storing record `r` for (p, h) in a valid table: that record changes, no
   * other, and a new protocol or host goes to the end of its key order.
   */
  lemma PutRecord(m: EdgeTable, p: string, h: string, r: HostRecord)
    requires TableValid(m) && WellFormed(r)
    ensures var hosts := if p in m.entries then m.entries[p] else Empty();
      var m' := Put(m, p, Put(hosts, h, r));
      && TableValid(m')
      && Lookup(m', p, h) == Some(r)
      && (forall p', h' :: (p', h') != (p, h) ==> Lookup(m', p', h') == Lookup(m, p', h'))
      && m'.keys == (if p in m.entries then m.keys else m.keys + [p])
      && (forall p' :: p' != p && p' in m.entries ==> p' in m'.entries && m'.entries[p'] == m.entries[p'])
      && p in m'.entries
      && m'.entries[p].keys == (if h in hosts.entries then hosts.keys else hosts.keys + [h])
  {
    var hosts := if p in m.entries then m.entries[p] else Empty();
    var hosts' := Put(hosts, h, r);
    var m' := Put(m, p, hosts');
    assert m'.entries[p] == hosts';
    forall p' | p' != p && p' in m.entries
      ensures p' in m'.entries && m'.entries[p'] == m.entries[p']
    {
      assert Get(m', p') == Get(m, p');
    }
    PutRecordLookups(m, p, h, r);
    forall p', h' | p' in m'.entries && h' in m'.entries[p'].entries
      ensures WellFormed(m'.entries[p'].entries[h'])
    {
      if (p', h') != (p, h) {
        assert Lookup(m', p', h') == Lookup(m, p', h');
      }
    }
  }

  /** Storing record `r` for (p, h) changes that lookup and no other. */
  lemma PutRecordLookups(m: EdgeTable, p: string, h: string, r: HostRecord)
    requires m.Valid() && forall p :: p in m.entries ==> m.entries[p].Valid()
    ensures var hosts := if p in m.entries then m.entries[p] else Empty();
      var m' := Put(m, p, Put(hosts, h, r));
      && Lookup(m', p, h) == Some(r)
      && (forall p', h' :: (p', h') != (p, h) ==> Lookup(m', p', h') == Lookup(m, p', h'))
  {
    var hosts := if p in m.entries then m.entries[p] else Empty();
    var hosts' := Put(hosts, h, r);
    var m' := Put(m, p, hosts');
    assert m'.entries[p] == hosts';
    forall h' | h' != h
      ensures Lookup(m', p, h') == Lookup(m, p, h')
    {
      assert Get(hosts', h') == Get(hosts, h');
    }
    forall p', h' | p' != p
      ensures Lookup(m', p', h') == Lookup(m, p', h')
    {
      assert Get(m', p') == Get(m, p');
    }
  }

  /**
   * The table after `report(d)`: the protocol and host entries are created
   * when absent (a new host records the report's service key), the report is
   * recorded there, and every other record is left as it was.
   */
  function AfterReport(m: EdgeTable, d: EdgeReport): (m': EdgeTable)
    requires TableValid(m)
    ensures TableValid(m')
    ensures var before := Lookup(m, d.protocol, d.targetHost);
      Lookup(m', d.protocol, d.targetHost) ==
        Some(Record(if before.Some? then before.value else NewHostRecord(d.targetServiceKey), d))
    ensures forall p, h :: (p, h) != (d.protocol, d.targetHost) ==> Lookup(m', p, h) == Lookup(m, p, h)
    ensures m'.keys == if d.protocol in m.entries then m.keys else m.keys + [d.protocol]
    ensures forall p :: p != d.protocol && p in m.entries ==> p in m'.entries && m'.entries[p] == m.entries[p]
    ensures d.protocol in m'.entries
    ensures var hosts := if d.protocol in m.entries then m.entries[d.protocol].keys else [];
      m'.entries[d.protocol].keys == if d.targetHost in hosts then hosts else hosts + [d.targetHost]
  {
    var hosts := if d.protocol in m.entries then m.entries[d.protocol] else Empty();
    var before := if d.targetHost in hosts.entries then hosts.entries[d.targetHost] else NewHostRecord(d.targetServiceKey);
    PutRecord(m, d.protocol, d.targetHost, Record(before, d));
    Put(m, d.protocol, Put(hosts, d.targetHost, Record(before, d)))
  }

  // ---- reference description over the reports received since the last flush ----

  /** The reports for (protocol, host), in arrival order. */
  ghost function Matching(log: seq<EdgeReport>, protocol: string, host: string): seq<EdgeReport> {
    if log == [] then []
    else
      var last := log[|log| - 1];
      Matching(log[..|log| - 1], protocol, host)
        + (if last.protocol == protocol && last.targetHost == host then [last] else [])
  }

  ghost function ResponseTimes(ms: seq<EdgeReport>): seq<int> {
    seq(|ms|, i requires 0 <= i < |ms| => ms[i].responseTime)
  }

  ghost function Incomings(ms: seq<EdgeReport>): seq<int> {
    seq(|ms|, i requires 0 <= i < |ms| => ms[i].incoming)
  }

  ghost function Outgoings(ms: seq<EdgeReport>): seq<int> {
    seq(|ms|, i requires 0 <= i < |ms| => ms[i].outgoing)
  }

  /** Number of reports carrying `status`. */
  ghost function CountStatus(ms: seq<EdgeReport>, status: int): nat {
    if ms == [] then 0
    else CountStatus(ms[..|ms| - 1], status) + (if ms[|ms| - 1].status == status then 1 else 0)
  }

  /** The record the reports `ms` of one (protocol, host) should have built. */
  ghost function Expected(ms: seq<EdgeReport>): HostRecord
    requires ms != []
  {
    HostRecord(
      ms[0].targetServiceKey,
      ResponseTimes(ms),
      Incomings(ms),
      Outgoings(ms),
      StatusCounts(CountStatus(ms, EDGE_STATUS_OK), CountStatus(ms, EDGE_STATUS_NOT_OK)))
  }

  /** Protocols in the order of their first report. */
  ghost function ProtocolsSeen(log: seq<EdgeReport>): seq<string> {
    if log == [] then []
    else
      var seen := ProtocolsSeen(log[..|log| - 1]);
      var p := log[|log| - 1].protocol;
      if p in seen then seen else seen + [p]
  }

  /** Hosts reported under `protocol`, in the order of their first report. */
  ghost function HostsSeen(log: seq<EdgeReport>, protocol: string): seq<string> {
    if log == [] then []
    else
      var seen := HostsSeen(log[..|log| - 1], protocol);
      var last := log[|log| - 1];
      if last.protocol == protocol && last.targetHost !in seen then seen + [last.targetHost] else seen
  }

  /** The table holds exactly what the reports in `log` describe, in first-seen order. */
  ghost predicate Summarises(m: EdgeTable, log: seq<EdgeReport>) {
    && m.keys == ProtocolsSeen(log)
    && (forall p :: p in m.entries ==> m.entries[p].keys == HostsSeen(log, p))
    && (forall p, h :: p in m.entries && h in m.entries[p].entries ==>
          Matching(log, p, h) != [] && m.entries[p].entries[h] == Expected(Matching(log, p, h)))
  }

  /** A status counted as ok is not counted as not-ok, so the two counts fit in the list. */
  lemma {:induction false} StatusCountsBounded(ms: seq<EdgeReport>)
    ensures CountStatus(ms, EDGE_STATUS_OK) + CountStatus(ms, EDGE_STATUS_NOT_OK) <= |ms|
  {
    if ms != [] {
      StatusCountsBounded(ms[..|ms| - 1]);
    }
  }

  /**
   * Each record has lists as long as the number of its reports, and ok plus
   * not-ok never exceeds that number.
   */
  lemma ExpectedWellFormed(ms: seq<EdgeReport>)
    requires ms != []
    ensures WellFormed(Expected(ms))
    ensures |Expected(ms).responseTime| == |ms|
  {
    StatusCountsBounded(ms);
  }

  /** A protocol never reported has no hosts. */
  lemma {:induction false} HostsSeenOnlyUnderSeenProtocols(log: seq<EdgeReport>, protocol: string)
    requires protocol !in ProtocolsSeen(log)
    ensures HostsSeen(log, protocol) == []
  {
    if log != [] {
      HostsSeenOnlyUnderSeenProtocols(log[..|log| - 1], protocol);
    }
  }

  /** A host not yet seen under a protocol has no reports there. */
  lemma {:induction false} MatchingOnlyForSeenHosts(log: seq<EdgeReport>, protocol: string, host: string)
    requires host !in HostsSeen(log, protocol)
    ensures Matching(log, protocol, host) == []
  {
    if log != [] {
      MatchingOnlyForSeenHosts(log[..|log| - 1], protocol, host);
    }
  }

  /** One more report extends the reference record the way `Record` does. */
  lemma ExpectedStep(ms: seq<EdgeReport>, d: EdgeReport)
    ensures ms != [] ==> Expected(ms + [d]) == Record(Expected(ms), d)
    ensures ms == [] ==> Expected([d]) == Record(NewHostRecord(d.targetServiceKey), d)
  {
    var ms' := ms + [d];
    assert ms'[..|ms|] == ms;
    assert ResponseTimes(ms') == ResponseTimes(ms) + [d.responseTime];
    assert Incomings(ms') == Incomings(ms) + [d.incoming];
    assert Outgoings(ms') == Outgoings(ms) + [d.outgoing];
    if ms == [] {
      assert ms' == [d] && ms'[..0] == [];
      assert CountStatus(ms', EDGE_STATUS_OK) == if d.status == EDGE_STATUS_OK then 1 else 0;
      assert CountStatus(ms', EDGE_STATUS_NOT_OK) == if d.status == EDGE_STATUS_NOT_OK then 1 else 0;
    }
  }

  lemma ReportKeepsHostOrder(m: EdgeTable, log: seq<EdgeReport>, d: EdgeReport, p: string)
    requires TableValid(m) && Summarises(m, log)
    requires p in AfterReport(m, d).entries
    ensures AfterReport(m, d).entries[p].keys == HostsSeen(log + [d], p)
  {
    HostsSeenStep(log, d, p);
    if p != d.protocol {
      assert p in m.entries by {
        assert p in AfterReport(m, d).keys;
      }
    } else if p !in m.entries {
      HostsSeenOnlyUnderSeenProtocols(log, p);
    }
  }

  /** One more report adds its host to the hosts seen under its protocol, if new. */
  lemma HostsSeenStep(log: seq<EdgeReport>, d: EdgeReport, p: string)
    ensures HostsSeen(log + [d], p) ==
      if d.protocol == p && d.targetHost !in HostsSeen(log, p) then HostsSeen(log, p) + [d.targetHost]
      else HostsSeen(log, p)
  {
    var log' := log + [d];
    assert log'[..|log|] == log;
  }

  /** A (protocol, host) pair without a record has no reports. */
  lemma AbsentHasNoReports(m: EdgeTable, log: seq<EdgeReport>, p: string, h: string)
    requires TableValid(m) && Summarises(m, log)
    requires Lookup(m, p, h).None?
    ensures Matching(log, p, h) == []
  {
    if p in m.entries {
      assert h !in m.entries[p].keys;
    } else {
      HostsSeenOnlyUnderSeenProtocols(log, p);
    }
    MatchingOnlyForSeenHosts(log, p, h);
  }

  /** The reported pair's record becomes the reference record of its reports. */
  lemma ReportKeepsReportedRecord(m: EdgeTable, log: seq<EdgeReport>, d: EdgeReport)
    requires TableValid(m) && Summarises(m, log)
    ensures Matching(log + [d], d.protocol, d.targetHost) != []
    ensures Lookup(AfterReport(m, d), d.protocol, d.targetHost).Some?
    ensures Lookup(AfterReport(m, d), d.protocol, d.targetHost).value
      == Expected(Matching(log + [d], d.protocol, d.targetHost))
  {
    var log' := log + [d];
    assert log'[..|log|] == log;
    var ms := Matching(log, d.protocol, d.targetHost);
    assert Matching(log', d.protocol, d.targetHost) == ms + [d];
    if Lookup(m, d.protocol, d.targetHost).None? {
      AbsentHasNoReports(m, log, d.protocol, d.targetHost);
    }
    ExpectedStep(ms, d);
  }

  lemma ReportKeepsRecord(m: EdgeTable, log: seq<EdgeReport>, d: EdgeReport, p: string, h: string)
    requires TableValid(m) && Summarises(m, log)
    requires Lookup(AfterReport(m, d), p, h).Some?
    ensures Matching(log + [d], p, h) != []
    ensures Lookup(AfterReport(m, d), p, h).value == Expected(Matching(log + [d], p, h))
  {
    if (p, h) == (d.protocol, d.targetHost) {
      ReportKeepsReportedRecord(m, log, d);
    } else {
      assert Lookup(AfterReport(m, d), p, h) == Lookup(m, p, h);
      MatchingOther(log, d, p, h);
      assert p in m.entries && h in m.entries[p].entries;
    }
  }

  /** A report for another (protocol, host) leaves the reports matching (p, h) alone. */
  lemma MatchingOther(log: seq<EdgeReport>, d: EdgeReport, p: string, h: string)
    requires (p, h) != (d.protocol, d.targetHost)
    ensures Matching(log + [d], p, h) == Matching(log, p, h)
  {
    var log' := log + [d];
    assert log'[..|log|] == log;
  }

  /** `report` keeps the table in step with the reports received since the last flush. */
  lemma ReportKeepsSummary(m: EdgeTable, log: seq<EdgeReport>, d: EdgeReport)
    requires TableValid(m) && Summarises(m, log)
    ensures Summarises(AfterReport(m, d), log + [d])
  {
    var log' := log + [d];
    var m' := AfterReport(m, d);
    assert log'[..|log|] == log;
    forall p | p in m'.entries
      ensures m'.entries[p].keys == HostsSeen(log', p)
    {
      ReportKeepsHostOrder(m, log, d, p);
    }
    forall p, h | p in m'.entries && h in m'.entries[p].entries
      ensures Matching(log', p, h) != [] && m'.entries[p].entries[h] == Expected(Matching(log', p, h))
    {
      ReportKeepsRecord(m, log, d, p, h);
    }
  }
}
