/**
 * The APM aggregator of lib/agent/metrics/apm/index.js: garbage-collection
 * counters fed by the gc-stats events, and a flush that ships a snapshot of
 * the process and starts fresh counters. Readings of the process and the OS
 * are parameters; the collector is a ghost log of what was sent.
 */
module Apm {
  import opened Options

  const BYTES_TO_MEGABYTES: nat := 1024 * 1024

  /** `_bytesToMegaBytes`: whole megabytes, rounded down. */
  function BytesToMegaBytes(bytes: nat): (mb: nat)
    ensures mb * BYTES_TO_MEGABYTES <= bytes < (mb + 1) * BYTES_TO_MEGABYTES
  {
    bytes / BYTES_TO_MEGABYTES
  }

  /** What `process.memoryUsage()` reports, in bytes. */
  datatype MemoryUsage = MemoryUsage(heapUsed: nat, heapTotal: nat, rss: nat)

  datatype Memory = Memory(used: nat, total: nat, rss: nat)

  /** `getMemory`: each figure converted to whole megabytes. */
  function GetMemory(usage: MemoryUsage): (m: Memory)
    ensures m.used == BytesToMegaBytes(usage.heapUsed)
    ensures m.total == BytesToMegaBytes(usage.heapTotal)
    ensures m.rss == BytesToMegaBytes(usage.rss)
    ensures m.used <= usage.heapUsed && m.total <= usage.heapTotal && m.rss <= usage.rss
  {
    Memory(BytesToMegaBytes(usage.heapUsed), BytesToMegaBytes(usage.heapTotal), BytesToMegaBytes(usage.rss))
  }

  datatype Cpu = Cpu(utilization: int)

  /** The sample the event-loop probe returns, kept opaque. */
  datatype LagStats = LagStats(fields: map<string, int>)

  /** `getEventLoop`: `stats` is `undefined` when the probe has nothing. */
  datatype EventLoop = EventLoop(stats: Option<LagStats>, requests: nat, handlers: nat)

  /** One `stats` event of gc-stats: the pause and the collection type. */
  datatype GcEvent = GcEvent(pause: int, gctype: int)

  /** The garbage-collection counters object (`this.gc`). */
  class GcStats {
    var time: int
    var scavenge: nat
    var marksweep: nat

    constructor ()
      ensures time == 0 && scavenge == 0 && marksweep == 0
    {
      time := 0;
      scavenge := 0;
      marksweep := 0;
    }
  }

  /**
   * The databag handed to `sendApmMetrics`. The `gc` object is always truthy,
   * so it is always present; `eventloop` is optional.
   */
  datatype Databag = Databag(
    timestamp: string,
    memory: Memory,
    cpu: Cpu,
    eventloop: Option<EventLoop>,
    gc: GcStats)

  /** The databag of `sendMetrics`: `eventloop` only when its `stats` is truthy. */
  function BuildDatabag(timestamp: string, memory: Memory, cpu: Cpu, eventloop: EventLoop, gc: GcStats): (d: Databag)
    ensures d.timestamp == timestamp && d.memory == memory && d.cpu == cpu && d.gc == gc
    ensures d.eventloop.Some? <==> eventloop.stats.Some?
    ensures d.eventloop.Some? ==> d.eventloop.value == eventloop
  {
    Databag(timestamp, memory, cpu, if eventloop.stats.Some? then Some(eventloop) else None, gc)
  }

  // ---- reference counts over the events since the last reset ----

  /** Total pause time of the events. */
  ghost function TotalPause(events: seq<GcEvent>): int {
    if events == [] then 0 else TotalPause(events[..|events| - 1]) + events[|events| - 1].pause
  }

  /** Types 1 and 3 are scavenges. */
  ghost function Scavenges(events: seq<GcEvent>): nat {
    if events == [] then 0
    else
      var t := events[|events| - 1].gctype;
      Scavenges(events[..|events| - 1]) + (if t == 1 || t == 3 then 1 else 0)
  }

  /** Types 2 and 3 are mark-sweeps. */
  ghost function MarkSweeps(events: seq<GcEvent>): nat {
    if events == [] then 0
    else
      var t := events[|events| - 1].gctype;
      MarkSweeps(events[..|events| - 1]) + (if t == 2 || t == 3 then 1 else 0)
  }

  /** One more event adds its pause and its type's counts. */
  lemma CountsStep(events: seq<GcEvent>, e: GcEvent)
    ensures TotalPause(events + [e]) == TotalPause(events) + e.pause
    ensures Scavenges(events + [e]) == Scavenges(events) + (if e.gctype == 1 || e.gctype == 3 then 1 else 0)
    ensures MarkSweeps(events + [e]) == MarkSweeps(events) + (if e.gctype == 2 || e.gctype == 3 then 1 else 0)
  {
    var all := events + [e];
    assert all[..|all| - 1] == events && all[|all| - 1] == e;
  }

  /** Each event adds at most two to the two counts together. */
  lemma {:induction false} CountsBounded(events: seq<GcEvent>)
    ensures Scavenges(events) + MarkSweeps(events) <= 2 * |events|
    ensures Scavenges(events) <= |events| && MarkSweeps(events) <= |events|
  {
    if events != [] {
      CountsBounded(events[..|events| - 1]);
    }
  }

  /** Later events never lower the counts. */
  lemma {:induction false} CountsMonotone(events: seq<GcEvent>, more: seq<GcEvent>)
    ensures Scavenges(events) <= Scavenges(events + more)
    ensures MarkSweeps(events) <= MarkSweeps(events + more)
    ensures Scavenges(events + more) + MarkSweeps(events + more)
      <= Scavenges(events) + MarkSweeps(events) + 2 * |more|
  {
    if more != [] {
      var shorter := more[..|more| - 1];
      var all := events + more;
      assert all[..|all| - 1] == events + shorter;
      assert all[|all| - 1] == more[|more| - 1];
      CountsMonotone(events, shorter);
    } else {
      assert events + more == events;
    }
  }

  class ApmMetrics {
    var gc: GcStats
    /** GC events since the last reset. */
    ghost var events: seq<GcEvent>
    /** Every databag handed to `collectorApi.sendApmMetrics`. */
    ghost var sent: seq<Databag>

    /**
     * The counters are the reference counts of the events since the last
     * reset, and the live counters object is none of those already sent.
     */
    ghost predicate Valid()
      reads this, gc
    {
      && gc.time == TotalPause(events)
      && gc.scavenge == Scavenges(events)
      && gc.marksweep == MarkSweeps(events)
      && forall i :: 0 <= i < |sent| ==> sent[i].gc != gc
    }

    constructor ()
      ensures Valid() && fresh(gc)
      ensures gc.time == 0 && gc.scavenge == 0 && gc.marksweep == 0
      ensures events == [] && sent == []
    {
      gc := new GcStats();
      events := [];
      sent := [];
    }

    /**
     * The `gc.on('stats')` handler: the pause is always added; type 1 counts
     * a scavenge, 2 a mark-sweep, 3 both, any other type neither.
     */
    method OnGcStats(stats: GcEvent)
      requires Valid()
      modifies this, gc
      ensures Valid()
      ensures gc == old(gc) && sent == old(sent) && events == old(events) + [stats]
      ensures gc.time == old(gc.time) + stats.pause
      ensures gc.scavenge == old(gc.scavenge) + (if stats.gctype == 1 || stats.gctype == 3 then 1 else 0)
      ensures gc.marksweep == old(gc.marksweep) + (if stats.gctype == 2 || stats.gctype == 3 then 1 else 0)
    {
      gc.time := gc.time + stats.pause;
      match stats.gctype {
        case 1 =>
          gc.scavenge := gc.scavenge + 1;
        case 2 =>
          gc.marksweep := gc.marksweep + 1;
        case 3 =>
          gc.scavenge := gc.scavenge + 1;
          gc.marksweep := gc.marksweep + 1;
        case _ =>
      }
      CountsStep(events, stats);
      events := events + [stats];
    }

    /** `getGC`: the live counters object itself, not a copy. */
    method GetGC() returns (g: GcStats)
      ensures g == gc
    {
      g := gc;
    }

    /** `reset`: installs a fresh zeroed counters object; the old one is left untouched. */
    method Reset()
      modifies this
      ensures Valid() && fresh(gc)
      ensures gc.time == 0 && gc.scavenge == 0 && gc.marksweep == 0
      ensures events == [] && sent == old(sent)
      ensures unchanged(old(gc))
    {
      gc := new GcStats();
      events := [];
    }

    /**
     * `sendMetrics`: ships timestamp, memory, cpu, the live `gc` object and,
     * when the event-loop probe has stats, the event-loop figures; then
     * resets. The shipped `gc` object keeps the counts it had at the flush.
     */
    method SendMetrics(timestamp: string, usage: MemoryUsage, cpu: Cpu, eventloop: EventLoop)
      requires Valid()
      modifies this
      ensures Valid() && fresh(gc)
      ensures gc.time == 0 && gc.scavenge == 0 && gc.marksweep == 0
      ensures events == []
      ensures sent == old(sent) + [BuildDatabag(timestamp, GetMemory(usage), cpu, eventloop, old(gc))]
      ensures unchanged(old(gc))
    {
      var g := GetGC();
      var databag := BuildDatabag(timestamp, GetMemory(usage), cpu, eventloop, g);
      sent := sent + [databag];
      Reset();
    }
  }

  /**
   * Because `reset` installs a new object instead of zeroing the old one,
   * every shipped counters object keeps its counts while new GC events
   * arrive: an event changes only the live counters.
   */
  method ShippedSurvivesEvent(apm: ApmMetrics, stats: GcEvent)
    requires apm.Valid()
    modifies apm, apm.gc
    ensures apm.Valid() && apm.sent == old(apm.sent) && apm.gc == old(apm.gc)
    ensures forall i :: 0 <= i < |apm.sent| ==>
      && apm.sent[i].gc.time == old(apm.sent[i].gc.time)
      && apm.sent[i].gc.scavenge == old(apm.sent[i].gc.scavenge)
      && apm.sent[i].gc.marksweep == old(apm.sent[i].gc.marksweep)
  {
    apm.OnGcStats(stats);
  }

  /**
   * One trace: two events, a flush, one more event. The shipped snapshot
   * keeps the counts of the first two, the live counters hold the third.
   */
  method SnapshotSurvivesReset(usage: MemoryUsage, cpu: Cpu, eventloop: EventLoop)
    returns (shipped: GcStats, live: GcStats)
    ensures shipped.time == 5 && shipped.scavenge == 1 && shipped.marksweep == 1
    ensures live.time == 7 && live.scavenge == 1 && live.marksweep == 0
  {
    var apm := new ApmMetrics();
    apm.OnGcStats(GcEvent(2, 1));
    apm.OnGcStats(GcEvent(3, 2));
    shipped := apm.gc;
    apm.SendMetrics("t0", usage, cpu, eventloop);
    apm.OnGcStats(GcEvent(7, 1));
    live := apm.gc;
  }
}
