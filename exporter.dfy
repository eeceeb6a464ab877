/**
 * The event export scheduler (internal/exporter): evaluation events are
 * buffered and handed to a sink, either in batches (a bulk sink, once the
 * buffer is full or the timer fires) or one by one as they arrive (a
 * single-event sink).
 */
module Exporter {
  import opened FlagModel

  /** exporter.NewFeatureEvent: who was evaluated, on which flag, with which result. */
  datatype FeatureEvent = FeatureEvent(user: User, flagKey: string, value: Value, variation: VariationType, failed: bool)

  /** The buffer size used when the scheduler is built with a maximum of 0. */
  const DefaultMaxEventInCache: nat := 100000

  /** What the sink answers when it is called. */
  datatype ExportOutcome = Exported | ExportFailed(reason: string)

  /** The line logged when the sink fails, `now` being the time in RFC 3339 form. */
  function ErrorLine(now: string, reason: string): (line: string) {
    "[" + now + "] error while exporting data: " + reason + "\n"
  }

  /**
   * The buffer length of a bulk scheduler with maximum `max` that held
   * `start` events, after `n` more additions with a sink that never fails:
   * an addition that finds the buffer full flushes it first.
   */
  function Pending(start: nat, n: nat, max: nat): (p: nat) {
    if n == 0 then start
    else
      var q := Pending(start, n - 1, max);
      if q >= max then 1 else q + 1
  }

  /** While the buffer does not overflow, additions only accumulate. */
  lemma {:induction false} PendingBelowMax(start: nat, n: nat, max: nat)
    requires start + n <= max
    ensures Pending(start, n, max) == start + n
  {
    if n > 0 {
      PendingBelowMax(start, n - 1, max);
    }
  }

  /** From empty, the addition after `max` of them flushes the first `max`, leaving one buffered. */
  lemma PendingAfterOverflow(max: nat)
    requires max > 0
    ensures Pending(0, max, max) == max
    ensures Pending(0, max + 1, max) == 1
  {
    PendingBelowMax(0, max, max);
  }

  class DataExporterScheduler {
    /** Whether the sink takes whole batches (chosen once, at construction). */
    const bulk: bool
    /** The buffer size at which the next addition flushes. */
    const maxEventInCache: nat
    /** Events waiting for the next flush. */
    var buffer: seq<FeatureEvent>
    /** Every batch the sink has been called with, in order, whether it accepted the call or not. */
    var received: seq<FeatureEvent>
    /** The lines written to the logger. */
    var log: seq<string>
    /** Every event ever passed to AddEvent. */
    ghost var added: seq<FeatureEvent>
    /** The events of the calls the sink accepted, in order. */
    ghost var accepted: seq<FeatureEvent>
    /** Whether the sink has ever refused a call. */
    ghost var refused: bool

    /**
     * A single-event scheduler never buffers. A bulk scheduler loses no
     * event and sends none twice in accepted calls: what the sink accepted
     * followed by the buffer is exactly what was added, refusals or not. A
     * single-event scheduler whose sink never refused has had every event
     * accepted, and a sink that never refused received only what it accepted.
     */
    ghost predicate Valid()
      reads this
    {
      && maxEventInCache > 0
      && (!bulk ==> buffer == [])
      && (bulk ==> added == accepted + buffer)
      && (!bulk && !refused ==> added == accepted)
      && (!refused ==> received == accepted)
    }

    /** NewDataExporterScheduler; a maximum of 0 selects DefaultMaxEventInCache. */
    constructor (maxEventInCache: nat, bulk: bool)
      ensures Valid()
      ensures this.maxEventInCache == if maxEventInCache == 0 then DefaultMaxEventInCache else maxEventInCache
      ensures this.bulk == bulk
      ensures buffer == [] && received == [] && log == [] && added == [] && accepted == [] && !refused
    {
      this.bulk := bulk;
      this.maxEventInCache := if maxEventInCache == 0 then DefaultMaxEventInCache else maxEventInCache;
      buffer, received, log := [], [], [];
      added, accepted, refused := [], [], false;
    }

    /** One call of the sink with `batch`, which records it; a refusal is logged. */
    method Export(batch: seq<FeatureEvent>, now: string, outcome: ExportOutcome)
      modifies this`received, this`log, this`refused
      ensures received == old(received) + batch
      ensures outcome.Exported? ==> log == old(log) && refused == old(refused)
      ensures outcome.ExportFailed? ==> log == old(log) + [ErrorLine(now, outcome.reason)] && refused
    {
      received := received + batch;
      if outcome.ExportFailed? {
        log := log + [ErrorLine(now, outcome.reason)];
        refused := true;
      }
    }

    /**
     * What the daemon does on each timer tick, and AddEvent when the buffer
     * is full: a non-empty buffer goes to the sink in one batch and is
     * emptied once the sink accepts it; a refused batch stays buffered for
     * the next flush.
     */
    method Flush(now: string, outcome: ExportOutcome)
      requires Valid()
      modifies this
      ensures Valid() && added == old(added)
      ensures old(buffer) == [] ==>
        buffer == [] && received == old(received) && accepted == old(accepted)
        && log == old(log) && refused == old(refused)
      ensures old(buffer) != [] ==> received == old(received) + old(buffer)
      ensures old(buffer) != [] && outcome.Exported? ==>
        buffer == [] && accepted == old(accepted) + old(buffer) && log == old(log) && refused == old(refused)
      ensures old(buffer) != [] && outcome.ExportFailed? ==>
        buffer == old(buffer) && accepted == old(accepted)
        && log == old(log) + [ErrorLine(now, outcome.reason)] && refused
    {
      if buffer != [] {
        Export(buffer, now, outcome);
        if outcome.Exported? {
          accepted := accepted + buffer;
          buffer := [];
        }
      }
    }

    /**
     * Records one event. A single-event sink gets it at once, and a refused
     * event is not retried; a bulk scheduler first flushes a full buffer,
     * then buffers the event. `outcome` is what the sink answers if this
     * call reaches it.
     */
    method AddEvent(event: FeatureEvent, now: string, outcome: ExportOutcome)
      requires Valid()
      modifies this
      ensures Valid() && added == old(added) + [event]
      ensures !bulk ==> buffer == [] && received == old(received) + [event]
      ensures !bulk && outcome.Exported? ==>
        accepted == old(accepted) + [event] && log == old(log) && refused == old(refused)
      ensures !bulk && outcome.ExportFailed? ==>
        log == old(log) + [ErrorLine(now, outcome.reason)] && refused
      ensures bulk && |old(buffer)| < maxEventInCache ==>
        buffer == old(buffer) + [event] && received == old(received) && accepted == old(accepted)
        && log == old(log) && refused == old(refused)
      ensures bulk && |old(buffer)| >= maxEventInCache ==> received == old(received) + old(buffer)
      ensures bulk && |old(buffer)| >= maxEventInCache && outcome.Exported? ==>
        buffer == [event] && accepted == old(accepted) + old(buffer) && log == old(log) && refused == old(refused)
      ensures bulk && |old(buffer)| >= maxEventInCache && outcome.ExportFailed? ==>
        buffer == old(buffer) + [event] && accepted == old(accepted)
        && log == old(log) + [ErrorLine(now, outcome.reason)] && refused
    {
      if !bulk {
        Export([event], now, outcome);
        added := added + [event];
        if outcome.Exported? {
          accepted := accepted + [event];
        }
        return;
      }
      if |buffer| >= maxEventInCache {
        Flush(now, outcome);
      }
      buffer := buffer + [event];
      added := added + [event];
    }

    /**
     * Adds `events` in order, with a sink that accepts every call: each
     * event reaches the sink or stays buffered, in order, and a bulk buffer
     * has the length Pending computes.
     */
    method AddEvents(events: seq<FeatureEvent>, now: string)
      requires Valid()
      modifies this
      ensures Valid() && added == old(added) + events
      ensures log == old(log) && refused == old(refused)
      ensures received + buffer == old(received) + old(buffer) + events
      ensures bulk ==> |buffer| == Pending(|old(buffer)|, |events|, maxEventInCache)
    {
      var i := 0;
      while i < |events|
        invariant 0 <= i <= |events|
        invariant Valid() && added == old(added) + events[..i]
        invariant log == old(log) && refused == old(refused)
        invariant received + buffer == old(received) + old(buffer) + events[..i]
        invariant bulk ==> |buffer| == Pending(|old(buffer)|, i, maxEventInCache)
      {
        ghost var received0, buffer0 := received, buffer;
        AddEvent(events[i], now, Exported);
        if bulk && |buffer0| < maxEventInCache {
          assert received + buffer == received0 + buffer0 + [events[i]];
        } else if !bulk {
          assert received + buffer == received0 + buffer0 + [events[i]];
        }
        assert events[..i + 1] == events[..i] + [events[i]];
        i := i + 1;
      }
      assert events[..|events|] == events;
    }
  }

  /** A bulk sink with maximum 100 has the first 100 of 101 events, synchronously. */
  method FlushWithNumberOfEvents(events: seq<FeatureEvent>, now: string) returns (exported: seq<FeatureEvent>)
    requires |events| == 101
    ensures exported == events[..100]
  {
    var dc := new DataExporterScheduler(100, true);
    dc.AddEvents(events, now);
    PendingAfterOverflow(100);
    assert dc.received == (dc.received + dc.buffer)[..|dc.received|];
    exported := dc.received;
  }

  /** With maximum 0 the default of 100000 applies: the sink has the first 100000 of 100001 events. */
  method FlushWithDefaultMax(events: seq<FeatureEvent>, now: string) returns (exported: seq<FeatureEvent>)
    requires |events| == 100001
    ensures exported == events[..100000]
  {
    var dc := new DataExporterScheduler(0, true);
    dc.AddEvents(events, now);
    PendingAfterOverflow(DefaultMaxEventInCache);
    assert dc.received == (dc.received + dc.buffer)[..|dc.received|];
    exported := dc.received;
  }

  /** A timer tick hands a buffered event to the sink before the buffer is full. */
  method FlushWithTime(event: FeatureEvent, now: string) returns (exported: seq<FeatureEvent>)
    ensures exported == [event]
  {
    var dc := new DataExporterScheduler(1000, true);
    dc.AddEvent(event, now, Exported);
    dc.Flush(now, Exported);
    exported := dc.received;
  }

  /** A single-event sink receives every event at once, in order. */
  method NonBulkExporter(events: seq<FeatureEvent>, now: string) returns (exported: seq<FeatureEvent>, buffered: seq<FeatureEvent>)
    ensures exported == events
    ensures buffered == []
  {
    var dc := new DataExporterScheduler(0, false);
    dc.AddEvents(events, now);
    exported, buffered := dc.received, dc.buffer;
  }

  /**
   * With maximum 100, 201 identical events and a sink that refuses its
   * first call: the refusal is logged with its timestamp, the refused
   * batch stays buffered, and the sink ends up holding 201 events, the
   * refused batch of 100 followed by the accepted batch of 101.
   */
  method ExporterReturnsError(event: FeatureEvent, now: string)
    returns (logged: seq<string>, exported: seq<FeatureEvent>)
    ensures logged == [ErrorLine(now, "random err")]
    ensures exported == seq(201, _ => event)
  {
    var events := seq(201, _ => event);
    var dc := new DataExporterScheduler(100, true);
    // Additions 1 to 100 fill the buffer without calling the sink.
    dc.AddEvents(events[..100], now);
    PendingBelowMax(0, 100, 100);
    assert |dc.received + dc.buffer| == 100;
    assert dc.received == [];
    assert dc.buffer == dc.received + dc.buffer;
    // Addition 101 finds the buffer full: the sink's first call is refused.
    dc.AddEvent(events[100], now, ExportFailed("random err"));
    // Addition 102 flushes the 101 buffered events, and the sink accepts them.
    dc.AddEvent(events[101], now, Exported);
    var before := dc.received;
    assert |before| == 201;
    // Additions 103 to 201 refill the buffer to 100 without calling the sink.
    dc.AddEvents(events[102..], now);
    PendingBelowMax(1, 99, 100);
    assert dc.received == (dc.received + dc.buffer)[..|dc.received|];
    assert dc.received == before;
    logged, exported := dc.log, dc.received;
  }
}
