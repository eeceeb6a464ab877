/**
 * The client-level variation call: read the flag from the cache, run the
 * decision procedure, and hand the event (if any) to the export
 * scheduler. The cache and the scheduler are passed in explicitly.
 */
module Client {
  import opened Wrappers
  import opened FlagModel
  import opened Cache
  import opened Exporter
  import opened Evaluation

  /**
   * One *Variation call. The value and error are those of Evaluate on what
   * the cache holds; exactly the evaluation's event, if any, is added to
   * the scheduler. A single-event sink receives it at once; a bulk
   * scheduler first flushes a full buffer (keeping it when the sink
   * refuses) and then buffers the event; a refusal is logged.
   */
  method Variation(cache: FlagCache, scheduler: DataExporterScheduler, flagKey: string, user: User,
                   callerDefault: Value, kind: Kind, env: Env, now: string, outcome: ExportOutcome)
    returns (value: Value, err: Option<VariationError>)
    requires scheduler.Valid() && HasKind(callerDefault, kind)
    modifies scheduler
    ensures var r := Evaluate(Lookup(cache.flags, flagKey), flagKey, user, callerDefault, kind, env);
            value == r.value && err == r.err
    ensures scheduler.Valid()
    ensures var r := Evaluate(Lookup(cache.flags, flagKey), flagKey, user, callerDefault, kind, env);
            r.event.None? ==> unchanged(scheduler)
    ensures var r := Evaluate(Lookup(cache.flags, flagKey), flagKey, user, callerDefault, kind, env);
            r.event.Some? ==>
              var event := r.event.value;
              var full := |old(scheduler.buffer)| >= scheduler.maxEventInCache;
              && scheduler.added == old(scheduler.added) + [event]
              && (!scheduler.bulk ==> scheduler.buffer == [] && scheduler.received == old(scheduler.received) + [event])
              && (!scheduler.bulk && outcome.Exported? ==> scheduler.log == old(scheduler.log))
              && (!scheduler.bulk && outcome.ExportFailed? ==> scheduler.log == old(scheduler.log) + [ErrorLine(now, outcome.reason)])
              && (scheduler.bulk && !full ==>
                    scheduler.buffer == old(scheduler.buffer) + [event]
                    && scheduler.received == old(scheduler.received) && scheduler.log == old(scheduler.log))
              && (scheduler.bulk && full ==> scheduler.received == old(scheduler.received) + old(scheduler.buffer))
              && (scheduler.bulk && full && outcome.Exported? ==>
                    scheduler.buffer == [event] && scheduler.log == old(scheduler.log))
              && (scheduler.bulk && full && outcome.ExportFailed? ==>
                    scheduler.buffer == old(scheduler.buffer) + [event] && scheduler.log == old(scheduler.log) + [ErrorLine(now, outcome.reason)])
  {
    var lookup := cache.GetFlag(flagKey);
    var r := Evaluate(lookup, flagKey, user, callerDefault, kind, env);
    if r.event.Some? {
      scheduler.AddEvent(r.event.value, now, outcome);
    }
    value, err := r.value, r.err;
  }

  /**
   * A successful evaluation of a tracked flag writes exactly one record
   * (user, flag, value) through a single-event sink such as the log
   * exporter; an untracked flag writes none and returns the same value.
   */
  method VariationRecordsOnce(flag: FlagData, flagKey: string, user: User, callerDefault: Value, kind: Kind,
                              env: Env, now: string)
    returns (value: Value, err: Option<VariationError>, exported: seq<FeatureEvent>)
    requires HasKind(callerDefault, kind)
    requires !flag.IsDisabled() && Coerce(Resolve(flag, flagKey, user, env).0, kind).Some?
    ensures err == None && value == Coerce(Resolve(flag, flagKey, user, env).0, kind).value
    ensures flag.TracksEvents() ==>
      exported == [FeatureEvent(user, flagKey, value, Resolve(flag, flagKey, user, env).1, false)]
    ensures !flag.TracksEvents() ==> exported == []
  {
    var cache := new FlagCache();
    cache.flags := Some(map[flagKey := flag]);
    var scheduler := new DataExporterScheduler(0, false);
    value, err := Variation(cache, scheduler, flagKey, user, callerDefault, kind, env, now, Exported);
    exported := scheduler.received;
  }
}
