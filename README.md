# go-feature-flag evaluation runtime, modelled in Dafny

This project models the three pieces of the go-feature-flag library that its
tests pin down:

- **the decision procedure** behind `BoolVariation`, `Float64Variation`,
  `IntVariation`, `StringVariation`, `JSONArrayVariation` and `JSONVariation`
  (`Evaluation.Evaluate`). It takes a cache lookup result, a user, the
  caller's default and the requested kind. It checks, in order, the lookup
  error, the `disable` switch, the rule, the percentage rollout and the type.
  It returns a value, an optional error and the event to export.
- **the flag cache** (`Cache.FlagCache`). A new cache holds an empty map.
  Each successful `UpdateCache` replaces the whole map. `Close` discards it.
  `GetFlag` fails with `FlagNotFound` for a key the map does not hold, and
  with `NotInitialized` once the cache is closed.
- **the event export scheduler** (`Exporter.DataExporterScheduler`). It
  buffers events. A bulk sink receives the buffer as one batch, either when
  an addition finds the buffer full or when the timer fires. A single-event
  sink receives each event as soon as it is added.

`Client.Variation` connects the three: it reads the cache, evaluates, and
hands the event to the scheduler.

Files: `wrappers.dfy` (Option, Result), `model.dfy` (values, users, flag
definitions, requested kinds), `rules.dfy` (the rule fragment), `cache.dfy`,
`exporter.dfy`, `evaluation.dfy`, `client.dfy`.

The model follows what the library's tests assert. Where the tests leave a
choice open, the choice made is listed below.

- **External code becomes parameters.** The YAML/JSON/TOML decoders are a
  `Decoder` function passed to `UpdateCache`. The bucketing hash is left
  abstract: it is `Env.bucket`, a function from (flag key, user key) into [0, 100). Rules
  outside the fragment `key eq "<s>"` / `anonymous eq true|false` go to
  `Env.ruleLibrary`. The clock is a `now` string. What the sink answers is
  an `ExportOutcome` argument.
- **Percentage.** A user counts as inside the rollout when `bucket <
  percentage`. So percentage 100 selects everyone and percentage 0 selects
  no one.
- **Missing rule.** A missing rule reads back as `""`, and `""` selects
  every user.
- **Numbers.** There is one numeric kind, `Num(real)`. An int request accepts
  any number and truncates it toward zero; all other kinds pass the value
  through unchanged.
- **New cache.** The cache tests only assert that a new cache and a closed
  cache both give an error. They name the first case "flag does not exist"
  and the second "cache not init" (internal/cache/cache_test.go:13-24). The
  model follows the names: a new cache answers `FlagNotFound` and a closed
  one answers `NotInitialized`.
- **Full buffer.** An addition that finds the buffer holding
  `maxEventInCache` events flushes the buffer first and then buffers the new
  event.
- **Refused export.** The tests' mock sink is taken to record every batch
  it is called with, refused ones included. A refused bulk batch stays
  buffered and goes out again with the next flush. A refused single-event
  call is logged and not retried.
  - The count at internal/exporter/data_exporter_test.go:100 fixes the bulk
    case. That test has maximum 100, 201 additions and a refused first call,
    and the sink ends up holding 201 events.
  - Under flush-first and a recording sink, a kept batch gives 201: 100
    refused, then 101 accepted. A scheduler that dropped the refused batch
    would leave the sink with 200 events, which the count rules out.
  - Append-then-flush with a sink that records only accepted batches would
    also reach 201. The model makes the flush-first choice above, and under
    it only the recording sink fits the count.
- **Error paths are recorded.** A failed evaluation of a tracked flag, and
  every failed lookup, produces a record of the caller's default, as the
  expected log lines of the error cases show (variation_test.go:65, 79, 91,
  162). Such an event carries the branch `VariationDefault` and is marked
  failed.

## Model

| member | source | states |
|---|---|---|
| Rules.Parse | variation_test.go:93-146 | whatever it recognises is the exact text of a fragment rule (`key eq "<k>"` with a key free of quotes and backslashes, or `anonymous eq true/false`); text with escapes is left to the rule library |
| Rules.ParseText | variation_test.go:111-128 | Parse undoes Text on every fragment rule, so the two are inverse on the fragment |
| Rules.KeyRuleSelectsThatKey | variation_test.go:93-128 | `key eq "<k>"` selects a user exactly when the user's key is k, case-sensitively, whatever the rule library says |
| Rules.AnonymousRuleSelectsByAnonymity | variation_test.go:129-146 | `anonymous eq <b>` selects a user exactly when its anonymity is b |
| Rules.Matches | variation_test.go:93-146 | the empty rule selects every user; a fragment rule is decided by its own meaning, whatever the rule library says; any other text is decided by the rule library |
| Cache.Lookup | internal/cache/cache_test.go:13-24 | a lookup succeeds exactly when a snapshot exists and holds the key, and then gives that flag; otherwise it fails with NotInitialized (closed, no map) or FlagNotFound(key) |
| Cache.FlagCache.constructor | internal/cache/cache_test.go:20-24 | a new cache holds an empty map |
| Cache.FlagCache.UpdateCache | internal/cache/cache_test.go:164-172 | bytes that decode install the decoded map as a whole; bytes that do not decode give ParseError and leave the snapshot as it was |
| Cache.FlagCache.GetFlag | internal/cache/cache_test.go:174-184 | returns Lookup of the current snapshot; on success, the stored flag unchanged |
| Cache.FlagCache.Close | internal/cache/cache_test.go:13-18 | discards the snapshot |
| Cache.ClosedCacheHasNoFlag | internal/cache/cache_test.go:13-18 | a closed cache answers every key with NotInitialized |
| Cache.FreshCacheHasNoFlag | internal/cache/cache_test.go:20-24 | a cache never updated answers every key with an error, FlagNotFound(key) |
| Cache.UpdatedCacheReadsBack | internal/cache/cache_test.go:164-184 | after a successful update, every decoded key reads back as exactly the decoded flag, all fields included, in any format |
| Cache.MalformedInputIsRejected | internal/cache/cache_test.go:84-97 | input the decoder rejects, in any format, makes UpdateCache return ParseError and leaves the cache empty, so every key is still not found |
| Cache.AbsentFieldsReadAsDefaults | internal/cache/cache_test.go:131-147 | missing fields read back as no rule, percentage 0, tracked, not disabled; explicit `disable = false` reads the same as a missing `disable` |
| Exporter.PendingBelowMax | internal/exporter/data_exporter_test.go:40-57 | while the buffer stays at or below the maximum, additions only accumulate |
| Exporter.PendingAfterOverflow | internal/exporter/data_exporter_test.go:40-76 | from empty, the first max additions leave max events buffered, and the next addition has flushed them, leaving one |
| Exporter.DataExporterScheduler.constructor | internal/exporter/data_exporter_test.go:59-76 | a maximum of 0 means 100000; the scheduler starts with nothing buffered, received or logged |
| Exporter.DataExporterScheduler.Export | internal/exporter/data_exporter_test.go:78-105 | the sink records the batch of every call; a refused call adds one line `[<now>] error while exporting data: <err>` to the log |
| Exporter.DataExporterScheduler.Flush | internal/exporter/data_exporter_test.go:20-38 | a timer tick with a non-empty buffer hands the whole buffer, in order, to the sink; an accepted batch empties the buffer, a refused one stays in it unchanged; an empty buffer changes nothing; the invariant (for a bulk sink, what it accepted followed by the buffer = added) is kept |
| Exporter.DataExporterScheduler.AddEvent | internal/exporter/data_exporter_test.go:40-57 | a single-event sink gets the event at once; a bulk scheduler flushes a full buffer first and then buffers the event, after the refused batch when the sink refuses; the invariant is kept |
| Exporter.DataExporterScheduler.AddEvents | internal/exporter/data_exporter_test.go:47-55 | repeated additions with a sink that accepts every call: all events are added in order, what the sink holds followed by the buffer grows by exactly the events, and a bulk buffer has the length Pending computes |
| Exporter.FlushWithNumberOfEvents | internal/exporter/data_exporter_test.go:40-57 | with a bulk sink and maximum 100, after 101 additions the sink has exactly the first 100 events in order, synchronously |
| Exporter.FlushWithDefaultMax | internal/exporter/data_exporter_test.go:59-76 | with maximum 0, after 100001 additions the sink has exactly the first 100000 events in order |
| Exporter.FlushWithTime | internal/exporter/data_exporter_test.go:20-38 | one event added under maximum 1000 reaches the sink at the next timer tick |
| Exporter.NonBulkExporter | internal/exporter/data_exporter_test.go:107-123 | a single-event sink has every added event, in order, and nothing stays buffered |
| Exporter.ExporterReturnsError | internal/exporter/data_exporter_test.go:78-105 | with maximum 100, 201 identical additions and a refused first sink call, the log is exactly `[<now>] error while exporting data: random err` and the sink holds all 201 events |
| Evaluation.Resolve | variation_test.go:93-146 | a user the rule selects gets the true value when its bucket is below the percentage, else the false value; any other user gets the flag's default; each with its branch |
| Evaluation.TruncateTowardZero | variation_test.go:1049-1066 | the float-to-int conversion truncates toward zero: the integer is within 1 of the number, on the zero side |
| Evaluation.Coerce | variation_test.go:147-163 | the type check succeeds exactly when a value is present and convertible to the requested kind; the result then has that kind; it is the value itself, or its truncation for an int request |
| Evaluation.CoerceKeepsValueOfKind | variation_test.go:292-309 | a value already of the requested kind passes the type check unchanged |
| Evaluation.Evaluate | variation_test.go:39-217 | the result always has the requested kind; every error returns the caller's default; a failed lookup and a disabled flag give those errors; otherwise the chosen value is returned if it converts, else WrongType; an event exists exactly for a tracked flag or a failed lookup; on success it carries user, flag key, the returned value and the branch, and on error the caller's default marked failed |
| Evaluation.DisabledFlagGivesCallerDefault | variation_test.go:53-66 | a disabled flag gives the caller's default and FlagDisabled, whatever its rule, percentage and values, with a record of that default when the flag is tracked |
| Evaluation.LookupErrorGivesCallerDefault | variation_test.go:67-92 | a lookup error (not initialised, or key not found) gives the caller's default and that error, with a record of that default |
| Evaluation.RuleMissGivesFlagDefault | variation_test.go:93-110 | a rule that does not select the user gives the flag's own default value, with no error |
| Evaluation.FullRolloutGivesTrue | variation_test.go:111-128 | a selecting rule, or no rule, with percentage 100 gives the flag's true value to every user, with no error |
| Evaluation.BucketAbovePercentageGivesFalse | variation_test.go:129-146 | a selecting rule and a bucket not below the percentage give the flag's false value |
| Evaluation.WrongTypeGivesCallerDefault | variation_test.go:147-163 | a chosen value of the wrong kind, or a missing one, on any branch, gives the caller's default and WrongType, with a record of that default when the flag is tracked |
| Evaluation.TrackingOnlyDecidesTheEvent | variation_test.go:164-182 | `trackEvents: false` produces no event but the same value and error as an unset trackEvents, which always produces one |
| Evaluation.SameReadingSameResolution | internal/cache/cache_test.go:174-184 | two decodings whose getters all read back the same evaluate identically, so the format of the document does not matter |
| Evaluation.BoolRuleNotApply | variation_test.go:93-110 | BoolVariation with `key eq "key"` and user "random-key" returns the flag's default true, with no error and a record of that value |
| Evaluation.BoolRuleApply | variation_test.go:111-128 | BoolVariation with `key eq "random-key"` at percentage 100 returns true, with one record |
| Evaluation.FloatPartialRollout | variation_test.go:310-327 | Float64Variation with `anonymous eq true` at percentage 10 returns the false value 121.12 to anonymous user "random-key-ssss1" when that user's bucket is at least 10 |
| Evaluation.IntFromFloat | variation_test.go:1049-1066 | IntVariation on the true value 120.1 returns 120, with no error and a record of 120 |
| Evaluation.IntWrongTypeOnDefault | variation_test.go:1031-1048 | IntVariation whose rule `anonymous eq true` misses a non-anonymous user and whose flag default is a string returns the caller's 118 with WrongType and a record of 118 |
| Client.Variation | variation_test.go:184-212 | returns Evaluate's value and error on what the cache holds; exactly the event, if any, is added to the scheduler, with AddEvent's effect spelled out: a single-event sink receives it at once; a bulk scheduler appends it, after flushing a full buffer that the sink either takes or refuses and which is then kept; a refusal logs one error line; no event leaves the scheduler unchanged |
| Client.VariationRecordsOnce | variation_test.go:164-182 | a successful evaluation of a tracked flag writes exactly one record (user, flag, value) through the log sink; an untracked flag writes none and returns the same value |

## Left out

- Retriever selection (config_test.go) is configuration glue that picks an I/O adapter. It is not modelled.
- YAML/JSON/TOML decoding is done by external libraries. It is the `Decoder` parameter.
- The bucketing hash is left abstract. It is the `Env.bucket` parameter: deterministic, with values in [0, 100).
- The rule language beyond the two fragment forms is backed by a library. It is the `Env.ruleLibrary` parameter.
- The export daemon, goroutines, sleeping, contexts and mutexes are not modelled. A timer tick is an explicit call of `Flush`. The flush interval and its default are not modelled.
- The scheduler's `Close`, with its final flush, is not modelled. The tests only call it through `defer` and never check it.
- Notifiers are fire-and-forget I/O and are not modelled.
- Evaluation.Evaluate: the branch and the failed mark of an error-path event are the model's choice. The expected log lines show only user, flag and value, and the tests return before reading the log on error paths (variation_test.go:203-205).
- `FeatureEvent` leaves out the flag-data argument of `NewFeatureEvent` (internal/exporter/data_exporter_test.go:29-30).
- Log text formatting is not modelled: the timestamp and Go's `%v` rendering of values. A record is the event (user, flag key, value, branch). The event's creation date is left out.
- The progressive `rollout` section is carried as decoded and compared by the getters. Its schedule is not applied to the percentage.
- Evaluation.TruncateTowardZero: Go's 64-bit `int` range and out-of-range conversions are not modelled; integers are unbounded.
- Ints and floats are one numeric kind. The tests do not fix whether `Float64Variation` accepts a decoded integer. The model accepts it.
- `Num(real)` is exact: float64 rounding is not modelled.
- The process-global client is replaced by `Client.Variation`, which takes the cache and the scheduler as arguments.
