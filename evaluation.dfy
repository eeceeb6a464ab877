/**
 * The decision procedure behind BoolVariation, Float64Variation,
 * IntVariation, StringVariation, JSONArrayVariation and JSONVariation:
 * from a cache lookup result, a user, the caller's default and the kind
 * requested, to a value, an optional error and an optional event.
 */
module Evaluation {
  import opened Wrappers
  import opened FlagModel
  import Rules
  import opened Cache
  import opened Exporter

  /** A bucketing value in [0, 100). */
  type Bucket = r: real | 0.0 <= r < 100.0

  /**
   * Collaborators the evaluator calls but the model does not define: the
   * bucketing hash of (flag key, user key), deterministic because it is a
   * function, and the rule library's verdict on rules outside the fragment.
   */
  datatype Env = Env(bucket: (string, string) -> Bucket, ruleLibrary: (string, User) -> bool)

  datatype VariationError =
    | LookupFailed(cause: CacheError)
    | FlagDisabled(flagKey: string)
    | WrongType(flagKey: string)

  /** The value handed back, the error signalled with it, and the event to export. */
  datatype Resolution = Resolution(value: Value, err: Option<VariationError>, event: Option<FeatureEvent>)

  /** Whether the flag's rule selects the user; a flag without a rule selects everyone. */
  predicate RuleApplies(flag: FlagData, user: User, env: Env) {
    Rules.Matches(flag.EffectiveRule(), user, env.ruleLibrary)
  }

  /**
   * The candidate value the flag gives this user and the branch it came
   * from: a user the rule selects gets the true value when its bucket is
   * below the percentage and the false value otherwise; any other user
   * gets the flag's default.
   */
  function Resolve(flag: FlagData, flagKey: string, user: User, env: Env): (r: (Option<Value>, VariationType))
    ensures Rules.Matches(flag.EffectiveRule(), user, env.ruleLibrary)
              && env.bucket(flagKey, user.key) < flag.EffectivePercentage() ==>
            r == (flag.EffectiveTrue(), VariationTrue)
    ensures Rules.Matches(flag.EffectiveRule(), user, env.ruleLibrary)
              && env.bucket(flagKey, user.key) >= flag.EffectivePercentage() ==>
            r == (flag.EffectiveFalse(), VariationFalse)
    ensures !Rules.Matches(flag.EffectiveRule(), user, env.ruleLibrary) ==> r == (flag.EffectiveDefault(), VariationDefault)
  {
    if RuleApplies(flag, user, env) then
      if env.bucket(flagKey, user.key) < flag.EffectivePercentage() then (flag.EffectiveTrue(), VariationTrue)
      else (flag.EffectiveFalse(), VariationFalse)
    else (flag.EffectiveDefault(), VariationDefault)
  }

  /** Go's conversion of a float64 to an int: truncation toward zero. */
  function TruncateTowardZero(x: real): (k: int)
    ensures 0.0 <= x ==> 0 <= k && k as real <= x < k as real + 1.0
    ensures x < 0.0 ==> k <= 0 && k as real - 1.0 < x <= k as real
  {
    if x >= 0.0 then x.Floor else -((-x).Floor)
  }

  /**
   * The type check on the resolved value: None when it is missing or not of
   * the requested kind; an int request takes any number and truncates it.
   */
  function Coerce(v: Option<Value>, kind: Kind): (r: Option<Value>)
    ensures r.Some? <==> v.Some? && Convertible(v.value, kind)
    ensures r.Some? ==> HasKind(r.value, kind)
    ensures r.Some? && kind != IntKind ==> r == v
    ensures r.Some? && kind == IntKind ==> r.value == Num(TruncateTowardZero(v.value.n) as real)
  {
    if v.None? || !Convertible(v.value, kind) then None
    else if kind == IntKind then Some(Num(TruncateTowardZero(v.value.n) as real))
    else v
  }

  /** A value already of the requested kind passes the type check unchanged (a whole number stays itself). */
  lemma CoerceKeepsValueOfKind(v: Value, kind: Kind)
    requires HasKind(v, kind)
    ensures Coerce(Some(v), kind) == Some(v)
  {
    if kind == IntKind {
      var k := v.n.Floor;
      assert v.n == k as real;
      if v.n < 0.0 {
        assert -v.n == (-k) as real;
        assert (-v.n).Floor == -k;
      }
    }
  }

  /**
   * Whether an evaluation is recorded: when the flag tracks events, and
   * after a failed lookup, where the flag's fields are all absent and so
   * read as tracked.
   */
  predicate Recorded(lookup: Result<FlagData, CacheError>) {
    lookup.Failure? || lookup.value.TracksEvents()
  }

  /** The record of an evaluation that failed: the caller's default, marked as failed. */
  function FailureEvent(user: User, flagKey: string, callerDefault: Value): (e: FeatureEvent) {
    FeatureEvent(user, flagKey, callerDefault, VariationDefault, true)
  }

  /**
   * One evaluation. A failed lookup or a disabled flag gives the caller's
   * default and an error; otherwise the rule and the rollout pick a
   * candidate value, which must convert to the requested kind or the
   * caller's default comes back with an error. A recorded evaluation
   * yields an event carrying the value returned, marked as failed exactly
   * when an error comes back.
   */
  function Evaluate(lookup: Result<FlagData, CacheError>, flagKey: string, user: User,
                    callerDefault: Value, kind: Kind, env: Env): (r: Resolution)
    requires HasKind(callerDefault, kind)
    ensures HasKind(r.value, kind)
    ensures r.err.Some? ==> r.value == callerDefault
    ensures lookup.Failure? ==> r.err == Some(LookupFailed(lookup.error))
    ensures lookup.Success? && lookup.value.IsDisabled() ==> r.err == Some(FlagDisabled(flagKey))
    ensures lookup.Success? && !lookup.value.IsDisabled() ==>
      var chosen := Coerce(Resolve(lookup.value, flagKey, user, env).0, kind);
      (chosen.None? ==> r.err == Some(WrongType(flagKey))) && (chosen.Some? ==> r.err.None? && r.value == chosen.value)
    ensures r.event.Some? <==> Recorded(lookup)
    ensures r.event.Some? && r.err.Some? ==> r.event.value == FailureEvent(user, flagKey, callerDefault)
    ensures r.event.Some? && r.err.None? ==>
      r.event.value == FeatureEvent(user, flagKey, r.value, Resolve(lookup.value, flagKey, user, env).1, false)
  {
    var failed := if Recorded(lookup) then Some(FailureEvent(user, flagKey, callerDefault)) else None;
    match lookup
    case Failure(e) => Resolution(callerDefault, Some(LookupFailed(e)), failed)
    case Success(flag) =>
      if flag.IsDisabled() then Resolution(callerDefault, Some(FlagDisabled(flagKey)), failed)
      else
        var (candidate, variation) := Resolve(flag, flagKey, user, env);
        match Coerce(candidate, kind)
        case None => Resolution(callerDefault, Some(WrongType(flagKey)), failed)
        case Some(v) =>
          var event := if flag.TracksEvents() then Some(FeatureEvent(user, flagKey, v, variation, false)) else None;
          Resolution(v, None, event)
  }

  /** A disabled flag yields the caller's default and FlagDisabled, whatever its other fields hold. */
  lemma DisabledFlagGivesCallerDefault(flag: FlagData, flagKey: string, user: User, callerDefault: Value, kind: Kind, env: Env)
    requires HasKind(callerDefault, kind)
    requires flag.disable == Some(true)
    ensures Evaluate(Success(flag), flagKey, user, callerDefault, kind, env)
            == Resolution(callerDefault, Some(FlagDisabled(flagKey)),
                          if flag.TracksEvents() then Some(FailureEvent(user, flagKey, callerDefault)) else None)
  {
  }

  /** A failed lookup (no snapshot, or no such flag) yields the caller's default and that error. */
  lemma LookupErrorGivesCallerDefault(e: CacheError, flagKey: string, user: User, callerDefault: Value, kind: Kind, env: Env)
    requires HasKind(callerDefault, kind)
    ensures Evaluate(Failure(e), flagKey, user, callerDefault, kind, env)
            == Resolution(callerDefault, Some(LookupFailed(e)), Some(FailureEvent(user, flagKey, callerDefault)))
  {
  }

  /** A rule that does not select the user yields the flag's own default, without error. */
  lemma RuleMissGivesFlagDefault(flag: FlagData, flagKey: string, user: User, callerDefault: Value, kind: Kind, env: Env)
    requires HasKind(callerDefault, kind)
    requires !flag.IsDisabled() && !RuleApplies(flag, user, env)
    requires flag.defaultValue.Some? && HasKind(flag.defaultValue.value, kind)
    ensures Evaluate(Success(flag), flagKey, user, callerDefault, kind, env).value == flag.defaultValue.value
    ensures Evaluate(Success(flag), flagKey, user, callerDefault, kind, env).err == None
  {
    CoerceKeepsValueOfKind(flag.defaultValue.value, kind);
  }

  /** With percentage 100 and a rule that selects the user (or no rule), every user gets the true value. */
  lemma FullRolloutGivesTrue(flag: FlagData, flagKey: string, user: User, callerDefault: Value, kind: Kind, env: Env)
    requires HasKind(callerDefault, kind)
    requires !flag.IsDisabled() && RuleApplies(flag, user, env)
    requires flag.EffectivePercentage() >= 100.0
    requires flag.trueValue.Some? && HasKind(flag.trueValue.value, kind)
    ensures Evaluate(Success(flag), flagKey, user, callerDefault, kind, env).value == flag.trueValue.value
    ensures Evaluate(Success(flag), flagKey, user, callerDefault, kind, env).err == None
  {
    CoerceKeepsValueOfKind(flag.trueValue.value, kind);
  }

  /**
   * A selected user whose bucket is not below the percentage gets the false
   * value; with percentage 0 that is every selected user.
   */
  lemma BucketAbovePercentageGivesFalse(flag: FlagData, flagKey: string, user: User, callerDefault: Value, kind: Kind, env: Env)
    requires HasKind(callerDefault, kind)
    requires !flag.IsDisabled() && RuleApplies(flag, user, env)
    requires env.bucket(flagKey, user.key) >= flag.EffectivePercentage()
    requires flag.falseValue.Some? && HasKind(flag.falseValue.value, kind)
    ensures Evaluate(Success(flag), flagKey, user, callerDefault, kind, env).value == flag.falseValue.value
    ensures Evaluate(Success(flag), flagKey, user, callerDefault, kind, env).err == None
  {
    CoerceKeepsValueOfKind(flag.falseValue.value, kind);
  }

  /** A chosen value of the wrong kind, on whichever branch, yields the caller's default and WrongType. */
  lemma WrongTypeGivesCallerDefault(flag: FlagData, flagKey: string, user: User, callerDefault: Value, kind: Kind, env: Env)
    requires HasKind(callerDefault, kind)
    requires !flag.IsDisabled()
    requires var v := Resolve(flag, flagKey, user, env).0; v.None? || !Convertible(v.value, kind)
    ensures Evaluate(Success(flag), flagKey, user, callerDefault, kind, env)
            == Resolution(callerDefault, Some(WrongType(flagKey)),
                          if flag.TracksEvents() then Some(FailureEvent(user, flagKey, callerDefault)) else None)
  {
  }

  /**
   * trackEvents decides only whether an event is produced: two flags that
   * differ in nothing else give the same value and error.
   */
  lemma TrackingOnlyDecidesTheEvent(flag: FlagData, flagKey: string, user: User, callerDefault: Value, kind: Kind, env: Env)
    requires HasKind(callerDefault, kind)
    ensures var tracked := Evaluate(Success(flag.(trackEvents := None)), flagKey, user, callerDefault, kind, env);
            var untracked := Evaluate(Success(flag.(trackEvents := Some(false))), flagKey, user, callerDefault, kind, env);
            && tracked.value == untracked.value && tracked.err == untracked.err
            && untracked.event.None? && tracked.event.Some?
  {
  }

  /**
   * The evaluator reads a flag only through its getters, so two decodings
   * that read back the same (the same flag in YAML, JSON or TOML) evaluate
   * identically for every user, default and kind.
   */
  lemma SameReadingSameResolution(a: FlagData, b: FlagData, flagKey: string, user: User, callerDefault: Value, kind: Kind, env: Env)
    requires HasKind(callerDefault, kind)
    requires SameReading(a, b)
    ensures Evaluate(Success(a), flagKey, user, callerDefault, kind, env)
            == Evaluate(Success(b), flagKey, user, callerDefault, kind, env)
  {
  }

  /** A flag with the rule `key eq "<ruleKey>"` and three values; the rest as in the tests. */
  function KeyRuleFlag(ruleKey: string, percentage: real, dflt: Value, t: Value, f: Value): (flag: FlagData) {
    FlagData(Some(Rules.Text(Rules.KeyEquals(ruleKey))), Some(percentage), Some(t), Some(f), Some(dflt), None, None, None)
  }

  /** BoolVariation, "rule not apply": `key eq "key"` does not select user "random-key", so the flag's default comes back. */
  lemma BoolRuleNotApply(env: Env)
    ensures Evaluate(Success(KeyRuleFlag("key", 100.0, Bool(true), Bool(false), Bool(false))), "test-flag",
                     NewUser("random-key"), Bool(true), BoolKind, env)
            == Resolution(Bool(true), None,
                          Some(FeatureEvent(NewUser("random-key"), "test-flag", Bool(true), VariationDefault, false)))
  {
    Rules.KeyRuleSelectsThatKey("key", NewUser("random-key"), env.ruleLibrary);
  }

  /** BoolVariation, "rule apply": `key eq "random-key"` at 100% gives the true value and one event. */
  lemma BoolRuleApply(env: Env)
    ensures Evaluate(Success(KeyRuleFlag("random-key", 100.0, Bool(false), Bool(true), Bool(false))), "test-flag",
                     NewAnonymousUser("random-key"), Bool(true), BoolKind, env)
            == Resolution(Bool(true), None,
                          Some(FeatureEvent(NewAnonymousUser("random-key"), "test-flag", Bool(true), VariationTrue, false)))
  {
    Rules.KeyRuleSelectsThatKey("random-key", NewAnonymousUser("random-key"), env.ruleLibrary);
  }

  /**
   * Float64Variation, "false value, rule apply": `anonymous eq true` at 10%
   * gives user "random-key-ssss1" the false value 121.12, given that its
   * bucket for "test-flag" is at least 10.
   */
  lemma FloatPartialRollout(env: Env)
    requires env.bucket("test-flag", "random-key-ssss1") >= 10.0
    ensures var flag := FlagData(Some(Rules.Text(Rules.AnonymousEquals(true))), Some(10.0), Some(Num(120.12)),
                                 Some(Num(121.12)), Some(Num(119.12)), None, None, None);
            Evaluate(Success(flag), "test-flag", NewAnonymousUser("random-key-ssss1"), Num(118.12), FloatKind, env).value
            == Num(121.12)
  {
    Rules.AnonymousRuleSelectsByAnonymity(true, NewAnonymousUser("random-key-ssss1"), env.ruleLibrary);
  }

  /** IntVariation, "Convert float to Int": the true value 120.1 comes back as the int 120. */
  lemma IntFromFloat(env: Env)
    ensures Evaluate(Success(KeyRuleFlag("random-key", 100.0, Num(119.1), Num(120.1), Num(121.1))), "test-flag",
                     NewAnonymousUser("random-key"), Num(118.0), IntKind, env)
            == Resolution(Num(120.0), None,
                          Some(FeatureEvent(NewAnonymousUser("random-key"), "test-flag", Num(120.0), VariationTrue, false)))
  {
    Rules.KeyRuleSelectsThatKey("random-key", NewAnonymousUser("random-key"), env.ruleLibrary);
    assert TruncateTowardZero(120.1) == 120;
  }

  /**
   * IntVariation, "not right type": `anonymous eq true` does not select a
   * named user, and the flag's default "default" is not a number, so the
   * caller's default 118 comes back with an error.
   */
  lemma IntWrongTypeOnDefault(env: Env)
    ensures var flag := FlagData(Some(Rules.Text(Rules.AnonymousEquals(true))), Some(50.0), Some(Str("true")),
                                 Some(Str("false")), Some(Str("default")), None, None, None);
            Evaluate(Success(flag), "test-flag", NewUser("random-key-ssss1"), Num(118.0), IntKind, env)
            == Resolution(Num(118.0), Some(WrongType("test-flag")),
                          Some(FeatureEvent(NewUser("random-key-ssss1"), "test-flag", Num(118.0), VariationDefault, true)))
  {
    Rules.AnonymousRuleSelectsByAnonymity(true, NewUser("random-key-ssss1"), env.ruleLibrary);
  }
}
