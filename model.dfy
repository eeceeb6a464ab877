/**
 * The values the flag engine works on: decoded flag definitions
 * (model.FlagData), users (ffuser.User), and the kinds of variation a
 * caller may ask for.
 */
module FlagModel {
  import opened Wrappers

  /** A decoded variation value: what Go holds in an `interface{}` after YAML, JSON or TOML decoding. */
  datatype Value =
    | Bool(b: bool)
    | Num(n: real)
    | Str(s: string)
    | Arr(items: seq<Value>)
    | Obj(fields: map<string, Value>)

  /** A user context: a key, the anonymity flag, and custom attributes. */
  datatype User = User(key: string, anonymous: bool, custom: map<string, Value>)

  /** ffuser.NewUser: a named user with no custom attributes. */
  function NewUser(key: string): User { User(key, false, map[]) }

  /** ffuser.NewAnonymousUser: an anonymous user with no custom attributes. */
  function NewAnonymousUser(key: string): User { User(key, true, map[]) }

  /** The `rollout` section of a flag, carried as decoded and not interpreted. */
  datatype Rollout = Rollout(section: Value)

  /**
   * A flag definition as decoded; every field may be missing from the
   * document, so each one is optional. The Effective* functions give what
   * the getters read back, with the built-in default for a missing field.
   */
  datatype FlagData = FlagData(
    rule: Option<string>,
    percentage: Option<real>,
    trueValue: Option<Value>,
    falseValue: Option<Value>,
    defaultValue: Option<Value>,
    trackEvents: Option<bool>,
    disable: Option<bool>,
    rollout: Option<Rollout>)
  {
    /** The rule text; "" when there is none. */
    function EffectiveRule(): string {
      if rule.Some? then rule.value else ""
    }

    /** The rollout percentage; 0 when there is none. */
    function EffectivePercentage(): real {
      if percentage.Some? then percentage.value else 0.0
    }

    /** A missing variation reads back as Go's nil interface, modelled as None. */
    function EffectiveTrue(): Option<Value> { trueValue }
    function EffectiveFalse(): Option<Value> { falseValue }
    function EffectiveDefault(): Option<Value> { defaultValue }

    /** Events are tracked unless `trackEvents` is explicitly false. */
    function TracksEvents(): bool {
      trackEvents != Some(false)
    }

    /** A flag is disabled only when `disable` is explicitly true. */
    function IsDisabled(): bool {
      disable == Some(true)
    }

    function EffectiveRollout(): Option<Rollout> { rollout }
  }

  /** The flag with every field missing. */
  const EmptyFlag := FlagData(None, None, None, None, None, None, None, None)

  /** Two decoded flags that every getter reads back identically. */
  predicate SameReading(a: FlagData, b: FlagData) {
    && a.EffectiveRule() == b.EffectiveRule()
    && a.EffectivePercentage() == b.EffectivePercentage()
    && a.EffectiveTrue() == b.EffectiveTrue()
    && a.EffectiveFalse() == b.EffectiveFalse()
    && a.EffectiveDefault() == b.EffectiveDefault()
    && a.TracksEvents() == b.TracksEvents()
    && a.IsDisabled() == b.IsDisabled()
    && a.EffectiveRollout() == b.EffectiveRollout()
  }

  /** Which of the three candidate values an evaluation resolved to. */
  datatype VariationType = VariationTrue | VariationFalse | VariationDefault

  /** The kind a caller asks for: BoolVariation, Float64Variation, IntVariation, StringVariation, JSONArrayVariation, JSONVariation. */
  datatype Kind = BoolKind | FloatKind | IntKind | StringKind | ArrayKind | ObjectKind

  /** v is a value of Go type `kind` (an int is a whole number). */
  predicate HasKind(v: Value, kind: Kind) {
    match kind
    case BoolKind => v.Bool?
    case FloatKind => v.Num?
    case IntKind => v.Num? && v.n.Floor as real == v.n
    case StringKind => v.Str?
    case ArrayKind => v.Arr?
    case ObjectKind => v.Obj?
  }

  /** v can be converted to `kind`: like HasKind, except that any number converts to an int. */
  predicate Convertible(v: Value, kind: Kind) {
    if kind == IntKind then v.Num? else HasKind(v, kind)
  }
}
