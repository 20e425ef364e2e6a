/** The optional value used throughout the model. */
module Options {
  datatype Option<+T> = None | Some(value: T) {
    function GetOr(default: T): T {
      match this
      case Some(v) => v
      case None => default
    }
  }
}

/** Flags as the evaluator sees them: the data types of the evaluation core. */
module Flags {
  import opened Options

  const U32_MAX := 0xFFFF_FFFF

  type u32 = x: int | 0 <= x <= U32_MAX

  datatype Operator =
    | Equals | NotEquals | Contains | StartsWith | EndsWith
    | GreaterThan | GreaterThanOrEqual | LessThan | LessThanOrEqual

  datatype FlagType = BooleanFlag | StringFlag | IntegerFlag | JsonFlag

  datatype FlagValue =
    | BoolValue(b: bool)
    | StrValue(s: string)
    | IntValue(i: int)
    | JsonValue(text: string)
    | NullValue

  datatype EvalResult = EvalResult(enabled: bool, value: FlagValue)

  datatype TargetingRule = TargetingRule(
    attribute: string,
    operator: Operator,
    values: seq<string>,
    segmentKey: Option<string>,
    variant: Option<FlagValue>)

  datatype WeightedVariant = WeightedVariant(weight: u32, value: FlagValue)

  datatype Prerequisite = Prerequisite(flagKey: string, requiredValue: Option<FlagValue>)

  /** `rest` is what the evaluator does not read: the description and the layout of the JSON document. Two flags are
      equal exactly when their JSON texts are. */
  datatype Flag = Flag(
    key: string,
    isEnabled: bool,
    rollout: Option<u32>,
    rules: seq<TargetingRule>,
    flagType: FlagType,
    defaultValue: Option<FlagValue>,
    disabledValue: Option<FlagValue>,
    variants: seq<WeightedVariant>,
    prerequisites: seq<Prerequisite>,
    rest: string)

  datatype User = User(key: string, attributes: map<string, string>)

  /** The two ingredients of an evaluation that stay uninterpreted: the 32-bit hash and
      the test of one targeting rule against one user. */
  datatype Oracle = Oracle(hash: string -> u32, matches: (TargetingRule, User) -> bool)
}

/** The in-memory flag store: a shared map that is changed in place. */
module Stores {
  import opened Options
  import opened Flags

  class FlagStore {
    var flags: map<string, Flag>

    constructor ()
      ensures flags == map[]
    {
      flags := map[];
    }

    method Upsert(flag: Flag)
      modifies this
      ensures flags == old(flags)[flag.key := flag]
    {
      flags := flags[flag.key := flag];
    }

    method Delete(key: string)
      modifies this
      ensures flags == old(flags) - {key}
    {
      flags := flags - {key};
    }

    method Clear()
      modifies this
      ensures flags == map[]
    {
      flags := map[];
    }
  }
}
