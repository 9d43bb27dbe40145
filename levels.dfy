/**
 * The severity classifier of MinilogAirbrake: the table of named levels
 * (`MinilogAirbrake.errorLevels`), the resolution of the configured
 * `errorThreshold` option in `setup`, and the gate at the top of `format`.
 */
module Levels {
  import opened Wrappers

  /** `MinilogAirbrake.errorLevels`: the known level names and their ranks. */
  const ErrorLevels: map<string, int> := map["debug" := 1, "info" := 2, "warn" := 3, "error" := 4]

  /** `MinilogAirbrake.errorLevels.error`, the threshold used when none is configured. */
  const DefaultThreshold: int := 4

  /** The rank of a level name; `None` stands for the `undefined` of a missing key. */
  function Rank(level: string): (r: Option<int>)
    ensures r.Some? <==> level in ErrorLevels
    ensures level == "debug" ==> r == Some(1)
    ensures level == "info" ==> r == Some(2)
    ensures level == "warn" ==> r == Some(3)
    ensures level == "error" ==> r == Some(DefaultThreshold)
  {
    if level in ErrorLevels then Some(ErrorLevels[level]) else None
  }

  /**
   * The `errorThreshold` option as a caller may supply it: absent, a string
   * (ideally a level name) or a number.
   */
  datatype ThresholdSetting = Unset | Named(name: string) | Numeric(n: int)

  /** JavaScript truthiness of the option: `undefined`, `""` and `0` are falsy. */
  predicate Truthy(t: ThresholdSetting) {
    match t
    case Unset => false
    case Named(s) => s != ""
    case Numeric(n) => n != 0
  }

  /**
   * The settings the model covers: a string threshold is either empty or a
   * known level name (a non-numeric string kept verbatim is not modelled).
   */
  predicate Supported(t: ThresholdSetting) {
    t.Named? ==> t.name == "" || t.name in ErrorLevels
  }

  /**
   * The threshold `setup` stores in `options.errorThreshold`. First a truthy
   * option is replaced by its rank when it names a level and otherwise kept;
   * then a falsy result falls back to the `error` rank.
   */
  function ResolveThreshold(t: ThresholdSetting): (r: int)
    requires Supported(t)
    ensures t.Named? && t.name in ErrorLevels ==> r == ErrorLevels[t.name]
    ensures t.Numeric? && t.n != 0 ==> r == t.n
    ensures t == Unset || t == Named("") || t == Numeric(0) ==> r == DefaultThreshold
    ensures r != 0
  {
    var stored :=
      if Truthy(t) then
        (if t.Named? && t.name in ErrorLevels then Numeric(ErrorLevels[t.name]) else t)
      else t;
    if Truthy(stored) then stored.n else DefaultThreshold
  }

  /**
   * The gate of `format`: a call is dropped exactly when the threshold is
   * greater than the level's rank. A comparison with `undefined` is false,
   * so an unknown level name is never dropped.
   */
  function Reports(threshold: int, level: string): (r: bool)
    ensures level in ErrorLevels ==> (r <==> threshold <= ErrorLevels[level])
    ensures level !in ErrorLevels ==> r
  {
    var rank := Rank(level);
    !(rank.Some? && threshold > rank.value)
  }
}
