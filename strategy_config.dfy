/**
 The batching-strategy configuration: a closed, tagged union of four
 variants. When the configuration is read, the `type` property selects the
 variant by its registered name; the remaining properties fill its fields.
 */
module StrategyConfig {
  import opened Wrappers
  import opened Regexes

  /** Kotlin `Int` and `Long`. */
  newtype int32 = x: int | -0x8000_0000 <= x < 0x8000_0000
  newtype int64 = x: int | -0x8000_0000_0000_0000 <= x < 0x8000_0000_0000_0000

  /** A `Double`, kept as its IEEE 754 bit pattern: the model never computes with it. */
  datatype Double = Double(bits: bv64)

  /** A `java.time.Instant`: seconds since the epoch and the nanoseconds within that second. */
  datatype Instant = Instant(epochSecond: int64, nano: int32)

  datatype BatchingStrategyConfiguration =
    | FixedSize(
        size: int32,
        durationMillis: Option<int64> := None,
        percentile: Option<Double> := None,
        timeLimit: Option<Instant> := None,
        lastMileLength: int32 := 0)
    | Mixed(isolateAnnotationName: Option<Regex>, unionAnnotationName: Option<Regex>)
    | ClassName
    | Isolate

  /** The configuration the mixed strategy is built from. */
  type MixedBatchingStrategyConfiguration = c: BatchingStrategyConfiguration | c.Mixed?
    witness Mixed(None, None)

  /** The variant chosen by the `type` discriminator. */
  datatype StrategyType = FixedSizeType | IsolateType | ClassNameType | MixedType

  function TypeOf(c: BatchingStrategyConfiguration): (t: StrategyType)
    ensures t == FixedSizeType <==> c.FixedSize?
    ensures t == IsolateType <==> c.Isolate?
    ensures t == ClassNameType <==> c.ClassName?
    ensures t == MixedType <==> c.Mixed?
  {
    match c
    case FixedSize(_, _, _, _, _) => FixedSizeType
    case Mixed(_, _) => MixedType
    case ClassName => ClassNameType
    case Isolate => IsolateType
  }

  /** The name each variant is registered under. */
  function TypeName(t: StrategyType): (r: string)
    ensures r in RegisteredNames
  {
    match t
    case FixedSizeType => "fixed-size"
    case IsolateType => "isolate"
    case ClassNameType => "class-name"
    case MixedType => "mixed"
  }

  /** Every name a variant is registered under. */
  const RegisteredNames: set<string> := {"fixed-size", "isolate", "class-name", "mixed"}

  /** The registry lookup: the variant a `type` value names, or `None` for
      a value no variant is registered under. */
  function TypeForName(name: string): (r: Option<StrategyType>)
    ensures r.Some? ==> TypeName(r.value) == name
    ensures r.None? ==> forall u :: TypeName(u) != name
  {
    if name == "fixed-size" then Some(FixedSizeType)
    else if name == "isolate" then Some(IsolateType)
    else if name == "class-name" then Some(ClassNameType)
    else if name == "mixed" then Some(MixedType)
    else None
  }

  /** The registry is a bijection between the four names and the four
      variants: looking a name up gives a variant exactly when that variant
      is registered under that name. */
  lemma TypeNameRegistry(name: string, t: StrategyType)
    ensures TypeForName(name) == Some(t) <==> TypeName(t) == name
  {
  }

  /** No two variants share a name. */
  lemma TypeNamesDistinct(t: StrategyType, u: StrategyType)
    ensures TypeName(t) == TypeName(u) ==> t == u
  {
  }

  /** Exactly four names are recognised. */
  lemma RecognisedNames(name: string)
    ensures TypeForName(name).Some? <==> name in RegisteredNames
  {
  }

  /** Only `size` is required of a fixed-size configuration; the duration
      budget, percentile and time limit default to absent and the last-mile
      length to 0. */
  lemma FixedSizeDefaults(size: int32)
    ensures FixedSize(size) == FixedSize(size, None, None, None, 0)
  {
  }

  /** The class-name and isolate configurations carry no parameters: any two
      of one kind are equal. */
  lemma SingletonConfigurations(c: BatchingStrategyConfiguration, d: BatchingStrategyConfiguration)
    requires (c.ClassName? && d.ClassName?) || (c.Isolate? && d.Isolate?)
    ensures c == d
  {
  }
}
