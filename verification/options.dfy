/** The option defaulting of the water reflection constructor: the caller's
    options object is merged over a fixed object of defaults with a shallow,
    key-by-key assignment in which the caller's keys win. */
module WaterOptions {
  import opened Optional
  import opened Cartesian3

  /** A reference to a scene model that should appear in the reflection. */
  type ModelHandle = nat

  /** The keys of the options object. */
  datatype OptionKey =
    | Positions | WaterColor | Frequency | AnimationSpeed | Amplitude
    | SpecularIntensity | FresnelParams | Models | Height

  /** A property value of the options object. `Undefined` is a key that is
      present with no value. */
  datatype Value =
    | Undefined
    | Number(n: real)
    | Text(s: string)
    | Points(ps: seq<Vec3>)
    | Numbers(xs: seq<real>)
    | ModelList(ms: seq<ModelHandle>)

  /** An options object as the language sees it: a finite map from the keys
      it has to their values. */
  type Record = map<OptionKey, Value>

  /** Shallow assignment of `source` onto `target`: every key of the source
      is copied, whatever its value, and the other keys of the target stay. */
  function Assign(target: Record, source: Record): (r: Record)
    ensures r.Keys == target.Keys + source.Keys
    ensures forall k :: k in source ==> r[k] == source[k]
    ensures forall k :: k in target && k !in source ==> r[k] == target[k]
  {
    target + source
  }

  /** The caller's options, each of which may be left out. */
  datatype WaterReflectionOptions = WaterReflectionOptions(
    positions: Option<seq<Vec3>>,
    waterColor: Option<string>,
    frequency: Option<real>,
    animationSpeed: Option<real>,
    amplitude: Option<real>,
    specularIntensity: Option<real>,
    fresnelParams: Option<seq<real>>,
    models: Option<seq<ModelHandle>>,
    height: Option<real>)

  /** The options after defaulting, with every field present. */
  datatype WaterConfig = WaterConfig(
    positions: seq<Vec3>,
    waterColor: string,
    frequency: real,
    animationSpeed: real,
    amplitude: real,
    specularIntensity: real,
    fresnelParams: seq<real>,
    models: seq<ModelHandle>,
    height: real)

  /** The options the constructor is called with when the caller passes none. */
  const NoOptions: WaterReflectionOptions :=
    WaterReflectionOptions(None, None, None, None, None, None, None, None, None)

  const Defaults: WaterConfig :=
    WaterConfig([], "rgba(45, 95, 146, 1.0)", 2000.0, 0.01, 0.1, 0.5, [0.8, 1.0, 5.0], [], 0.0)

  /** The merge of the caller's options over the defaults: every option the
      caller leaves out takes its listed default, and every option the caller
      supplies wins. */
  function MergeOptions(options: WaterReflectionOptions): (c: WaterConfig)
    ensures options.positions.None? ==> c.positions == []
    ensures options.waterColor.None? ==> c.waterColor == "rgba(45, 95, 146, 1.0)"
    ensures options.frequency.None? ==> c.frequency == 2000.0
    ensures options.animationSpeed.None? ==> c.animationSpeed == 0.01
    ensures options.amplitude.None? ==> c.amplitude == 0.1
    ensures options.specularIntensity.None? ==> c.specularIntensity == 0.5
    ensures options.fresnelParams.None? ==> c.fresnelParams == [0.8, 1.0, 5.0]
    ensures options.models.None? ==> c.models == []
    ensures options.height.None? ==> c.height == 0.0
    ensures options.positions.Some? ==> c.positions == options.positions.value
    ensures options.waterColor.Some? ==> c.waterColor == options.waterColor.value
    ensures options.frequency.Some? ==> c.frequency == options.frequency.value
    ensures options.animationSpeed.Some? ==> c.animationSpeed == options.animationSpeed.value
    ensures options.amplitude.Some? ==> c.amplitude == options.amplitude.value
    ensures options.specularIntensity.Some? ==> c.specularIntensity == options.specularIntensity.value
    ensures options.fresnelParams.Some? ==> c.fresnelParams == options.fresnelParams.value
    ensures options.models.Some? ==> c.models == options.models.value
    ensures options.height.Some? ==> c.height == options.height.value
  {
    WaterConfig(
      options.positions.ValueOr(Defaults.positions),
      options.waterColor.ValueOr(Defaults.waterColor),
      options.frequency.ValueOr(Defaults.frequency),
      options.animationSpeed.ValueOr(Defaults.animationSpeed),
      options.amplitude.ValueOr(Defaults.amplitude),
      options.specularIntensity.ValueOr(Defaults.specularIntensity),
      options.fresnelParams.ValueOr(Defaults.fresnelParams),
      options.models.ValueOr(Defaults.models),
      options.height.ValueOr(Defaults.height))
  }

  /** The value a configuration holds under a key. */
  function ConfigValue(c: WaterConfig, k: OptionKey): Value {
    match k
    case Positions => Points(c.positions)
    case WaterColor => Text(c.waterColor)
    case Frequency => Number(c.frequency)
    case AnimationSpeed => Number(c.animationSpeed)
    case Amplitude => Number(c.amplitude)
    case SpecularIntensity => Number(c.specularIntensity)
    case FresnelParams => Numbers(c.fresnelParams)
    case Models => ModelList(c.models)
    case Height => Number(c.height)
  }

  /** The value the caller gave under a key, if the key was given. */
  function OptionValue(o: WaterReflectionOptions, k: OptionKey): Option<Value> {
    match k
    case Positions => if o.positions.Some? then Some(Points(o.positions.value)) else None
    case WaterColor => if o.waterColor.Some? then Some(Text(o.waterColor.value)) else None
    case Frequency => if o.frequency.Some? then Some(Number(o.frequency.value)) else None
    case AnimationSpeed => if o.animationSpeed.Some? then Some(Number(o.animationSpeed.value)) else None
    case Amplitude => if o.amplitude.Some? then Some(Number(o.amplitude.value)) else None
    case SpecularIntensity =>
      if o.specularIntensity.Some? then Some(Number(o.specularIntensity.value)) else None
    case FresnelParams => if o.fresnelParams.Some? then Some(Numbers(o.fresnelParams.value)) else None
    case Models => if o.models.Some? then Some(ModelList(o.models.value)) else None
    case Height => if o.height.Some? then Some(Number(o.height.value)) else None
  }

  /** A configuration as an object with every key present. */
  function ConfigRecord(c: WaterConfig): Record
  {
    map k: OptionKey | true :: ConfigValue(c, k)
  }

  /** The caller's options as an object holding exactly the keys given. */
  function OptionsRecord(o: WaterReflectionOptions): Record
  {
    map k: OptionKey | OptionValue(o, k).Some? :: OptionValue(o, k).value
  }

  /** The typed merge is the shallow assignment of the caller's object onto
      the object of defaults. */
  lemma MergeIsAssign(options: WaterReflectionOptions)
    ensures ConfigRecord(MergeOptions(options))
         == Assign(ConfigRecord(Defaults), OptionsRecord(options))
  {
    var l := ConfigRecord(MergeOptions(options));
    var r := Assign(ConfigRecord(Defaults), OptionsRecord(options));
    forall k: OptionKey
      ensures k in r && l[k] == r[k]
    {
      assert k in ConfigRecord(Defaults);
      MergeValueAt(options, k);
    }
    assert l.Keys == r.Keys;
  }

  /** Key by key, the merged value is the caller's when given and the
      default's otherwise. */
  lemma MergeValueAt(options: WaterReflectionOptions, k: OptionKey)
    ensures ConfigValue(MergeOptions(options), k)
         == if OptionValue(options, k).Some? then OptionValue(options, k).value
            else ConfigValue(Defaults, k)
  {}

  /** Constructing without options yields exactly the defaults, and merging a
      complete set of options again changes nothing. */
  lemma MergeNoOptionsIsDefaults(c: WaterConfig)
    ensures MergeOptions(NoOptions) == Defaults
    ensures MergeOptions(WaterReflectionOptions(
              Some(c.positions), Some(c.waterColor), Some(c.frequency), Some(c.animationSpeed),
              Some(c.amplitude), Some(c.specularIntensity), Some(c.fresnelParams),
              Some(c.models), Some(c.height))) == c
  {}
}
