/** app/utils/config.py: the model registry, the configuration record with its
    defaults, the registry lookup and the modality-dependent configuration setup. */
module AppConfig {
  import opened Wrappers
  import opened Modalities

  /** A filesystem path as its sequence of components. */
  type Path = seq<string>

  /** One registry entry: the architecture, its checkpoint file and the
      modality it was trained on. */
  datatype ModelEntry = ModelEntry(modelName: string, modelFile: string, modality: string)

  datatype RegistryEntry = RegistryEntry(key: string, entry: ModelEntry)

  /** `MODEL_MAPPING`, in its insertion order. */
  const ModelMapping: seq<RegistryEntry> := [
    RegistryEntry("convnext_all", ModelEntry("ConvNeXtUNet", "convnext-all-7ir38hd4.pth", "all")),
    RegistryEntry("convnext_bc", ModelEntry("ConvNeXtUNet", "convnext-bc-g00wx4xl.pth", "bc")),
    RegistryEntry("convnext_satellite", ModelEntry("ConvNeXtUNet", "convnext-sat-xqkdckas.pth", "satellite")),
    RegistryEntry("convnext_unet_all", ModelEntry("ConvNeXtUNet_PlainDecoder", "convnext-unet-all.pth", "all")),
    RegistryEntry("convnext_bh", ModelEntry("ConvNeXtUNet", "convnext-bh.pth", "bh")),
    RegistryEntry("settlenet", ModelEntry("SettleNet", "settlenet-rxrj9b9b.pth", "all"))
  ]

  /** The registry's keys, in order (`list(MODEL_MAPPING.keys())`). */
  function Keys(reg: seq<RegistryEntry>): (ks: seq<string>)
    ensures |ks| == |reg|
    ensures forall i :: 0 <= i < |reg| ==> ks[i] == reg[i].key
  {
    seq(|reg|, i requires 0 <= i < |reg| => reg[i].key)
  }

  predicate DistinctKeys(reg: seq<RegistryEntry>) {
    forall i, j :: 0 <= i < j < |reg| ==> reg[i].key != reg[j].key
  }

  lemma ModelMappingKeysDistinct()
    ensures DistinctKeys(ModelMapping)
  {
  }

  /** Dictionary lookup over an ordered registry. */
  function Lookup(reg: seq<RegistryEntry>, key: string): (r: Option<ModelEntry>)
    ensures r.None? <==> key !in Keys(reg)
    ensures r.Some? ==> RegistryEntry(key, r.value) in reg
  {
    if |reg| == 0 then None
    else if reg[0].key == key then Some(reg[0].entry)
    else
      assert Keys(reg) == [reg[0].key] + Keys(reg[1..]);
      Lookup(reg[1..], key)
  }

  /** The two `ValueError`s raised in config.py. */
  datatype ConfigError =
    | UnknownModelType(modelType: string, available: seq<string>)
    | UnsupportedModality

  /** `get_model_config`: the registry entry for `modelType`, or an error naming the
      unknown key together with every available one. */
  function GetModelConfig(modelType: string): (r: Result<ModelEntry, ConfigError>)
    ensures r.Ok? <==> modelType in Keys(ModelMapping)
    ensures r.Ok? ==> RegistryEntry(modelType, r.value) in ModelMapping
    ensures r.Err? ==> r.error == UnknownModelType(modelType, Keys(ModelMapping))
  {
    match Lookup(ModelMapping, modelType)
    case None => Err(UnknownModelType(modelType, Keys(ModelMapping)))
    case Some(e) => Ok(e)
  }

  /** Since keys are distinct, the entry returned is THE entry registered under the key. */
  lemma GetModelConfigUnique(modelType: string, i: nat)
    requires i < |ModelMapping| && ModelMapping[i].key == modelType
    ensures GetModelConfig(modelType) == Ok(ModelMapping[i].entry)
  {
    var r := GetModelConfig(modelType);
    assert modelType in Keys(ModelMapping);
    var j :| 0 <= j < |ModelMapping| && ModelMapping[j] == RegistryEntry(modelType, r.value);
    ModelMappingKeysDistinct();
  }

  /** The `Config` dataclass. Float fields are carried as reals and never computed with. */
  datatype Config = Config(
    dataRoot: Path,
    modalityToRun: string,
    rgbMean: seq<real>,
    rgbStd: seq<real>,
    bcMean: seq<real>,
    bcStd: seq<real>,
    bhMean: seq<real>,
    bhStd: seq<real>,
    encoderChannelList: seq<int>,
    encoderBlocksPerStage: seq<int>,
    decoderConvnextBlocks: seq<int>,
    finalUpsamplingChannels: seq<int>,
    unetDecoderChannelList: seq<int>,
    encoderDropPathRate: real,
    encoderLayerScaleInitValue: real,
    inputChannels: int,
    currentMean: seq<real>,
    currentStd: seq<real>)

  /** `DATA_ROOT`, `./data/qc`: the directory every tile and mask path starts from. */
  const DataRoot: Path := ["data", "qc"]

  /** `Config()` with every field at its default. */
  const DefaultConfig: Config := Config(
    DataRoot,
    "bc+sat",
    [0.33969313, 0.35239491, 0.28135468],
    [0.23594516, 0.20353660, 0.20314776],
    [0.0009436231339350343],
    [0.001719754422083497],
    [3.086625337600708],
    [5.610204696655273],
    [80, 160, 320, 640],
    [2, 2, 8, 2],
    [2, 2, 2, 2],
    [80, 40, 20],
    [512, 256, 128, 64],
    0.0,
    0.000001,
    0,
    [],
    [])

  /** `a` and `b` agree on every field that `setup_config` does not assign. */
  predicate SameStaticFields(a: Config, b: Config) {
    a.(modalityToRun := b.modalityToRun, inputChannels := b.inputChannels,
       currentMean := b.currentMean, currentStd := b.currentStd) == b
  }

  /** The per-source normalisation statistics of a configuration. */
  function SourceMean(c: Config, src: Source): seq<real> {
    match src
    case Satellite => c.rgbMean
    case BuildingCount => c.bcMean
    case BuildingHeight => c.bhMean
  }

  function SourceStd(c: Config, src: Source): seq<real> {
    match src
    case Satellite => c.rgbStd
    case BuildingCount => c.bcStd
    case BuildingHeight => c.bhStd
  }

  /** Statistics of a sequence of sources, concatenated in stacking order. */
  function StackedMean(c: Config, srcs: seq<Source>): seq<real> {
    if |srcs| == 0 then [] else SourceMean(c, srcs[0]) + StackedMean(c, srcs[1..])
  }

  function StackedStd(c: Config, srcs: seq<Source>): seq<real> {
    if |srcs| == 0 then [] else SourceStd(c, srcs[0]) + StackedStd(c, srcs[1..])
  }

  /** Every per-source statistic has one entry per channel of that source. */
  predicate StatsShaped(c: Config) {
    forall src :: |SourceMean(c, src)| == |SourceStd(c, src)| == ExpectedChannels(src)
  }

  lemma DefaultStatsShaped()
    ensures StatsShaped(DefaultConfig)
  {
    forall src
      ensures |SourceMean(DefaultConfig, src)| == |SourceStd(DefaultConfig, src)| == ExpectedChannels(src)
    {
      match src
      case Satellite =>
      case BuildingCount =>
      case BuildingHeight =>
    }
  }

  /** With well-shaped per-source statistics, concatenating them in stacking order
      yields one mean and one standard deviation per stacked channel. */
  lemma {:induction false} StackedStatsLength(c: Config, srcs: seq<Source>)
    requires StatsShaped(c)
    ensures |StackedMean(c, srcs)| == ChannelCount(srcs)
    ensures |StackedStd(c, srcs)| == ChannelCount(srcs)
    decreases |srcs|
  {
    if |srcs| > 0 {
      StackedStatsLength(c, srcs[1..]);
    }
  }

  /** `setup_config`: a fresh default configuration with the modality recorded and
      the channel count and normalisation statistics chosen for it. */
  function SetupConfig(modality: string): (r: Result<Config, ConfigError>)
    ensures r.Ok? <==> modality in AcceptedNames
    ensures r.Err? ==> r.error == UnsupportedModality
    ensures r.Ok? ==> r.value.modalityToRun == modality
    ensures r.Ok? ==> SameStaticFields(r.value, DefaultConfig)
    ensures r.Ok? ==> r.value.dataRoot == DataRoot
    ensures r.Ok? ==> |r.value.currentMean| == |r.value.currentStd| == r.value.inputChannels
  {
    var c := DefaultConfig.(modalityToRun := modality);
    if c.modalityToRun == "satellite" then
      Ok(c.(inputChannels := 3, currentMean := c.rgbMean, currentStd := c.rgbStd))
    else if c.modalityToRun == "bc" then
      Ok(c.(inputChannels := 1, currentMean := c.bcMean, currentStd := c.bcStd))
    else if c.modalityToRun == "bh" then
      Ok(c.(inputChannels := 1, currentMean := c.bhMean, currentStd := c.bhStd))
    else if c.modalityToRun == "bc+sat" then
      Ok(c.(inputChannels := 4, currentMean := c.rgbMean + c.bcMean, currentStd := c.rgbStd + c.bcStd))
    else if c.modalityToRun == "all" then
      Ok(c.(inputChannels := 5,
            currentMean := c.rgbMean + c.bcMean + c.bhMean,
            currentStd := c.rgbStd + c.bcStd + c.bhStd))
    else
      Err(UnsupportedModality)
  }

  /** `setup_config` agrees with the source table: for every modality the channel
      count is the sum over its sources and the statistics are the per-source
      statistics concatenated in stacking order (RGB, then BC, then BH). */
  lemma SetupConfigFollowsSources(m: Modality)
    ensures SetupConfig(Name(m)).Ok?
    ensures SetupConfig(Name(m)).value.inputChannels == ChannelCount(SourcesOf(m))
    ensures SetupConfig(Name(m)).value.currentMean == StackedMean(DefaultConfig, SourcesOf(m))
    ensures SetupConfig(Name(m)).value.currentStd == StackedStd(DefaultConfig, SourcesOf(m))
  {
    var d := DefaultConfig;
    ChannelsPerModality();
    var srcs := SourcesOf(m);
    match m
    case SatelliteOnly =>
      assert StackedMean(d, srcs) == d.rgbMean + StackedMean(d, srcs[1..]);
    case BcOnly =>
      assert StackedMean(d, srcs) == d.bcMean + StackedMean(d, srcs[1..]);
    case BhOnly =>
      assert StackedMean(d, srcs) == d.bhMean + StackedMean(d, srcs[1..]);
    case BcPlusSat =>
      assert srcs[1..][1..] == [];
      assert StackedMean(d, srcs) == d.rgbMean + d.bcMean;
      assert StackedStd(d, srcs) == d.rgbStd + d.bcStd;
    case AllSources =>
      assert srcs[1..][1..][1..] == [];
      assert StackedMean(d, srcs[1..]) == d.bcMean + d.bhMean;
      assert StackedStd(d, srcs[1..]) == d.bcStd + d.bhStd;
  }

  /** Every modality a registry entry names is one `setup_config` accepts, so a
      successful lookup followed by `setup_config` cannot fail on the modality. */
  lemma RegistryModalitiesAccepted(i: nat)
    requires i < |ModelMapping|
    ensures SetupConfig(ModelMapping[i].entry.modality).Ok?
  {
  }
}
