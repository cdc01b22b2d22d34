/** The invariant that spans config.py and data_processing.py: the tensor the
    loader stacks for a configured modality has as many channels as the
    configuration announces to the model, and as many as it has normalisation
    statistics. A break here is a model/tensor shape mismatch at run time. */
module ChannelConsistency {
  import opened Wrappers
  import opened Modalities
  import opened AppConfig
  import opened DataProcessing

  /** The satellite raster of the tile, if the modality reads one and it exists,
      has a band count in `allowed`. */
  predicate SatelliteBandsIn(root: Path, fileId: string, m: Modality, fs: FileSystem, allowed: set<nat>) {
    var path := TilePath(root, Satellite, fileId);
    Satellite in SourcesOf(m) && path in fs.files ==> fs.files[path].bands in allowed
  }

  /** With every raster present, a source fails only on an unviewable satellite image. */
  lemma LoadableWhenPresent(root: Path, fileId: string, m: Modality, fs: FileSystem)
    requires RastersPresent(root, fileId, SourcesOf(m), fs)
    ensures AllLoadable(root, fileId, SourcesOf(m), fs) <==> SatelliteBandsIn(root, fileId, m, fs, ViewableBands)
  {
    if !SatelliteBandsIn(root, fileId, m, fs, ViewableBands) {
      assert SourceFailure(root, fileId, Satellite, fs).Some?;
    }
  }

  /** For every accepted modality whose rasters are present, the configuration holds
      one mean and one standard deviation per announced channel; loading succeeds
      exactly when the satellite image (if used) has a band count PIL can view; and a
      successful stack has `INPUT_CHANNELS` channels exactly when that image has
      three bands. */
  lemma StackMatchesInputChannels(modality: string, fileId: string, fs: FileSystem)
    requires SetupConfig(modality).Ok?
    requires RastersPresent(SetupConfig(modality).value.dataRoot, fileId, SourcesOf(Parse(modality).value), fs)
    ensures var cfg := SetupConfig(modality).value;
      |cfg.currentMean| == |cfg.currentStd| == cfg.inputChannels
    ensures var cfg := SetupConfig(modality).value;
      LoadAndPreprocess(fileId, cfg, fs).Ok?
      <==> SatelliteBandsIn(cfg.dataRoot, fileId, Parse(modality).value, fs, ViewableBands)
    ensures var cfg := SetupConfig(modality).value;
      var r := LoadAndPreprocess(fileId, cfg, fs);
      r.Ok? ==>
        && |r.value.tensor.mean| == |r.value.tensor.std| == cfg.inputChannels
        && (ChannelTotal(r.value.tensor.layers) == cfg.inputChannels
            <==> SatelliteBandsIn(cfg.dataRoot, fileId, Parse(modality).value, fs, {3}))
  {
    var cfg := SetupConfig(modality).value;
    var m := Parse(modality).value;
    SetupConfigFollowsSources(m);
    LoadableWhenPresent(cfg.dataRoot, fileId, m, fs);
    var r := LoadAndPreprocess(fileId, cfg, fs);
    if r.Ok? {
      var layers := r.value.tensor.layers;
      if SatelliteBandsIn(cfg.dataRoot, fileId, m, fs, {3}) {
        ThreeBandsMatch(cfg, m, fileId, fs, layers);
      } else {
        OtherBandsMismatch(cfg, m, fileId, fs, layers);
      }
    }
  }

  lemma ThreeBandsMatch(cfg: Config, m: Modality, fileId: string, fs: FileSystem, layers: seq<Block>)
    requires LayerSources(layers) == SourcesOf(m)
    requires BlocksRead(cfg.dataRoot, fileId, fs, layers)
    requires SatelliteBandsIn(cfg.dataRoot, fileId, m, fs, {3})
    ensures ChannelTotal(layers) == ChannelCount(SourcesOf(m))
  {
    forall b | b in layers
      ensures b.channels == ExpectedChannels(b.source)
    {
      assert BlockRead(cfg.dataRoot, fileId, fs, b);
      if b.source == Satellite {
        var i :| 0 <= i < |layers| && layers[i] == b;
        assert Satellite == LayerSources(layers)[i];
      }
    }
    ChannelTotalIsCount(layers);
  }

  lemma OtherBandsMismatch(cfg: Config, m: Modality, fileId: string, fs: FileSystem, layers: seq<Block>)
    requires LayerSources(layers) == SourcesOf(m)
    requires BlocksRead(cfg.dataRoot, fileId, fs, layers)
    requires !SatelliteBandsIn(cfg.dataRoot, fileId, m, fs, {3})
    ensures ChannelTotal(layers) != ChannelCount(SourcesOf(m))
  {
    var root := cfg.dataRoot;
    var satPath := TilePath(root, Satellite, fileId);
    var extra := fs.files[satPath].bands - 3;
    forall i | 0 <= i < |layers|
      ensures layers[i].source == LayerSources(layers)[i]
      ensures BlockRead(root, fileId, fs, layers[i])
    {
      assert layers[i] in layers;
    }
    var expected := seq(|layers|, i requires 0 <= i < |layers| =>
                          layers[i].(channels := ExpectedChannels(layers[i].source)));
    assert LayerSources(expected) == LayerSources(layers);
    ChannelTotalIsCount(expected);
    SatelliteShift(layers, expected, satPath, extra);
  }

  /** Replacing the three-channel expectation for the satellite block by the
      raster's actual band count shifts the stack's total by the difference. */
  lemma {:induction false} SatelliteShift(layers: seq<Block>, expected: seq<Block>, satPath: Path, extra: int)
    requires |expected| == |layers|
    requires forall i :: 0 <= i < |layers| ==> expected[i] == layers[i].(channels := ExpectedChannels(layers[i].source))
    requires forall i :: 0 <= i < |layers| && layers[i].source != Satellite ==> layers[i].channels == ExpectedChannels(layers[i].source)
    requires forall i :: 0 <= i < |layers| && layers[i].source == Satellite ==> layers[i].channels == 3 + extra
    requires forall i, j :: 0 <= i < j < |layers| ==> layers[i].source != layers[j].source
    ensures ChannelTotal(layers) == ChannelTotal(expected) + (if Satellite in LayerSources(layers) then extra else 0)
    decreases |layers|
  {
    if |layers| > 0 {
      assert LayerSources(layers) == [layers[0].source] + LayerSources(layers[1..]);
      SatelliteShift(layers[1..], expected[1..], satPath, extra);
    }
  }

  /** End to end: for every registered model type (the key of registry entry `i`),
      `get_model_config` returns that entry, its modality configures successfully,
      and a tile whose rasters are present, with a three-band satellite image,
      stacks to exactly the channel count the model is built with. Every registered
      modality is accepted (`RegistryModalitiesAccepted`), so the `m in AcceptedNames`
      guard in the requirement always holds. The tile is read under `DataRoot`, the
      data root of every configuration `SetupConfig` builds. */
  lemma RegisteredModelsStackConsistently(i: nat, fileId: string, fs: FileSystem)
    requires i < |ModelMapping|
    requires var m := ModelMapping[i].entry.modality;
      m in AcceptedNames ==>
        && RastersPresent(DataRoot, fileId, SourcesOf(Parse(m).value), fs)
        && SatelliteBandsIn(DataRoot, fileId, Parse(m).value, fs, {3})
    ensures GetModelConfig(ModelMapping[i].key) == Ok(ModelMapping[i].entry)
    ensures var m := GetModelConfig(ModelMapping[i].key).value.modality;
      && SetupConfig(m).Ok?
      && LoadAndPreprocess(fileId, SetupConfig(m).value, fs).Ok?
      && ChannelTotal(LoadAndPreprocess(fileId, SetupConfig(m).value, fs).value.tensor.layers)
         == SetupConfig(m).value.inputChannels
  {
    GetModelConfigUnique(ModelMapping[i].key, i);
    RegistryModalitiesAccepted(i);
    StackMatchesInputChannels(ModelMapping[i].entry.modality, fileId, fs);
  }
}
