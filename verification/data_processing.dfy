/** app/utils/data_processing.py: listing the tile ids, loading the ground-truth
    mask, and choosing, reading and stacking the rasters a modality needs. Rasters
    are abstract channel blocks; only their band count and, for masks, the integer
    values of their first band are modelled. */
module DataProcessing {
  import opened Wrappers
  import opened Modalities
  import opened AppConfig
  import opened StringOrder

  /** A directory entry as pathlib splits its name: `stem` + `suffix`. */
  datatype DirEntry = DirEntry(stem: string, suffix: string)

  type BandCount = n: nat | n >= 1 witness 1

  /** A raster file: how many bands it has and the values of band 1. */
  datatype Raster = Raster(bands: BandCount, firstBand: seq<int>)

  /** The files the code can see: the listing of each existing directory and the
      raster stored at each existing file path. */
  datatype FileSystem = FileSystem(dirs: map<Path, seq<DirEntry>>, files: map<Path, Raster>)

  const TifSuffix := ".tif"

  /** `root / "<source>-256" / "<file_id>.tif"` */
  function TilePath(root: Path, src: Source, fileId: string): Path {
    root + [Folder(src), fileId + TifSuffix]
  }

  /** `root / "mask-256" / "<file_id>.tif"` */
  function MaskPath(root: Path, fileId: string): Path {
    root + ["mask-256", fileId + TifSuffix]
  }

  function SatelliteDir(cfg: Config): Path {
    cfg.dataRoot + [Folder(Satellite)]
  }

  // ---------------------------------------------------------------------------
  // get_test_file_ids

  /** Stems of the entries whose suffix is exactly `.tif`, in listing order. */
  function TifStems(entries: seq<DirEntry>): (stems: seq<string>)
    ensures forall s :: multiset(stems)[s] == multiset(entries)[DirEntry(s, TifSuffix)]
  {
    if |entries| == 0 then []
    else
      assert entries == [entries[0]] + entries[1..];
      (if entries[0].suffix == TifSuffix then [entries[0].stem] else []) + TifStems(entries[1..])
  }

  /** `get_test_file_ids`: the sorted stems of the `.tif` files in the satellite
      directory, or nothing when that directory does not exist. */
  function GetTestFileIds(cfg: Config, fs: FileSystem): (ids: seq<string>)
    ensures SatelliteDir(cfg) !in fs.dirs ==> ids == []
    ensures Sorted(ids)
    ensures SatelliteDir(cfg) in fs.dirs ==>
      forall s :: multiset(ids)[s] == multiset(fs.dirs[SatelliteDir(cfg)])[DirEntry(s, TifSuffix)]
  {
    var dir := SatelliteDir(cfg);
    if dir !in fs.dirs then [] else Sort(TifStems(fs.dirs[dir]))
  }

  /** An id is listed exactly when a `.tif` file with that stem is in the directory;
      `.tiff` and other suffixes never contribute. */
  lemma GetTestFileIdsMembership(cfg: Config, fs: FileSystem, id: string)
    requires SatelliteDir(cfg) in fs.dirs
    ensures id in GetTestFileIds(cfg, fs) <==> DirEntry(id, TifSuffix) in fs.dirs[SatelliteDir(cfg)]
  {
    var ids := GetTestFileIds(cfg, fs);
    assert multiset(ids)[id] == multiset(fs.dirs[SatelliteDir(cfg)])[DirEntry(id, TifSuffix)];
  }

  /** The ids do not depend on the order in which the directory is iterated. */
  lemma GetTestFileIdsIgnoreListingOrder(cfg: Config, fs1: FileSystem, fs2: FileSystem)
    requires SatelliteDir(cfg) in fs1.dirs && SatelliteDir(cfg) in fs2.dirs
    requires multiset(fs1.dirs[SatelliteDir(cfg)]) == multiset(fs2.dirs[SatelliteDir(cfg)])
    ensures GetTestFileIds(cfg, fs1) == GetTestFileIds(cfg, fs2)
  {
    var l1 := TifStems(fs1.dirs[SatelliteDir(cfg)]);
    var l2 := TifStems(fs2.dirs[SatelliteDir(cfg)]);
    assert multiset(l1) == multiset(l2);
    SortIgnoresOrder(l1, l2);
  }

  // ---------------------------------------------------------------------------
  // load_ground_truth_mask

  /** An 8-bit grey image: a uniform placeholder, or the pixels of a mask. */
  datatype GreyImage = Uniform(width: nat, height: nat, level: int) | Pixels(values: seq<int>)

  /** One mask pixel: `astype(np.uint8)` wraps the stored value modulo 256, and the
      following `* 255` is uint8 arithmetic, so it wraps again. */
  function ScaleMaskPixel(p: int): (q: int)
    ensures 0 <= q < 256
    ensures q == (256 - p % 256) % 256
    ensures p % 256 == 0 ==> q == 0
    ensures p % 256 == 1 ==> q == 255
  {
    var u := p % 256;
    assert u * 255 == 256 * u - u;
    (u * 255) % 256
  }

  /** `Path.exists()`: something, a directory or a file, is at `p`. */
  predicate PathExists(fs: FileSystem, p: Path) {
    p in fs.dirs || p in fs.files
  }

  /** `load_ground_truth_mask`: a 256×256 placeholder of grey level 128 when nothing
      is at the mask path; otherwise the path is opened as a raster, which fails for
      a directory, and the mask's first band is scaled pixel by pixel. */
  function LoadGroundTruthMask(fileId: string, cfg: Config, fs: FileSystem): (r: Result<GreyImage, LoadError>)
    ensures !PathExists(fs, MaskPath(cfg.dataRoot, fileId)) ==> r == Ok(Uniform(256, 256, 128))
    ensures r.Err? <==> MaskPath(cfg.dataRoot, fileId) in fs.dirs && MaskPath(cfg.dataRoot, fileId) !in fs.files
    ensures r.Err? ==> r.error == OpenFailed(MaskPath(cfg.dataRoot, fileId))
    ensures MaskPath(cfg.dataRoot, fileId) in fs.files ==>
      var band := fs.files[MaskPath(cfg.dataRoot, fileId)].firstBand;
      r.Ok? && r.value.Pixels? && |r.value.values| == |band| &&
      forall i :: 0 <= i < |band| ==> r.value.values[i] == (256 - band[i] % 256) % 256
  {
    var path := MaskPath(cfg.dataRoot, fileId);
    if !PathExists(fs, path) then
      Ok(Uniform(256, 256, 128))
    else if path !in fs.files then
      Err(OpenFailed(path))
    else
      var band := fs.files[path].firstBand;
      Ok(Pixels(seq(|band|, i requires 0 <= i < |band| => ScaleMaskPixel(band[i]))))
  }

  // ---------------------------------------------------------------------------
  // load_and_preprocess_image

  /** The channels read from one source's raster for one tile. */
  datatype Block = Block(source: Source, path: Path, channels: nat)

  /** The input tensor: its channel blocks in stacking order and the statistics it
      was normalised with. */
  datatype Tensor = Tensor(layers: seq<Block>, mean: seq<real>, std: seq<real>)

  datatype Loaded = Loaded(tensor: Tensor, viz: map<string, Block>)

  datatype LoadError =
    | NoDataLoaded(modality: string)               // the `ValueError` for an empty stack
    | OpenFailed(path: Path)                       // `rasterio.open` on a path holding no raster
    | ImageShapeUnsupported(path: Path, bands: nat) // PIL's `TypeError` for the satellite view

  /** Band counts for which PIL's `Image.fromarray` accepts an (h, w, bands) uint8
      array: 2 (mode LA), 3 (RGB) and 4 (RGBA). */
  const ViewableBands: set<nat> := {2, 3, 4}

  /** The error that loading `src` for this tile raises, if any: the raster cannot be
      opened, or it is a satellite raster whose visualisation PIL cannot build. */
  function SourceFailure(root: Path, fileId: string, src: Source, fs: FileSystem): Option<LoadError> {
    var path := TilePath(root, src, fileId);
    if path !in fs.files then Some(OpenFailed(path))
    else if src == Satellite && fs.files[path].bands !in ViewableBands then
      Some(ImageShapeUnsupported(path, fs.files[path].bands))
    else None
  }

  /** Every source in `srcs` loads for this tile without error. */
  predicate AllLoadable(root: Path, fileId: string, srcs: seq<Source>, fs: FileSystem) {
    forall src :: src in srcs ==> SourceFailure(root, fileId, src, fs).None?
  }

  /** The stack and visualisation map built so far. */
  datatype Partial = Partial(stack: seq<Block>, viz: map<string, Block>)

  /** Total channels of the stacked blocks. */
  function ChannelTotal(layers: seq<Block>): nat {
    if |layers| == 0 then 0 else layers[0].channels + ChannelTotal(layers[1..])
  }

  function LayerSources(layers: seq<Block>): (srcs: seq<Source>)
    ensures |srcs| == |layers|
    ensures forall i :: 0 <= i < |layers| ==> srcs[i] == layers[i].source
  {
    seq(|layers|, i requires 0 <= i < |layers| => layers[i].source)
  }

  /** One `if` block of the loader: when `wanted`, open the source's raster for
      `fileId`, append its channels to the stack and record its visualisation.
      The satellite raster contributes all of its bands, the others band 1 only. */
  function LoadSource(acc: Result<Partial, LoadError>, wanted: bool, src: Source,
                      fileId: string, root: Path, fs: FileSystem): (r: Result<Partial, LoadError>)
    ensures acc.Err? || !wanted ==> r == acc
    ensures acc.Ok? && wanted ==> (r.Err? <==> SourceFailure(root, fileId, src, fs).Some?)
    ensures acc.Ok? && wanted && r.Err? ==> Some(r.error) == SourceFailure(root, fileId, src, fs)
    ensures acc.Ok? && wanted && r.Ok? ==>
      && r.value.stack == acc.value.stack + [ReadBlock(src, fileId, root, fs)]
      && r.value.viz == acc.value.viz[VizKey(src) := ReadBlock(src, fileId, root, fs)]
  {
    if acc.Err? || !wanted then acc
    else
      var path := TilePath(root, src, fileId);
      if path !in fs.files then Err(OpenFailed(path))
      else
        var block := ReadBlock(src, fileId, root, fs);
        if src == Satellite && block.channels !in ViewableBands then
          Err(ImageShapeUnsupported(path, block.channels))
        else
          Ok(Partial(acc.value.stack + [block], acc.value.viz[VizKey(src) := block]))
  }

  /** Opening an existing raster: the satellite image yields all of its bands
      (`src.read()`), the count and height rasters only band 1 (`src.read(1)`). */
  function ReadBlock(src: Source, fileId: string, root: Path, fs: FileSystem): (b: Block)
    requires TilePath(root, src, fileId) in fs.files
    ensures BlockRead(root, fileId, fs, b) && b.source == src
  {
    var path := TilePath(root, src, fileId);
    Block(src, path, if src == Satellite then fs.files[path].bands else 1)
  }

  /** Every raster in `srcs` exists for this tile. */
  predicate RastersPresent(root: Path, fileId: string, srcs: seq<Source>, fs: FileSystem) {
    forall src :: src in srcs ==> TilePath(root, src, fileId) in fs.files
  }

  /** A block was read correctly: from its own source's path, with the channels
      that source yields. */
  predicate BlockRead(root: Path, fileId: string, fs: FileSystem, b: Block) {
    && b.path == TilePath(root, b.source, fileId)
    && b.path in fs.files
    && b.channels == (if b.source == Satellite then fs.files[b.path].bands else 1)
  }

  predicate BlocksRead(root: Path, fileId: string, fs: FileSystem, layers: seq<Block>) {
    forall b :: b in layers ==> BlockRead(root, fileId, fs, b)
  }

  /** Reference loader: reads `srcs` in order, stopping at the first source that fails. */
  function LoadSources(srcs: seq<Source>, fileId: string, root: Path, fs: FileSystem): (r: Result<Partial, LoadError>)
    ensures r.Ok? <==> AllLoadable(root, fileId, srcs, fs)
    ensures r.Ok? ==> LayerSources(r.value.stack) == srcs
    ensures r.Ok? ==> BlocksRead(root, fileId, fs, r.value.stack)
    ensures r.Err? ==> !r.error.NoDataLoaded?
    decreases |srcs|
  {
    if |srcs| == 0 then
      Ok(Partial([], map[]))
    else
      var init := srcs[..|srcs| - 1];
      var last := srcs[|srcs| - 1];
      assert srcs == init + [last];
      var acc := LoadSources(init, fileId, root, fs);
      var r := LoadSource(acc, true, last, fileId, root, fs);
      assert r.Ok? ==> LayerSources(r.value.stack) == LayerSources(acc.value.stack) + [last];
      r
  }

  /** The visualisation map holds one image per loaded source, keyed by the source. */
  lemma {:induction false} LoadSourcesViz(srcs: seq<Source>, fileId: string, root: Path, fs: FileSystem)
    requires LoadSources(srcs, fileId, root, fs).Ok?
    ensures var p := LoadSources(srcs, fileId, root, fs).value;
      && p.viz.Keys == (set src | src in srcs :: VizKey(src))
      && (forall k :: k in p.viz ==> p.viz[k] in p.stack && VizKey(p.viz[k].source) == k)
    decreases |srcs|
  {
    if |srcs| > 0 {
      var init := srcs[..|srcs| - 1];
      var last := srcs[|srcs| - 1];
      assert srcs == init + [last];
      LoadSourcesViz(init, fileId, root, fs);
      var acc := LoadSources(init, fileId, root, fs).value;
      var p := LoadSources(srcs, fileId, root, fs).value;
      assert (set src | src in srcs :: VizKey(src)) == (set src | src in init :: VizKey(src)) + {VizKey(last)};
      forall k | k in p.viz
        ensures p.viz[k] in p.stack && VizKey(p.viz[k].source) == k
      {
        if k != VizKey(last) {
          assert p.viz[k] == acc.viz[k];
        }
      }
    }
  }

  /** A failed load reports the error of the first source, in stacking order, that
      fails; every earlier source loaded. */
  lemma {:induction false} LoadSourcesFirstFailure(srcs: seq<Source>, fileId: string, root: Path, fs: FileSystem)
    requires LoadSources(srcs, fileId, root, fs).Err?
    ensures exists i :: (0 <= i < |srcs|
      && SourceFailure(root, fileId, srcs[i], fs) == Some(LoadSources(srcs, fileId, root, fs).error)
      && AllLoadable(root, fileId, srcs[..i], fs))
    decreases |srcs|
  {
    var init := srcs[..|srcs| - 1];
    var last := srcs[|srcs| - 1];
    assert srcs == init + [last];
    var acc := LoadSources(init, fileId, root, fs);
    if acc.Err? {
      LoadSourcesFirstFailure(init, fileId, root, fs);
      var i :| 0 <= i < |init| && SourceFailure(root, fileId, init[i], fs) == Some(acc.error)
               && AllLoadable(root, fileId, init[..i], fs);
      assert srcs[..i] == init[..i] && srcs[i] == init[i];
    } else {
      assert srcs[..|srcs| - 1] == init;
    }
  }

  /** The three loading blocks, each guarded by its own membership test on the
      modality string, in the order satellite, building count, building height. */
  function LoadInputs(fileId: string, cfg: Config, fs: FileSystem): Result<Partial, LoadError> {
    var m := cfg.modalityToRun;
    var root := cfg.dataRoot;
    var start: Result<Partial, LoadError> := Ok(Partial([], map[]));
    var afterSat := LoadSource(start, m in ["satellite", "bc+sat", "all"], Satellite, fileId, root, fs);
    var afterBc := LoadSource(afterSat, m in ["bc", "bc+sat", "all"], BuildingCount, fileId, root, fs);
    LoadSource(afterBc, m in ["bh", "all"], BuildingHeight, fileId, root, fs)
  }

  /** The three `if` blocks as a function of which of them fire. */
  function Guarded(sat: bool, bc: bool, bh: bool, fileId: string, root: Path, fs: FileSystem): Result<Partial, LoadError> {
    var start: Result<Partial, LoadError> := Ok(Partial([], map[]));
    LoadSource(LoadSource(LoadSource(start, sat, Satellite, fileId, root, fs), bc, BuildingCount, fileId, root, fs),
               bh, BuildingHeight, fileId, root, fs)
  }

  lemma GuardedTwo(fileId: string, root: Path, fs: FileSystem)
    ensures Guarded(true, true, false, fileId, root, fs) == LoadSources([Satellite, BuildingCount], fileId, root, fs)
  {
    var srcs := [Satellite, BuildingCount];
    assert srcs[..1] == [Satellite];
    assert srcs[..1][..0] == [];
  }

  lemma GuardedThree(fileId: string, root: Path, fs: FileSystem)
    ensures Guarded(true, true, true, fileId, root, fs) == LoadSources([Satellite, BuildingCount, BuildingHeight], fileId, root, fs)
  {
    var srcs := [Satellite, BuildingCount, BuildingHeight];
    assert srcs[..2] == [Satellite, BuildingCount];
    GuardedTwo(fileId, root, fs);
  }

  /** The membership tests select exactly the sources of the modality, in stacking
      order; an unrecognised modality selects none and reads nothing. */
  lemma LoadInputsFollowSources(fileId: string, cfg: Config, fs: FileSystem)
    ensures cfg.modalityToRun !in AcceptedNames ==> LoadInputs(fileId, cfg, fs) == Ok(Partial([], map[]))
    ensures cfg.modalityToRun in AcceptedNames ==>
      LoadInputs(fileId, cfg, fs) == LoadSources(SourcesOf(Parse(cfg.modalityToRun).value), fileId, cfg.dataRoot, fs)
  {
    var m := cfg.modalityToRun;
    var root := cfg.dataRoot;
    assert LoadInputs(fileId, cfg, fs) ==
      Guarded(m in ["satellite", "bc+sat", "all"], m in ["bc", "bc+sat", "all"], m in ["bh", "all"], fileId, root, fs);
    if m == "bc+sat" {
      GuardedTwo(fileId, root, fs);
    } else if m == "all" {
      GuardedThree(fileId, root, fs);
    }
  }

  /** `load_and_preprocess_image`: reads the selected rasters, fails when none was
      selected, and normalises the stack with the configuration's statistics. */
  function LoadAndPreprocess(fileId: string, cfg: Config, fs: FileSystem): (r: Result<Loaded, LoadError>)
    ensures r == Err(NoDataLoaded(cfg.modalityToRun)) <==> cfg.modalityToRun !in AcceptedNames
    ensures r.Ok? <==>
      cfg.modalityToRun in AcceptedNames && AllLoadable(cfg.dataRoot, fileId, SourcesOf(Parse(cfg.modalityToRun).value), fs)
    ensures r.Ok? ==> LayerSources(r.value.tensor.layers) == SourcesOf(Parse(cfg.modalityToRun).value)
    ensures r.Ok? ==> BlocksRead(cfg.dataRoot, fileId, fs, r.value.tensor.layers)
    ensures r.Ok? ==> r.value.viz.Keys == set b | b in r.value.tensor.layers :: VizKey(b.source)
    ensures r.Ok? ==> r.value.tensor.mean == cfg.currentMean && r.value.tensor.std == cfg.currentStd
    ensures r.Err? && r.error.OpenFailed? ==> r.error.path !in fs.files
    ensures r.Err? && r.error.ImageShapeUnsupported? ==>
      && r.error.path == TilePath(cfg.dataRoot, Satellite, fileId)
      && r.error.path in fs.files
      && r.error.bands == fs.files[r.error.path].bands
      && r.error.bands !in ViewableBands
  {
    var m := cfg.modalityToRun;
    var loaded := LoadInputs(fileId, cfg, fs);
    if loaded.Err? then
      LoadInputsFailed(fileId, cfg, fs);
      Err(loaded.error)
    else if |loaded.value.stack| == 0 then
      LoadInputsStackSize(fileId, cfg, fs);
      Err(NoDataLoaded(m))
    else
      LoadInputsLoaded(fileId, cfg, fs);
      Ok(Loaded(Tensor(loaded.value.stack, cfg.currentMean, cfg.currentStd), loaded.value.viz))
  }

  lemma LoadInputsFailed(fileId: string, cfg: Config, fs: FileSystem)
    requires LoadInputs(fileId, cfg, fs).Err?
    ensures cfg.modalityToRun in AcceptedNames
    ensures !AllLoadable(cfg.dataRoot, fileId, SourcesOf(Parse(cfg.modalityToRun).value), fs)
    ensures exists src :: SourceFailure(cfg.dataRoot, fileId, src, fs) == Some(LoadInputs(fileId, cfg, fs).error)
  {
    LoadInputsFollowSources(fileId, cfg, fs);
    var srcs := SourcesOf(Parse(cfg.modalityToRun).value);
    LoadSourcesFirstFailure(srcs, fileId, cfg.dataRoot, fs);
  }

  lemma LoadInputsStackSize(fileId: string, cfg: Config, fs: FileSystem)
    requires LoadInputs(fileId, cfg, fs).Ok?
    ensures cfg.modalityToRun in AcceptedNames ==>
      |LoadInputs(fileId, cfg, fs).value.stack| == |SourcesOf(Parse(cfg.modalityToRun).value)|
  {
    LoadInputsFollowSources(fileId, cfg, fs);
    if cfg.modalityToRun in AcceptedNames {
      assert |LayerSources(LoadInputs(fileId, cfg, fs).value.stack)| == |SourcesOf(Parse(cfg.modalityToRun).value)|;
    }
  }

  lemma LoadInputsLoaded(fileId: string, cfg: Config, fs: FileSystem)
    requires LoadInputs(fileId, cfg, fs).Ok? && |LoadInputs(fileId, cfg, fs).value.stack| > 0
    ensures cfg.modalityToRun in AcceptedNames
    ensures var p := LoadInputs(fileId, cfg, fs).value;
      && AllLoadable(cfg.dataRoot, fileId, SourcesOf(Parse(cfg.modalityToRun).value), fs)
      && LayerSources(p.stack) == SourcesOf(Parse(cfg.modalityToRun).value)
      && BlocksRead(cfg.dataRoot, fileId, fs, p.stack)
      && p.viz.Keys == (set b | b in p.stack :: VizKey(b.source))
  {
    LoadInputsFollowSources(fileId, cfg, fs);
    var m := cfg.modalityToRun;
    var srcs := SourcesOf(Parse(m).value);
    var p := LoadInputs(fileId, cfg, fs).value;
    LoadSourcesViz(srcs, fileId, cfg.dataRoot, fs);
    VizKeysOfLayers(p.stack, srcs);
  }

  lemma VizKeysOfLayers(layers: seq<Block>, srcs: seq<Source>)
    requires LayerSources(layers) == srcs
    ensures (set b | b in layers :: VizKey(b.source)) == (set src | src in srcs :: VizKey(src))
  {
    forall src | src in srcs
      ensures VizKey(src) in (set b | b in layers :: VizKey(b.source))
    {
      var i :| 0 <= i < |srcs| && srcs[i] == src;
      assert layers[i] in layers;
    }
  }

  /** Which folders are read: `satellite-256` exactly for satellite, bc+sat and all;
      `bc-256` exactly for bc, bc+sat and all; `bh-256` exactly for bh and all. */
  lemma FolderSelection(fileId: string, cfg: Config, fs: FileSystem)
    requires LoadAndPreprocess(fileId, cfg, fs).Ok?
    ensures var srcs := LayerSources(LoadAndPreprocess(fileId, cfg, fs).value.tensor.layers);
      && (Satellite in srcs <==> cfg.modalityToRun in {"satellite", "bc+sat", "all"})
      && (BuildingCount in srcs <==> cfg.modalityToRun in {"bc", "bc+sat", "all"})
      && (BuildingHeight in srcs <==> cfg.modalityToRun in {"bh", "all"})
  {
    var m := Parse(cfg.modalityToRun).value;
    assert Name(m) == cfg.modalityToRun;
  }

  /** A load that fails on a raster reports the error of the first needed source, in
      stacking order, that fails; every earlier one loaded. */
  lemma LoadReportsFirstFailure(fileId: string, cfg: Config, fs: FileSystem)
    requires LoadAndPreprocess(fileId, cfg, fs).Err?
    requires !LoadAndPreprocess(fileId, cfg, fs).error.NoDataLoaded?
    ensures cfg.modalityToRun in AcceptedNames
    ensures var srcs := SourcesOf(Parse(cfg.modalityToRun).value);
      exists i :: (0 <= i < |srcs|
        && SourceFailure(cfg.dataRoot, fileId, srcs[i], fs) == Some(LoadAndPreprocess(fileId, cfg, fs).error)
        && AllLoadable(cfg.dataRoot, fileId, srcs[..i], fs))
  {
    LoadInputsFollowSources(fileId, cfg, fs);
    LoadSourcesFirstFailure(SourcesOf(Parse(cfg.modalityToRun).value), fileId, cfg.dataRoot, fs);
  }

  /** When every block carries its source's expected channels, the stacked
      channel count is the channel count of the stacked sources. */
  lemma {:induction false} ChannelTotalIsCount(layers: seq<Block>)
    requires forall b :: b in layers ==> b.channels == ExpectedChannels(b.source)
    ensures ChannelTotal(layers) == ChannelCount(LayerSources(layers))
    decreases |layers|
  {
    if |layers| > 0 {
      assert LayerSources(layers)[1..] == LayerSources(layers[1..]);
      ChannelTotalIsCount(layers[1..]);
    }
  }

  /** Each visualisation is the block loaded for the source its key names. */
  lemma LoadVizImages(fileId: string, cfg: Config, fs: FileSystem)
    requires LoadAndPreprocess(fileId, cfg, fs).Ok?
    ensures var l := LoadAndPreprocess(fileId, cfg, fs).value;
      forall k :: k in l.viz ==> l.viz[k] in l.tensor.layers && VizKey(l.viz[k].source) == k
  {
    LoadInputsFollowSources(fileId, cfg, fs);
    LoadSourcesViz(SourcesOf(Parse(cfg.modalityToRun).value), fileId, cfg.dataRoot, fs);
  }
}
