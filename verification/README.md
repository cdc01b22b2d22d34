# Modality configuration and tile loading — a Dafny model

This project models the part of the backend-inference service that decides what a
segmentation model is fed. There are three pieces:

- **The model registry** (`MODEL_MAPPING`). It maps a model type to an architecture, a checkpoint file and a training modality.
- **`setup_config`**. It turns a modality string (`satellite`, `bc`, `bh`, `bc+sat`, `all`) into a configuration: the channel count the model is built with and the normalisation statistics for those channels.
- **The tile loader** (`load_and_preprocess_image`). It reads the `satellite-256`, `bc-256` and `bh-256` rasters of a tile for the configured modality and stacks them. The same module also lists the tile ids (`get_test_file_ids`) and loads the ground-truth mask (`load_ground_truth_mask`).

The central property spans the two files. Every accepted modality is configured
with one mean and one standard deviation per announced channel. For a tile whose
rasters exist, loading succeeds exactly when the satellite raster (if the modality
reads it) has 2, 3 or 4 bands, the shapes PIL can turn into an image for the
satellite visualisation. A successful load stacks `INPUT_CHANNELS` channels (3 for
satellite, plus 1 for bc, plus 1 for bh) exactly when the satellite raster has three
bands. Otherwise inference stops with a model/tensor shape mismatch.

Modules, one per source file or shared concept:

- `Wrappers`: `Option` and `Result`. A Python `raise` is modelled as `Err`.
- `Modalities`: the modality and source vocabulary. `SourcesOf` is the single reference table saying which sources a modality reads and in what order.
- `StringOrder`: Python's `str` ordering and `sorted()`. It includes the proof that a sorted arrangement is unique.
- `AppConfig`: app/utils/config.py.
- `DataProcessing`: app/utils/data_processing.py.
- `ChannelConsistency`: the invariant that joins the two files.

Rasters are abstract channel blocks. A raster has a band count. For masks it also
has the integer values of its first band. The filesystem is a parameter: a listing
per existing directory and a raster per existing file.

## Model

| member | source | states |
|---|---|---|
| `Modalities.Parse` | app/utils/config.py:100-123 | Exactly the five strings satellite, bc, bh, bc+sat, all are recognised. A recognised string is the name of the modality returned, and an unrecognised string names no modality. |
| `Modalities.SourcesOf` | app/utils/data_processing.py:48-79 | Every modality reads at least one source. Sources are stacked in the order satellite, bc, bh. Satellite is read for satellite, bc+sat and all; bc for bc, bc+sat and all; bh for bh and all. |
| `Modalities.ChannelsPerModality` | app/utils/config.py:100-119 | Summing the sources' channels gives 3, 1, 1, 4 and 5 for satellite, bc, bh, bc+sat and all. |
| `AppConfig.ModelMappingKeysDistinct` | app/utils/config.py:8-39 | No two registry entries share a key. |
| `AppConfig.Lookup` | app/utils/config.py:87-92 | A key is found exactly when it is among the registry's keys. What is found is the entry registered under that key. |
| `AppConfig.GetModelConfig` | app/utils/config.py:85-92 | Succeeds exactly for registered model types, returning their registered entry. Any other string gives the unknown-model-type error, which carries the string and every key in registry order. |
| `AppConfig.GetModelConfigUnique` | app/utils/config.py:8-39 | Lookup returns the one entry stored under the key. |
| `AppConfig.SetupConfig` | app/utils/config.py:95-128 | Succeeds exactly for the five modality names; any other string gives the unsupported-modality error. On success the modality is recorded, the mean and std lists both have `INPUT_CHANNELS` entries, and every other field keeps its `Config()` default, the data root `./data/qc` among them. |
| `AppConfig.SetupConfigFollowsSources` | app/utils/config.py:100-119 | For each modality, `INPUT_CHANNELS` is the channel count of its sources. The mean and std are the per-source statistics concatenated in stacking order (RGB, then BC, then BH). |
| `AppConfig.DefaultStatsShaped` | app/utils/config.py:57-66 | The default RGB statistics have three entries. The BC and BH statistics have one entry each. |
| `AppConfig.StackedStatsLength` | app/utils/config.py:112-119 | Given well-shaped per-source statistics, concatenating them over any source sequence gives one entry per stacked channel. |
| `AppConfig.RegistryModalitiesAccepted` | app/utils/config.py:8-39 | The modality of every registry entry is accepted by `setup_config`, so lookup followed by setup never fails on the modality. |
| `StringOrder.Sort` | app/utils/data_processing.py:21 | The result is in ascending Python string order and is a permutation of the input. |
| `StringOrder.SortedUnique` | app/utils/data_processing.py:21 | Two sorted sequences holding the same strings are equal, so the sorted result is fully determined. |
| `StringOrder.SortIgnoresOrder` | app/utils/data_processing.py:21 | Sorting two permutations of the same strings gives the same result. |
| `DataProcessing.TifStems` | app/utils/data_processing.py:21 | Each stem occurs as often as there are entries with that stem whose suffix is exactly `.tif`; no other entry contributes. |
| `DataProcessing.GetTestFileIds` | app/utils/data_processing.py:16-21 | The result is empty when `satellite-256` does not exist. Otherwise it is sorted, and each stem occurs once per `.tif` entry with that stem. |
| `DataProcessing.GetTestFileIdsMembership` | app/utils/data_processing.py:21 | An id is listed exactly when `<id>.tif` is in the satellite directory. `.tiff` files and other suffixes are never listed. |
| `DataProcessing.GetTestFileIdsIgnoreListingOrder` | app/utils/data_processing.py:21 | Two listings with the same entries in any order give the same ids. |
| `DataProcessing.ScaleMaskPixel` | app/utils/data_processing.py:34-35 | A stored value p becomes the 8-bit value (256 - p mod 256) mod 256. A binary mask maps 0 to 0 and 1 to 255. |
| `DataProcessing.LoadGroundTruthMask` | app/utils/data_processing.py:24-35 | If nothing exists at `mask-256/<id>.tif`, the result is a 256×256 placeholder of grey level 128. If a directory is there, opening it fails with an error naming the path, and that is the only failure. If a raster is there, each pixel of its first band is scaled to 8 bits. |
| `DataProcessing.LoadSources` | app/utils/data_processing.py:48-79 | Reference loader over a source sequence. It succeeds exactly when every needed source loads: its raster exists and, for the satellite, has a band count PIL can view. On success its blocks come from those sources, in order, each read from its own path. |
| `DataProcessing.LoadSourcesViz` | app/utils/data_processing.py:48-79 | The visualisation keys are exactly the keys of the loaded sources. Each visualisation is a block of the stack for that key's source. |
| `DataProcessing.LoadSourcesFirstFailure` | app/utils/data_processing.py:48-79 | A failed load reports the error of the first source, in stacking order, that fails: an absent raster, or a satellite image PIL cannot view. Every source before it loaded. |
| `DataProcessing.LoadInputsFollowSources` | app/utils/data_processing.py:48-79 | The three guarded blocks read exactly the sources of the modality, in stacking order. An unrecognised modality reads nothing. |
| `DataProcessing.LoadAndPreprocess` | app/utils/data_processing.py:38-99 | "No data loaded" happens exactly for unrecognised modalities, and no raster is read for them. Success happens exactly when the modality is recognised and each of its sources loads. The stack holds the modality's sources in order, each from its own path. The visualisation keys are the loaded sources' keys. Normalisation uses the configuration's mean and std. An open error names an absent path. An image-shape error names the satellite raster and its band count, which is not 2, 3 or 4. |
| `DataProcessing.FolderSelection` | app/utils/data_processing.py:49-72 | In a successful load, `satellite-256` is read iff the modality is satellite, bc+sat or all. `bc-256` is read iff it is bc, bc+sat or all. `bh-256` is read iff it is bh or all. |
| `DataProcessing.LoadReportsFirstFailure` | app/utils/data_processing.py:48-79 | A raster failure only happens for a recognised modality. It is the error of the first of that modality's sources, in stacking order, that fails, and every earlier source loaded. |
| `DataProcessing.ChannelTotalIsCount` | app/utils/data_processing.py:85 | When each block has its source's expected channels, concatenating them gives the sources' total channel count. |
| `DataProcessing.LoadVizImages` | app/utils/data_processing.py:58-79 | Each returned visualisation is a block of the stack and belongs to the source its key names. |
| `ChannelConsistency.LoadableWhenPresent` | app/utils/data_processing.py:51-58 | When every raster of a modality exists, all its sources load if and only if the satellite raster (when used) has 2, 3 or 4 bands. |
| `ChannelConsistency.StackMatchesInputChannels` | app/utils/data_processing.py:85-97 | For a configured modality with its rasters present, mean and std each have `INPUT_CHANNELS` entries. Loading succeeds if and only if the satellite raster (when used) has 2, 3 or 4 bands. After a successful load, the stacked channel count equals `INPUT_CHANNELS` if and only if that raster has three bands. |
| `ChannelConsistency.SatelliteShift` | app/utils/data_processing.py:53 | A satellite raster with 3 + d bands shifts the stack's channel count by d from the expected count. |
| `ChannelConsistency.RegisteredModelsStackConsistently` | app/utils/config.py:85-123 | For every registry entry, `get_model_config` on its key returns that entry, and the entry's modality configures. A tile with its rasters present and a three-band satellite image stacks to exactly the channel count the model is built with. |

## Left out

- Pixel values and floating-point arithmetic: the `/255.0` scaling, the min–max visualisation scaling, and albumentations' `Normalize` arithmetic. Rasters are channel blocks with a band count.
- `Normalize` with a mean or std whose length differs from the channel count: what albumentations does then is library behaviour that is not part of this model. The tensor records which statistics it was normalised with, and `StackMatchesInputChannels` states when their lengths agree.
- Image shapes: PIL's acceptance of an (h, w, b) uint8 array only for b = 2, 3 or 4 is modelled as `ViewableBands`. The two-dimensional count, height and mask arrays are always accepted.
- Concatenation of rasters with different heights or widths: raster dimensions are not modelled.
- Decoding a mask from a floating-point raster: mask band values are modelled as integers. For those, `astype(np.uint8)` wraps modulo 256.
- `DataProcessing.GetTestFileIds`: pathlib's split of a file name into stem and suffix is not modelled; directory entries are given as (stem, suffix) pairs. A non-directory at the satellite path, where `iterdir` would raise, is also not modelled.
- `DataProcessing.TilePath`: a file id containing `/` would make pathlib add extra path components. Ids are modelled as single components, which is what `get_test_file_ids` produces.
- `AppConfig.SetupConfig`: the console message is not modelled. List aliasing between `CURRENT_MEAN` and `RGB_MEAN` is not modelled either, because configurations are immutable values here.
- The float constants are carried as exact decimal reals rather than binary doubles. They are never computed with.
- app/models/architectures.py and app/models/components.py (network definitions), app/main.py (web app, model loading, benchmark timing, PNG writes), run_inference.py (CLI driver), start_inference.py (interactive launcher), example_web_mapping.py and example_combine_masks.py (demo scripts): framework glue, numerics and I/O are not part of this model.
