# Zarr v3 dataset coordinator

This is a Dafny model of the deterministic part of the Zarr v3 dataset coordinator (`ZarrV3`) in the
acquire-driver-zarr storage driver. The coordinator owns one array writer per level of a multiscale
pyramid (level 0 is full resolution). Once writing is finished, it emits the Zarr v3 metadata documents:

- the top-level `zarr.json`;
- the group document `meta/root.group.json`, which carries the acquisition's external metadata under
  `attributes.acquire`;
- one `meta/root/<level>.array.json` per level.

The model covers how the pyramid of writers is allocated and how the list of metadata sink paths is
laid out. It also covers how each metadata document is built, and which sink each document goes to.

Modules:

- `Wrappers` holds `Option` and `Result`.
- `Json` is an abstract JSON value. Objects are maps from keys to values. `Put` and `PutAt` model
  `doc[key] = v` and `doc[i] = v` of the JSON library.
- `Decimal` is the decimal rendering of level numbers (`std::to_string`), with a round trip.
- `ArrayConfigs` holds dimensions, Blosc parameters, array configurations and writers. A writer is
  seen only as its configuration plus its count of frames written.
- `Pyramid` is the chain of configurations produced by the downsample policy.
- `Layout` holds the on-disk paths and the metadata sink list.
- `Metadata` holds the three kinds of documents.
- `Dataset` holds the `ZarrV3` class. Its fields are the dataset settings, the `writers` sequence
  and the `scaledFrames` table.

Modelling choices:

- The downsample policy is a parameter `ArrayConfig -> (ArrayConfig, bool)`. It comes with a ghost
  ranking function that must decrease whenever the policy answers `true`. This is what makes the
  coordinator's `while (do_downsample)` loop end.
- The mapping from sample type to Zarr data type is a parameter. So is the JSON parser, as
  `string -> Option<Json>`.
- Each `Write...Metadata` method returns the document and the index of the sink it is written to.
  The byte-range write into that sink is not modelled.
- Where the design description and the code differ, the model follows the code:
  - The code keeps the configuration returned by the downsample call that answers `false`. It
    appends a writer for it before the loop test is evaluated again. The design description says
    that no writer is created for a configuration the policy marks as not reducible. So with
    multiscale enabled there are always at least two levels.
  - The code walks the dimension list from its last element (`rbegin`) to its first. So the list is
    stored innermost axis first, with the append (frame) axis last. The design description lists
    dimensions outer-to-inner. `shape`, `chunk_shape` and `chunks_per_shard` all come out
    last-stored first. The leading `shape` entry replaces the planned extent of the last-stored
    dimension.
  - `scaled_frames_` is never cleared, and `emplace` does not overwrite a key that exists. So a key
    already present keeps its old value, and only a new key holds "no frame".

## Model

| member | source | states |
|---|---|---|
| Decimal.NatToDecimal | src/zarr.v3.cpp:80 | a level number renders as a non-empty string of digits with no leading zero |
| Decimal.DecimalRoundTrip | src/zarr.v3.cpp:80 | reading back the rendered level number gives the number |
| Decimal.NatToDecimalInjective | src/zarr.v3.cpp:80 | distinct levels get distinct numerals, so distinct array file names |
| Layout.ArrayMetadataPaths | src/zarr.v3.cpp:78-82 | the loop over writers yields exactly one array document path per writer |
| Layout.ArrayMetadataPathsAt | src/zarr.v3.cpp:78-82 | the i-th array document path is `<root>/meta/root/<i>.array.json` |
| Layout.MetadataSinkLayout | src/zarr.v3.cpp:71-85 | the sink list has 2 + L entries: `zarr.json` at 0, the group document at 1, and level l's array document at 2 + l, which is always in range and never 0 or 1 |
| Layout.ArrayMetadataPathInjective | src/zarr.v3.cpp:79-81 | two levels with the same array document path are the same level |
| Layout.MetadataSinkPathsDistinct | src/zarr.v3.cpp:74-84 | no two metadata sinks share a path |
| Pyramid.DownsampleChain | src/zarr.v3.cpp:49-59 | each element is the config returned by a downsample call on the previous element (the first on the base config); every call but the last answered true, and the config of the last call, which answered false, is still kept |
| Pyramid.Levels | src/zarr.v3.cpp:38-60 | level 0 is the base config; without multiscale there is exactly one level; with it there are at least two, each level after 0 being the downsample of the one before |
| Pyramid.LevelsKeepDimensionCount | src/zarr.v3.cpp:38-57 | if the policy keeps the number of dimensions, every level has as many dimensions as the acquisition |
| Pyramid.LevelDimensionCount | src/zarr.v3.cpp:51-57 | step by step along the levels, the dimension count is that of level 0 |
| Metadata.BaseMetadata | src/zarr.v3.cpp:94-99 | the top-level document has exactly the four fixed keys `extensions`, `metadata_encoding`, `metadata_key_suffix` and `zarr_format`, with the core protocol URI |
| Metadata.GroupMetadata | src/zarr.v3.cpp:125-132 | `attributes.acquire` is `""` when the external metadata is empty, and the parsed value otherwise; text that does not parse is an error, never replaced by `""` |
| Metadata.ReversedAxis | src/zarr.v3.cpp:163-173 | one size per dimension, and entry i is the size of dimension n-1-i |
| Metadata.ArrayShape | src/zarr.v3.cpp:155-161 | the shape has one entry per dimension; entry 0 is the frames written; entry i >= 1 is the pixel extent of dimension n-1-i |
| Metadata.ArrayDocument | src/zarr.v3.cpp:152-213 | the array document has exactly the fixed keys, plus `compressor` iff compression parameters are present; that block is then `{blocksize 0, clevel, cname, shuffle}` of the parameters with the Blosc codec URI |
| Metadata.ArrayDocumentConstants | src/zarr.v3.cpp:152-184 | `attributes = {}`, `chunk_memory_layout = "C"`, `extensions = []`, `fill_value = 0` and the given data type, whatever the level |
| Metadata.ArrayDocumentGrid | src/zarr.v3.cpp:175-213 | `shape` is the shape vector; `chunk_grid` is regular with separator "/" over the chunk shape; `storage_transformers` is exactly one `indexed` transformer with the sharding URI over the chunks-per-shard vector |
| Metadata.ArrayMetadataShape | src/zarr.v3.cpp:147-187 | a writer's document has a `shape` of one entry per dimension, the frames written first, then the planned extents, last-stored first; its data type is that of the frames; it has a `compressor` iff the level is compressed |
| Metadata.ArrayMetadataChunking | src/zarr.v3.cpp:163-213 | `chunk_shape` and `chunks_per_shard` each have one entry per dimension, last-stored first, holding its chunk size in pixels and its shard size in chunks, and there is exactly one storage transformer |
| Metadata.CollectArrayShape | src/zarr.v3.cpp:155-161 | the push-back loop over the reversed dimensions builds exactly `ArrayShape` |
| Metadata.CollectReversed | src/zarr.v3.cpp:163-173 | the push-back loops build exactly the reversed chunk sizes and shard sizes |
| Dataset.EmplaceNoFrames | src/zarr.v3.cpp:55 | after emplacing "no frame" for levels 1..L-1, the table's keys are the old keys plus 1..L-1; old keys keep their value and new keys hold no frame |
| Dataset.ZarrV3.constructor | src/zarr.v3.cpp:28-31 | a new coordinator holds the given settings and has no writers and no scaled frames |
| Dataset.ZarrV3.AllocateWriters | src/zarr.v3.cpp:33-61 | previous writers are discarded; writer i is a fresh writer (0 frames) for level i of the pyramid, so writer 0 has data root `<root>/data/root/0` and the dataset compression; the scaled-frame table becomes `EmplaceNoFrames` of the old table for L levels |
| Dataset.ZarrV3.MakeMetadataSinkPaths | src/zarr.v3.cpp:71-85 | returns the sink path list for the current writers |
| Dataset.ZarrV3.WriteBaseMetadata | src/zarr.v3.cpp:88-105 | the top-level document goes to sink 0, whose path is `<root>/zarr.json` |
| Dataset.ZarrV3.WriteGroupMetadata | src/zarr.v3.cpp:119-138 | the group document goes to sink 1, whose path is `<root>/meta/root.group.json`; an unparsable external metadata text yields an error and no write |
| Dataset.ZarrV3.WriteArrayMetadata | src/zarr.v3.cpp:140-219 | for level < L, the level's document goes to sink 2 + level, which exists and is `<root>/meta/root/<level>.array.json` |

## Left out

- Dataset.ZarrV3.WriteArrayMetadata: requires a non-empty dimension list for the level. On an empty
  list the source steps `rbegin() + 1` past the end, which is undefined behaviour.
- Text serialisation of the documents (`dump(4)`) and JSON-with-comments parsing are not modelled.
  Parsing is a parameter that may fail.
- The byte-range write into each metadata sink, and the `CHECK` on its result, are not modelled.
  They are file I/O.
- The downsample policy, the sample-type-to-data-type mapping and the writer's construction and
  internals are not modelled. They are not part of this model; the first two are parameters.
- src/writers/writer.hh (frame buffering, compression, shard files, rollover, the thread pool) is not
  modelled. It declares the writer without giving its behaviour, and its state is about concurrency.
- `get_meta` is not modelled: it sets two constant capability flags on top of a base-class call that
  is not part of this model.
- `write_external_metadata_` is not modelled: it is a no-op, because external metadata lives in the
  group document.
- The `extern "C"` factory functions and `compressed_zarr_v3_init` are not modelled. They are plugin
  entry points with exception logging.
- The base-class setup that fills the dataset settings is not modelled. The constructor takes them
  as arguments instead.
- The appending of frames, which fills `scaledFrames` and advances each writer's frame count, is not
  modelled. Frame counts are whatever the writers hold.
- Path joining is string concatenation with "/". The `std::filesystem` rules for separators and
  absolute components are not modelled.
- Integer widths (`uint32_t` frame counts, `size_t` sizes, the `int` level counter) are unbounded
  in the model, so overflow is not modelled.
- Pyramid.Levels: termination of the downsampling loop is assumed through a ranking function that
  the policy decreases whenever it answers true. The source relies on the policy eventually
  answering false.
