/**
  The three kinds of Zarr v3 metadata documents the coordinator writes:
  the top-level document, the group document carrying the external
  metadata, and one array document per pyramid level.
 */
module Metadata {
  import opened Wrappers
  import opened Json
  import opened ArrayConfigs

  const CoreProtocolUri := "https://purl.org/zarr/spec/protocol/core/3.0"
  const BloscCodecUri := "https://purl.org/zarr/spec/codec/blosc/1.0"
  const ShardingUri := "https://purl.org/zarr/spec/storage_transformers/sharding/1.0"

  /** The top-level document: exactly these four keys, whatever the dataset. */
  function BaseMetadata(): (doc: Json)
    ensures doc == JObject(map[
      "extensions" := JArray([]),
      "metadata_encoding" := JString(CoreProtocolUri),
      "metadata_key_suffix" := JString(".json"),
      "zarr_format" := JString(CoreProtocolUri)])
  {
    var m := Put(JNull, "extensions", JArray([]));
    var m := Put(m, "metadata_encoding", JString(CoreProtocolUri));
    var m := Put(m, "metadata_key_suffix", JString(".json"));
    Put(m, "zarr_format", JString(CoreProtocolUri))
  }

  /** External metadata text that is not empty and does not parse. */
  datatype MetadataError = InvalidExternalMetadata(text: string)

  /**
    The group document: `attributes.acquire` holds the parsed external
    metadata, or the empty string when there is none. Text that does not
    parse is an error, never replaced by the empty string.
   */
  function GroupMetadata(externalMetadata: string, parse: string -> Option<Json>): (r: Result<Json, MetadataError>)
    ensures r.Success? <==> externalMetadata == "" || parse(externalMetadata).Some?
    ensures r.Failure? ==> r.error == InvalidExternalMetadata(externalMetadata)
    ensures r.Success? ==>
              && r.value.JObject? && r.value.fields.Keys == {"attributes"}
              && r.value.fields["attributes"].JObject?
              && r.value.fields["attributes"].fields.Keys == {"acquire"}
              && r.value.fields["attributes"].fields["acquire"]
                 == if externalMetadata == "" then JString("") else parse(externalMetadata).value
  {
    var acquire :=
      if externalMetadata == "" then Success(JString(""))
      else match parse(externalMetadata)
        case Some(j) => Success(j)
        case None => Failure(InvalidExternalMetadata(externalMetadata));
    match acquire
    case Success(a) => Success(Put(JNull, "attributes", Put(JNull, "acquire", a)))
    case Failure(e) => Failure(e)
  }

  /** Which per-dimension size a list of sizes is made of. */
  datatype Axis = ArraySize | ChunkSize | ShardSize

  function Extent(d: Dimension, axis: Axis): nat
  {
    match axis
    case ArraySize => d.arraySizePx
    case ChunkSize => d.chunkSizePx
    case ShardSize => d.shardSizeChunks
  }

  /** One size per dimension, the last-stored dimension first. */
  function ReversedAxis(dims: seq<Dimension>, axis: Axis): (sizes: seq<nat>)
    ensures |sizes| == |dims|
    ensures forall i :: 0 <= i < |dims| ==> sizes[i] == Extent(dims[|dims| - 1 - i], axis)
  {
    if dims == [] then []
    else [Extent(dims[|dims| - 1], axis)] + ReversedAxis(dims[..|dims| - 1], axis)
  }

  /**
    The array shape: the dimensions' pixel extents, last-stored first, with
    the last-stored (append) dimension's planned extent replaced by the
    number of frames actually written.
   */
  function ArrayShape(framesWritten: nat, dims: seq<Dimension>): (shape: seq<nat>)
    requires 0 < |dims|
    ensures |shape| == |dims|
    ensures shape[0] == framesWritten
    ensures forall i :: 1 <= i < |dims| ==> shape[i] == dims[|dims| - 1 - i].arraySizePx
  {
    [framesWritten] + ReversedAxis(dims, ArraySize)[1..]
  }

  /** The keys every array document has. */
  const ArrayKeys: set<string> :=
    {"attributes", "chunk_grid", "chunk_memory_layout", "data_type", "extensions", "fill_value",
     "shape", "storage_transformers"}

  /** The Blosc compressor block for `params`. */
  function CompressorDocument(params: BloscParams): Json
  {
    JObject(map[
      "codec" := JString(BloscCodecUri),
      "configuration" := JObject(map[
        "blocksize" := JNumber(0),
        "clevel" := JNumber(params.clevel),
        "cname" := JString(params.codecId),
        "shuffle" := JNumber(params.shuffle)])])
  }

  /** The sharding storage transformer for the given chunks-per-shard sizes. */
  function ShardingTransformer(chunksPerShard: seq<nat>): Json
  {
    JObject(map[
      "type" := JString("indexed"),
      "extension" := JString(ShardingUri),
      "configuration" := JObject(map["chunks_per_shard" := NumberArray(chunksPerShard)])])
  }

  /**
    An array document from its data type, its three size vectors and its
    optional compression parameters. Its keys are the fixed ones, plus
    `compressor` exactly when there are compression parameters, and then it
    holds the Blosc block for them.
   */
  function ArrayDocument(dataType: string, shape: seq<nat>, chunkShape: seq<nat>, chunksPerShard: seq<nat>,
                         compression: Option<BloscParams>): (doc: Json)
    ensures doc.JObject?
    ensures doc.fields.Keys == ArrayKeys + (if compression.Some? then {"compressor"} else {})
    ensures compression.Some? ==> doc.fields["compressor"] == CompressorDocument(compression.value)
  {
    // Each assignment `metadata[key] = value` of the source is one map update.
    var m := map["attributes" := JObject(map[])];
    var m := m["chunk_grid" := JObject(map[
      "chunk_shape" := NumberArray(chunkShape),
      "separator" := JString("/"),
      "type" := JString("regular")])];
    var m := m["chunk_memory_layout" := JString("C")];
    var m := m["data_type" := JString(dataType)];
    var m := m["extensions" := JArray([])];
    var m := m["fill_value" := JNumber(0)];
    var m := m["shape" := NumberArray(shape)];
    var m := if compression.Some? then m["compressor" := CompressorDocument(compression.value)] else m;
    var m := m["storage_transformers" := JArray([])];
    var transformers := PutAt(m["storage_transformers"], 0, ShardingTransformer(chunksPerShard));
    assert transformers == JArray([ShardingTransformer(chunksPerShard)]);
    JObject(m["storage_transformers" := transformers])
  }


  /**
    Whatever the level, an array document has no attributes, C memory
    layout, no extensions and fill value 0, and declares its data type.
   */
  lemma ArrayDocumentConstants(dataType: string, shape: seq<nat>, chunkShape: seq<nat>, chunksPerShard: seq<nat>,
                               compression: Option<BloscParams>)
    ensures var doc := ArrayDocument(dataType, shape, chunkShape, chunksPerShard, compression);
            && doc.fields["attributes"] == JObject(map[])
            && doc.fields["chunk_memory_layout"] == JString("C")
            && doc.fields["data_type"] == JString(dataType)
            && doc.fields["extensions"] == JArray([])
            && doc.fields["fill_value"] == JNumber(0)
  {
  }

  /**
    An array document lists its shape, a regular chunk grid with separator
    "/" over its chunk shape, and exactly one storage transformer: the
    indexed sharding transformer over its chunks-per-shard sizes.
   */
  lemma ArrayDocumentGrid(dataType: string, shape: seq<nat>, chunkShape: seq<nat>, chunksPerShard: seq<nat>,
                          compression: Option<BloscParams>)
    ensures var doc := ArrayDocument(dataType, shape, chunkShape, chunksPerShard, compression);
            && doc.fields["shape"] == NumberArray(shape)
            && doc.fields["chunk_grid"] == JObject(map[
                 "chunk_shape" := NumberArray(chunkShape),
                 "separator" := JString("/"),
                 "type" := JString("regular")])
            && doc.fields["storage_transformers"] == JArray([ShardingTransformer(chunksPerShard)])
  {
  }

  /** The array document of one writer, from its configuration and its count of frames written. */
  function ArrayMetadata(writer: Writer, dataTypeOf: SampleType -> string): (doc: Json)
    requires 0 < |writer.config.dimensions|
  {
    var config := writer.config;
    ArrayDocument(
      dataTypeOf(config.imageShape.sampleType),
      ArrayShape(writer.framesWritten, config.dimensions),
      ReversedAxis(config.dimensions, ChunkSize),
      ReversedAxis(config.dimensions, ShardSize),
      config.compression)
  }

  /**
    The `shape` of a writer's array document has one entry per dimension:
    the frames written first, then the planned pixel extents of the other
    dimensions, last-stored first. Its data type is that of the frames, and
    it has a compressor block exactly when the level is compressed.
   */
  lemma ArrayMetadataShape(writer: Writer, dataTypeOf: SampleType -> string)
    requires 0 < |writer.config.dimensions|
    ensures var doc, dims, n := ArrayMetadata(writer, dataTypeOf), writer.config.dimensions, |writer.config.dimensions|;
            && doc.JObject? && "shape" in doc.fields && doc.fields["shape"].JArray?
            && doc.fields["data_type"] == JString(dataTypeOf(writer.config.imageShape.sampleType))
            && ("compressor" in doc.fields <==> writer.config.compression.Some?)
            && |doc.fields["shape"].items| == n
            && doc.fields["shape"].items[0] == JNumber(writer.framesWritten)
            && forall i :: 1 <= i < n ==> doc.fields["shape"].items[i] == JNumber(dims[n - 1 - i].arraySizePx)
  {
  }

  /**
    `chunk_grid.chunk_shape` and the sharding transformer's
    `chunks_per_shard` of a writer's array document have one entry per
    dimension, last-stored first: its chunk size in pixels and its shard
    size in chunks.
   */
  lemma ArrayMetadataChunking(writer: Writer, dataTypeOf: SampleType -> string)
    requires 0 < |writer.config.dimensions|
    ensures var doc, dims, n := ArrayMetadata(writer, dataTypeOf), writer.config.dimensions, |writer.config.dimensions|;
            && doc.JObject? && "chunk_grid" in doc.fields && "storage_transformers" in doc.fields
            && (var chunkGrid := doc.fields["chunk_grid"];
                && chunkGrid.JObject? && "chunk_shape" in chunkGrid.fields
                && var chunkShape := chunkGrid.fields["chunk_shape"];
                && chunkShape.JArray? && |chunkShape.items| == n
                && forall i :: 0 <= i < n ==> chunkShape.items[i] == JNumber(dims[n - 1 - i].chunkSizePx))
            && (var transformers := doc.fields["storage_transformers"];
                && transformers.JArray? && |transformers.items| == 1
                && var shardShape := transformers.items[0].fields["configuration"].fields["chunks_per_shard"];
                && shardShape.JArray? && |shardShape.items| == n
                && forall i :: 0 <= i < n ==> shardShape.items[i] == JNumber(dims[n - 1 - i].shardSizeChunks))
  {
  }

  /** The shape vector, built as the coordinator builds it: one push per dimension, in reverse. */
  method CollectArrayShape(framesWritten: nat, dims: seq<Dimension>) returns (shape: seq<nat>)
    requires 0 < |dims|
    ensures shape == ArrayShape(framesWritten, dims)
  {
    shape := [framesWritten];
    var k := 1;
    while k < |dims|
      invariant 1 <= k <= |dims|
      invariant |shape| == k && shape[0] == framesWritten
      invariant forall i :: 1 <= i < k ==> shape[i] == dims[|dims| - 1 - i].arraySizePx
    {
      shape := shape + [dims[|dims| - 1 - k].arraySizePx];
      k := k + 1;
    }
  }

  /** The chunk-shape or shard-shape vector, one push per dimension, in reverse. */
  method CollectReversed(dims: seq<Dimension>, axis: Axis) returns (sizes: seq<nat>)
    ensures sizes == ReversedAxis(dims, axis)
  {
    sizes := [];
    var k := 0;
    while k < |dims|
      invariant 0 <= k <= |dims|
      invariant |sizes| == k
      invariant forall i :: 0 <= i < k ==> sizes[i] == Extent(dims[|dims| - 1 - i], axis)
    {
      sizes := sizes + [Extent(dims[|dims| - 1 - k], axis)];
      k := k + 1;
    }
  }
}
