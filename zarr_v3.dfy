/**
  The Zarr v3 dataset coordinator: it owns one writer per pyramid level,
  finest first, and produces the metadata documents together with the
  index of the metadata sink each one is written to.
 */
module Dataset {
  import opened Wrappers
  import opened Json
  import opened ArrayConfigs
  import opened Pyramid
  import opened Layout
  import opened Metadata

  /** A frame held back for a coarser level; the coordinator only ever stores "no frame". */
  datatype FrameRef = FrameRef(id: nat)

  /** A document and the index of the metadata sink it goes to. */
  datatype SinkWrite = SinkWrite(sink: nat, document: Json)

  /**
    The scaled-frame table after `emplace(l, no frame)` for l = 1 .. levels - 1:
    keys already present keep their value, new keys hold no frame.
   */
  function EmplaceNoFrames(frames: map<int, Option<FrameRef>>, levels: nat): (r: map<int, Option<FrameRef>>)
    ensures forall k :: k in r <==> k in frames || 1 <= k < levels
    ensures forall k :: k in frames ==> r[k] == frames[k]
    ensures forall k :: k in r && k !in frames ==> r[k] == None
  {
    if levels <= 1 then frames
    else
      var before := EmplaceNoFrames(frames, levels - 1);
      if levels - 1 in before then before else before[levels - 1 := None]
  }

  class ZarrV3 {
    var datasetRoot: string
    var imageShape: ImageShape
    var acquisitionDimensions: seq<Dimension>
    var compressionParams: Option<BloscParams>
    var enableMultiscale: bool
    var externalMetadataJson: string

    /** One writer per pyramid level, level 0 first. */
    var writers: seq<Writer>
    /** The pending downsampled frame of each level above 0. */
    var scaledFrames: map<int, Option<FrameRef>>

    /** A coordinator configured by the host, before any writer exists. */
    constructor (datasetRoot: string, imageShape: ImageShape, acquisitionDimensions: seq<Dimension>,
                 compressionParams: Option<BloscParams>, enableMultiscale: bool, externalMetadataJson: string)
      ensures this.datasetRoot == datasetRoot && this.imageShape == imageShape
      ensures this.acquisitionDimensions == acquisitionDimensions
      ensures this.compressionParams == compressionParams
      ensures this.enableMultiscale == enableMultiscale
      ensures this.externalMetadataJson == externalMetadataJson
      ensures writers == [] && scaledFrames == map[]
    {
      this.datasetRoot := datasetRoot;
      this.imageShape := imageShape;
      this.acquisitionDimensions := acquisitionDimensions;
      this.compressionParams := compressionParams;
      this.enableMultiscale := enableMultiscale;
      this.externalMetadataJson := externalMetadataJson;
      writers := [];
      scaledFrames := map[];
    }

    /** The full-resolution configuration: the acquisition's shape and dimensions under `data/root/0`. */
    function LevelZeroConfig(): ArrayConfig
      reads this
    {
      ArrayConfig(imageShape, acquisitionDimensions, LevelZeroDataRoot(datasetRoot), compressionParams)
    }

    /**
      Replaces the writers by one fresh writer per pyramid level. Without
      multiscale there is exactly one; with it, one more per call of the
      downsample policy, the call that answers false included. Every level
      above 0 gets an entry in the scaled-frame table; an existing entry is
      kept, a new one holds no frame.
     */
    method AllocateWriters(downsample: ArrayConfig -> (ArrayConfig, bool), ghost rank: ArrayConfig -> nat)
      requires Progresses(downsample, rank)
      modifies this`writers, this`scaledFrames
      ensures var levels := Levels(LevelZeroConfig(), enableMultiscale, downsample, rank);
              && |writers| == |levels|
              && forall i :: 0 <= i < |writers| ==> writers[i] == Writer(levels[i], 0)
      ensures scaledFrames == EmplaceNoFrames(old(scaledFrames), |writers|)
    {
      ghost var levels := Levels(LevelZeroConfig(), enableMultiscale, downsample, rank);
      writers := [];
      var config := LevelZeroConfig();
      writers := writers + [Writer(config, 0)];
      if enableMultiscale {
        var doDownsample := true;
        var level := 1;
        while doDownsample
          invariant 1 <= level == |writers| <= |levels|
          invariant forall i :: 0 <= i < |writers| ==> writers[i] == Writer(levels[i], 0)
          invariant config == levels[|writers| - 1]
          invariant doDownsample ==> |writers| < |levels|
          invariant !doDownsample ==> |writers| == |levels|
          invariant scaledFrames == EmplaceNoFrames(old(scaledFrames), level)
          decreases if doDownsample then rank(config) + 1 else 0
        {
          var next := downsample(config);
          assert next == (levels[level], level < |levels| - 1);
          doDownsample := next.1;
          writers := writers + [Writer(next.0, 0)];
          if level !in scaledFrames {
            scaledFrames := scaledFrames[level := None];
          }
          level := level + 1;
          config := next.0;
        }
      }
    }

    /** The metadata sink paths, built as the coordinator builds them, one array document per writer. */
    method MakeMetadataSinkPaths() returns (paths: seq<string>)
      ensures paths == MetadataSinkPaths(datasetRoot, |writers|)
    {
      paths := [BaseMetadataPath(datasetRoot), GroupMetadataPath(datasetRoot)];
      var i := 0;
      while i < |writers|
        invariant 0 <= i <= |writers|
        invariant paths == [BaseMetadataPath(datasetRoot), GroupMetadataPath(datasetRoot)] + ArrayMetadataPaths(datasetRoot, i)
      {
        paths := paths + [ArrayMetadataPath(datasetRoot, i)];
        i := i + 1;
      }
    }

    /** The top-level document, written to the sink at `<root>/zarr.json`. */
    method WriteBaseMetadata() returns (w: SinkWrite)
      ensures w.document == BaseMetadata()
      ensures w.sink < |MetadataSinkPaths(datasetRoot, |writers|)|
      ensures MetadataSinkPaths(datasetRoot, |writers|)[w.sink] == BaseMetadataPath(datasetRoot)
    {
      MetadataSinkLayout(datasetRoot, |writers|);
      w := SinkWrite(BaseSink, BaseMetadata());
    }

    /**
      The group document, written to the sink at `<root>/meta/root.group.json`,
      or an error, and then nothing is written, when the external metadata
      does not parse.
     */
    method WriteGroupMetadata(parse: string -> Option<Json>) returns (r: Result<SinkWrite, MetadataError>)
      ensures r.Success? <==> externalMetadataJson == "" || parse(externalMetadataJson).Some?
      ensures r.Failure? ==> r.error == InvalidExternalMetadata(externalMetadataJson)
      ensures r.Success? ==>
                && r.value.document == GroupMetadata(externalMetadataJson, parse).value
                && r.value.sink < |MetadataSinkPaths(datasetRoot, |writers|)|
                && MetadataSinkPaths(datasetRoot, |writers|)[r.value.sink] == GroupMetadataPath(datasetRoot)
    {
      MetadataSinkLayout(datasetRoot, |writers|);
      match GroupMetadata(externalMetadataJson, parse)
      case Success(doc) => r := Success(SinkWrite(GroupSink, doc));
      case Failure(e) => r := Failure(e);
    }

    /**
      The array document of `level`, written to the sink at
      `<root>/meta/root/<level>.array.json`, which is sink 2 + level.
     */
    method WriteArrayMetadata(level: nat, dataTypeOf: SampleType -> string) returns (w: SinkWrite)
      requires level < |writers|
      requires 0 < |writers[level].config.dimensions|
      ensures w.sink == ArraySink(level)
      ensures w.document == ArrayMetadata(writers[level], dataTypeOf)
      ensures w.sink < |MetadataSinkPaths(datasetRoot, |writers|)|
      ensures MetadataSinkPaths(datasetRoot, |writers|)[w.sink] == ArrayMetadataPath(datasetRoot, level)
    {
      var writer := writers[level];
      var config := writer.config;
      var shape := CollectArrayShape(writer.framesWritten, config.dimensions);
      var chunkShape := CollectReversed(config.dimensions, ChunkSize);
      var shardShape := CollectReversed(config.dimensions, ShardSize);
      var doc := ArrayDocument(dataTypeOf(config.imageShape.sampleType), shape, chunkShape, shardShape,
                               config.compression);
      MetadataSinkLayout(datasetRoot, |writers|);
      w := SinkWrite(ArraySink(level), doc);
    }
  }
}
