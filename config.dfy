/**
  Value types the coordinator passes around: one axis of the acquisition,
  the compression parameters, the per-level array configuration and the
  view of a writer the coordinator needs.
 */
module ArrayConfigs {
  import opened Wrappers

  /** Index of the host's pixel sample type; its mapping to a Zarr data type is external. */
  type SampleType = nat

  /** Shape of one frame; the coordinator reads only its sample type. */
  datatype ImageShape = ImageShape(sampleType: SampleType)

  /**
    One acquisition axis. The coordinator's dimension list stores the
    innermost (fastest-varying) axis first and the append axis (frames) last.
   */
  datatype Dimension = Dimension(arraySizePx: nat, chunkSizePx: nat, shardSizeChunks: nat)

  /** Blosc codec name, compression level and shuffle mode. */
  datatype BloscParams = BloscParams(codecId: string, clevel: int, shuffle: int)

  /** Configuration of one array, i.e. of one pyramid level. */
  datatype ArrayConfig = ArrayConfig(
    imageShape: ImageShape,
    dimensions: seq<Dimension>,
    dataRoot: string,
    compression: Option<BloscParams>)

  /** A writer as the coordinator sees it: its configuration and how many frames it accepted. */
  datatype Writer = Writer(config: ArrayConfig, framesWritten: nat)
}
