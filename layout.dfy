/**
  On-disk layout of a Zarr v3 dataset and the ordered list of metadata
  sinks: sink 0 is the top-level document, sink 1 the group document and
  sink 2 + l the array document of level l. Joining a directory and a name
  is concatenation with "/".
 */
module Layout {
  import opened Decimal

  function Join(dir: string, name: string): string
  {
    dir + "/" + name
  }

  /** `<root>/zarr.json` */
  function BaseMetadataPath(root: string): string
  {
    Join(root, "zarr.json")
  }

  /** `<root>/meta/root.group.json` */
  function GroupMetadataPath(root: string): string
  {
    Join(Join(root, "meta"), "root.group.json")
  }

  /** `<root>/meta/root/<level>.array.json` */
  function ArrayMetadataPath(root: string, level: nat): string
  {
    Join(Join(Join(root, "meta"), "root"), NatToDecimal(level) + ".array.json")
  }

  /** `<root>/data/root/0`, the data root of the full-resolution array. */
  function LevelZeroDataRoot(root: string): string
  {
    Join(Join(Join(root, "data"), "root"), "0")
  }

  const BaseSink: nat := 0
  const GroupSink: nat := 1

  function ArraySink(level: nat): nat
  {
    2 + level
  }

  /** The array document paths of levels 0 .. levels - 1, in level order. */
  function ArrayMetadataPaths(root: string, levels: nat): (paths: seq<string>)
    ensures |paths| == levels
  {
    if levels == 0 then [] else ArrayMetadataPaths(root, levels - 1) + [ArrayMetadataPath(root, levels - 1)]
  }

  /** The metadata sink paths of a dataset with `levels` pyramid levels. */
  function MetadataSinkPaths(root: string, levels: nat): seq<string>
  {
    [BaseMetadataPath(root), GroupMetadataPath(root)] + ArrayMetadataPaths(root, levels)
  }

  lemma {:induction false} ArrayMetadataPathsAt(root: string, levels: nat, level: nat)
    requires level < levels
    ensures ArrayMetadataPaths(root, levels)[level] == ArrayMetadataPath(root, level)
  {
    if level < levels - 1 {
      ArrayMetadataPathsAt(root, levels - 1, level);
    }
  }

  /**
    There are 2 + levels sinks: the top-level document, the group document,
    then one array document per level, in level order, so the sink index a
    level's document is written to always exists and is never 0 or 1.
   */
  lemma MetadataSinkLayout(root: string, levels: nat)
    ensures var paths := MetadataSinkPaths(root, levels);
            && |paths| == 2 + levels
            && paths[BaseSink] == BaseMetadataPath(root)
            && paths[GroupSink] == GroupMetadataPath(root)
            && forall level :: 0 <= level < levels ==>
                 ArraySink(level) != BaseSink && ArraySink(level) != GroupSink
                 && ArraySink(level) < |paths| && paths[ArraySink(level)] == ArrayMetadataPath(root, level)
  {
    var paths := MetadataSinkPaths(root, levels);
    forall level | 0 <= level < levels
      ensures paths[ArraySink(level)] == ArrayMetadataPath(root, level)
    {
      ArrayMetadataPathsAt(root, levels, level);
    }
  }

  lemma ArrayMetadataPathInjective(root: string, i: nat, j: nat)
    requires ArrayMetadataPath(root, i) == ArrayMetadataPath(root, j)
    ensures i == j
  {
    var prefix := root + "/meta/root/";
    var a, b := NatToDecimal(i), NatToDecimal(j);
    assert ArrayMetadataPath(root, i) == prefix + a + ".array.json";
    assert ArrayMetadataPath(root, j) == prefix + b + ".array.json";
    assert |a| == |b|;
    assert a == ArrayMetadataPath(root, i)[|prefix|..|prefix| + |a|];
    assert b == ArrayMetadataPath(root, j)[|prefix|..|prefix| + |b|];
    NatToDecimalInjective(i, j);
  }

  /** No two metadata sinks share a path, so no document overwrites another. */
  lemma MetadataSinkPathsDistinct(root: string, levels: nat)
    ensures var paths := MetadataSinkPaths(root, levels);
            forall i, j :: 0 <= i < j < |paths| ==> paths[i] != paths[j]
  {
    var paths := MetadataSinkPaths(root, levels);
    var n := |root|;
    assert BaseMetadataPath(root)[n + 1] == 'z';
    assert GroupMetadataPath(root)[n + 1] == 'm';
    assert GroupMetadataPath(root)[n + 10] == '.';
    forall i, j | 0 <= i < j < |paths|
      ensures paths[i] != paths[j]
    {
      if 2 <= i {
        ArrayMetadataPathsAt(root, levels, i - 2);
        ArrayMetadataPathsAt(root, levels, j - 2);
        if paths[i] == paths[j] {
          ArrayMetadataPathInjective(root, i - 2, j - 2);
        }
      } else if 2 <= j {
        ArrayMetadataPathsAt(root, levels, j - 2);
        var p := ArrayMetadataPath(root, j - 2);
        assert p[n + 1] == 'm' && p[n + 10] == '/';
      }
    }
  }
}
