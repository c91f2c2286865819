/**
  The multiscale pyramid: the sequence of array configurations, finest
  first, that the coordinator allocates one writer for. The downsample
  policy is external; it maps a configuration to the next coarser one and a
  flag saying whether the loop goes on.
 */
module Pyramid {
  import opened ArrayConfigs

  /**
    The policy makes progress: whenever it asks for another round, the
    configuration it returns is smaller in `rank`. This is what makes the
    coordinator's downsampling loop end.
   */
  ghost predicate Progresses(downsample: ArrayConfig -> (ArrayConfig, bool), rank: ArrayConfig -> nat)
  {
    forall c :: downsample(c).1 ==> rank(downsample(c).0) < rank(c)
  }

  /**
    The configurations produced by calling the policy repeatedly from `c`
    until it answers false. Every call's configuration is kept, the one from
    the call that answered false included.
   */
  ghost function DownsampleChain(c: ArrayConfig, downsample: ArrayConfig -> (ArrayConfig, bool),
                                 rank: ArrayConfig -> nat): (chain: seq<ArrayConfig>)
    requires Progresses(downsample, rank)
    ensures 1 <= |chain|
    ensures downsample(c) == (chain[0], 1 < |chain|)
    ensures forall i :: 0 < i < |chain| ==> downsample(chain[i - 1]) == (chain[i], i < |chain| - 1)
    decreases rank(c)
  {
    var next := downsample(c);
    if next.1 then [next.0] + DownsampleChain(next.0, downsample, rank) else [next.0]
  }

  /**
    All levels: `base` alone without multiscale, otherwise `base` followed
    by its downsample chain.
   */
  ghost function Levels(base: ArrayConfig, multiscale: bool, downsample: ArrayConfig -> (ArrayConfig, bool),
                        rank: ArrayConfig -> nat): (levels: seq<ArrayConfig>)
    requires Progresses(downsample, rank)
    ensures 1 <= |levels| && levels[0] == base
    ensures !multiscale ==> |levels| == 1
    ensures multiscale ==> 2 <= |levels|
    ensures multiscale ==> forall i :: 0 < i < |levels| ==> downsample(levels[i - 1]) == (levels[i], i < |levels| - 1)
  {
    [base] + if multiscale then DownsampleChain(base, downsample, rank) else []
  }

  /**
    A policy that keeps the number of dimensions gives every level as many
    dimensions as the base, so every level's array metadata has a shape of
    that length.
   */
  lemma LevelsKeepDimensionCount(base: ArrayConfig, multiscale: bool, downsample: ArrayConfig -> (ArrayConfig, bool),
                                 rank: ArrayConfig -> nat)
    requires Progresses(downsample, rank)
    requires forall c :: |downsample(c).0.dimensions| == |c.dimensions|
    ensures var levels := Levels(base, multiscale, downsample, rank);
            forall i :: 0 <= i < |levels| ==> |levels[i].dimensions| == |base.dimensions|
  {
    var levels := Levels(base, multiscale, downsample, rank);
    forall i | 0 <= i < |levels|
      ensures |levels[i].dimensions| == |base.dimensions|
    {
      LevelDimensionCount(levels, base, multiscale, downsample, rank, i);
    }
  }

  lemma {:induction false} LevelDimensionCount(levels: seq<ArrayConfig>, base: ArrayConfig, multiscale: bool,
                                               downsample: ArrayConfig -> (ArrayConfig, bool),
                                               rank: ArrayConfig -> nat, i: nat)
    requires Progresses(downsample, rank)
    requires forall c :: |downsample(c).0.dimensions| == |c.dimensions|
    requires levels == Levels(base, multiscale, downsample, rank)
    requires i < |levels|
    ensures |levels[i].dimensions| == |base.dimensions|
  {
    if i > 0 {
      LevelDimensionCount(levels, base, multiscale, downsample, rank, i - 1);
      assert downsample(levels[i - 1]).0 == levels[i];
    }
  }
}
