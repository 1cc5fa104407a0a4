/** The preset dictionary `v` of data/config.py. Each preset describes, level by
    level, the feature-map resolutions the network is expected to produce and
    the box scales and aspect ratios of the default boxes laid on them. */
module Config {

  /** A preset: the square ones ('512', '300') have one resolution per level,
      the wide ones ('1024', '1025') a width and a height. The `variance`
      floats are not kept. Aspect ratios are all integers in every preset. */
  datatype Preset =
    | Square(featureMaps: seq<nat>, deconvFeatureMaps: seq<nat>, minDim: nat, steps: seq<nat>,
             minSizes: seq<nat>, maxSizes: seq<nat>, aspectRatios: seq<seq<nat>>,
             clip: bool, name: string)
    | Wide(featureMapsW: seq<nat>, featureMapsH: seq<nat>, minDimW: nat, minDimH: nat,
           stepsW: seq<nat>, stepsH: seq<nat>, minSizes: seq<nat>, maxSizes: seq<nat>,
           aspectRatios: seq<seq<nat>>, clip: bool, name: string)

  const V512: Preset := Square(
    [64, 32, 16, 8, 4, 2, 1], [64, 64, 32, 16, 8, 4, 1], 512, [8, 16, 32, 64, 128, 256, 512],
    [20, 51, 133, 215, 296, 378, 460], [51, 133, 215, 296, 378, 460, 542],
    [[2], [2, 3], [2, 3], [2, 3], [2, 3], [2], [2]], true, "v2_512")

  const V300: Preset := Square(
    [38, 19, 10, 5, 3, 1], [38, 38, 19, 10, 5, 1], 300, [8, 16, 32, 64, 100, 300],
    [30, 60, 111, 162, 213, 264], [60, 111, 162, 213, 264, 315],
    [[2], [2, 3], [2, 3], [2, 3], [2], [2]], true, "v2_300")

  const V1024: Preset := Wide(
    [128, 64, 32, 16, 8, 4, 3], [52, 26, 13, 7, 4, 2, 1], 1024, 418,
    [16, 32, 64, 128, 256, 512, 1024], [6, 13, 26, 52, 104, 209, 418],
    [20, 41, 113, 185, 256, 328, 400], [41, 113, 185, 256, 328, 400, 472],
    [[2], [2], [2], [2], [2], [2], [2]], true, "v2_1024")

  /** '1025' differs from '1024' only in its aspect ratios (and keeps its name). */
  const V1025: Preset := Wide(
    [128, 64, 32, 16, 8, 4, 3], [52, 26, 13, 7, 4, 2, 1], 1024, 418,
    [16, 32, 64, 128, 256, 512, 1024], [6, 13, 26, 52, 104, 209, 418],
    [20, 41, 113, 185, 256, 328, 400], [41, 113, 185, 256, 328, 400, 472],
    [[2], [2, 3], [2, 3], [2, 3], [2, 3], [2], [2]], true, "v2_1024")

  /** The dictionary `v`, keyed by the size as decimal text. */
  const V: map<string, Preset> := map["512" := V512, "300" := V300, "1024" := V1024, "1025" := V1025]

  /** The integer per-level lists of a preset. */
  function LevelLists(p: Preset): seq<seq<nat>> {
    match p
    case Square(fm, dfm, _, st, mn, mx, _, _, _) => [fm, dfm, st, mn, mx]
    case Wide(fmW, fmH, _, _, stW, stH, mn, mx, _, _, _) => [fmW, fmH, stW, stH, mn, mx]
  }

  /** Every per-level list of `p`, aspect ratios included, has `n` entries. */
  predicate Uniform(p: Preset, n: nat) {
    var lists := LevelLists(p);
    |p.aspectRatios| == n && forall k :: 0 <= k < |lists| ==> |lists[k]| == n
  }

  /** The box scales of consecutive levels chain: each level's range is
      non-empty and starts where the previous one ends. */
  predicate ScalesChain(mins: seq<nat>, maxs: seq<nat>) {
    |mins| == |maxs| &&
    (forall i :: 0 <= i < |mins| ==> mins[i] < maxs[i]) &&
    (forall i :: 0 <= i < |mins| - 1 ==> maxs[i] == mins[i + 1])
  }

  /** The feature maps halve from each of the first `n` levels to the next. */
  predicate Halving(fm: seq<nat>, n: nat) {
    n < |fm| && forall k :: 0 <= k < n ==> fm[k] == 2 * fm[k + 1]
  }

  /** `deconv_feature_maps` is `feature_maps` shifted one level down, with its
      first entry repeated and a final 1 (the last level is never deconvolved). */
  predicate DeconvShifted(fm: seq<nat>, dfm: seq<nat>) {
    |dfm| == |fm| >= 2 && dfm[0] == fm[0] && dfm[|fm| - 1] == 1 &&
    forall i :: 1 <= i < |fm| - 1 ==> dfm[i] == fm[i - 1]
  }

  /** Default boxes per cell for one level: the two square boxes and a pair per
      extra aspect ratio. */
  function BoxesPerCell(ar: seq<nat>): nat {
    2 + 2 * |ar|
  }

  /** Chained scales grow strictly: any later level's range starts at or above
      the end of every earlier one, so no two levels share a scale range. */
  lemma {:induction false} ScalesIncrease(mins: seq<nat>, maxs: seq<nat>, i: nat, j: nat)
    requires ScalesChain(mins, maxs)
    requires i < j < |mins|
    ensures maxs[i] <= mins[j] && mins[i] < mins[j] && maxs[i] < maxs[j]
    decreases j - i
  {
    if i + 1 < j {
      ScalesIncrease(mins, maxs, i + 1, j);
    }
  }

  /** Every preset's lists agree in length: 7 levels for '512', '1024' and
      '1025', 6 for '300'. */
  lemma PresetsUniform()
    ensures V.Keys == {"512", "300", "1024", "1025"}
    ensures Uniform(V["512"], 7) && Uniform(V["300"], 6)
    ensures Uniform(V["1024"], 7) && Uniform(V["1025"], 7)
  {
    assert V["512"] == V512 && V["300"] == V300 && V["1024"] == V1024 && V["1025"] == V1025;
    assert Uniform(V512, 7);
    assert Uniform(V300, 6);
    assert Uniform(V1024, 7);
    assert Uniform(V1025, 7);
  }

  /** In every preset the box scales chain from level to level. */
  lemma PresetsChainScales()
    ensures forall key :: key in V ==> ScalesChain(V[key].minSizes, V[key].maxSizes)
  {
    SquareScalesChain();
    WideScalesChain();
    assert V["512"] == V512 && V["300"] == V300 && V["1024"] == V1024 && V["1025"] == V1025;
  }

  lemma SquareScalesChain()
    ensures ScalesChain(V512.minSizes, V512.maxSizes) && ScalesChain(V300.minSizes, V300.maxSizes)
  {
  }

  lemma WideScalesChain()
    ensures ScalesChain(V1024.minSizes, V1024.maxSizes) && ScalesChain(V1025.minSizes, V1025.maxSizes)
  {
    assert V1025.minSizes == V1024.minSizes && V1025.maxSizes == V1024.maxSizes;
  }

  /** In '512' every level's step times its resolution is the input size, and
      the first four levels halve, as the k2/s2 transpose convolutions of the
      fusion need. In '300' the halving fails at level 1: 19 is not twice 10. */
  lemma PresetResolutions()
    ensures forall i :: 0 <= i < 7 ==> V512.steps[i] * V512.featureMaps[i] == V512.minDim
    ensures Halving(V512.featureMaps, 4)
    ensures V300.featureMaps[1] != 2 * V300.featureMaps[2]
    ensures !Halving(V300.featureMaps, 4)
  {
  }

  /** Both square presets shift their feature maps into `deconv_feature_maps`. */
  lemma PresetsDeconv()
    ensures DeconvShifted(V512.featureMaps, V512.deconvFeatureMaps)
    ensures DeconvShifted(V300.featureMaps, V300.deconvFeatureMaps)
  {
  }
}
