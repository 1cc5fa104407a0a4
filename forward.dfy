/** The wiring of `SSD.forward`: which intermediate results become the pyramid
    sources, where the three gates of `sw_layers` are injected, how
    `ex_layers` fuse neighbouring sources, and which head reads which level.
    Tensors are not computed: a feature map is the term recording how it was
    obtained from the input, and the layers applied to it are named by their
    module list and index. The meaning of such a term is its shape, given by
    `ShapeOf` under the integer rules of module Layers. */
module Forward {
  import opened Results
  import opened Layers

  /** The module lists `forward` indexes into. */
  datatype Bank = VggBank | SwBank | ExtrasBank | ExBank | LocBank | ConfBank

  /** Operations applied outside the module lists; each keeps the shape. */
  datatype Op = L2Norm | Relu | Tanh

  /** A feature map, as the expression that computes it from the input image. */
  datatype Feat =
    | Input
    | Apply(bank: Bank, index: nat, arg: Feat)   // self.<bank>[index](arg)
    | Map(op: Op, arg: Feat)                     // L2Norm, F.relu, F.tanh
    | Add(left: Feat, right: Feat)               // elementwise `+`, with broadcasting

  /** What `forward` computes, before the detection stage: the sources, the
      fused pyramid `sources_ex`, and the head outputs in level order. */
  datatype Trace = Trace(sources: seq<Feat>, fused: seq<Feat>, loc: seq<Feat>, conf: seq<Feat>)

  /** `vgg[lo..hi)` applied in order to `x`. */
  function VggUpTo(lo: nat, hi: nat, x: Feat): Feat
    decreases hi
  {
    if hi <= lo then x else Apply(VggBank, hi - 1, VggUpTo(lo, hi - 1, x))
  }

  /** Gate `j`: `x + tanh(sw[2j+1](relu(sw[2j](x))))`. */
  function Gate(j: nat, x: Feat): Feat {
    Add(x, Map(Tanh, Apply(SwBank, 2 * j + 1, Map(Relu, Apply(SwBank, 2 * j, x)))))
  }

  /** The output of the ReLU after conv4_3: `vgg[0..23)` applied to the image `img`. */
  function Conv43(img: Feat): Feat {
    VggUpTo(0, 23, img)
  }

  /** The output of fc7 for a `vgg` list of `n` layers: the first gate is
      applied to conv4_3 and the rest of `vgg` to the gated map. */
  function Fc7(img: Feat, n: nat): Feat {
    VggUpTo(23, n, Gate(0, Conv43(img)))
  }

  /** One step of the extras loop: `relu(extras[k](x))`. */
  function ExtraStep(k: nat, x: Feat): Feat {
    Map(Relu, Apply(ExtrasBank, k, x))
  }

  /** `x` after `k` passes of the extras loop started from `x0` (fc7 with
      the second gate): each extra layer in turn, with the third gate right
      after layer 1, the first odd-position layer. */
  function ExtrasX(x0: Feat, k: nat): Feat
    decreases k
  {
    if k == 0 then x0
    else
      var y := ExtraStep(k - 1, ExtrasX(x0, k - 1));
      if k - 1 == 1 then Gate(2, y) else y
  }

  /** The source taken after extra layer `2i + 1`, before any gate. */
  function ExtraTap(x0: Feat, i: nat): Feat {
    ExtraStep(2 * i + 1, ExtrasX(x0, 2 * i + 1))
  }

  /** The sources the extras loop appends in `m` odd-position passes. */
  function ExtraSources(x0: Feat, m: nat): (r: seq<Feat>)
    ensures |r| == m
  {
    seq(m, i requires 0 <= i < m => ExtraTap(x0, i))
  }

  /** `sources` for the image `img`, a `vgg` list of `n` layers and an
      `extras` list of `e`. */
  function Sources(img: Feat, n: nat, e: nat): (r: seq<Feat>)
    ensures |r| == 2 + e / 2
  {
    [Map(L2Norm, Conv43(img)), Fc7(img, n)] + ExtraSources(Gate(1, Fc7(img, n)), e / 2)
  }

  /** A list with the given prefix and then the extra taps in order. */
  lemma SourcesExt(s: seq<Feat>, prefix: seq<Feat>, x0: Feat, m: nat)
    requires |s| == |prefix| + m && s[..|prefix|] == prefix
    requires forall i :: 0 <= i < m ==> s[|prefix| + i] == ExtraTap(x0, i)
    ensures s == prefix + ExtraSources(x0, m)
  {
    var t := prefix + ExtraSources(x0, m);
    forall i | 0 <= i < |s| ensures s[i] == t[i] {
      if i < |prefix| {
        assert s[i] == s[..|prefix|][i];
      }
    }
  }

  /** Level `k` of `sources_ex`: the extension chain (4k, 4k+1) on the coarser
      level plus the chain (4k+2, 4k+3) on level `k` itself. */
  function Fuse(k: nat, target: Feat, next: Feat): Feat {
    Add(Map(Relu, Apply(ExBank, 4 * k + 1, Map(Relu, Apply(ExBank, 4 * k, next)))),
        Map(Relu, Apply(ExBank, 4 * k + 3, Map(Relu, Apply(ExBank, 4 * k + 2, target)))))
  }

  /** `sources_ex`: four fused levels, then `sources[4..7)` as they are. */
  function Fused(src: seq<Feat>): (r: seq<Feat>)
    requires |src| >= 7
    ensures |r| == 7
  {
    seq(7, k requires 0 <= k < 7 => if k < 4 then Fuse(k, src[k], src[k + 1]) else src[k])
  }

  function Min(a: nat, b: nat): nat {
    if a <= b then a else b
  }

  /** What `forward` needs of the module lists to get past its subscripts:
      23 vgg layers, 6 gate layers, 7 sources (10 extra layers) and 16
      extension layers. */
  predicate Runs(net: Net) {
    |net.vgg| >= 23 && |net.sw| >= 6 && |net.extras| >= 10 && |net.ex| >= 16
  }

  /** The trace `forward` produces; `zip` stops at the shortest of the fused
      levels, `loc` and `conf`. */
  function ForwardSpec(net: Net, img: Feat): Trace
    requires Runs(net)
  {
    var src := Sources(img, |net.vgg|, |net.extras|);
    var f := Fused(src);
    var h := Min(7, Min(|net.loc|, |net.conf|));
    Trace(src, f, seq(h, j requires 0 <= j < h => Apply(LocBank, j, f[j])),
                  seq(h, j requires 0 <= j < h => Apply(ConfBank, j, f[j])))
  }

  /** `SSD.forward` up to the flattening of the head outputs, in the order
      the source runs it. Every subscript past the end of a list raises. */
  method Forward(net: Net, img: Feat) returns (r: Result<Trace>)
    ensures r.Ok? <==> Runs(net)
    ensures r.Err? ==> r.error == IndexOutOfRange
    ensures r.Ok? ==> r.value == ForwardSpec(net, img)
  {
    var b := Backbone(net, img);
    if b.Err? {
      return Err(b.error);
    }
    var sources := ExtrasPass(net, b.value);
    if sources.Err? {
      return Err(sources.error);
    }
    var fused := FusePass(net, sources.value);
    if fused.Err? {
      return Err(fused.error);
    }
    var loc, conf := HeadsPass(net, fused.value);
    return Ok(Trace(sources.value, fused.value, loc, conf));
  }

  /** The two sources taken from `vgg` and the map the extras start from. */
  datatype Stem = Stem(sources: seq<Feat>, x: Feat)

  /** `vgg` up to conv4_3, the first source, gate 0, the rest of `vgg`, the
      second source, gate 1. */
  method Backbone(net: Net, img: Feat) returns (r: Result<Stem>)
    ensures r.Ok? <==> |net.vgg| >= 23 && |net.sw| >= 4
    ensures r.Err? ==> r.error == IndexOutOfRange
    ensures r.Ok? ==> r.value == Stem([Map(L2Norm, Conv43(img)), Fc7(img, |net.vgg|)], Gate(1, Fc7(img, |net.vgg|)))
  {
    var n := |net.vgg|;
    var x := img;
    var k := 0;
    while k < 23
      invariant 0 <= k <= 23
      invariant k <= n
      invariant x == VggUpTo(0, k, img)
    {
      if k >= n {
        return Err(IndexOutOfRange);
      }
      x := Apply(VggBank, k, x);
      k := k + 1;
    }
    var sources := [Map(L2Norm, x)];
    if |net.sw| < 2 {
      return Err(IndexOutOfRange);
    }
    var xSw := Map(Relu, Apply(SwBank, 0, x));
    xSw := Map(Tanh, Apply(SwBank, 1, xSw));
    x := Add(x, xSw);

    k := 23;
    while k < n
      invariant 23 <= k <= n
      invariant x == VggUpTo(23, k, Gate(0, Conv43(img)))
    {
      x := Apply(VggBank, k, x);
      k := k + 1;
    }
    sources := sources + [x];
    if |net.sw| < 4 {
      return Err(IndexOutOfRange);
    }
    xSw := Map(Relu, Apply(SwBank, 2, x));
    xSw := Map(Tanh, Apply(SwBank, 3, xSw));
    x := Add(x, xSw);
    return Ok(Stem(sources, x));
  }

  /** The extras loop: a source after every odd-position layer, and gate 2
      after the first of them only (`sw_flag`). */
  method ExtrasPass(net: Net, stem: Stem) returns (r: Result<seq<Feat>>)
    ensures r.Ok? <==> |net.extras| < 2 || |net.sw| >= 6
    ensures r.Err? ==> r.error == IndexOutOfRange
    ensures r.Ok? ==> r.value == stem.sources + ExtraSources(stem.x, |net.extras| / 2)
  {
    var sources := stem.sources;
    var p := |sources|;
    var x := stem.x;
    var swFlag := true;
    var k := 0;
    while k < |net.extras|
      invariant 0 <= k <= |net.extras|
      invariant x == ExtrasX(stem.x, k)
      invariant swFlag <==> k <= 1
      invariant k >= 2 ==> |net.sw| >= 6
      invariant |sources| == p + k / 2 && sources[..p] == stem.sources
      invariant forall i :: 0 <= i < k / 2 ==> sources[p + i] == ExtraTap(stem.x, i)
    {
      x := ExtraStep(k, x);
      if k % 2 == 1 {
        assert x == ExtraTap(stem.x, k / 2);
        sources := sources + [x];
        if swFlag {
          if |net.sw| < 6 {
            return Err(IndexOutOfRange);
          }
          var xSw := Map(Relu, Apply(SwBank, 4, x));
          xSw := Map(Tanh, Apply(SwBank, 5, xSw));
          x := Add(x, xSw);
          swFlag := false;
        }
      }
      k := k + 1;
    }
    SourcesExt(sources, stem.sources, stem.x, |net.extras| / 2);
    return Ok(sources);
  }

  /** The fusion loop and the three levels copied after it. */
  method FusePass(net: Net, sources: seq<Feat>) returns (r: Result<seq<Feat>>)
    ensures r.Ok? <==> |sources| >= 7 && |net.ex| >= 16
    ensures r.Err? ==> r.error == IndexOutOfRange
    ensures r.Ok? ==> |sources| >= 7 && r.value == Fused(sources)
  {
    var sourcesEx := [];
    var k := 0;
    while k < 4
      invariant 0 <= k <= 4
      invariant k > 0 ==> |sources| >= k + 1 && |net.ex| >= 4 * k
      invariant |sourcesEx| == k
      invariant forall j :: 0 <= j < k ==> sourcesEx[j] == Fuse(j, sources[j], sources[j + 1])
    {
      if k + 1 >= |sources| || 4 * k + 3 >= |net.ex| {
        return Err(IndexOutOfRange);
      }
      var xNe := Map(Relu, Apply(ExBank, 4 * k, sources[k + 1]));
      xNe := Map(Relu, Apply(ExBank, 4 * k + 1, xNe));
      var xTar := Map(Relu, Apply(ExBank, 4 * k + 2, sources[k]));
      xTar := Map(Relu, Apply(ExBank, 4 * k + 3, xTar));
      sourcesEx := sourcesEx + [Add(xNe, xTar)];
      k := k + 1;
    }
    if |sources| < 7 {
      return Err(IndexOutOfRange);
    }
    sourcesEx := sourcesEx + [sources[4], sources[5], sources[6]];
    return Ok(sourcesEx);
  }

  /** The head loop over `zip(sources_ex, loc, conf)`. */
  method HeadsPass(net: Net, fused: seq<Feat>) returns (loc: seq<Feat>, conf: seq<Feat>)
    ensures |loc| == |conf| == Min(|fused|, Min(|net.loc|, |net.conf|))
    ensures forall j :: 0 <= j < |loc| ==> loc[j] == Apply(LocBank, j, fused[j])
    ensures forall j :: 0 <= j < |conf| ==> conf[j] == Apply(ConfBank, j, fused[j])
  {
    loc := [];
    conf := [];
    var k := 0;
    while k < |fused| && k < |net.loc| && k < |net.conf|
      invariant 0 <= k <= Min(|fused|, Min(|net.loc|, |net.conf|))
      invariant |loc| == |conf| == k
      invariant forall j :: 0 <= j < k ==> loc[j] == Apply(LocBank, j, fused[j])
      invariant forall j :: 0 <= j < k ==> conf[j] == Apply(ConfBank, j, fused[j])
    {
      loc := loc + [Apply(LocBank, k, fused[k])];
      conf := conf + [Apply(ConfBank, k, fused[k])];
      k := k + 1;
    }
  }

  /** The indices of `bank` whose layers `f` passes through. */
  function Used(bank: Bank, f: Feat): set<nat> {
    match f
    case Input => {}
    case Apply(b, i, a) => (if b == bank then {i} else {}) + Used(bank, a)
    case Map(_, a) => Used(bank, a)
    case Add(l, r) => Used(bank, l) + Used(bank, r)
  }

  /** Two layers of one bank, each followed by an elementwise map. */
  lemma UsedPair(bank: Bank, b: Bank, i: nat, j: nat, op1: Op, op2: Op, x: Feat)
    ensures Used(bank, Map(op2, Apply(b, j, Map(op1, Apply(b, i, x)))))
         == Used(bank, x) + (if bank == b then {i, j} else {})
  {
    var a := Apply(b, i, x);
    var c := Apply(b, j, Map(op1, a));
    assert Used(bank, a) == (if b == bank then {i} else {}) + Used(bank, x);
    assert Used(bank, Map(op1, a)) == Used(bank, a);
    assert Used(bank, c) == (if b == bank then {j} else {}) + Used(bank, Map(op1, a));
    assert Used(bank, Map(op2, c)) == Used(bank, c);
  }

  lemma UsedGate(bank: Bank, j: nat, x: Feat)
    ensures Used(bank, Gate(j, x)) == Used(bank, x) + (if bank == SwBank then {2 * j, 2 * j + 1} else {})
  {
    UsedPair(bank, SwBank, 2 * j, 2 * j + 1, Relu, Tanh, x);
  }

  lemma UsedFuse(bank: Bank, k: nat, target: Feat, next: Feat)
    ensures Used(bank, Fuse(k, target, next)) == Used(bank, target) + Used(bank, next)
      + (if bank == ExBank then {4 * k, 4 * k + 1, 4 * k + 2, 4 * k + 3} else {})
  {
    UsedPair(bank, ExBank, 4 * k, 4 * k + 1, Relu, Relu, next);
    UsedPair(bank, ExBank, 4 * k + 2, 4 * k + 3, Relu, Relu, target);
  }

  lemma {:induction false} UsedVgg(bank: Bank, lo: nat, hi: nat, x: Feat)
    requires lo <= hi
    ensures forall i: nat :: i in Used(bank, VggUpTo(lo, hi, x)) <==>
      i in Used(bank, x) || (bank == VggBank && lo <= i < hi)
    decreases hi
  {
    if lo < hi {
      UsedVgg(bank, lo, hi - 1, x);
    }
  }

  /** One pass of the extras loop adds extra layer `k - 1`, and gate (4, 5)
      after the pass over layer 1. */
  lemma UsedExtrasStep(bank: Bank, x0: Feat, k: nat)
    requires k >= 1
    ensures Used(bank, ExtrasX(x0, k)) == Used(bank, ExtrasX(x0, k - 1))
      + (if bank == ExtrasBank then {k - 1} else {})
      + (if bank == SwBank && k == 2 then {4, 5} else {})
  {
    var y := ExtraStep(k - 1, ExtrasX(x0, k - 1));
    assert Used(bank, y) == Used(bank, ExtrasX(x0, k - 1)) + (if bank == ExtrasBank then {k - 1} else {});
    if k - 1 == 1 {
      UsedGate(bank, 2, y);
    }
  }

  lemma {:induction false} UsedExtras(bank: Bank, x0: Feat, k: nat)
    ensures forall i: nat :: i in Used(bank, ExtrasX(x0, k)) <==>
      || i in Used(bank, x0)
      || (bank == ExtrasBank && i < k)
      || (bank == SwBank && k >= 2 && (i == 4 || i == 5))
    decreases k
  {
    if k == 0 {
      assert ExtrasX(x0, 0) == x0;
    } else {
      UsedExtras(bank, x0, k - 1);
      UsedExtrasStep(bank, x0, k);
    }
  }

  /** fc7 has passed all of `vgg` and gate (0, 1). */
  lemma UsedFc7(bank: Bank, img: Feat, n: nat)
    requires n >= 23
    ensures forall i: nat :: i in Used(bank, Fc7(img, n)) <==>
      || i in Used(bank, img)
      || (bank == VggBank && i < n)
      || (bank == SwBank && (i == 0 || i == 1))
  {
    var c := Conv43(img);
    var g := Gate(0, c);
    UsedVgg(bank, 0, 23, img);
    UsedGate(bank, 0, c);
    assert forall i: nat :: i in Used(bank, g) <==> i in Used(bank, c) || (bank == SwBank && (i == 0 || i == 1));
    UsedVgg(bank, 23, n, g);
  }

  /** The two sources taken from `vgg`, each before the gate that follows
      it: conv4_3 has passed `vgg[0..23)` and no gate; fc7 has passed all of
      `vgg` and gate (0, 1); neither has passed an extra layer. Stated for an
      image that has passed no layer. */
  lemma BackboneOrder(img: Feat, n: nat, e: nat)
    requires n >= 23
    requires forall b :: Used(b, img) == {}
    ensures forall i: nat :: i in Used(VggBank, Sources(img, n, e)[0]) <==> i < 23
    ensures forall i: nat :: i in Used(VggBank, Sources(img, n, e)[1]) <==> i < n
    ensures Used(SwBank, Sources(img, n, e)[0]) == {}
    ensures Used(SwBank, Sources(img, n, e)[1]) == {0, 1}
    ensures Used(ExtrasBank, Sources(img, n, e)[0]) == Used(ExtrasBank, Sources(img, n, e)[1]) == {}
  {
    var src := Sources(img, n, e);
    assert src[0] == Map(L2Norm, Conv43(img)) && src[1] == Fc7(img, n);
    Conv43Order(img);
    Fc7Order(img, n);
  }

  lemma Conv43Order(img: Feat)
    requires forall b :: Used(b, img) == {}
    ensures forall i: nat :: i in Used(VggBank, Conv43(img)) <==> i < 23
    ensures Used(SwBank, Conv43(img)) == Used(ExtrasBank, Conv43(img)) == {}
  {
    assert Used(VggBank, img) == Used(SwBank, img) == Used(ExtrasBank, img) == {};
    UsedVgg(VggBank, 0, 23, img);
    UsedVgg(SwBank, 0, 23, img);
    UsedVgg(ExtrasBank, 0, 23, img);
  }

  lemma Fc7Order(img: Feat, n: nat)
    requires n >= 23
    requires forall b :: Used(b, img) == {}
    ensures forall i: nat :: i in Used(VggBank, Fc7(img, n)) <==> i < n
    ensures Used(SwBank, Fc7(img, n)) == {0, 1}
    ensures Used(ExtrasBank, Fc7(img, n)) == {}
  {
    assert Used(VggBank, img) == Used(SwBank, img) == Used(ExtrasBank, img) == {};
    UsedFc7(VggBank, img, n);
    UsedFc7(SwBank, img, n);
    UsedFc7(ExtrasBank, img, n);
  }

  /** Source `2 + i` is tapped right after extra layer `2i + 1`; the first of
      them has passed gates (0, 1) and (2, 3) only, every later one all three.
      So the three gates are injected in order and each source is taken before
      the gate that follows it. */
  lemma InjectionOrder(img: Feat, n: nat, e: nat)
    requires n >= 23
    requires forall b :: Used(b, img) == {}
    ensures var src := Sources(img, n, e);
      forall i: nat, j: nat :: 2 <= i < |src| ==>
        && (j in Used(ExtrasBank, src[i]) <==> j < 2 * i - 2)
        && (j in Used(VggBank, src[i]) <==> j < n)
        && (j in Used(SwBank, src[i]) <==> j < (if i == 2 then 4 else 6))
  {
    var src := Sources(img, n, e);
    forall i: nat | 2 <= i < |src|
      ensures forall j: nat ::
        && (j in Used(ExtrasBank, src[i]) <==> j < 2 * i - 2)
        && (j in Used(VggBank, src[i]) <==> j < n)
        && (j in Used(SwBank, src[i]) <==> j < (if i == 2 then 4 else 6))
    {
      assert src[i] == ExtraTap(Gate(1, Fc7(img, n)), i - 2);
      TapOrder(img, n, i - 2);
    }
  }

  lemma TapOrder(img: Feat, n: nat, m: nat)
    requires n >= 23
    requires forall b :: Used(b, img) == {}
    ensures var t := ExtraTap(Gate(1, Fc7(img, n)), m);
      forall j: nat ::
        && (j in Used(ExtrasBank, t) <==> j <= 2 * m + 1)
        && (j in Used(VggBank, t) <==> j < n)
        && (j in Used(SwBank, t) <==> j < (if m == 0 then 4 else 6))
  {
    assert Used(VggBank, img) == Used(SwBank, img) == Used(ExtrasBank, img) == {};
    UsedTap(ExtrasBank, img, n, m);
    UsedTap(VggBank, img, n, m);
    UsedTap(SwBank, img, n, m);
  }

  /** The map the extras start from has passed all of `vgg` and gates
      (0, 1) and (2, 3). */
  lemma UsedStart(bank: Bank, img: Feat, n: nat)
    requires n >= 23
    ensures forall j: nat :: j in Used(bank, Gate(1, Fc7(img, n))) <==>
      || j in Used(bank, img)
      || (bank == VggBank && j < n)
      || (bank == SwBank && j < 4)
  {
    UsedFc7(bank, img, n);
    UsedGate(bank, 1, Fc7(img, n));
  }

  /** Source `2 + m` has passed extra layers 0 .. 2m+1 on top of the map the
      extras start from, and gate (4, 5) unless it is the first. */
  lemma UsedTapFrom(bank: Bank, x0: Feat, m: nat)
    ensures forall j: nat :: j in Used(bank, ExtraTap(x0, m)) <==>
      || j in Used(bank, x0)
      || (bank == ExtrasBank && j <= 2 * m + 1)
      || (bank == SwBank && m >= 1 && (j == 4 || j == 5))
  {
    UsedExtras(bank, x0, 2 * m + 1);
    assert Used(bank, ExtraTap(x0, m)) == Used(bank, ExtrasX(x0, 2 * m + 1)) + (if bank == ExtrasBank then {2 * m + 1} else {});
  }

  lemma UsedTap(bank: Bank, img: Feat, n: nat, m: nat)
    requires n >= 23
    ensures forall j: nat :: j in Used(bank, ExtraTap(Gate(1, Fc7(img, n)), m)) <==>
      || j in Used(bank, img)
      || (bank == VggBank && j < n)
      || (bank == SwBank && j < (if m == 0 then 4 else 6))
      || (bank == ExtrasBank && j <= 2 * m + 1)
  {
    UsedStart(bank, img, n);
    UsedTapFrom(bank, Gate(1, Fc7(img, n)), m);
  }

  /** Level `k < 4` of `sources_ex` passes through extension layers 4k .. 4k+3
      on top of what levels `k` and `k + 1` passed through; levels 4, 5, 6
      are `sources[4..7)` themselves. Each extension layer thus serves exactly
      one level. */
  lemma FusionLevels(src: seq<Feat>)
    requires |src| >= 7
    ensures forall k :: 0 <= k < 4 ==>
      Used(ExBank, Fused(src)[k]) == Used(ExBank, src[k]) + Used(ExBank, src[k + 1]) + {4 * k, 4 * k + 1, 4 * k + 2, 4 * k + 3}
    ensures forall k :: 4 <= k < 7 ==> Fused(src)[k] == src[k]
  {
    forall k | 0 <= k < 4
      ensures Used(ExBank, Fused(src)[k]) == Used(ExBank, src[k]) + Used(ExBank, src[k + 1]) + {4 * k, 4 * k + 1, 4 * k + 2, 4 * k + 3}
    {
      assert Fused(src)[k] == Fuse(k, src[k], src[k + 1]);
      UsedFuse(ExBank, k, src[k], src[k + 1]);
    }
  }
}
