/** The networks `build_ssd` makes for sizes 512 and 300, run on shapes: the
    resolutions of the sources `forward` collects, checked against the
    `feature_maps` of the matching preset, and the shapes of the fused levels
    and the head outputs. */
module CrossCheck {
  import opened Results
  import opened Layers
  import opened Builders
  import opened Tables
  import opened Forward
  import opened FeatShapes
  import opened Config
  import HeadFlatten

  /** A list runs through a chain of shapes when each layer maps each shape to
      the next. */
  lemma {:induction false} RunThrough(layers: seq<Layer>, ss: seq<Shape>)
    requires |ss| == |layers| + 1
    requires forall i :: 0 <= i < |layers| ==> ApplyLayer(layers[i], ss[i]) == Some(ss[i + 1])
    ensures Run(layers, ss[0]) == Some(ss[|layers|])
    decreases |layers|
  {
    if layers != [] {
      forall i | 0 <= i < |layers| - 1
        ensures ApplyLayer(layers[1..][i], ss[1..][i]) == Some(ss[1..][i + 1])
      {
        assert layers[1..][i] == layers[i + 1];
      }
      RunThrough(layers[1..], ss[1..]);
    }
  }

  /** Two 3x3 conv+ReLU blocks and a k2/s2 max-pool: conv1 and conv2. */
  lemma TwoConvStage(a: nat, b: nat, h: nat, w: nat)
    requires h >= 2 && w >= 2
    ensures Run([Conv(a, b, 3, 1, 1, 1), ReLU, Conv(b, b, 3, 1, 1, 1), ReLU, MaxPool(2, 2, 0, false)],
                Shape(a, h, w)) == Some(Shape(b, h / 2, w / 2))
  {
    SamePaddingKeepsSize(Shape(a, h, w), b, 3, 1, 1);
    SamePaddingKeepsSize(Shape(b, h, w), b, 3, 1, 1);
    HalvingPool(Shape(b, h, w), false);
    var t := Shape(b, h, w);
    RunThrough([Conv(a, b, 3, 1, 1, 1), ReLU, Conv(b, b, 3, 1, 1, 1), ReLU, MaxPool(2, 2, 0, false)],
               [Shape(a, h, w), t, t, t, t, Shape(b, h / 2, w / 2)]);
  }

  /** Three 3x3 conv+ReLU blocks: conv3, conv4 and conv5 before their pools. */
  lemma ThreeConvStage(a: nat, b: nat, h: nat, w: nat)
    requires h > 0 && w > 0
    ensures Run([Conv(a, b, 3, 1, 1, 1), ReLU, Conv(b, b, 3, 1, 1, 1), ReLU, Conv(b, b, 3, 1, 1, 1), ReLU],
                Shape(a, h, w)) == Some(Shape(b, h, w))
  {
    SamePaddingKeepsSize(Shape(a, h, w), b, 3, 1, 1);
    SamePaddingKeepsSize(Shape(b, h, w), b, 3, 1, 1);
    var t := Shape(b, h, w);
    RunThrough([Conv(a, b, 3, 1, 1, 1), ReLU, Conv(b, b, 3, 1, 1, 1), ReLU, Conv(b, b, 3, 1, 1, 1), ReLU],
               [Shape(a, h, w), t, t, t, t, t, t]);
  }

  /** The side of conv4_3 for an input side `n`: halved twice, then halved
      rounding up by the 'C' pool. */
  function Conv43Side(n: nat): nat {
    (n / 2 / 2 + 1) / 2
  }

  /** conv3 with its 'C' pool, which rounds an odd side up. */
  lemma Conv3Stage(h: nat, w: nat)
    requires h >= 1 && w >= 1
    ensures Run(Conv3, Shape(128, h, w)) == Some(Shape(256, (h + 1) / 2, (w + 1) / 2))
  {
    var c3 := [Conv(128, 256, 3, 1, 1, 1), ReLU, Conv(256, 256, 3, 1, 1, 1), ReLU,
               Conv(256, 256, 3, 1, 1, 1), ReLU];
    var pool := MaxPool(2, 2, 0, true);
    assert Conv3 == c3 + [pool];
    ThreeConvStage(128, 256, h, w);
    CeilPoolRun(256, h, w);
    RunAppend(c3, [pool], Shape(128, h, w));
  }

  /** The 'C' pool alone: each side is halved, rounding up. */
  lemma CeilPoolRun(c: nat, h: nat, w: nat)
    requires h >= 1 && w >= 1
    ensures Run([MaxPool(2, 2, 0, true)], Shape(c, h, w)) == Some(Shape(c, (h + 1) / 2, (w + 1) / 2))
  {
    HalvingPool(Shape(c, h, w), true);
  }

  /** The first 23 layers are conv1, conv2, conv3 and conv4 without its pool. */
  lemma VggFrontLayers()
    ensures SsdVgg[..23] == Conv1 + Conv2 + Conv3 + Conv4[..6]
  {
    assert |Conv1 + Conv2 + Conv3| == 17;
  }

  /** `vgg[0..23)`, up to the ReLU after conv4_3, takes a 3-channel image of side
      at least 12 to 512 channels at `Conv43Side`. */
  lemma VggFront(h: nat, w: nat)
    requires h >= 12 && w >= 12
    ensures Run(SsdVgg[..23], Shape(3, h, w)) == Some(Shape(512, Conv43Side(h), Conv43Side(w)))
  {
    VggFrontLayers();
    var c4 := Conv4[..6];
    assert c4 == [Conv(256, 512, 3, 1, 1, 1), ReLU, Conv(512, 512, 3, 1, 1, 1), ReLU,
                  Conv(512, 512, 3, 1, 1, 1), ReLU];
    var h1, w1 := h / 2, w / 2;
    var h2, w2 := h1 / 2, w1 / 2;
    assert h1 >= 6 && w1 >= 6 && h2 >= 3 && w2 >= 3;
    var h3, w3 := (h2 + 1) / 2, (w2 + 1) / 2;
    assert h3 == Conv43Side(h) && w3 == Conv43Side(w);
    var s0 := Shape(3, h, w);
    TwoConvStage(3, 64, h, w);
    TwoConvStage(64, 128, h1, w1);
    Conv3Stage(h2, w2);
    ThreeConvStage(256, 512, h3, w3);
    RunAppend(Conv1, Conv2, s0);
    assert Run(Conv1 + Conv2, s0) == Some(Shape(128, h2, w2));
    RunAppend(Conv1 + Conv2, Conv3, s0);
    assert Run(Conv1 + Conv2 + Conv3, s0) == Some(Shape(256, h3, w3));
    RunAppend(Conv1 + Conv2 + Conv3, c4, s0);
  }

  /** pool5, conv6 and conv7 keep the side and widen 512 channels to 1024. */
  lemma TailStage(h: nat, w: nat)
    requires h > 0 && w > 0
    ensures Run(VggTail(), Shape(512, h, w)) == Some(Shape(1024, h, w))
  {
    var t, u := Shape(512, h, w), Shape(1024, h, w);
    assert ApplyLayer(MaxPool(3, 1, 1, false), t) == Some(t);
    SamePaddingKeepsSize(t, 1024, 3, 6, 6);
    SamePaddingKeepsSize(u, 1024, 1, 0, 1);
    RunThrough(VggTail(), [t, t, u, u, u, u]);
  }

  /** The layers after conv4_3's ReLU are pool4, conv5 and the fixed tail. */
  lemma VggBackLayers()
    ensures SsdVgg[23..] == [MaxPool(2, 2, 0, false)] + Conv5 + VggTail()
  {
    assert |Conv1 + Conv2 + Conv3| == 17;
    assert Conv4 == Conv4[..6] + [MaxPool(2, 2, 0, false)];
  }

  /** `vgg[23..]` takes conv4_3's map to fc7: pool4 halves the side, the rest
      keeps it, and the channels grow to 1024. */
  lemma VggBack(h: nat, w: nat)
    requires h >= 2 && w >= 2
    ensures Run(SsdVgg[23..], Shape(512, h, w)) == Some(Shape(1024, h / 2, w / 2))
  {
    VggBackLayers();
    var t := Shape(512, h / 2, w / 2);
    HalvingPool(Shape(512, h, w), false);
    RunOne(MaxPool(2, 2, 0, false), Shape(512, h, w));
    assert Conv5 == [Conv(512, 512, 3, 1, 1, 1), ReLU, Conv(512, 512, 3, 1, 1, 1), ReLU,
                     Conv(512, 512, 3, 1, 1, 1), ReLU];
    ThreeConvStage(512, 512, h / 2, w / 2);
    TailStage(h / 2, w / 2);
    RunAppend([MaxPool(2, 2, 0, false)], Conv5, Shape(512, h, w));
    RunAppend([MaxPool(2, 2, 0, false)] + Conv5, VggTail(), Shape(512, h, w));
  }

  /** The gate layers in `sw_layers`: pairs (0, 1), (2, 3) and (4, 5) are the
      side modules for 512, 1024 and 512 channels. */
  lemma SwPairs()
    ensures |SwTable()| == 6
    ensures SwTable()[0..2] == SwModules(512)
    ensures SwTable()[2..4] == SwModules(1024)
    ensures SwTable()[4..6] == SwModules(512)
  {
  }

  /** The stem of `forward` on a `build_ssd` net for an image of side `n`:
      conv4_3 has 512 channels at `Conv43Side(n)`, fc7 1024 channels at half
      that, and each gate keeps the map it is applied to. */
  lemma StemShapes(net: Net, img: Feat, s: Shape, n: nat)
    requires net.vgg == SsdVgg && net.sw == SwTable()
    requires n >= 16 && ShapeOf(net, img, s) == Some(Shape(3, n, n))
    ensures ShapeOf(net, Conv43(img), s) == Some(Shape(512, Conv43Side(n), Conv43Side(n)))
    ensures ShapeOf(net, Fc7(img, |net.vgg|), s) == Some(Shape(1024, Conv43Side(n) / 2, Conv43Side(n) / 2))
    ensures ShapeOf(net, Gate(1, Fc7(img, |net.vgg|)), s)
         == Some(Shape(1024, Conv43Side(n) / 2, Conv43Side(n) / 2))
  {
    VggTaps();
    SwPairs();
    var c := Conv43Side(n);
    assert c >= 2;
    assert net.vgg[0..23] == SsdVgg[..23];
    assert net.vgg[23..|net.vgg|] == SsdVgg[23..];
    ShapeVgg(net, 0, 23, img, s);
    VggFront(n, n);
    GateKeepsShape(net, 0, Conv43(img), s, 512, c, c);
    ShapeVgg(net, 23, |net.vgg|, Gate(0, Conv43(img)), s);
    VggBack(c, c);
    GateKeepsShape(net, 1, Fc7(img, |net.vgg|), s, 1024, c / 2, c / 2);
  }

  /** The extras loop runs through a chain of shapes `xs`, one per layer
      boundary, when each extra layer maps each shape to the next and the
      third gate fits the map it is applied to. */
  lemma {:induction false} ExtrasShapes(net: Net, x0: Feat, s: Shape, xs: seq<Shape>, k: nat)
    requires 3 <= |xs| <= |net.extras| + 1 && k < |xs|
    requires ShapeOf(net, x0, s) == Some(xs[0])
    requires forall i :: 0 <= i < |xs| - 1 ==> ApplyLayer(net.extras[i], xs[i]) == Some(xs[i + 1])
    requires 6 <= |net.sw| && net.sw[4..6] == SwModules(xs[2].c) && xs[2].h > 0 && xs[2].w > 0
    ensures ShapeOf(net, ExtrasX(x0, k), s) == Some(xs[k])
    decreases k
  {
    if k > 0 {
      ExtrasShapes(net, x0, s, xs, k - 1);
      var y := ExtraStep(k - 1, ExtrasX(x0, k - 1));
      assert ShapeOf(net, y, s) == Some(xs[k]);
      if k - 1 == 1 {
        GateKeepsShape(net, 2, y, s, xs[2].c, xs[2].h, xs[2].w);
      }
    }
  }

  /** Extra source `i` has the shape after layer `2i + 1`. */
  lemma TapShape(net: Net, x0: Feat, s: Shape, xs: seq<Shape>, i: nat)
    requires 3 <= |xs| <= |net.extras| + 1 && 2 * i + 2 < |xs|
    requires ShapeOf(net, x0, s) == Some(xs[0])
    requires forall i :: 0 <= i < |xs| - 1 ==> ApplyLayer(net.extras[i], xs[i]) == Some(xs[i + 1])
    requires 6 <= |net.sw| && net.sw[4..6] == SwModules(xs[2].c) && xs[2].h > 0 && xs[2].w > 0
    ensures ShapeOf(net, ExtraTap(x0, i), s) == Some(xs[2 * i + 2])
  {
    ExtrasShapes(net, x0, s, xs, 2 * i + 1);
  }

  /** The shapes between the extra layers of the 512 net, from fc7 on. */
  const ExtraShapes512: seq<Shape> := [
    Shape(1024, 32, 32), Shape(256, 32, 32), Shape(512, 16, 16), Shape(128, 16, 16),
    Shape(256, 8, 8), Shape(128, 8, 8), Shape(256, 4, 4), Shape(128, 4, 4),
    Shape(256, 2, 2), Shape(128, 2, 2), Shape(256, 1, 1)
  ]

  /** The shapes between the extra layers of the 300 net, from fc7 on. */
  const ExtraShapes300: seq<Shape> := [
    Shape(1024, 19, 19), Shape(256, 19, 19), Shape(512, 10, 10), Shape(128, 10, 10),
    Shape(256, 5, 5), Shape(128, 5, 5), Shape(256, 3, 3), Shape(128, 3, 3), Shape(256, 1, 1)
  ]

  /** A stride-1 convolution shrinks each side by the kernel less twice the
      padding, less one. */
  lemma StrideOneConv(s: Shape, outC: nat, k: nat, p: nat)
    requires k > 0 && s.h > 0 && s.w > 0 && s.h + 2 * p >= k && s.w + 2 * p >= k
    ensures ApplyLayer(Conv(s.c, outC, k, 1, p, 1), s) == Some(Shape(outC, s.h + 2 * p - k + 1, s.w + 2 * p - k + 1))
  {
  }

  /** A 3x3 convolution of stride 2 and padding 1 halves each side, rounding up. */
  lemma StrideTwoConv(s: Shape, outC: nat)
    requires s.h > 0 && s.w > 0
    ensures ApplyLayer(Conv(s.c, outC, 3, 2, 1, 1), s) == Some(Shape(outC, (s.h + 1) / 2, (s.w + 1) / 2))
  {
    DivBounds(s.h - 1, 2);
    DivBounds(s.w - 1, 2);
  }

  lemma ExtrasRun512()
    ensures forall i :: 0 <= i < 10 ==> ApplyLayer(SsdExtras512[i], ExtraShapes512[i]) == Some(ExtraShapes512[i + 1])
  {
    ExtrasRun512Front();
    ExtrasRun512Back();
  }

  lemma ExtrasRun512Front()
    ensures forall i :: 0 <= i < 5 ==> ApplyLayer(SsdExtras512[i], ExtraShapes512[i]) == Some(ExtraShapes512[i + 1])
  {
    forall i | 0 <= i < 5
      ensures ApplyLayer(SsdExtras512[i], ExtraShapes512[i]) == Some(ExtraShapes512[i + 1])
    {
      var u := ExtraShapes512[i];
      if i == 0 {
        StrideOneConv(u, 256, 1, 0);
      } else if i == 1 {
        StrideTwoConv(u, 512);
      } else if i == 2 {
        StrideOneConv(u, 128, 1, 0);
      } else if i == 3 {
        StrideTwoConv(u, 256);
      } else {
        StrideOneConv(u, 128, 1, 0);
      }
    }
  }

  lemma ExtrasRun512Back()
    ensures forall i :: 5 <= i < 10 ==> ApplyLayer(SsdExtras512[i], ExtraShapes512[i]) == Some(ExtraShapes512[i + 1])
  {
    forall i | 5 <= i < 10
      ensures ApplyLayer(SsdExtras512[i], ExtraShapes512[i]) == Some(ExtraShapes512[i + 1])
    {
      var u := ExtraShapes512[i];
      if i == 5 {
        StrideTwoConv(u, 256);
      } else if i == 6 {
        StrideOneConv(u, 128, 1, 0);
      } else if i == 7 {
        StrideTwoConv(u, 256);
      } else if i == 8 {
        StrideOneConv(u, 128, 1, 0);
      } else {
        StrideOneConv(u, 256, 4, 1);
      }
    }
  }

  lemma ExtrasRun300()
    ensures forall i :: 0 <= i < 8 ==> ApplyLayer(SsdExtras300[i], ExtraShapes300[i]) == Some(ExtraShapes300[i + 1])
  {
    ExtrasRun300Front();
    ExtrasRun300Back();
  }

  lemma ExtrasRun300Front()
    ensures forall i :: 0 <= i < 4 ==> ApplyLayer(SsdExtras300[i], ExtraShapes300[i]) == Some(ExtraShapes300[i + 1])
  {
    forall i | 0 <= i < 4
      ensures ApplyLayer(SsdExtras300[i], ExtraShapes300[i]) == Some(ExtraShapes300[i + 1])
    {
      var u := ExtraShapes300[i];
      if i % 2 == 0 {
        StrideOneConv(u, SsdExtras300[i].outC, 1, 0);
      } else {
        StrideTwoConv(u, SsdExtras300[i].outC);
      }
    }
  }

  lemma ExtrasRun300Back()
    ensures forall i :: 4 <= i < 8 ==> ApplyLayer(SsdExtras300[i], ExtraShapes300[i]) == Some(ExtraShapes300[i + 1])
  {
    forall i | 4 <= i < 8
      ensures ApplyLayer(SsdExtras300[i], ExtraShapes300[i]) == Some(ExtraShapes300[i + 1])
    {
      if i == 4 {
        StrideOneConv(Shape(256, 5, 5), 128, 1, 0);
      } else if i == 5 {
        StrideOneConv(Shape(128, 5, 5), 256, 3, 0);
      } else if i == 6 {
        StrideOneConv(Shape(256, 3, 3), 128, 1, 0);
      } else {
        StrideOneConv(Shape(128, 3, 3), 256, 3, 0);
      }
    }
  }

  /** The extra sources of the 512 net, from fc7 with its gate, have the
      shapes after the odd-position layers. */
  lemma Taps512(net: Net, x0: Feat, s: Shape)
    requires net.extras == SsdExtras512 && net.sw == SwTable()
    requires ShapeOf(net, x0, s) == Some(Shape(1024, 32, 32))
    ensures forall i :: 0 <= i < 5 ==> ShapeOf(net, ExtraTap(x0, i), s) == Some(ExtraShapes512[2 * i + 2])
  {
    SwPairs();
    ExtrasRun512();
    forall i | 0 <= i < 5
      ensures ShapeOf(net, ExtraTap(x0, i), s) == Some(ExtraShapes512[2 * i + 2])
    {
      TapShape(net, x0, s, ExtraShapes512, i);
    }
  }
  /** The extra sources of the 300 net, likewise. */
  lemma Taps300(net: Net, x0: Feat, s: Shape)
    requires net.extras == SsdExtras300 && net.sw == SwTable()
    requires ShapeOf(net, x0, s) == Some(Shape(1024, 19, 19))
    ensures forall i :: 0 <= i < 4 ==> ShapeOf(net, ExtraTap(x0, i), s) == Some(ExtraShapes300[2 * i + 2])
  {
    SwPairs();
    ExtrasRun300();
    forall i | 0 <= i < 4
      ensures ShapeOf(net, ExtraTap(x0, i), s) == Some(ExtraShapes300[2 * i + 2])
    {
      TapShape(net, x0, s, ExtraShapes300, i);
    }
  }

  /** Source levels 2 on are the odd-position extra outputs; with the stem
      levels their channels and sides are the heads' inputs and the preset's
      feature maps. */
  lemma LevelShapes512()
    ensures forall i :: 0 <= i < 5 ==>
      ExtraShapes512[2 * i + 2] == Shape(HeadChannels512[i + 2], V512.featureMaps[i + 2], V512.featureMaps[i + 2])
    ensures HeadChannels512[0] == 512 && HeadChannels512[1] == 1024
  {
  }

  lemma LevelShapes300()
    ensures forall i :: 0 <= i < 4 ==>
      ExtraShapes300[2 * i + 2] == Shape(HeadChannels300[i + 2], V300.featureMaps[i + 2], V300.featureMaps[i + 2])
    ensures HeadChannels300[0] == 512 && HeadChannels300[1] == 1024
  {
  }

  /** Sources whose stem levels and extra taps have the shapes `chans` and
      `fm` give for their level all have them. */
  lemma SourceLevels(net: Net, img: Feat, s: Shape, n: nat, e: nat, chans: seq<nat>, fm: seq<nat>)
    requires |chans| == |fm| == 2 + e / 2
    requires ShapeOf(net, Sources(img, n, e)[0], s) == Some(Shape(chans[0], fm[0], fm[0]))
    requires ShapeOf(net, Sources(img, n, e)[1], s) == Some(Shape(chans[1], fm[1], fm[1]))
    requires forall i :: 0 <= i < e / 2 ==>
      ShapeOf(net, ExtraTap(Gate(1, Fc7(img, n)), i), s) == Some(Shape(chans[i + 2], fm[i + 2], fm[i + 2]))
    ensures forall k :: 0 <= k < |chans| ==>
      ShapeOf(net, Sources(img, n, e)[k], s) == Some(Shape(chans[k], fm[k], fm[k]))
  {
    var src := Sources(img, n, e);
    forall k | 2 <= k < |chans|
      ensures ShapeOf(net, src[k], s) == Some(Shape(chans[k], fm[k], fm[k]))
    {
      var i := k - 2;
      assert src[k] == ExtraTap(Gate(1, Fc7(img, n)), i);
    }
  }

  /** The first two sources of the 512 net and the map the extras start from. */
  lemma Stem512(net: Net, img: Feat, s: Shape)
    requires net.vgg == SsdVgg && net.sw == SwTable()
    requires ShapeOf(net, img, s) == Some(Shape(3, 512, 512))
    ensures var src := Sources(img, |net.vgg|, |net.extras|);
      ShapeOf(net, src[0], s) == Some(Shape(512, 64, 64)) &&
      ShapeOf(net, src[1], s) == Some(Shape(1024, 32, 32)) &&
      ShapeOf(net, Gate(1, Fc7(img, |net.vgg|)), s) == Some(Shape(1024, 32, 32))
  {
    var src := Sources(img, |net.vgg|, |net.extras|);
    assert src[0] == Map(L2Norm, Conv43(img)) && src[1] == Fc7(img, |net.vgg|);
    assert Conv43Side(512) == 64;
    StemShapes(net, img, s, 512);
  }

  lemma Stem300(net: Net, img: Feat, s: Shape)
    requires net.vgg == SsdVgg && net.sw == SwTable()
    requires ShapeOf(net, img, s) == Some(Shape(3, 300, 300))
    ensures var src := Sources(img, |net.vgg|, |net.extras|);
      ShapeOf(net, src[0], s) == Some(Shape(512, 38, 38)) &&
      ShapeOf(net, src[1], s) == Some(Shape(1024, 19, 19)) &&
      ShapeOf(net, Gate(1, Fc7(img, |net.vgg|)), s) == Some(Shape(1024, 19, 19))
  {
    var src := Sources(img, |net.vgg|, |net.extras|);
    assert src[0] == Map(L2Norm, Conv43(img)) && src[1] == Fc7(img, |net.vgg|);
    assert Conv43Side(300) == 38;
    StemShapes(net, img, s, 300);
  }

  /** On a 512x512 image the 512 net's seven sources have the channel counts
      its heads read and the resolutions of preset '512'. */
  lemma Sources512(net: Net, img: Feat, s: Shape)
    requires net.vgg == SsdVgg && net.extras == SsdExtras512 && net.sw == SwTable()
    requires ShapeOf(net, img, s) == Some(Shape(3, 512, 512))
    ensures var src := Sources(img, |net.vgg|, |net.extras|);
      |src| == 7 &&
      forall k :: 0 <= k < 7 ==>
        ShapeOf(net, src[k], s) == Some(Shape(HeadChannels512[k], V512.featureMaps[k], V512.featureMaps[k]))
  {
    var x0 := Gate(1, Fc7(img, |net.vgg|));
    Stem512(net, img, s);
    Taps512(net, x0, s);
    LevelShapes512();
    SourceLevels(net, img, s, |net.vgg|, |net.extras|, HeadChannels512, V512.featureMaps);
  }

  /** On a 300x300 image the 300 net has only six sources, with the channel
      counts its heads read and the resolutions of preset '300'. */
  lemma Sources300(net: Net, img: Feat, s: Shape)
    requires net.vgg == SsdVgg && net.extras == SsdExtras300 && net.sw == SwTable()
    requires ShapeOf(net, img, s) == Some(Shape(3, 300, 300))
    ensures var src := Sources(img, |net.vgg|, |net.extras|);
      |src| == 6 &&
      forall k :: 0 <= k < 6 ==>
        ShapeOf(net, src[k], s) == Some(Shape(HeadChannels300[k], V300.featureMaps[k], V300.featureMaps[k]))
  {
    var x0 := Gate(1, Fc7(img, |net.vgg|));
    Stem300(net, img, s);
    Taps300(net, x0, s);
    LevelShapes300();
    SourceLevels(net, img, s, |net.vgg|, |net.extras|, HeadChannels300, V300.featureMaps);
  }


  /** The extension modules are built with in = the channels of `sources[k+1]`
      and out = the channels of `sources[k]`, level by level. */
  lemma ExtensionArgs()
    ensures |ExTable()| == 16
    ensures forall k :: 0 <= k < 4 ==>
      ExTable()[4 * k .. 4 * k + 4] == ExtensionModules(HeadChannels512[k + 1], HeadChannels512[k])
  {
    var e := ExTable();
    assert e[0..4] == ExtensionModules(1024, 512);
    assert e[4..8] == ExtensionModules(512, 1024);
    assert e[8..12] == ExtensionModules(256, 512);
    assert e[12..16] == ExtensionModules(256, 256);
  }

  /** When the sources halve in size from each of the first four levels to the
      next and each extension module maps the next level's channels to this
      level's, every fused level keeps the shape of its source. */
  lemma FusedKeepShapes(net: Net, src: seq<Feat>, s: Shape, chans: seq<nat>, fm: seq<nat>)
    requires |src| == |chans| == |fm| == 7 && Halving(fm, 4)
    requires forall k :: 0 <= k < 7 ==> fm[k] > 0 && ShapeOf(net, src[k], s) == Some(Shape(chans[k], fm[k], fm[k]))
    requires |net.ex| >= 16
    requires forall k :: 0 <= k < 4 ==> net.ex[4 * k .. 4 * k + 4] == ExtensionModules(chans[k + 1], chans[k])
    ensures forall k :: 0 <= k < 7 ==> ShapeOf(net, Fused(src)[k], s) == Some(Shape(chans[k], fm[k], fm[k]))
  {
    forall k | 0 <= k < 4
      ensures ShapeOf(net, Fused(src)[k], s) == Some(Shape(chans[k], fm[k], fm[k]))
    {
      FuseShape(net, k, src[k], src[k + 1], s, chans[k + 1], chans[k], fm[k + 1], fm[k + 1], fm[k], fm[k]);
    }
  }

  /** On a 512x512 image every fused level of the 512 net keeps the shape of
      its source: the extension modules fit, and preset '512' halves its
      feature maps over the first four levels. */
  lemma Fused512(net: Net, img: Feat, s: Shape)
    requires net.vgg == SsdVgg && net.extras == SsdExtras512 && net.sw == SwTable() && net.ex == ExTable()
    requires ShapeOf(net, img, s) == Some(Shape(3, 512, 512))
    ensures var src := Sources(img, |net.vgg|, |net.extras|);
      |src| == 7 &&
      forall k :: 0 <= k < 7 ==>
        V512.featureMaps[k] > 0 &&
        ShapeOf(net, Fused(src)[k], s) == Some(Shape(HeadChannels512[k], V512.featureMaps[k], V512.featureMaps[k]))
  {
    Sources512(net, img, s);
    ExtensionArgs();
    PresetResolutions();
    FusedKeepShapes(net, Sources(img, |net.vgg|, |net.extras|), s, HeadChannels512, V512.featureMaps);
  }

  /** Heads built by `multibox` from channel counts `chans` keep the
      resolution of the maps they read and output `mbox[j] * 4` location and
      `mbox[j] * nc` confidence channels. */
  lemma HeadOutputs(net: Net, f: seq<Feat>, s: Shape, chans: seq<nat>, mbox: seq<nat>, fm: seq<nat>, nc: nat)
    requires |f| == |chans| == |mbox| == |fm|
    requires net.loc == Heads(chans, mbox, nc).loc && net.conf == Heads(chans, mbox, nc).conf
    requires forall j :: 0 <= j < |f| ==> fm[j] > 0 && ShapeOf(net, f[j], s) == Some(Shape(chans[j], fm[j], fm[j]))
    ensures forall j :: 0 <= j < |f| ==>
      ShapeOf(net, Apply(LocBank, j, f[j]), s) == Some(Shape(HeadWidth(mbox[j], 4), fm[j], fm[j])) &&
      ShapeOf(net, Apply(ConfBank, j, f[j]), s) == Some(Shape(HeadWidth(mbox[j], nc), fm[j], fm[j]))
  {
    forall j | 0 <= j < |f|
      ensures ShapeOf(net, Apply(LocBank, j, f[j]), s) == Some(Shape(HeadWidth(mbox[j], 4), fm[j], fm[j]))
      ensures ShapeOf(net, Apply(ConfBank, j, f[j]), s) == Some(Shape(HeadWidth(mbox[j], nc), fm[j], fm[j]))
    {
      var u := Shape(chans[j], fm[j], fm[j]);
      SamePaddingKeepsSize(u, HeadWidth(mbox[j], 4), 3, 1, 1);
      SamePaddingKeepsSize(u, HeadWidth(mbox[j], nc), 3, 1, 1);
    }
  }

  /** When the seven fused levels have shapes (chans[j], fm[j], fm[j]) and the
      heads are built from `chans` and `mbox`, the trace's `j`-th location and
      confidence outputs have `mbox[j] * 4` and `mbox[j] * nc` channels at the
      level's resolution. */
  lemma TraceHeads(net: Net, img: Feat, s: Shape, chans: seq<nat>, mbox: seq<nat>, fm: seq<nat>, nc: nat)
    requires Runs(net)
    requires |chans| == |mbox| == |fm| == 7
    requires net.loc == Heads(chans, mbox, nc).loc && net.conf == Heads(chans, mbox, nc).conf
    requires forall k :: 0 <= k < 7 ==>
      fm[k] > 0 && ShapeOf(net, Fused(Sources(img, |net.vgg|, |net.extras|))[k], s) == Some(Shape(chans[k], fm[k], fm[k]))
    ensures var t := ForwardSpec(net, img);
      |t.loc| == |t.conf| == 7 &&
      forall j :: 0 <= j < 7 ==>
        ShapeOf(net, t.loc[j], s) == Some(Shape(HeadWidth(mbox[j], 4), fm[j], fm[j])) &&
        ShapeOf(net, t.conf[j], s) == Some(Shape(HeadWidth(mbox[j], nc), fm[j], fm[j]))
  {
    var f := Fused(Sources(img, |net.vgg|, |net.extras|));
    HeadOutputs(net, f, s, chans, mbox, fm, nc);
    var t := ForwardSpec(net, img);
    assert |t.loc| == 7 && |t.conf| == 7;
    forall j | 0 <= j < 7
      ensures t.loc[j] == Apply(LocBank, j, f[j]) && t.conf[j] == Apply(ConfBank, j, f[j])
    {
    }
  }

  /** On a 512x512 image the heads of the 512 net give, at level `j`, a map of
      the level's resolution with `mbox[j] * 4` location channels and
      `mbox[j] * nc` confidence channels. */
  lemma Heads512Shapes(net: Net, nc: nat, img: Feat, s: Shape)
    requires net.vgg == SsdVgg && net.extras == SsdExtras512 && net.sw == SwTable() && net.ex == ExTable()
    requires net.loc == Heads(HeadChannels512, Mbox512, nc).loc && net.conf == Heads(HeadChannels512, Mbox512, nc).conf
    requires ShapeOf(net, img, s) == Some(Shape(3, 512, 512))
    ensures Runs(net)
    ensures var t := ForwardSpec(net, img);
      |t.loc| == |t.conf| == 7 &&
      forall j :: 0 <= j < 7 ==>
        ShapeOf(net, t.loc[j], s) == Some(Shape(HeadWidth(Mbox512[j], 4), V512.featureMaps[j], V512.featureMaps[j])) &&
        ShapeOf(net, t.conf[j], s) == Some(Shape(HeadWidth(Mbox512[j], nc), V512.featureMaps[j], V512.featureMaps[j]))
  {
    assert |net.vgg| == 35 by { VggTaps(); }
    assert |net.sw| == 6 by { SwPairs(); }
    assert |net.ex| == 16 by { ExtensionArgs(); }
    Fused512(net, img, s);
    TraceHeads(net, img, s, HeadChannels512, Mbox512, V512.featureMaps, nc);
  }

  /** On a 300x300 image the 300 net cannot be fused: level 1 lifts the 10x10
      source to 20x20 and adds it to the 19x19 one, and level 3 lifts 3x3 to
      6x6 against 5x5. Levels 0 and 2 fit. Before the sum fails, nothing else
      does: the missing seventh source would only be read afterwards. */
  lemma Fusion300Fails(net: Net, img: Feat, s: Shape)
    requires net.vgg == SsdVgg && net.extras == SsdExtras300 && net.sw == SwTable() && net.ex == ExTable()
    requires ShapeOf(net, img, s) == Some(Shape(3, 300, 300))
    ensures !Runs(net)
    ensures var src := Sources(img, |net.vgg|, |net.extras|);
      |src| == 6 &&
      ShapeOf(net, Fuse(0, src[0], src[1]), s) == Some(Shape(512, 38, 38)) &&
      ShapeOf(net, Fuse(1, src[1], src[2]), s) == None &&
      ShapeOf(net, Fuse(2, src[2], src[3]), s) == Some(Shape(512, 10, 10)) &&
      ShapeOf(net, Fuse(3, src[3], src[4]), s) == None
  {
    var src := Sources(img, |net.vgg|, |net.extras|);
    Sources300(net, img, s);
    ExtensionArgs();
    assert HeadChannels512[..6] == HeadChannels300;
    FuseShape(net, 0, src[0], src[1], s, 1024, 512, 19, 19, 38, 38);
    FuseShape(net, 1, src[1], src[2], s, 512, 1024, 10, 10, 19, 19);
    FuseShape(net, 2, src[2], src[3], s, 256, 512, 5, 5, 10, 10);
    FuseShape(net, 3, src[3], src[4], s, 256, 256, 3, 3, 5, 5);
  }

  /** `mbox` of `multibox` agrees with the presets' aspect ratios: each level
      has two square boxes and two per extra aspect ratio. */
  lemma MboxMatchesPresets()
    ensures |Mbox512| == |V512.aspectRatios| && |Mbox300| == |V300.aspectRatios|
    ensures forall k :: 0 <= k < |Mbox512| ==> Mbox512[k] == BoxesPerCell(V512.aspectRatios[k])
    ensures forall k :: 0 <= k < |Mbox300| ==> Mbox300[k] == BoxesPerCell(V300.aspectRatios[k])
  {
  }

  /** The location head outputs of the 512 net, level by level. */
  function LocShapes512(): (r: seq<Shape>)
    ensures |r| == 7
  {
    seq(7, j requires 0 <= j < 7 => Shape(HeadWidth(Mbox512[j], 4), V512.featureMaps[j], V512.featureMaps[j]))
  }

  /** The 512 net lays out 24564 anchors: the rows of `loc.view(batch, -1, 4)`. */
  lemma AnchorCount512()
    ensures HeadFlatten.AnchorsBefore(LocShapes512(), Mbox512, 7) == 24564
  {
  }
}
