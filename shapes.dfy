/** The shape meaning of the feature-map terms of module Forward: every layer
    maps shapes by the integer rules of module Layers, the elementwise maps keep
    the shape, and `+` broadcasts as PyTorch does. */
module FeatShapes {
  import opened Results
  import opened Layers
  import opened Builders
  import opened Forward

  /** The module list a bank names. */
  function BankLayers(net: Net, b: Bank): seq<Layer> {
    match b
    case VggBank => net.vgg
    case SwBank => net.sw
    case ExtrasBank => net.extras
    case ExBank => net.ex
    case LocBank => net.loc
    case ConfBank => net.conf
  }

  /** One axis of a broadcast: equal sizes, or a size 1 stretched to the other. */
  function BroadcastDim(a: nat, b: nat): (r: Option<nat>)
    ensures r.Some? <==> a == b || a == 1 || b == 1
    ensures r.Some? && a != 1 ==> r.value == a
    ensures r.Some? && b != 1 ==> r.value == b
  {
    if a == b then Some(a) else if a == 1 then Some(b) else if b == 1 then Some(a) else None
  }

  /** The shape of `a + b`, or `None` where PyTorch raises. */
  function Broadcast(a: Shape, b: Shape): Option<Shape> {
    var c := BroadcastDim(a.c, b.c);
    var h := BroadcastDim(a.h, b.h);
    var w := BroadcastDim(a.w, b.w);
    if c.None? || h.None? || w.None? then None else Some(Shape(c.value, h.value, w.value))
  }

  /** The shape of `f` for an input image of shape `s`; `None` where the
      forward pass would raise. */
  function ShapeOf(net: Net, f: Feat, s: Shape): Option<Shape> {
    match f
    case Input => Some(s)
    case Apply(b, i, a) =>
      var layers := BankLayers(net, b);
      if i >= |layers| then None
      else (match ShapeOf(net, a, s)
        case None => None
        case Some(t) => ApplyLayer(layers[i], t))
    case Map(_, a) => ShapeOf(net, a, s)
    case Add(l, r) =>
      var x := ShapeOf(net, l, s);
      var y := ShapeOf(net, r, s);
      if x.None? || y.None? then None else Broadcast(x.value, y.value)
  }

  /** Applying `vgg[lo..hi)` to a term runs that slice of the list on its shape. */
  lemma {:induction false} ShapeVgg(net: Net, lo: nat, hi: nat, x: Feat, s: Shape)
    requires lo <= hi <= |net.vgg|
    ensures ShapeOf(net, VggUpTo(lo, hi, x), s) ==
      match ShapeOf(net, x, s) case None => None case Some(t) => Run(net.vgg[lo..hi], t)
    decreases hi
  {
    if lo < hi {
      ShapeVgg(net, lo, hi - 1, x, s);
      var l := net.vgg[hi - 1];
      var y := VggUpTo(lo, hi - 1, x);
      assert VggUpTo(lo, hi, x) == Apply(VggBank, hi - 1, y);
      assert ShapeOf(net, Apply(VggBank, hi - 1, y), s) ==
        match ShapeOf(net, y, s) case None => None case Some(u) => ApplyLayer(l, u);
      assert net.vgg[lo..hi] == net.vgg[lo..hi - 1] + [l];
      match ShapeOf(net, x, s) {
        case None =>
        case Some(t) => RunSnoc(net.vgg[lo..hi - 1], l, t);
      }
    } else {
      assert net.vgg[lo..hi] == [];
    }
  }

  /** Two layers of one bank, each followed by an elementwise map, run the
      two-layer slice on the shape. */
  lemma ShapePair(net: Net, b: Bank, i: nat, op1: Op, op2: Op, x: Feat, s: Shape, t: Shape)
    requires i + 1 < |BankLayers(net, b)|
    requires ShapeOf(net, x, s) == Some(t)
    ensures ShapeOf(net, Map(op2, Apply(b, i + 1, Map(op1, Apply(b, i, x)))), s)
         == Run(BankLayers(net, b)[i..i + 2], t)
  {
    var l := BankLayers(net, b);
    assert l[i..i + 2] == [l[i], l[i + 1]];
    RunPair(l[i], l[i + 1], t);
    var a := Apply(b, i, x);
    assert ShapeOf(net, a, s) == ApplyLayer(l[i], t);
    assert ShapeOf(net, Map(op1, a), s) == ApplyLayer(l[i], t);
    var c := Apply(b, i + 1, Map(op1, a));
    match ApplyLayer(l[i], t) {
      case None =>
        assert ShapeOf(net, c, s) == None;
      case Some(u) =>
        assert ShapeOf(net, c, s) == ApplyLayer(l[i + 1], u);
    }
  }

  /** A sum has the broadcast shape of its two sides. */
  lemma AddShape(net: Net, a: Feat, b: Feat, s: Shape, ta: Shape, tb: Shape)
    requires ShapeOf(net, a, s) == Some(ta) && ShapeOf(net, b, s) == Some(tb)
    ensures ShapeOf(net, Add(a, b), s) == Broadcast(ta, tb)
  {
  }

  /** The side branch of gate `j` maps a (c, h, w) map to a one-channel map. */
  lemma GateBranchShape(net: Net, j: nat, x: Feat, s: Shape, c: nat, h: nat, w: nat)
    requires 2 * j + 1 < |net.sw| && net.sw[2 * j .. 2 * j + 2] == SwModules(c)
    requires ShapeOf(net, x, s) == Some(Shape(c, h, w)) && h > 0 && w > 0
    ensures ShapeOf(net, Map(Tanh, Apply(SwBank, 2 * j + 1, Map(Relu, Apply(SwBank, 2 * j, x)))), s)
         == Some(Shape(1, h, w))
  {
    ShapePair(net, SwBank, 2 * j, Relu, Tanh, x, s, Shape(c, h, w));
    SwGate(c, h, w);
  }

  /** Gate `j` keeps the shape of the map it is applied to when its two layers
      are `SW_modules(c)` and the map has `c` channels: the gate's one-channel
      output is broadcast over all channels. */
  lemma GateKeepsShape(net: Net, j: nat, x: Feat, s: Shape, c: nat, h: nat, w: nat)
    requires 2 * j + 1 < |net.sw| && net.sw[2 * j .. 2 * j + 2] == SwModules(c)
    requires ShapeOf(net, x, s) == Some(Shape(c, h, w)) && h > 0 && w > 0
    ensures ShapeOf(net, Gate(j, x), s) == Some(Shape(c, h, w))
  {
    var g := Map(Tanh, Apply(SwBank, 2 * j + 1, Map(Relu, Apply(SwBank, 2 * j, x))));
    GateBranchShape(net, j, x, s, c, h, w);
    AddShape(net, x, g, s, Shape(c, h, w), Shape(1, h, w));
  }

  /** The lifting branch of fused level `k` turns the coarser map (i, h, w)
      into (o, 2h, 2w). */
  lemma LiftShape(net: Net, k: nat, next: Feat, s: Shape, i: nat, o: nat, h: nat, w: nat)
    requires 4 * k + 3 < |net.ex| && net.ex[4 * k .. 4 * k + 4] == ExtensionModules(i, o)
    requires ShapeOf(net, next, s) == Some(Shape(i, h, w)) && h > 0 && w > 0
    ensures ShapeOf(net, Map(Relu, Apply(ExBank, 4 * k + 1, Map(Relu, Apply(ExBank, 4 * k, next)))), s)
         == Some(Shape(o, 2 * h, 2 * w))
  {
    ExtensionBranches(i, o, h, w);
    assert net.ex[4 * k .. 4 * k + 2] == ExtensionModules(i, o)[..2];
    ShapePair(net, ExBank, 4 * k, Relu, Relu, next, s, Shape(i, h, w));
  }

  /** The keeping branch of fused level `k` leaves the finer map (o, H, W) as
      it is. */
  lemma KeepShape(net: Net, k: nat, target: Feat, s: Shape, i: nat, o: nat, bigH: nat, bigW: nat)
    requires 4 * k + 3 < |net.ex| && net.ex[4 * k .. 4 * k + 4] == ExtensionModules(i, o)
    requires ShapeOf(net, target, s) == Some(Shape(o, bigH, bigW)) && bigH > 0 && bigW > 0
    ensures ShapeOf(net, Map(Relu, Apply(ExBank, 4 * k + 3, Map(Relu, Apply(ExBank, 4 * k + 2, target)))), s)
         == Some(Shape(o, bigH, bigW))
  {
    ExtensionBranches(i, o, bigH, bigW);
    assert net.ex[4 * k + 2 .. 4 * k + 4] == ExtensionModules(i, o)[2..];
    ShapePair(net, ExBank, 4 * k + 2, Relu, Relu, target, s, Shape(o, bigH, bigW));
  }

  /** Fused level `k` with extension layers `Extension_modules(i, o)`: the
      coarser map (i, h, w) is lifted to (o, 2h, 2w) and added to the finer
      map (o, H, W) kept as it is. The sum exists exactly when each side of the
      finer map is double the coarser one's or 1, and it keeps the finer map's
      shape when the sizes double exactly. */
  lemma FuseShape(net: Net, k: nat, target: Feat, next: Feat, s: Shape,
                  i: nat, o: nat, h: nat, w: nat, bigH: nat, bigW: nat)
    requires 4 * k + 3 < |net.ex| && net.ex[4 * k .. 4 * k + 4] == ExtensionModules(i, o)
    requires ShapeOf(net, next, s) == Some(Shape(i, h, w)) && h > 0 && w > 0
    requires ShapeOf(net, target, s) == Some(Shape(o, bigH, bigW)) && bigH > 0 && bigW > 0
    ensures ShapeOf(net, Fuse(k, target, next), s).Some? <==>
      (bigH == 2 * h || bigH == 1) && (bigW == 2 * w || bigW == 1)
    ensures bigH == 2 * h && bigW == 2 * w ==>
      ShapeOf(net, Fuse(k, target, next), s) == Some(Shape(o, bigH, bigW))
  {
    var up := Map(Relu, Apply(ExBank, 4 * k + 1, Map(Relu, Apply(ExBank, 4 * k, next))));
    var keep := Map(Relu, Apply(ExBank, 4 * k + 3, Map(Relu, Apply(ExBank, 4 * k + 2, target))));
    assert Fuse(k, target, next) == Add(up, keep);
    LiftShape(net, k, next, s, i, o, h, w);
    KeepShape(net, k, target, s, i, o, bigH, bigW);
    AddShape(net, up, keep, s, Shape(o, 2 * h, 2 * w), Shape(o, bigH, bigW));
  }
}
