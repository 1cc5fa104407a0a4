/** Layer descriptions and their effect on the shape of one image's feature map.
    The network is only ever described here, never run: a layer is the record of
    the constructor arguments the builders pass to PyTorch, and its meaning is the
    integer rule by which it maps a (channels, height, width) shape to the next. */
module Layers {
  import opened Results

  /** The layer kinds the builders create. Arguments PyTorch defaults are written
      out: a `Conv` without explicit stride, padding or dilation has 1, 0, 1. */
  datatype Layer =
    | Conv(inC: nat, outC: nat, kernel: nat, stride: nat, pad: nat, dilation: nat)
    | ConvT(inC: nat, outC: nat, kernel: nat, stride: nat)  // transpose conv, padding 0
    | MaxPool(kernel: nat, stride: nat, pad: nat, ceilMode: bool)
    | ReLU
    | BatchNorm(features: nat)

  /** The shape of one image's feature map; the batch dimension is left out. */
  datatype Shape = Shape(c: nat, h: nat, w: nat)

  /** The module lists an `SSD` object holds: `vgg`, `extras`, `sw_layers`,
      `ex_layers`, and the `loc` and `conf` heads. */
  datatype Net = Net(vgg: seq<Layer>, extras: seq<Layer>, sw: seq<Layer>, ex: seq<Layer>,
                     loc: seq<Layer>, conf: seq<Layer>)

  /** The extent a sliding window covers beyond its first position. */
  function Span(size: nat, kernel: nat, pad: nat, dilation: nat): int {
    size + 2 * pad - dilation * (kernel - 1) - 1
  }

  /** `r` floor-mode windows over `span`: the last one starts within the span. */
  predicate FloorFits(r: int, span: int, stride: int) {
    (r - 1) * stride <= span < r * stride
  }

  /** `r` ceil-mode windows over `span`: no window is redundant; the windows
      reach the end of the span unless one more would start in the right
      padding; and when the padding is at most the dilated kernel (as PyTorch
      demands of a pool), the last window starts before the right padding. */
  predicate CeilFits(r: int, span: int, stride: int, size: int, pad: int) {
    && (r - 2) * stride < span
    && (span <= (r - 1) * stride || size + pad <= r * stride)
    && (span <= size + pad ==> (r - 1) * stride < size + pad)
  }

  /** Number of window positions along one axis: floor(span / stride) + 1, or
      ceil(span / stride) + 1 under `ceilMode`. In ceil mode PyTorch then drops
      a last window that would start in the right padding, so a window may
      overhang the input by less than one stride. A zero stride, a zero kernel
      and a count below 1 are rejected: in floor mode that is a dilated kernel
      larger than the padded input. */
  function WindowCount(size: nat, kernel: nat, stride: nat, pad: nat, dilation: nat,
                       ceilMode: bool): (r: Option<nat>)
    ensures r.Some? <==>
      (stride > 0 && kernel > 0 &&
       (if ceilMode then Span(size, kernel, pad, dilation) + stride > 0 && size + pad > 0
        else Span(size, kernel, pad, dilation) >= 0))
    ensures r.Some? ==> r.value >= 1
  {
    var span := Span(size, kernel, pad, dilation);
    if stride == 0 || kernel == 0 then None
    else if ceilMode then
      if span + stride <= 0 || size + pad == 0 then None
      else
        assert dilation * (kernel - 1) >= 0;
        Some(CeilWindows(span, stride, size, pad))
    else if span < 0 then None
    else Some(span / stride + 1)
  }

  /** The count `WindowCount` gives is the one its mode means: in floor mode
      the last window starts within the span; in ceil mode the windows cover
      the span with none redundant, bar one that would start in the right
      padding. */
  lemma WindowsFit(size: nat, kernel: nat, stride: nat, pad: nat, dilation: nat, ceilMode: bool)
    ensures var r := WindowCount(size, kernel, stride, pad, dilation, ceilMode);
      && (r.Some? && !ceilMode ==> FloorFits(r.value, Span(size, kernel, pad, dilation), stride))
      && (r.Some? && ceilMode ==> CeilFits(r.value, Span(size, kernel, pad, dilation), stride, size, pad))
  {
    var span := Span(size, kernel, pad, dilation);
    if stride > 0 && kernel > 0 {
      if ceilMode {
        if span + stride > 0 && size + pad > 0 {
          assert dilation * (kernel - 1) >= 0;
          CeilCount(span, stride, (span + stride - 1) / stride + 1, size, pad);
        }
      } else if span >= 0 {
        FloorCount(span, stride, span / stride + 1);
      }
    }
  }

  /** Ceil mode: the ceiling count, less one when its last window would start
      in the right padding. */
  function CeilWindows(span: int, stride: int, size: nat, pad: nat): (r: nat)
    requires stride > 0 && span + stride > 0 && size + pad > 0 && span < size + 2 * pad
    ensures r >= 1
  {
    var n := (span + stride - 1) / stride + 1;
    if (n - 1) * stride >= size + pad then n - 1 else n
  }

  /** `span / stride + 1` windows: the last one starts within the span. */
  lemma FloorCount(span: int, stride: int, n: int)
    requires span >= 0 && stride > 0 && n == span / stride + 1
    ensures n >= 1 && FloorFits(n, span, stride)
  {
    DivBounds(span, stride);
  }

  /** The ceiling count `n`, less one when its last window would start in the
      right padding, fits the span in ceil mode. */
  lemma CeilCount(span: int, stride: int, n: int, size: nat, pad: nat)
    requires stride > 0 && span + stride > 0 && n == (span + stride - 1) / stride + 1
    requires size + pad > 0 && span < size + 2 * pad
    ensures var r := if (n - 1) * stride >= size + pad then n - 1 else n;
      r >= 1 && CeilFits(r, span, stride, size, pad)
  {
    DivBounds(span + stride - 1, stride);
    assert (n - 2) * stride < span <= (n - 1) * stride;
    assert (n - 3) * stride == (n - 2) * stride - stride;
  }

  /** Floor division brackets its dividend. */
  lemma DivBounds(a: int, b: int)
    requires a >= 0 && b > 0
    ensures (a / b) * b <= a < (a / b) * b + b
    ensures (a / b - 1) * b == (a / b) * b - b
  {
    assert a == (a / b) * b + a % b;
  }

  /** The shape a layer produces from `s`, or `None` where PyTorch raises: a
      channel count that does not match the layer, an empty input, a window
      that does not fit, or a pool padded by more than half its kernel. */
  function ApplyLayer(l: Layer, s: Shape): (r: Option<Shape>)
    ensures r.Some? && l.Conv? ==> s.c == l.inC && r.value.c == l.outC
    ensures r.Some? && l.ConvT? ==> s.c == l.inC && r.value.c == l.outC
    ensures r.Some? && (l.MaxPool? || l.ReLU? || l.BatchNorm?) ==> r.value.c == s.c
    ensures (l.ReLU? || l.BatchNorm?) && r.Some? ==> r.value == s
    ensures l.MaxPool? && 2 * l.pad > l.kernel ==> r.None?
  {
    match l
    case Conv(inC, outC, k, st, p, d) =>
      if s.c != inC || s.h == 0 || s.w == 0 then None
      else
        var h := WindowCount(s.h, k, st, p, d, false);
        var w := WindowCount(s.w, k, st, p, d, false);
        if h.None? || w.None? then None else Some(Shape(outC, h.value, w.value))
    case ConvT(inC, outC, k, st) =>
      if s.c != inC || s.h == 0 || s.w == 0 || k == 0 || st == 0 then None
      else Some(Shape(outC, (s.h - 1) * st + k, (s.w - 1) * st + k))
    case MaxPool(k, st, p, ceilMode) =>
      if s.h == 0 || s.w == 0 || 2 * p > k then None
      else
        var h := WindowCount(s.h, k, st, p, 1, ceilMode);
        var w := WindowCount(s.w, k, st, p, 1, ceilMode);
        if h.None? || w.None? then None else Some(Shape(s.c, h.value, w.value))
    case ReLU => Some(s)
    case BatchNorm(n) => if s.c == n then Some(s) else None
  }

  /** `layer.out_channels`: only convolutions have it. */
  function OutChannels(l: Layer): (r: Option<nat>)
    ensures r.Some? <==> l.Conv? || l.ConvT?
  {
    match l
    case Conv(_, outC, _, _, _, _) => Some(outC)
    case ConvT(_, outC, _, _) => Some(outC)
    case _ => None
  }

  /** The channel count flowing out of `l` when `c` flows in. */
  function Carry(l: Layer, c: nat): nat {
    match OutChannels(l)
    case Some(n) => n
    case None => c
  }

  /** Whether `l` accepts `c` input channels. */
  predicate Accepts(l: Layer, c: nat) {
    match l
    case Conv(inC, _, _, _, _, _) => inC == c
    case ConvT(inC, _, _, _) => inC == c
    case BatchNorm(n) => n == c
    case _ => true
  }

  /** A layer list whose consecutive channel counts agree, starting from `c`. */
  predicate Chained(layers: seq<Layer>, c: nat)
    decreases |layers|
  {
    layers == [] || (Accepts(layers[0], c) && Chained(layers[1..], Carry(layers[0], c)))
  }

  /** The channel count a chained list ends with. */
  function CarryAll(layers: seq<Layer>, c: nat): nat
    decreases |layers|
  {
    if layers == [] then c else CarryAll(layers[1..], Carry(layers[0], c))
  }

  /** The shape a whole layer list produces. */
  function Run(layers: seq<Layer>, s: Shape): Option<Shape>
    decreases |layers|
  {
    if layers == [] then Some(s)
    else match ApplyLayer(layers[0], s)
      case None => None
      case Some(t) => Run(layers[1..], t)
  }

  lemma {:induction false} RunAppend(a: seq<Layer>, b: seq<Layer>, s: Shape)
    ensures Run(a + b, s) == (match Run(a, s) case None => None case Some(t) => Run(b, t))
    decreases |a|
  {
    if a == [] {
      assert a + b == b;
    } else {
      assert (a + b)[1..] == a[1..] + b;
      match ApplyLayer(a[0], s)
      case None =>
      case Some(t) => RunAppend(a[1..], b, t);
    }
  }

  /** Running one more layer at the end applies it to the shape run so far. */
  lemma RunSnoc(a: seq<Layer>, l: Layer, s: Shape)
    ensures Run(a + [l], s) == (match Run(a, s) case None => None case Some(t) => ApplyLayer(l, t))
  {
    RunAppend(a, [l], s);
    match Run(a, s) {
      case None =>
      case Some(t) => RunOne(l, t);
    }
  }

  lemma ChainedCons(l: Layer, rest: seq<Layer>, c: nat)
    ensures Chained([l] + rest, c) <==> Accepts(l, c) && Chained(rest, Carry(l, c))
    ensures CarryAll([l] + rest, c) == CarryAll(rest, Carry(l, c))
  {
    assert ([l] + rest)[1..] == rest;
  }

  /** Channel agreement of a concatenation splits at the seam. */
  lemma {:induction false} ChainedAppend(a: seq<Layer>, b: seq<Layer>, c: nat)
    ensures Chained(a + b, c) <==> Chained(a, c) && Chained(b, CarryAll(a, c))
    ensures CarryAll(a + b, c) == CarryAll(b, CarryAll(a, c))
    decreases |a|
  {
    if a == [] {
      assert a + b == b;
    } else {
      assert (a + b)[1..] == a[1..] + b;
      ChainedAppend(a[1..], b, Carry(a[0], c));
    }
  }

  lemma RunOne(a: Layer, s: Shape)
    ensures Run([a], s) == ApplyLayer(a, s)
  {
    assert [a][0] == a && [a][1..] == [];
  }

  lemma RunPair(a: Layer, b: Layer, s: Shape)
    ensures Run([a, b], s) == (match ApplyLayer(a, s) case None => None case Some(t) => ApplyLayer(b, t))
  {
    assert [a, b][0] == a && [a, b][1..] == [b];
    assert [b][0] == b && [b][1..] == [];
    match ApplyLayer(a, s) {
      case None =>
      case Some(t) =>
        assert Run([a, b], s) == Run([b], t);
        match ApplyLayer(b, t) {
          case None =>
          case Some(u) => assert Run([b], t) == Run([], u);
        }
    }
  }

  /** Running a list succeeds only if its channel counts chain, and then the
      result carries the list's final channel count. */
  lemma {:induction false} RunChained(layers: seq<Layer>, s: Shape)
    requires Run(layers, s).Some?
    ensures Chained(layers, s.c)
    ensures Run(layers, s).value.c == CarryAll(layers, s.c)
    decreases |layers|
  {
    if layers != [] {
      var t := ApplyLayer(layers[0], s).value;
      assert t.c == Carry(layers[0], s.c);
      RunChained(layers[1..], t);
    }
  }

  /** A stride-1 convolution whose padding makes up for its dilated kernel keeps
      the spatial size: the k3/p1, k1/p0 and k3/p6/d6 convolutions of the network. */
  lemma SamePaddingKeepsSize(s: Shape, outC: nat, k: nat, p: nat, d: nat)
    requires s.h > 0 && s.w > 0 && k > 0
    requires 2 * p == d * (k - 1)
    ensures ApplyLayer(Conv(s.c, outC, k, 1, p, d), s) == Some(Shape(outC, s.h, s.w))
  {
  }

  /** A k2/s2 max-pool halves each side, rounding down, or up in ceil mode,
      where a side of 1 still gives one window. */
  lemma HalvingPool(s: Shape, ceilMode: bool)
    requires s.h >= 1 && s.w >= 1
    requires !ceilMode ==> s.h >= 2 && s.w >= 2
    ensures ApplyLayer(MaxPool(2, 2, 0, ceilMode), s) ==
      Some(Shape(s.c, if ceilMode then (s.h + 1) / 2 else s.h / 2,
                      if ceilMode then (s.w + 1) / 2 else s.w / 2))
    ensures Run([MaxPool(2, 2, 0, ceilMode)], s) == ApplyLayer(MaxPool(2, 2, 0, ceilMode), s)
  {
    var pool := MaxPool(2, 2, 0, ceilMode);
    HalfWindows(s.h, ceilMode);
    HalfWindows(s.w, ceilMode);
    var h := if ceilMode then (s.h + 1) / 2 else s.h / 2;
    var w := if ceilMode then (s.w + 1) / 2 else s.w / 2;
    assert WindowCount(s.h, 2, 2, 0, 1, ceilMode) == Some(h);
    assert WindowCount(s.w, 2, 2, 0, 1, ceilMode) == Some(w);
    assert ApplyLayer(pool, s) == Some(Shape(s.c, h, w));
    RunOne(pool, s);
  }

  /** The window count of a k2/s2 unpadded pool along one axis. */
  lemma HalfWindows(n: nat, ceilMode: bool)
    requires n >= 1
    requires !ceilMode ==> n >= 2
    ensures WindowCount(n, 2, 2, 0, 1, ceilMode) == Some(if ceilMode then (n + 1) / 2 else n / 2)
  {
    if !ceilMode {
      DivBounds(n - 2, 2);
    }
    DivBounds(n - 1, 2);
  }

  /** In ceil mode a window may overhang the input: a k2/s2 pool over one cell
      still gives one window, where floor mode rejects it. */
  lemma CeilPoolOnOne(c: nat)
    ensures ApplyLayer(MaxPool(2, 2, 0, true), Shape(c, 1, 1)) == Some(Shape(c, 1, 1))
    ensures ApplyLayer(MaxPool(2, 2, 0, false), Shape(c, 1, 1)) == None
  {
  }

  /** In ceil mode a window that would start in the right padding is dropped:
      a padded k2/s2 pool over 5 cells gives 3 windows, not ceil(5/2) + 1. */
  lemma CeilDropsPaddedWindow(c: nat)
    ensures ApplyLayer(MaxPool(2, 2, 1, true), Shape(c, 5, 5)) == Some(Shape(c, 3, 3))
  {
  }

  /** A k2/s2 transpose convolution exactly doubles each side. */
  lemma DoublingConvT(s: Shape, outC: nat)
    requires s.h > 0 && s.w > 0
    ensures ApplyLayer(ConvT(s.c, outC, 2, 2), s) == Some(Shape(outC, 2 * s.h, 2 * s.w))
  {
  }
}
