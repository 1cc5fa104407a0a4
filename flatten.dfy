/** How `forward` lays the head outputs out as anchors: each level's output is
    permuted to channel-last order, flattened, the levels are concatenated in
    order, and the result is viewed as rows of 4 location values (or of
    `num_classes` confidence values). A tensor of one image is the sequence of
    its values in PyTorch's contiguous order; the batch dimension is left out. */
module HeadFlatten {
  import opened Layers

  function Size(s: Shape): nat {
    s.c * s.h * s.w
  }

  /** Position of (channel, row, column) in (C, H, W) order. */
  function ChwIndex(s: Shape, ch: nat, y: nat, x: nat): nat {
    (ch * s.h + y) * s.w + x
  }

  /** Position of (channel, row, column) in (H, W, C) order. */
  function HwcIndex(s: Shape, ch: nat, y: nat, x: nat): nat {
    (y * s.w + x) * s.c + ch
  }

  /** Multiplication by a natural number is monotonic. */
  lemma MulLe(a: nat, b: nat, c: nat)
    requires a <= b
    ensures a * c <= b * c
  {
  }

  /** Division by `d` recovers quotient and remainder. */
  lemma DivMod(q: nat, r: nat, d: nat)
    requires r < d
    ensures (q * d + r) / d == q && (q * d + r) % d == r
  {
    var n: int := q * d + r;
    var q': int, r': int := n / d, n % d;
    assert n == q' * d + r' && 0 <= r' < d;
    if q' > q {
      MulLe(1, q' - q, d);
    } else if q' < q {
      MulLe(1, q - q', d);
    }
  }

  /** An index `i < a * b` splits into `i / b < a` and `i % b < b`. */
  lemma SplitIndex(i: nat, a: nat, b: nat)
    requires i < a * b
    ensures b > 0 && i / b < a && i == (i / b) * b + i % b
  {
    assert b != 0;
    assert i == (i / b) * b + i % b;
    if i / b >= a {
      MulLe(a, i / b, b);
    }
  }

  /** A row-major index `u * n + v` with `u < m` and `v < n` is below `m * n`. */
  lemma RowMajor(u: nat, v: nat, m: nat, n: nat)
    requires u < m && v < n
    ensures u * n + v < m * n
  {
    MulLe(u + 1, m, n);
  }

  /** Both orders address every cell of the tensor inside its bounds. */
  lemma IndexBounds(s: Shape, ch: nat, y: nat, x: nat)
    requires ch < s.c && y < s.h && x < s.w
    ensures ChwIndex(s, ch, y, x) < Size(s) && HwcIndex(s, ch, y, x) < Size(s)
  {
    RowMajor(ch, y, s.c, s.h);
    RowMajor(ch * s.h + y, x, s.c * s.h, s.w);
    RowMajor(y, x, s.h, s.w);
    RowMajor(y * s.w + x, ch, s.h * s.w, s.c);
    assert s.h * s.w * s.c == s.c * s.h * s.w;
  }

  /** `o.permute(0, 2, 3, 1).contiguous().view(-1)`: the channel becomes the
      fastest-varying index. */
  function Permute<T>(s: Shape, data: seq<T>): (r: seq<T>)
    requires |data| == Size(s)
    ensures |r| == Size(s)
  {
    seq(Size(s), i requires 0 <= i < Size(s) => Cell(s, data, i))
  }

  /** The value the permuted tensor holds at flat position `i`. */
  function Cell<T>(s: Shape, data: seq<T>, i: nat): T
    requires |data| == Size(s) && i < Size(s)
  {
    SplitIndex(i, s.h * s.w, s.c);
    SplitIndex(i / s.c, s.h, s.w);
    IndexBounds(s, i % s.c, i / s.c / s.w, i / s.c % s.w);
    data[ChwIndex(s, i % s.c, i / s.c / s.w, i / s.c % s.w)]
  }

  /** The permutation moves the value at (channel, row, column) from its (C, H, W)
      position to its (H, W, C) position. */
  lemma PermuteAt<T>(s: Shape, data: seq<T>, ch: nat, y: nat, x: nat)
    requires |data| == Size(s) && ch < s.c && y < s.h && x < s.w
    ensures HwcIndex(s, ch, y, x) < Size(s) && ChwIndex(s, ch, y, x) < Size(s)
    ensures Permute(s, data)[HwcIndex(s, ch, y, x)] == data[ChwIndex(s, ch, y, x)]
  {
    IndexBounds(s, ch, y, x);
    var i := HwcIndex(s, ch, y, x);
    var cell := y * s.w + x;
    DivMod(cell, ch, s.c);
    assert i / s.c == cell && i % s.c == ch;
    DivMod(y, x, s.w);
    assert cell / s.w == y && cell % s.w == x;
    assert Permute(s, data)[i] == Cell(s, data, i);
  }

  /** `torch.cat(parts, 1)` of flat tensors. */
  function Cat<T>(parts: seq<seq<T>>): (r: seq<T>)
    decreases |parts|
  {
    if parts == [] then [] else Cat(parts[..|parts| - 1]) + parts[|parts| - 1]
  }

  /** Where part `l` starts in the concatenation. */
  function Offset<T>(parts: seq<seq<T>>, l: nat): nat
    requires l <= |parts|
  {
    |Cat(parts[..l])|
  }

  /** Each part sits in the concatenation at its offset, unchanged. */
  lemma {:induction false} CatAt<T>(parts: seq<seq<T>>, l: nat, i: nat)
    requires l < |parts| && i < |parts[l]|
    ensures Offset(parts, l) + i < |Cat(parts)|
    ensures Cat(parts)[Offset(parts, l) + i] == parts[l][i]
    decreases |parts|
  {
    var n := |parts| - 1;
    assert parts[..n + 1] == parts;
    if l == n {
    } else {
      assert parts[..n][..l] == parts[..l];
      CatAt(parts[..n], l, i);
    }
  }

  /** `view(-1, k)`: consecutive rows of `k` values. */
  function Rows<T>(flat: seq<T>, k: nat): (r: seq<seq<T>>)
    requires k > 0 && |flat| % k == 0
    ensures |r| == |flat| / k
    ensures forall a :: 0 <= a < |r| ==> r[a] == Row(flat, k, a)
  {
    seq(|flat| / k, a requires 0 <= a < |flat| / k => Row(flat, k, a))
  }

  /** Row `a` of `view(-1, k)`: the `k` values from position `k * a` on. */
  function Row<T>(flat: seq<T>, k: nat, a: nat): (r: seq<T>)
    requires k > 0 && |flat| % k == 0 && a < |flat| / k
    ensures |r| == k && k * a + k <= |flat|
    ensures forall j :: 0 <= j < k ==> r[j] == flat[k * a + j]
  {
    assert |flat| == (|flat| / k) * k + |flat| % k;
    MulLe(a + 1, |flat| / k, k);
    flat[k * a .. k * a + k]
  }

  /** The flattened head outputs of all levels, in level order. */
  function Layout<T>(shapes: seq<Shape>, outs: seq<seq<T>>): (r: seq<T>)
    requires |shapes| == |outs| && forall l :: 0 <= l < |outs| ==> |outs[l]| == Size(shapes[l])
  {
    Cat(Parts(shapes, outs))
  }

  /** Number of anchors on the levels before `l`: cells times boxes per cell. */
  function AnchorsBefore(shapes: seq<Shape>, boxes: seq<nat>, l: nat): nat
    requires l <= |shapes| == |boxes|
  {
    if l == 0 then 0 else AnchorsBefore(shapes, boxes, l - 1) + shapes[l - 1].h * shapes[l - 1].w * boxes[l - 1]
  }

  /** Per-level outputs of `k * boxes[l]` channels, each sized for its shape. */
  predicate HeadOutputs<T>(shapes: seq<Shape>, outs: seq<seq<T>>, boxes: seq<nat>, k: nat) {
    |shapes| == |outs| == |boxes| &&
    forall l :: 0 <= l < |outs| ==> shapes[l].c == k * boxes[l] && |outs[l]| == Size(shapes[l])
  }

  function Parts<T>(shapes: seq<Shape>, outs: seq<seq<T>>): (r: seq<seq<T>>)
    requires |shapes| == |outs| && forall l :: 0 <= l < |outs| ==> |outs[l]| == Size(shapes[l])
    ensures |r| == |outs|
  {
    seq(|outs|, l requires 0 <= l < |outs| => Permute(shapes[l], outs[l]))
  }

  /** Level `l` starts in the concatenation after `k` values per anchor of the
      levels before it. */
  lemma {:induction false} OffsetAnchors<T>(shapes: seq<Shape>, outs: seq<seq<T>>, boxes: seq<nat>, k: nat, l: nat)
    requires HeadOutputs(shapes, outs, boxes, k) && l <= |outs|
    ensures Offset(Parts(shapes, outs), l) == k * AnchorsBefore(shapes, boxes, l)
    decreases l
  {
    var parts := Parts(shapes, outs);
    if l > 0 {
      OffsetAnchors(shapes, outs, boxes, k, l - 1);
      var s, b := shapes[l - 1], boxes[l - 1];
      OffsetStep(parts, l);
      assert |parts[l - 1]| == Size(s);
      SizeByBoxes(s, k, b);
      MulAdd(k, AnchorsBefore(shapes, boxes, l - 1), s.h * s.w * b);
    }
  }

  /** Part `l - 1` ends where part `l` starts. */
  lemma OffsetStep<T>(parts: seq<seq<T>>, l: nat)
    requires 0 < l <= |parts|
    ensures Offset(parts, l) == Offset(parts, l - 1) + |parts[l - 1]|
  {
    assert parts[..l][..l - 1] == parts[..l - 1];
  }

  /** A level of `k * b` channels holds `k` values for each of its boxes. */
  lemma SizeByBoxes(s: Shape, k: nat, b: nat)
    requires s.c == k * b
    ensures Size(s) == k * (s.h * s.w * b)
  {
  }

  lemma MulAdd(k: nat, a: nat, n: nat)
    ensures k * a + k * n == k * (a + n)
  {
  }

  /** The anchor that value `ch` of level `l` at (row, column) belongs to. */
  function AnchorIndex(shapes: seq<Shape>, boxes: seq<nat>, k: nat, l: nat, ch: nat, y: nat, x: nat): nat
    requires k > 0 && l < |shapes| == |boxes|
  {
    AnchorsBefore(shapes, boxes, l) + (y * shapes[l].w + x) * boxes[l] + ch / k
  }

  /** `Layout` of `k`-valued anchors: the value of level `l` at (channel, row,
      column) is value `ch % k` of anchor
      `AnchorsBefore(l) + (row * W + column) * boxes[l] + ch / k`, that is
      position `k * anchor + ch % k` of the concatenation, which `Rows` turns
      into that anchor's row. With `k = 4` this is the order of
      `loc.view(batch, -1, 4)`, with `k = num_classes` that of
      `conf.view(batch, -1, num_classes)`. */
  lemma AnchorAt<T>(shapes: seq<Shape>, outs: seq<seq<T>>, boxes: seq<nat>, k: nat,
                    l: nat, ch: nat, y: nat, x: nat)
    requires k > 0 && HeadOutputs(shapes, outs, boxes, k)
    requires l < |outs| && ch < shapes[l].c && y < shapes[l].h && x < shapes[l].w
    ensures |Layout(shapes, outs)| == k * AnchorsBefore(shapes, boxes, |outs|)
    ensures ChwIndex(shapes[l], ch, y, x) < |outs[l]|
    ensures AnchorIndex(shapes, boxes, k, l, ch, y, x) < AnchorsBefore(shapes, boxes, |outs|)
    ensures k * AnchorIndex(shapes, boxes, k, l, ch, y, x) + ch % k < |Layout(shapes, outs)|
    ensures Layout(shapes, outs)[k * AnchorIndex(shapes, boxes, k, l, ch, y, x) + ch % k]
         == outs[l][ChwIndex(shapes[l], ch, y, x)]
  {
    LevelAt(shapes, outs, boxes, k, l, ch, y, x);
    var s, b := shapes[l], boxes[l];
    var before := AnchorsBefore(shapes, boxes, l);
    var cell := y * s.w + x;
    assert HwcIndex(s, ch, y, x) == cell * (k * b) + ch;
    AnchorPos(k, before, cell, b, ch);
    QuotBound(AnchorIndex(shapes, boxes, k, l, ch, y, x), ch % k, AnchorsBefore(shapes, boxes, |outs|), k);
  }

  /** The value of level `l` at (channel, row, column) sits in the layout at the
      level's offset plus its channel-last position. */
  lemma LevelAt<T>(shapes: seq<Shape>, outs: seq<seq<T>>, boxes: seq<nat>, k: nat,
                   l: nat, ch: nat, y: nat, x: nat)
    requires k > 0 && HeadOutputs(shapes, outs, boxes, k)
    requires l < |outs| && ch < shapes[l].c && y < shapes[l].h && x < shapes[l].w
    ensures |Layout(shapes, outs)| == k * AnchorsBefore(shapes, boxes, |outs|)
    ensures ChwIndex(shapes[l], ch, y, x) < |outs[l]|
    ensures k * AnchorsBefore(shapes, boxes, l) + HwcIndex(shapes[l], ch, y, x) < |Layout(shapes, outs)|
    ensures Layout(shapes, outs)[k * AnchorsBefore(shapes, boxes, l) + HwcIndex(shapes[l], ch, y, x)]
         == outs[l][ChwIndex(shapes[l], ch, y, x)]
  {
    var parts := Parts(shapes, outs);
    assert parts[..|outs|] == parts;
    OffsetAnchors(shapes, outs, boxes, k, |outs|);
    OffsetAnchors(shapes, outs, boxes, k, l);
    PermuteAt(shapes[l], outs[l], ch, y, x);
    CatAt(parts, l, HwcIndex(shapes[l], ch, y, x));
  }

  /** Row `a` of the view holds the `k` values from position `k * a` on. */
  lemma RowsAt<T>(flat: seq<T>, k: nat, a: nat, q: nat)
    requires k > 0 && |flat| % k == 0 && a < |flat| / k && q < k
    ensures k * a + q < |flat| && Rows(flat, k)[a][q] == flat[k * a + q]
  {
    var r := Row(flat, k, a);
    assert Rows(flat, k)[a] == r;
  }

  /** The flat position of a value splits into its anchor and its coordinate. */
  lemma AnchorPos(k: nat, before: nat, cell: nat, b: nat, ch: nat)
    requires k > 0
    ensures k * before + cell * (k * b) + ch == k * (before + cell * b + ch / k) + ch % k
  {
    assert ch == k * (ch / k) + ch % k;
    assert cell * (k * b) == k * (cell * b);
  }

  /** A position inside `k * total` values lies in one of `total` rows. */
  lemma QuotBound(a: nat, r: nat, total: nat, k: nat)
    requires k * a + r < k * total
    ensures a < total
  {
    if a >= total {
      MulLe(total, a, k);
    }
  }
}
