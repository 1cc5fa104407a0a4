/** The layer-list builders of ssd_tme_sw_deconv.py: `vgg`, `add_extras`,
    `SW_modules`, `Extension_modules`, `multibox` and `build_ssd`, with the
    `base`, `extras` and `mbox` tables. Each builder that grows a list in a loop
    is a method proved equal to a specification function; the properties the
    source relies on are lemmas about those functions. */
module Builders {
  import opened Results
  import opened Layers

  /** One item of a configuration list: an int, or one of the strings 'M', 'C', 'S'. */
  datatype Entry = Channels(n: nat) | Pool | CeilPool | Stride

  // ---------------------------------------------------------------- vgg

  /** Conv 3x3 / pad 1 to `v` channels, then ReLU, with a BatchNorm between
      them when `bn` is set. */
  function ConvBlock(inC: nat, v: nat, bn: bool): seq<Layer> {
    if bn then [Conv(inC, v, 3, 1, 1, 1), BatchNorm(v), ReLU]
    else [Conv(inC, v, 3, 1, 1, 1), ReLU]
  }

  /** pool5, conv6 (dilated), ReLU, conv7, ReLU: appended after every table. */
  function VggTail(): seq<Layer> {
    [MaxPool(3, 1, 1, false), Conv(512, 1024, 3, 1, 6, 6), ReLU, Conv(1024, 1024, 1, 1, 0, 1), ReLU]
  }

  /** The layers `vgg` emits for `cfg[k..]` when `inC` channels come in. */
  function VggFrom(cfg: seq<Entry>, k: nat, inC: nat, bn: bool): Result<seq<Layer>>
    requires k <= |cfg|
    decreases |cfg| - k
  {
    if k == |cfg| then Ok(VggTail())
    else match cfg[k]
      case Pool => Prepend([MaxPool(2, 2, 0, false)], VggFrom(cfg, k + 1, inC, bn))
      case CeilPool => Prepend([MaxPool(2, 2, 0, true)], VggFrom(cfg, k + 1, inC, bn))
      case Channels(v) => Prepend(ConvBlock(inC, v, bn), VggFrom(cfg, k + 1, v, bn))
      case Stride => Err(BadChannels)
  }

  /** `vgg(cfg, i, batch_norm)`. */
  method Vgg(cfg: seq<Entry>, i: nat, bn: bool) returns (r: Result<seq<Layer>>)
    ensures r == VggFrom(cfg, 0, i, bn)
  {
    var layers: seq<Layer> := [];
    var inC := i;
    var k := 0;
    PrependNil(VggFrom(cfg, 0, i, bn));
    while k < |cfg|
      invariant 0 <= k <= |cfg|
      invariant VggFrom(cfg, 0, i, bn) == Prepend(layers, VggFrom(cfg, k, inC, bn))
    {
      match cfg[k] {
        case Pool =>
          PrependTwice(layers, [MaxPool(2, 2, 0, false)], VggFrom(cfg, k + 1, inC, bn));
          layers := layers + [MaxPool(2, 2, 0, false)];
        case CeilPool =>
          PrependTwice(layers, [MaxPool(2, 2, 0, true)], VggFrom(cfg, k + 1, inC, bn));
          layers := layers + [MaxPool(2, 2, 0, true)];
        case Stride =>
          return Err(BadChannels);
        case Channels(v) =>
          PrependTwice(layers, ConvBlock(inC, v, bn), VggFrom(cfg, k + 1, v, bn));
          layers := layers + ConvBlock(inC, v, bn);
          inC := v;
      }
      k := k + 1;
    }
    return Ok(layers + VggTail());
  }

  /** The channel count after `cfg[k..]`: its last int, or `c` if there is none. */
  function LastWidth(cfg: seq<Entry>, k: nat, c: nat): nat
    requires k <= |cfg|
    decreases |cfg| - k
  {
    if k == |cfg| then c
    else LastWidth(cfg, k + 1, if cfg[k].Channels? then cfg[k].n else c)
  }

  /** `vgg` raises exactly when the table holds an 'S'. */
  lemma {:induction false} VggSucceeds(cfg: seq<Entry>, k: nat, inC: nat, bn: bool)
    requires k <= |cfg|
    ensures VggFrom(cfg, k, inC, bn).Ok? <==> forall j :: k <= j < |cfg| ==> cfg[j] != Stride
    decreases |cfg| - k
  {
    if k < |cfg| && cfg[k] != Stride {
      VggSucceeds(cfg, k + 1, if cfg[k].Channels? then cfg[k].n else inC, bn);
    }
  }

  lemma BlockChained(inC: nat, v: nat, bn: bool)
    ensures Chained(ConvBlock(inC, v, bn), inC)
    ensures CarryAll(ConvBlock(inC, v, bn), inC) == v
  {
    ChainedCons(ReLU, [], v);
    ChainedCons(BatchNorm(v), [ReLU], v);
    ChainedCons(Conv(inC, v, 3, 1, 1, 1), [ReLU], inC);
    ChainedCons(Conv(inC, v, 3, 1, 1, 1), [BatchNorm(v), ReLU], inC);
  }

  lemma TailChained(c: nat)
    ensures Chained(VggTail(), c) <==> c == 512
    ensures CarryAll(VggTail(), c) == 1024
  {
    ChainedCons(ReLU, [], 1024);
    ChainedCons(Conv(1024, 1024, 1, 1, 0, 1), [ReLU], 1024);
    ChainedCons(ReLU, [Conv(1024, 1024, 1, 1, 0, 1), ReLU], 1024);
    ChainedCons(Conv(512, 1024, 3, 1, 6, 6), [ReLU, Conv(1024, 1024, 1, 1, 0, 1), ReLU], c);
    ChainedCons(MaxPool(3, 1, 1, false), VggTail()[1..], c);
    assert VggTail() == [MaxPool(3, 1, 1, false)] + VggTail()[1..];
  }

  /** The convolutions `vgg` emits feed each other: every conv (and batch norm)
      reads the channel count the previous conv wrote, the first reads `inC`. The
      hard-coded 512 of conv6 fits exactly when the table's last int is 512. */
  lemma {:induction false} VggChained(cfg: seq<Entry>, k: nat, inC: nat, bn: bool)
    requires k <= |cfg|
    requires VggFrom(cfg, k, inC, bn).Ok?
    ensures Chained(VggFrom(cfg, k, inC, bn).value, inC) <==> LastWidth(cfg, k, inC) == 512
    ensures CarryAll(VggFrom(cfg, k, inC, bn).value, inC) == 1024
    decreases |cfg| - k
  {
    if k == |cfg| {
      TailChained(inC);
    } else {
      match cfg[k]
      case Pool =>
        VggChained(cfg, k + 1, inC, bn);
        ChainedCons(MaxPool(2, 2, 0, false), VggFrom(cfg, k + 1, inC, bn).value, inC);
      case CeilPool =>
        VggChained(cfg, k + 1, inC, bn);
        ChainedCons(MaxPool(2, 2, 0, true), VggFrom(cfg, k + 1, inC, bn).value, inC);
      case Channels(v) =>
        VggChained(cfg, k + 1, v, bn);
        BlockChained(inC, v, bn);
        ChainedAppend(ConvBlock(inC, v, bn), VggFrom(cfg, k + 1, v, bn).value, inC);
    }
  }

  // ---------------------------------------------------------------- SW and EX modules

  /** `SW_modules(c)`: a 1x1 conv to 2c channels, then a 1x1 conv to one channel. */
  function SwModules(c: nat): seq<Layer> {
    [Conv(c, 2 * c, 1, 1, 0, 1), Conv(2 * c, 1, 1, 1, 0, 1)]
  }

  /** `Extension_modules(i, o)`: a k2/s2 transpose conv i -> o and a 3x3 conv for
      the deeper level, two 3x3 convs for the level itself. */
  function ExtensionModules(i: nat, o: nat): seq<Layer> {
    [ConvT(i, o, 2, 2), Conv(o, o, 3, 1, 1, 1), Conv(o, o, 3, 1, 1, 1), Conv(o, o, 3, 1, 1, 1)]
  }

  /** A side module turns a c-channel map into a one-channel gate of the same size. */
  lemma SwGate(c: nat, h: nat, w: nat)
    requires h > 0 && w > 0
    ensures Run(SwModules(c), Shape(c, h, w)) == Some(Shape(1, h, w))
  {
    SamePaddingKeepsSize(Shape(c, h, w), 2 * c, 1, 0, 1);
    SamePaddingKeepsSize(Shape(2 * c, h, w), 1, 1, 0, 1);
    RunPair(Conv(c, 2 * c, 1, 1, 0, 1), Conv(2 * c, 1, 1, 1, 0, 1), Shape(c, h, w));
  }

  /** Of an extension module, the first pair lifts an (i, h, w) map to (o, 2h, 2w),
      and the second pair keeps an (o, h, w) map as it is: the two halves of a
      fused level agree when the deeper level has half the resolution. */
  lemma ExtensionBranches(i: nat, o: nat, h: nat, w: nat)
    requires h > 0 && w > 0
    ensures Run(ExtensionModules(i, o)[..2], Shape(i, h, w)) == Some(Shape(o, 2 * h, 2 * w))
    ensures Run(ExtensionModules(i, o)[2..], Shape(o, h, w)) == Some(Shape(o, h, w))
  {
    var e := ExtensionModules(i, o);
    DoublingConvT(Shape(i, h, w), o);
    SamePaddingKeepsSize(Shape(o, 2 * h, 2 * w), o, 3, 1, 1);
    assert e[..2] == [ConvT(i, o, 2, 2), Conv(o, o, 3, 1, 1, 1)];
    RunPair(ConvT(i, o, 2, 2), Conv(o, o, 3, 1, 1, 1), Shape(i, h, w));
    SamePaddingKeepsSize(Shape(o, h, w), o, 3, 1, 1);
    assert e[2..] == [Conv(o, o, 3, 1, 1, 1), Conv(o, o, 3, 1, 1, 1)];
    RunPair(Conv(o, o, 3, 1, 1, 1), Conv(o, o, 3, 1, 1, 1), Shape(o, h, w));
  }

  /** The sw_layers list: side modules for conv4_3 (512), fc7 (1024) and the
      first extra source (512). */
  function SwTable(): seq<Layer> {
    SwModules(512) + SwModules(1024) + SwModules(512)
  }

  /** The ex_layers list: one extension module per fused level. */
  function ExTable(): seq<Layer> {
    ExtensionModules(1024, 512) + ExtensionModules(512, 1024)
      + ExtensionModules(256, 512) + ExtensionModules(256, 256)
  }

  // ---------------------------------------------------------------- add_extras

  /** `(1, 3)[flag]`. */
  function Kernel(flag: bool): nat {
    if flag then 3 else 1
  }

  /** The layers `add_extras` emits for `cfg[k..]`, where `prev` is the
      variable `in_channels` (the previous item, or `i` at first) and `flag`
      selects the kernel. */
  function ExtrasFrom(cfg: seq<Entry>, k: nat, prev: Entry, flag: bool, size: int): Result<seq<Layer>>
    requires k <= |cfg|
    decreases |cfg| - k
  {
    if k == |cfg| then
      if size != 512 then Ok([])
      else if prev.Channels? then Ok([Conv(prev.n, 256, 4, 1, 1, 1)])
      else Err(BadChannels)
    else if prev == Stride then ExtrasFrom(cfg, k + 1, cfg[k], flag, size)
    else if !prev.Channels? then Err(BadChannels)
    else if cfg[k] == Stride then
      if k + 1 == |cfg| then Err(IndexOutOfRange)
      else if !cfg[k + 1].Channels? then Err(BadChannels)
      else Prepend([Conv(prev.n, cfg[k + 1].n, Kernel(flag), 2, 1, 1)],
                   ExtrasFrom(cfg, k + 1, cfg[k], !flag, size))
    else if !cfg[k].Channels? then Err(BadChannels)
    else Prepend([Conv(prev.n, cfg[k].n, Kernel(flag), 1, 0, 1)],
                 ExtrasFrom(cfg, k + 1, cfg[k], !flag, size))
  }

  /** The three lists `add_extras` returns. */
  datatype ExtraTables = ExtraTables(extras: seq<Layer>, sw: seq<Layer>, ex: seq<Layer>)

  /** `add_extras(cfg, size, i)`. */
  function AddExtrasSpec(cfg: seq<Entry>, size: int, i: nat): (r: Result<ExtraTables>)
    ensures r.Ok? ==> |r.value.sw| == 6 && |r.value.ex| == 16
  {
    match ExtrasFrom(cfg, 0, Channels(i), false, size)
    case Ok(layers) => Ok(ExtraTables(layers, SwTable(), ExTable()))
    case Err(e) => Err(e)
  }

  /** `add_extras(cfg, size, i)`, as the source runs it. */
  method AddExtras(cfg: seq<Entry>, size: int, i: nat) returns (r: Result<ExtraTables>)
    ensures r == AddExtrasSpec(cfg, size, i)
  {
    var layers: seq<Layer> := [];
    var prev := Channels(i);
    var flag := false;
    var k := 0;
    PrependNil(ExtrasFrom(cfg, 0, Channels(i), false, size));
    while k < |cfg|
      invariant 0 <= k <= |cfg|
      invariant ExtrasFrom(cfg, 0, Channels(i), false, size)
                == Prepend(layers, ExtrasFrom(cfg, k, prev, flag, size))
    {
      var v := cfg[k];
      if prev != Stride {
        if !prev.Channels? {
          return Err(BadChannels);
        }
        var conv: Layer;
        if v == Stride {
          if k + 1 == |cfg| {
            return Err(IndexOutOfRange);
          }
          if !cfg[k + 1].Channels? {
            return Err(BadChannels);
          }
          conv := Conv(prev.n, cfg[k + 1].n, Kernel(flag), 2, 1, 1);
        } else {
          if !v.Channels? {
            return Err(BadChannels);
          }
          conv := Conv(prev.n, v.n, Kernel(flag), 1, 0, 1);
        }
        PrependTwice(layers, [conv], ExtrasFrom(cfg, k + 1, v, !flag, size));
        layers := layers + [conv];
        flag := !flag;
      }
      prev := v;
      k := k + 1;
    }
    if size == 512 {
      if !prev.Channels? {
        return Err(BadChannels);
      }
      layers := layers + [Conv(prev.n, 256, 4, 1, 1, 1)];
    } else {
      assert layers + [] == layers;
    }
    return Ok(ExtraTables(layers, SwTable(), ExTable()));
  }

  /** An extras table `add_extras` accepts: every 'S' is followed by an int, and
      there is no 'M' or 'C'. */
  predicate ExtrasWellFormed(cfg: seq<Entry>) {
    forall j :: 0 <= j < |cfg| ==> EntryFits(cfg, j)
  }

  predicate EntryFits(cfg: seq<Entry>, j: nat)
    requires j < |cfg|
  {
    cfg[j].Channels? || (cfg[j] == Stride && j + 1 < |cfg| && cfg[j + 1].Channels?)
  }

  lemma {:induction false} ExtrasSucceedFrom(cfg: seq<Entry>, k: nat, c: nat, flag: bool, size: int)
    requires k <= |cfg|
    ensures ExtrasFrom(cfg, k, Channels(c), flag, size).Ok? <==>
      forall j :: k <= j < |cfg| ==> EntryFits(cfg, j)
    decreases |cfg| - k
  {
    if k < |cfg| {
      if cfg[k] == Stride && k + 1 < |cfg| && cfg[k + 1].Channels? {
        if k + 2 <= |cfg| {
          ExtrasSucceedFrom(cfg, k + 2, cfg[k + 1].n, !flag, size);
        }
      } else if cfg[k].Channels? {
        ExtrasSucceedFrom(cfg, k + 1, cfg[k].n, !flag, size);
      } else {
        assert !EntryFits(cfg, k);
      }
    }
  }

  /** `add_extras` raises exactly on a table that is not well formed. */
  lemma ExtrasSucceed(cfg: seq<Entry>, size: int, i: nat)
    ensures AddExtrasSpec(cfg, size, i).Ok? <==> ExtrasWellFormed(cfg)
  {
    ExtrasSucceedFrom(cfg, 0, i, false, size);
  }

  /** How many 'S' items `cfg[k..]` holds. */
  function Strides(cfg: seq<Entry>, k: nat): nat
    requires k <= |cfg|
    decreases |cfg| - k
  {
    if k == |cfg| then 0 else (if cfg[k] == Stride then 1 else 0) + Strides(cfg, k + 1)
  }

  /** How many stride-2 convolutions a list holds. */
  function Strided(layers: seq<Layer>): nat
    decreases |layers|
  {
    if layers == [] then 0
    else (if layers[0].Conv? && layers[0].stride == 2 then 1 else 0) + Strided(layers[1..])
  }

  /** The conv that size 512 appends after the table. */
  function TailLen(size: int): nat {
    if size == 512 then 1 else 0
  }

  /** A well-formed table emits one conv per item, except that an 'S' and the
      int after it emit a single stride-2 conv between them; size 512 adds one
      conv more. */
  lemma {:induction false} ExtrasCount(cfg: seq<Entry>, k: nat, c: nat, flag: bool, size: int)
    requires k <= |cfg|
    requires forall j :: k <= j < |cfg| ==> EntryFits(cfg, j)
    ensures ExtrasFrom(cfg, k, Channels(c), flag, size).Ok?
    ensures |ExtrasFrom(cfg, k, Channels(c), flag, size).value|
            == |cfg| - k - Strides(cfg, k) + TailLen(size)
    ensures Strided(ExtrasFrom(cfg, k, Channels(c), flag, size).value) == Strides(cfg, k)
    decreases |cfg| - k
  {
    ExtrasSucceedFrom(cfg, k, c, flag, size);
    var layers := ExtrasFrom(cfg, k, Channels(c), flag, size).value;
    if k == |cfg| {
      if size == 512 {
        assert layers[1..] == [];
      }
    } else if cfg[k] == Stride {
      ExtrasCount(cfg, k + 2, cfg[k + 1].n, !flag, size);
      assert layers[1..] == ExtrasFrom(cfg, k + 2, cfg[k + 1], !flag, size).value;
    } else {
      ExtrasCount(cfg, k + 1, cfg[k].n, !flag, size);
      assert layers[1..] == ExtrasFrom(cfg, k + 1, cfg[k], !flag, size).value;
    }
  }

  /** The emitted convs alternate kernel 1, 3, 1, 3, ... (the flag toggles only
      when a conv is emitted); each is stride 1 / pad 0, or stride 2 / pad 1. */
  lemma {:induction false} ExtrasKernels(cfg: seq<Entry>, k: nat, c: nat, flag: bool, size: int)
    requires k <= |cfg|
    requires forall j :: k <= j < |cfg| ==> EntryFits(cfg, j)
    ensures ExtrasFrom(cfg, k, Channels(c), flag, size).Ok?
    ensures var layers := ExtrasFrom(cfg, k, Channels(c), flag, size).value;
      forall j :: 0 <= j < |layers| - TailLen(size) ==>
        layers[j].Conv? && layers[j].kernel == Kernel(flag != (j % 2 == 1))
        && ((layers[j].stride == 1 && layers[j].pad == 0) || (layers[j].stride == 2 && layers[j].pad == 1))
    decreases |cfg| - k
  {
    ExtrasSucceedFrom(cfg, k, c, flag, size);
    var layers := ExtrasFrom(cfg, k, Channels(c), flag, size).value;
    if k < |cfg| {
      var next := if cfg[k] == Stride then k + 2 else k + 1;
      var out := if cfg[k] == Stride then cfg[k + 1] else cfg[k];
      ExtrasKernels(cfg, next, out.n, !flag, size);
      var rest := ExtrasFrom(cfg, next, out, !flag, size).value;
      assert layers == [layers[0]] + rest;
      forall j | 1 <= j < |layers| - TailLen(size)
        ensures layers[j].Conv? && layers[j].kernel == Kernel(flag != (j % 2 == 1))
      {
        assert layers[j] == rest[j - 1];
      }
    }
  }

  /** With size 512 the list ends in a k4/p1 conv from the table's last int to 256. */
  lemma {:induction false} ExtrasTail(cfg: seq<Entry>, k: nat, c: nat, flag: bool)
    requires k <= |cfg|
    requires forall j :: k <= j < |cfg| ==> EntryFits(cfg, j)
    ensures ExtrasFrom(cfg, k, Channels(c), flag, 512).Ok?
    ensures var layers := ExtrasFrom(cfg, k, Channels(c), flag, 512).value;
      |layers| > 0 && layers[|layers| - 1] == Conv(LastWidth(cfg, k, c), 256, 4, 1, 1, 1)
    decreases |cfg| - k
  {
    ExtrasSucceedFrom(cfg, k, c, flag, 512);
    if k < |cfg| {
      if cfg[k] == Stride {
        ExtrasTail(cfg, k + 2, cfg[k + 1].n, !flag);
      } else {
        ExtrasTail(cfg, k + 1, cfg[k].n, !flag);
      }
    }
  }

  /** Each emitted conv reads what the previous one wrote, the first `c`. */
  lemma {:induction false} ExtrasChained(cfg: seq<Entry>, k: nat, c: nat, flag: bool, size: int)
    requires k <= |cfg|
    requires forall j :: k <= j < |cfg| ==> EntryFits(cfg, j)
    ensures ExtrasFrom(cfg, k, Channels(c), flag, size).Ok?
    ensures Chained(ExtrasFrom(cfg, k, Channels(c), flag, size).value, c)
    decreases |cfg| - k
  {
    ExtrasSucceedFrom(cfg, k, c, flag, size);
    if k == |cfg| {
      if size == 512 {
        ChainedCons(Conv(c, 256, 4, 1, 1, 1), [], c);
      }
    } else {
      var next := if cfg[k] == Stride then k + 2 else k + 1;
      var out := if cfg[k] == Stride then cfg[k + 1] else cfg[k];
      ExtrasChained(cfg, next, out.n, !flag, size);
      var rest := ExtrasFrom(cfg, next, out, !flag, size).value;
      var layers := ExtrasFrom(cfg, k, Channels(c), flag, size).value;
      ChainedCons(layers[0], rest, c);
      assert layers == [layers[0]] + rest;
    }
  }

  /** An int of an extras table, and whether an 'S' comes right before it. */
  datatype Out = Out(channels: nat, afterStride: bool)

  /** The ints of `cfg[k..]`, in order. */
  function Outs(cfg: seq<Entry>, k: nat): seq<Out>
    requires k <= |cfg|
    decreases |cfg| - k
  {
    if k == |cfg| then []
    else if cfg[k].Channels? then [Out(cfg[k].n, k > 0 && cfg[k - 1] == Stride)] + Outs(cfg, k + 1)
    else Outs(cfg, k + 1)
  }

  /** Conv j reads the int before it (`c` for the first), writes the j-th int,
      and has stride 2 and padding 1 exactly when an 'S' comes right before
      that int (stride 1 and padding 0 otherwise), with dilation 1. */
  predicate ConvsMatch(layers: seq<Layer>, outs: seq<Out>, c: nat) {
    |outs| <= |layers| && forall j :: 0 <= j < |outs| ==> ConvMatches(layers, outs, c, j)
  }

  predicate ConvMatches(layers: seq<Layer>, outs: seq<Out>, c: nat, j: nat)
    requires j < |outs| <= |layers|
  {
    && layers[j].Conv?
    && layers[j].inC == (if j == 0 then c else outs[j - 1].channels)
    && layers[j].outC == outs[j].channels
    && (layers[j].stride == 2 <==> outs[j].afterStride)
    && layers[j].pad == (if outs[j].afterStride then 1 else 0)
    && layers[j].dilation == 1
  }

  lemma ConvsMatchAt(layers: seq<Layer>, outs: seq<Out>, c: nat, j: nat)
    requires ConvsMatch(layers, outs, c) && j < |outs|
    ensures && layers[j].Conv?
            && layers[j].inC == (if j == 0 then c else outs[j - 1].channels)
            && layers[j].outC == outs[j].channels
            && (layers[j].stride == 2 <==> outs[j].afterStride)
            && layers[j].pad == (if outs[j].afterStride then 1 else 0)
            && layers[j].dilation == 1
  {
    assert ConvMatches(layers, outs, c, j);
  }

  /** A matching conv in front of a matching list. */
  lemma ConvsMatchCons(l: Layer, rest: seq<Layer>, o: Out, tail: seq<Out>, c: nat)
    requires ConvsMatch(rest, tail, o.channels)
    requires l.Conv? && l.inC == c && l.outC == o.channels && (l.stride == 2 <==> o.afterStride)
    requires l.pad == (if o.afterStride then 1 else 0) && l.dilation == 1
    ensures ConvsMatch([l] + rest, [o] + tail, c)
  {
    var layers, outs := [l] + rest, [o] + tail;
    forall j | 0 <= j < |outs|
      ensures ConvMatches(layers, outs, c, j)
    {
      if j == 0 {
        assert layers[0] == l && outs[0] == o;
      } else {
        assert layers[j] == rest[j - 1] && outs[j] == tail[j - 1];
        ConvsMatchAt(rest, tail, o.channels, j - 1);
        assert outs[j - 1] == if j == 1 then o else tail[j - 2];
      }
    }
  }

  /** One step of `add_extras` from a well-formed position: the conv for the
      next int, in front of the rest. */
  lemma ExtrasStep(cfg: seq<Entry>, k: nat, c: nat, flag: bool, size: int)
    requires k < |cfg|
    requires k == 0 || cfg[k - 1] != Stride
    requires EntryFits(cfg, k)
    ensures var next := if cfg[k] == Stride then k + 2 else k + 1;
      var out := if cfg[k] == Stride then cfg[k + 1] else cfg[k];
      && next <= |cfg| && out.Channels? && cfg[next - 1] == out
      && ExtrasFrom(cfg, k, Channels(c), flag, size) ==
         Prepend([Conv(c, out.n, Kernel(flag), if cfg[k] == Stride then 2 else 1,
                       if cfg[k] == Stride then 1 else 0, 1)],
                 ExtrasFrom(cfg, next, Channels(out.n), !flag, size))
      && Outs(cfg, k) == [Out(out.n, cfg[k] == Stride)] + Outs(cfg, next)
  {
    if cfg[k] == Stride {
      assert Outs(cfg, k) == Outs(cfg, k + 1);
    }
  }

  /** One conv per int of a well-formed table, then the 512 tail: conv j reads
      the int before it (`c` for the first), writes the j-th int, and has
      stride 2 and padding 1 exactly when an 'S' comes right before that int. */
  lemma {:induction false} ExtrasOuts(cfg: seq<Entry>, k: nat, c: nat, flag: bool, size: int)
    requires k <= |cfg|
    requires k == 0 || cfg[k - 1] != Stride
    requires forall j :: k <= j < |cfg| ==> EntryFits(cfg, j)
    ensures ExtrasFrom(cfg, k, Channels(c), flag, size).Ok?
    ensures var layers := ExtrasFrom(cfg, k, Channels(c), flag, size).value;
      |layers| == |Outs(cfg, k)| + TailLen(size) && ConvsMatch(layers, Outs(cfg, k), c)
    decreases |cfg| - k
  {
    ExtrasSucceedFrom(cfg, k, c, flag, size);
    if k == |cfg| {
      if size == 512 {
        assert |ExtrasFrom(cfg, k, Channels(c), flag, size).value| == 1;
      }
    } else {
      assert EntryFits(cfg, k);
      ExtrasStep(cfg, k, c, flag, size);
      var next := if cfg[k] == Stride then k + 2 else k + 1;
      var out := if cfg[k] == Stride then cfg[k + 1] else cfg[k];
      ExtrasOuts(cfg, next, out.n, !flag, size);
      var rest := ExtrasFrom(cfg, next, Channels(out.n), !flag, size).value;
      var l := Conv(c, out.n, Kernel(flag), if cfg[k] == Stride then 2 else 1,
                    if cfg[k] == Stride then 1 else 0, 1);
      ConvsMatchCons(l, rest, Out(out.n, cfg[k] == Stride), Outs(cfg, next), c);
    }
  }

  /** What `add_extras` returns for a well-formed table, from the start. */
  lemma AddExtrasLayout(cfg: seq<Entry>, size: int, i: nat)
    requires ExtrasWellFormed(cfg)
    ensures AddExtrasSpec(cfg, size, i).Ok?
    ensures var layers := AddExtrasSpec(cfg, size, i).value.extras;
      && |layers| == |cfg| - Strides(cfg, 0) + TailLen(size)
      && Strided(layers) == Strides(cfg, 0)
      && Chained(layers, i)
      && (forall j :: 0 <= j < |layers| - TailLen(size) ==>
            layers[j].Conv? && layers[j].kernel == (if j % 2 == 0 then 1 else 3))
      && (size == 512 ==> layers[|layers| - 1] == Conv(LastWidth(cfg, 0, i), 256, 4, 1, 1, 1))
      && |layers| == |Outs(cfg, 0)| + TailLen(size)
      && ConvsMatch(layers, Outs(cfg, 0), i)
  {
    ExtrasOuts(cfg, 0, i, false, size);
    ExtrasCount(cfg, 0, i, false, size);
    ExtrasKernels(cfg, 0, i, false, size);
    ExtrasChained(cfg, 0, i, false, size);
    if size == 512 {
      ExtrasTail(cfg, 0, i, false);
    }
  }

  // ---------------------------------------------------------------- multibox

  /** The loc and conf head lists. */
  datatype HeadTables = HeadTables(loc: seq<Layer>, conf: seq<Layer>)

  /** Output channels of a head: `n` values for each of its `boxes` default
      boxes (4 coordinates for `loc`, `num_classes` scores for `conf`). */
  function HeadWidth(boxes: nat, n: nat): nat {
    boxes * n
  }

  /** One head per source: vgg[24], vgg[-2], and every odd-position extra. */
  function HeadCount(extras: seq<Layer>): nat {
    2 + |extras| / 2
  }

  /** `out_channels` of the layer head `k` is built for. */
  function TapOut(vgg: seq<Layer>, extras: seq<Layer>, k: nat): Result<nat>
    requires k < HeadCount(extras)
  {
    var tap :=
      if k == 0 then (if 24 < |vgg| then Ok(vgg[24]) else Err(IndexOutOfRange))
      else if k == 1 then (if 2 <= |vgg| then Ok(vgg[|vgg| - 2]) else Err(IndexOutOfRange))
      else Ok(extras[2 * (k - 2) + 1]);
    match tap
    case Err(e) => Err(e)
    case Ok(l) => if l.Conv? || l.ConvT? then Ok(l.outC) else Err(NoOutChannels)
  }

  /** Heads `k` onwards, built in the order `multibox` builds them. */
  function HeadsFrom(vgg: seq<Layer>, extras: seq<Layer>, mbox: seq<nat>, nc: nat, k: nat): Result<HeadTables>
    requires k <= HeadCount(extras)
    decreases HeadCount(extras) - k
  {
    if k == HeadCount(extras) then Ok(HeadTables([], []))
    else match TapOut(vgg, extras, k)
      case Err(e) => Err(e)
      case Ok(c) =>
        if k >= |mbox| then Err(IndexOutOfRange)
        else match HeadsFrom(vgg, extras, mbox, nc, k + 1)
          case Err(e) => Err(e)
          case Ok(t) => Ok(HeadTables([Conv(c, HeadWidth(mbox[k], 4), 3, 1, 1, 1)] + t.loc,
                                      [Conv(c, HeadWidth(mbox[k], nc), 3, 1, 1, 1)] + t.conf))
  }

  /** Every source from head `k` on has a channel count and an `mbox` entry. */
  predicate Buildable(vgg: seq<Layer>, extras: seq<Layer>, mbox: seq<nat>, k: nat)
    requires k <= HeadCount(extras)
  {
    forall j :: k <= j < HeadCount(extras) ==> TapOut(vgg, extras, j).Ok? && j < |mbox|
  }

  /** `multibox(vgg, extras, cfg, num_classes)` builds head k with 3x3/pad-1
      convs from its source's channel count to `mbox[k] * 4` loc channels and
      `mbox[k] * num_classes` conf channels; it raises exactly when a source has
      no channel count or `mbox` has fewer entries than there are sources. */
  lemma HeadsLayout(vgg: seq<Layer>, extras: seq<Layer>, mbox: seq<nat>, nc: nat, k: nat)
    requires k <= HeadCount(extras)
    ensures HeadsFrom(vgg, extras, mbox, nc, k).Ok? <==> Buildable(vgg, extras, mbox, k)
    ensures HeadsFrom(vgg, extras, mbox, nc, k).Ok? ==>
      var t := HeadsFrom(vgg, extras, mbox, nc, k).value;
      && |t.loc| == |t.conf| == HeadCount(extras) - k
      && forall j :: k <= j < HeadCount(extras) ==>
           t.loc[j - k] == Conv(TapOut(vgg, extras, j).value, HeadWidth(mbox[j], 4), 3, 1, 1, 1)
           && t.conf[j - k] == Conv(TapOut(vgg, extras, j).value, HeadWidth(mbox[j], nc), 3, 1, 1, 1)
  {
    HeadsOk(vgg, extras, mbox, nc, k);
    if HeadsFrom(vgg, extras, mbox, nc, k).Ok? {
      HeadsContent(vgg, extras, mbox, nc, k);
    }
  }

  /** The heads from `k` on are built exactly when every one of their sources
      has a channel count and an `mbox` entry. */
  lemma {:induction false} HeadsOk(vgg: seq<Layer>, extras: seq<Layer>, mbox: seq<nat>, nc: nat, k: nat)
    requires k <= HeadCount(extras)
    ensures HeadsFrom(vgg, extras, mbox, nc, k).Ok? <==> Buildable(vgg, extras, mbox, k)
    decreases HeadCount(extras) - k
  {
    if k < HeadCount(extras) {
      HeadsOk(vgg, extras, mbox, nc, k + 1);
      BuildableStep(vgg, extras, mbox, k);
      if TapOut(vgg, extras, k).Ok? && k < |mbox| {
        assert HeadsFrom(vgg, extras, mbox, nc, k).Ok? <==> HeadsFrom(vgg, extras, mbox, nc, k + 1).Ok?;
      }
    }
  }

  /** Heads from `k` on can be built when head `k` can and those after it can. */
  lemma BuildableStep(vgg: seq<Layer>, extras: seq<Layer>, mbox: seq<nat>, k: nat)
    requires k < HeadCount(extras)
    ensures Buildable(vgg, extras, mbox, k) <==>
      TapOut(vgg, extras, k).Ok? && k < |mbox| && Buildable(vgg, extras, mbox, k + 1)
  {
    if Buildable(vgg, extras, mbox, k) {
      assert TapOut(vgg, extras, k).Ok? && k < |mbox|;
      forall j | k + 1 <= j < HeadCount(extras) ensures TapOut(vgg, extras, j).Ok? && j < |mbox| {
        assert k <= j;
      }
      assert Buildable(vgg, extras, mbox, k + 1);
    }
    if TapOut(vgg, extras, k).Ok? && k < |mbox| && Buildable(vgg, extras, mbox, k + 1) {
      forall j | k <= j < HeadCount(extras) ensures TapOut(vgg, extras, j).Ok? && j < |mbox| {
        if j > k {
          assert k + 1 <= j;
        }
      }
      assert Buildable(vgg, extras, mbox, k);
    }
  }

  /** Built heads from `k` on: head `j` reads its source's channel count and
      has `mbox[j]` boxes. */
  lemma {:induction false} HeadsContent(vgg: seq<Layer>, extras: seq<Layer>, mbox: seq<nat>, nc: nat, k: nat)
    requires k <= HeadCount(extras) && HeadsFrom(vgg, extras, mbox, nc, k).Ok?
    ensures var t := HeadsFrom(vgg, extras, mbox, nc, k).value;
      && |t.loc| == |t.conf| == HeadCount(extras) - k
      && forall j :: k <= j < HeadCount(extras) ==>
           TapOut(vgg, extras, j).Ok? && j < |mbox|
           && t.loc[j - k] == Conv(TapOut(vgg, extras, j).value, HeadWidth(mbox[j], 4), 3, 1, 1, 1)
           && t.conf[j - k] == Conv(TapOut(vgg, extras, j).value, HeadWidth(mbox[j], nc), 3, 1, 1, 1)
    decreases HeadCount(extras) - k
  {
    if k < HeadCount(extras) {
      var c := TapOut(vgg, extras, k).value;
      var rest := HeadsFrom(vgg, extras, mbox, nc, k + 1);
      HeadsContent(vgg, extras, mbox, nc, k + 1);
      var t := rest.value;
      var r := HeadsFrom(vgg, extras, mbox, nc, k).value;
      assert r == HeadTables([Conv(c, HeadWidth(mbox[k], 4), 3, 1, 1, 1)] + t.loc, [Conv(c, HeadWidth(mbox[k], nc), 3, 1, 1, 1)] + t.conf);
      forall i | 1 <= i < |r.loc|
        ensures r.loc[i] == t.loc[i - 1] && r.conf[i] == t.conf[i - 1]
      {
      }
    }
  }

  /** `multibox(vgg, extras, cfg, num_classes)`: one loop over the two vgg
      sources, then one over the odd-position extras. */
  method Multibox(vgg: seq<Layer>, extras: seq<Layer>, mbox: seq<nat>, nc: nat) returns (r: Result<HeadTables>)
    ensures r == HeadsFrom(vgg, extras, mbox, nc, 0)
  {
    var loc: seq<Layer> := [];
    var conf: seq<Layer> := [];
    var k := 0;
    GlueNil(HeadsFrom(vgg, extras, mbox, nc, 0));
    // vgg_source = [24, -2]
    while k < 2
      invariant 0 <= k <= 2
      invariant |loc| == |conf| == k
      invariant HeadsFrom(vgg, extras, mbox, nc, 0) == Glue(loc, conf, HeadsFrom(vgg, extras, mbox, nc, k))
    {
      var tap := TapOut(vgg, extras, k);
      if tap.Err? {
        return Err(tap.error);
      }
      if k >= |mbox| {
        return Err(IndexOutOfRange);
      }
      var l, c := Conv(tap.value, HeadWidth(mbox[k], 4), 3, 1, 1, 1), Conv(tap.value, HeadWidth(mbox[k], nc), 3, 1, 1, 1);
      GlueTwice(loc, conf, l, c, HeadsFrom(vgg, extras, mbox, nc, k + 1));
      loc, conf := loc + [l], conf + [c];
      k := k + 1;
    }
    // extra_layers[1::2], numbered from 2
    var j := 1;
    while j < |extras|
      invariant 2 <= k <= HeadCount(extras)
      invariant j == 2 * (k - 2) + 1 && j <= |extras| + 1
      invariant |loc| == |conf| == k
      invariant HeadsFrom(vgg, extras, mbox, nc, 0) == Glue(loc, conf, HeadsFrom(vgg, extras, mbox, nc, k))
    {
      var out := OutChannels(extras[j]);
      assert k < HeadCount(extras);
      if out.None? {
        return Err(NoOutChannels);
      }
      if k >= |mbox| {
        return Err(IndexOutOfRange);
      }
      assert TapOut(vgg, extras, k) == Ok(out.value);
      var l, c := Conv(out.value, HeadWidth(mbox[k], 4), 3, 1, 1, 1), Conv(out.value, HeadWidth(mbox[k], nc), 3, 1, 1, 1);
      GlueTwice(loc, conf, l, c, HeadsFrom(vgg, extras, mbox, nc, k + 1));
      loc, conf := loc + [l], conf + [c];
      k, j := k + 1, j + 2;
    }
    assert k == HeadCount(extras);
    assert loc + [] == loc && conf + [] == conf;
    return Ok(HeadTables(loc, conf));
  }

  function Glue(loc: seq<Layer>, conf: seq<Layer>, r: Result<HeadTables>): Result<HeadTables> {
    match r
    case Err(e) => Err(e)
    case Ok(t) => Ok(HeadTables(loc + t.loc, conf + t.conf))
  }

  lemma GlueNil(r: Result<HeadTables>)
    ensures Glue([], [], r) == r
  {
    if r.Ok? {
      assert [] + r.value.loc == r.value.loc && [] + r.value.conf == r.value.conf;
    }
  }

  lemma GlueTwice(loc: seq<Layer>, conf: seq<Layer>, l: Layer, c: Layer, r: Result<HeadTables>)
    ensures Glue(loc, conf, match r case Err(e) => Err(e)
                                  case Ok(t) => Ok(HeadTables([l] + t.loc, [c] + t.conf)))
            == Glue(loc + [l], conf + [c], r)
  {
    if r.Ok? {
      assert loc + ([l] + r.value.loc) == (loc + [l]) + r.value.loc;
      assert conf + ([c] + r.value.conf) == (conf + [c]) + r.value.conf;
    }
  }
}
