# SSD with side-signal gates and extension fusion: structural model

This project models the structural bookkeeping of an SSD object detector
(ssd_tme_sw_deconv.py) and its preset table (data/config.py). It models the
integer and list logic that decides what the network looks like and how data
flows through it. It does not model the tensor arithmetic.

- **Layer-list builders.** `vgg`, `add_extras`, `SW_modules`,
  `Extension_modules`, `multibox` and `build_ssd`, with the `base`, `extras` and
  `mbox` tables. A layer is a record of its constructor arguments (`Conv`,
  `ConvT`, `MaxPool` with or without ceil mode, `ReLU`, `BatchNorm`). `vgg`,
  `add_extras` and `multibox` grow their lists in loops, so each is a method
  with a loop, proved equal to a recursive specification function. The
  properties are lemmas about those functions: channel chaining, kernel
  alternation, layer counts, head widths, and exactly when each builder raises.
- **Shape semantics.** Each layer maps a (channels, height, width) shape by
  PyTorch's integer output-size rule: floor((H + 2p - d(k-1) - 1)/s) + 1. A
  ceil-mode pool takes the ceiling instead, then drops a last window that would
  start in the right padding, so its window may overhang the input by less
  than one stride. A count below 1 is rejected, and so is a pool padded by
  more than half its kernel. A transpose convolution gives (H-1)s + k.
  Elementwise `+` broadcasts.
- **Wiring of `SSD.forward`.** A feature map is a term that records how it was
  computed: a layer of a named module list at an index, an elementwise map, or a
  sum. `Forward.Forward` follows the source's loops and list appends. It is
  proved equal to `Forward.ForwardSpec`, which says which terms become the
  pyramid sources, where the three gates are injected, how level k is fused
  with level k+1, and which head reads which level.
  - `Used` collects the layer indices a term has passed through. The lemmas
    about it prove the order: each source is taken before the gate that
    follows it, the third gate is applied once only, and each extension layer
    serves exactly one level.
  - `ShapeOf` gives a term's shape.
- **Head flattening.** Each head output is permuted to channel-last order,
  flattened, the levels are concatenated, and the result is viewed as rows.
  `HeadFlatten.AnchorAt` proves where each value lands: value `ch % k` of
  anchor `offset(level) + (row * W + col) * boxes + ch / k`.
- **Presets.** The four presets of `v` are constant tables. Lemmas check:
  - that every per-level list has the same length;
  - that box scales chain from one level to the next;
  - that `steps * feature_maps` equals the input size;
  - that `deconv_feature_maps` is `feature_maps` shifted one level down;
  - that the number of boxes per cell matches `mbox`.
- **Cross-checks.** `build_ssd(phase, 512, nc)` is computed layer by layer
  (`Tables.Net512`). Run on a 512x512 image, its seven sources have
  resolutions 64, 32, 16, 8, 4, 2, 1, the `feature_maps` of preset '512'
  (`CrossCheck.Sources512`). Every fused level keeps its source's shape, and
  every head's output has `mbox[k] * 4` location channels and
  `mbox[k] * num_classes` confidence channels. That is 24564 anchors in all.
  For the 300 net, the sources have the resolutions of preset '300'
  (38, 19, 10, 5, 3, 1). But the fusion cannot add its levels: at level 1 it
  lifts 10x10 to 20x20 against 19x19, and at level 3 it lifts 3x3 to 6x6
  against 5x5 (`CrossCheck.Fusion300Fails`). Even with matching shapes,
  `forward` would then read `sources[6]`, which the 300 net, with its six
  sources, does not have.

Two points of the code's order and indexing:
- **Gate order.** Each source is appended before its gate is applied to `x`
  (ssd_tme_sw_deconv.py:82-87, 92-97, 103-110), so the gated map feeds only
  later layers.
- **Head input for level 0.** `multibox` sizes head 0 from `vgg[24]`, which is
  conv5_1. `forward` feeds it the output after `vgg[22]`, conv4_3's ReLU. The
  model proves that both have 512 channels (`Tables.VggTaps`,
  `CrossCheck.Sources512`), so the head fits.

Python exceptions are modelled as `Err` values of `Results.Error`:
- `IndexOutOfRange` for a subscript past the end of a list;
- `BadChannels` for a string entry used as a channel count;
- `NoOutChannels` for a missing `out_channels`;
- `MissingKey` for a table lookup that fails.

A shape mismatch is a `None` of `ShapeOf`.

## Model

| member | source | states |
|---|---|---|
| Layers.WindowCount | ssd_tme_sw_deconv.py:164-180 | Window positions along an axis. They exist exactly when the stride and kernel are positive and, in floor mode, the dilated kernel fits the padded input; in ceil mode, when the span is above minus one stride and the input or padding is non-empty. An existing count is at least 1. |
| Layers.WindowsFit | ssd_tme_sw_deconv.py:164-180 | The count `WindowCount` gives is the one its mode means. In floor mode the last window starts inside the span. In ceil mode no window is redundant, and the windows reach the end of the span unless one more would start in the right padding. With a pool's padding the last window starts before the right padding. |
| Layers.ApplyLayer | ssd_tme_sw_deconv.py:164-180 | A conv or transpose conv accepts only its input channel count and produces its output count. Pools keep the channels, and a pool padded by more than half its kernel is rejected. ReLU and BatchNorm keep the shape. |
| Layers.RunAppend | ssd_tme_sw_deconv.py:164-180 | Running a concatenated layer list runs the first part, then the second part on its result. |
| Layers.RunChained | ssd_tme_sw_deconv.py:164-180 | A layer list that runs on a shape has chained channel counts, and its result carries the list's final channel count. |
| Layers.ChainedAppend | ssd_tme_sw_deconv.py:164-180 | A concatenation has chained channels exactly when each part does, the second starting from the count the first ends with. |
| Layers.SamePaddingKeepsSize | ssd_tme_sw_deconv.py:170-178 | Each stride-1 conv of the network keeps the spatial size: 3x3/pad 1, conv6 with pad 6 and dilation 6, and 1x1. |
| Layers.HalvingPool | ssd_tme_sw_deconv.py:165-168 | A 2x2/stride-2 pool halves each side, rounding down, or rounding up for 'C', where a side of 1 still gives one window. |
| Layers.DoublingConvT | ssd_tme_sw_deconv.py:193 | A 2x2/stride-2 transpose conv doubles each side. |
| Builders.Vgg | ssd_tme_sw_deconv.py:161-181 | The loop returns exactly `VggFrom(cfg, 0, i, bn)`: conv+ReLU per int (conv+BN+ReLU with batch_norm), a pool per 'M' or 'C', then the fixed tail. |
| Builders.VggSucceeds | ssd_tme_sw_deconv.py:164-175 | `vgg` raises exactly when the table holds an 'S'. |
| Builders.VggChained | ssd_tme_sw_deconv.py:164-181 | Each conv reads the channel count the previous conv wrote, and the first reads `i`. The hard-coded 512 input of conv6 fits exactly when the table's last int is 512. The list ends at 1024 channels. |
| Builders.BlockChained | ssd_tme_sw_deconv.py:170-175 | A conv block reads `in_channels` and leaves `v`. |
| Builders.TailChained | ssd_tme_sw_deconv.py:176-180 | pool5, conv6, conv7 chain from exactly 512 channels and end at 1024. |
| Builders.SwGate | ssd_tme_sw_deconv.py:183-189 | `SW_modules(c)` turns a c-channel map into a one-channel map of the same size. |
| Builders.ExtensionBranches | ssd_tme_sw_deconv.py:191-197 | The first pair of `Extension_modules(i, o)` lifts (i, h, w) to (o, 2h, 2w). The second pair keeps (o, h, w). |
| Builders.AddExtrasSpec | ssd_tme_sw_deconv.py:220-229 | On success `add_extras` returns 6 gate layers and 16 extension layers. |
| Builders.AddExtras | ssd_tme_sw_deconv.py:200-229 | The loop with `in_channels` and `flag` returns exactly `AddExtrasSpec`, errors included. |
| Builders.ExtrasSucceedFrom | ssd_tme_sw_deconv.py:207-218 | From any position, the rest of the table is built exactly when every remaining 'S' is followed by an int and every other entry is an int. |
| Builders.ExtrasSucceed | ssd_tme_sw_deconv.py:200-229 | `add_extras` raises exactly on a table that is not well formed. |
| Builders.ExtrasCount | ssd_tme_sw_deconv.py:207-218 | The number of convs is the number of entries less the number of 'S' entries, plus one for size 512. The number of stride-2 convs equals the number of 'S' entries. |
| Builders.ExtrasKernels | ssd_tme_sw_deconv.py:208-215 | The emitted convs alternate kernel 1, 3, 1, 3, because the flag toggles only when a conv is emitted. Each is stride 1/pad 0 or stride 2/pad 1. |
| Builders.ExtrasTail | ssd_tme_sw_deconv.py:217-218 | With size 512 the list ends in a 4x4/pad-1 conv from the table's last int to 256. |
| Builders.ExtrasChained | ssd_tme_sw_deconv.py:208-218 | The extra convs chain: the first reads `i`, and each later one reads the channel count the previous one wrote. |
| Builders.ExtrasOuts | ssd_tme_sw_deconv.py:207-218 | For any well-formed table: one conv per int of the table, then the 512 tail. Conv j reads the int before it (the starting count for the first) and writes the j-th int. It has stride 2 and padding 1 exactly when an 'S' comes right before that int, stride 1 and padding 0 otherwise, and dilation 1. |
| Builders.AddExtrasLayout | ssd_tme_sw_deconv.py:200-229 | For a well-formed table, all of the above from the start: count, stride-2 count, chaining, kernel alternation, the 512 tail conv, and conv j writing the j-th int with stride 2 and padding 1 exactly after an 'S'. |
| Builders.HeadsLayout | ssd_tme_sw_deconv.py:232-249 | `multibox` succeeds exactly when every source has an `out_channels` and an `mbox` entry. Head k's loc conv maps the source's channels to `mbox[k] * 4`, and its conf conv to `mbox[k] * num_classes`. |
| Builders.HeadsOk | ssd_tme_sw_deconv.py:236-247 | The heads from k on are built exactly when every source from k on can be read. |
| Builders.HeadsContent | ssd_tme_sw_deconv.py:236-247 | Built heads from k on: their number, and each head's input channels and widths. |
| Builders.Multibox | ssd_tme_sw_deconv.py:232-249 | A loop over the two vgg sources and a loop over the odd-position extras return exactly `HeadsFrom(vgg, extras, mbox, nc, 0)`, errors included. |
| Tables.VggOfBaseTable | ssd_tme_sw_deconv.py:252-257 | `vgg(base['300'], 3)` and `vgg(base['512'], 3)` build the 35-layer VGG16 list with its tail. |
| Tables.VggTaps | ssd_tme_sw_deconv.py:236-238 | That list has 35 layers. `vgg[24]` is a 512-output conv and `vgg[-2]` is conv7 (1024). |
| Tables.ExtrasOfTable300 | ssd_tme_sw_deconv.py:258-260 | `add_extras(extras['300'], 300, 1024)` builds the 8 listed convs. |
| Tables.ExtrasOfTable512 | ssd_tme_sw_deconv.py:258-261 | `add_extras(extras['512'], 512, 1024)` builds the 10 listed convs, ending with conv12_2. |
| Tables.Taps300 | ssd_tme_sw_deconv.py:236-247 | The 300 net's six heads read 512, 1024, 512, 256, 256, 256 channels. |
| Tables.Taps512 | ssd_tme_sw_deconv.py:236-247 | The 512 net's seven heads read 512, 1024, 512, 256, 256, 256, 256 channels. |
| Tables.Heads300 | ssd_tme_sw_deconv.py:262-265 | `multibox` on the 300 net builds one loc and one conf conv per entry of `mbox['300']`. |
| Tables.Heads512 | ssd_tme_sw_deconv.py:262-265 | The same for `mbox['512']`. |
| Tables.BuildSsdGuards | ssd_tme_sw_deconv.py:268-282 | `build_ssd` returns nothing exactly when the phase is not test/train or the size is not 300/512/1024. Size 1024 raises a KeyError on the tables. Sizes 300 and 512 build a network. |
| Tables.Net300 | ssd_tme_sw_deconv.py:268-282 | `build_ssd(phase, 300, nc)` gives the 35 vgg layers, 8 extras, 6 gate layers, 16 extension layers and 6 heads. |
| Tables.Net512 | ssd_tme_sw_deconv.py:268-282 | `build_ssd(phase, 512, nc)` gives the 35 vgg layers, 10 extras, 6 gate layers, 16 extension layers and 7 heads. |
| Forward.Forward | ssd_tme_sw_deconv.py:73-129 | `forward` gets past all its subscripts exactly when the lists are long enough (`Runs`), and otherwise raises an IndexError. On success its trace is `ForwardSpec`. |
| Forward.Backbone | ssd_tme_sw_deconv.py:78-97 | The vgg loops and the first two gates: conv4_3 and fc7 become sources 0 and 1. It needs 23 vgg layers and 4 gate layers. |
| Forward.ExtrasPass | ssd_tme_sw_deconv.py:99-110 | The extras loop appends a source after every odd-position layer and applies the third gate after the first of them only. It needs 6 gate layers once two extras exist. |
| Forward.FusePass | ssd_tme_sw_deconv.py:113-124 | The fusion loop and the three copied levels give `Fused(sources)`. It needs 7 sources and 16 extension layers. |
| Forward.HeadsPass | ssd_tme_sw_deconv.py:127-129 | `zip` stops at the shortest list. Output j applies loc/conf head j to fused level j. |
| Forward.UsedVgg | ssd_tme_sw_deconv.py:78-91 | Running `vgg[lo..hi)` adds exactly the vgg indices lo..hi-1. |
| Forward.UsedGate | ssd_tme_sw_deconv.py:84-87 | Gate j adds exactly gate layers 2j and 2j+1. |
| Forward.UsedExtrasStep | ssd_tme_sw_deconv.py:101-110 | One pass of the extras loop adds its extra layer, plus gate layers 4 and 5 after the pass over layer 1. |
| Forward.UsedExtras | ssd_tme_sw_deconv.py:101-110 | After k passes, exactly extra layers 0..k-1 have been used, and gate (4, 5) once k >= 2. |
| Forward.UsedFc7 | ssd_tme_sw_deconv.py:78-91 | fc7 has passed all of `vgg` and gate (0, 1). |
| Forward.BackboneOrder | ssd_tme_sw_deconv.py:78-91 | Source 0 has passed `vgg[0..23)` and no gate. Source 1 has passed all of `vgg` and only gate (0, 1). Neither has passed an extra layer. |
| Forward.InjectionOrder | ssd_tme_sw_deconv.py:99-110 | Source 2+i has passed exactly extra layers 0..2i+1. The first extra source has passed gates (0,1) and (2,3); every later one has also passed (4,5). So each source is taken before the gate that follows it. |
| Forward.TapOrder | ssd_tme_sw_deconv.py:99-110 | The same for one extra source, over all three module lists. |
| Forward.UsedTap | ssd_tme_sw_deconv.py:92-110 | The layers under extra source m, for any input term. |
| Forward.UsedFuse | ssd_tme_sw_deconv.py:114-121 | Fused level k adds exactly extension layers 4k..4k+3 to what its two inputs used. |
| Forward.FusionLevels | ssd_tme_sw_deconv.py:113-124 | For k < 4, fused level k uses extension layers 4k..4k+3 on top of sources k and k+1, so each extension layer serves one level. Levels 4..6 are the sources themselves. |
| FeatShapes.BroadcastDim | ssd_tme_sw_deconv.py:87 | One axis of `+` exists exactly when the sizes are equal or one is 1, and then takes the size that is not 1. |
| FeatShapes.ShapeVgg | ssd_tme_sw_deconv.py:78-91 | The shape of `vgg[lo..hi)` applied to a term is that slice run on the term's shape. |
| FeatShapes.GateKeepsShape | ssd_tme_sw_deconv.py:84-87 | A gate built from `SW_modules(c)` keeps the shape of a c-channel map: its one-channel output is broadcast over the channels. |
| FeatShapes.LiftShape | ssd_tme_sw_deconv.py:116-117 | The lifting branch of a fused level maps (i, h, w) to (o, 2h, 2w). |
| FeatShapes.KeepShape | ssd_tme_sw_deconv.py:118-119 | The keeping branch leaves (o, H, W) as it is. |
| FeatShapes.FuseShape | ssd_tme_sw_deconv.py:114-121 | The fused sum exists exactly when each side of the finer map is double the coarser one's, or 1. When the sides double exactly, the sum keeps the finer map's shape. |
| CrossCheck.VggFront | ssd_tme_sw_deconv.py:161-181 | `vgg[0..23)` takes a 3-channel image of side n >= 12 to 512 channels at side ((n/2)/2 + 1)/2. |
| CrossCheck.Conv3Stage | ssd_tme_sw_deconv.py:167-168 | The conv3 stage with its 'C' pool rounds an odd side up, down to a side of 1. |
| CrossCheck.TailStage | ssd_tme_sw_deconv.py:176-180 | pool5, conv6, conv7 keep the side and widen 512 channels to 1024. |
| CrossCheck.VggBack | ssd_tme_sw_deconv.py:161-181 | `vgg[23..]` takes conv4_3's map to fc7: pool4 halves the side, and the channels grow to 1024. |
| CrossCheck.SwPairs | ssd_tme_sw_deconv.py:220-222 | The gate pairs (0,1), (2,3), (4,5) are the side modules for 512, 1024 and 512 channels. |
| CrossCheck.StemShapes | ssd_tme_sw_deconv.py:78-97 | For an image of side n, conv4_3 is (512, c, c) and fc7 is (1024, c/2, c/2), and each gate keeps its map. |
| CrossCheck.ExtrasShapes | ssd_tme_sw_deconv.py:101-110 | The extras loop follows a chain of shapes when each extra layer maps each shape to the next and the third gate fits. |
| CrossCheck.TapShape | ssd_tme_sw_deconv.py:103-104 | Extra source i has the shape after layer 2i+1. |
| CrossCheck.ExtrasRun512 | ssd_tme_sw_deconv.py:208-218 | From fc7 at 32x32, the 512 net's odd-position extras give sides 16, 8, 4, 2, and the final k4/p1 conv takes 2x2 to 1x1. |
| CrossCheck.ExtrasRun300 | ssd_tme_sw_deconv.py:208-215 | From fc7 at 19x19, the 300 net's extras give 10, 5, 3, 1. |
| CrossCheck.SourceLevels | ssd_tme_sw_deconv.py:99-110 | Sources whose stem levels and extra taps have given shapes all have them, level by level. |
| CrossCheck.Sources512 | data/config.py:15 | On a 512x512 input, the 512 net's seven sources are (512, 1024, 512, 256, 256, 256, 256 channels) at the `feature_maps` of '512'. |
| CrossCheck.Sources300 | data/config.py:28 | On a 300x300 input, the 300 net's six sources have the heads' channel counts at the `feature_maps` of '300'. |
| CrossCheck.ExtensionArgs | ssd_tme_sw_deconv.py:224-227 | Extension module k has in = channels of source k+1 and out = channels of source k. |
| CrossCheck.FusedKeepShapes | ssd_tme_sw_deconv.py:113-124 | When sizes halve over the first four levels and the extension modules fit the channels, every fused level keeps its source's shape. |
| CrossCheck.Fused512 | ssd_tme_sw_deconv.py:113-124 | On the 512 net every fused level keeps its source's shape. |
| CrossCheck.HeadOutputs | ssd_tme_sw_deconv.py:236-247 | Heads built from the level channel counts keep the level's resolution and output `mbox[j] * 4` and `mbox[j] * nc` channels. |
| CrossCheck.TraceHeads | ssd_tme_sw_deconv.py:127-129 | The same for the trace of `forward`, given the fused levels' shapes. |
| CrossCheck.Heads512Shapes | ssd_tme_sw_deconv.py:127-129 | On the 512 net, `forward` runs, and loc/conf output j is (`mbox[j] * 4` or `mbox[j] * nc`, fm[j], fm[j]). |
| CrossCheck.Fusion300Fails | ssd_tme_sw_deconv.py:113-121 | On the 300 net, fused levels 0 and 2 fit but levels 1 and 3 cannot be added. The lists are also too short for `forward`. |
| CrossCheck.MboxMatchesPresets | ssd_tme_sw_deconv.py:262-265 | `mbox[k] == 2 + 2 * len(aspect_ratios[k])` at every level, for '300' and '512'. |
| CrossCheck.AnchorCount512 | ssd_tme_sw_deconv.py:131-135 | The 512 net's location output has 24564 rows of 4. |
| HeadFlatten.PermuteAt | ssd_tme_sw_deconv.py:128-129 | `permute(0, 2, 3, 1)` moves the value at (ch, y, x) from its channel-first position to its channel-last position. |
| HeadFlatten.CatAt | ssd_tme_sw_deconv.py:131-132 | `torch.cat` places each part, unchanged, at its offset. |
| HeadFlatten.OffsetAnchors | ssd_tme_sw_deconv.py:131-132 | Level l starts after k values for each anchor of the levels before it. |
| HeadFlatten.LevelAt | ssd_tme_sw_deconv.py:127-132 | The value at (ch, y, x) of level l sits at the level's offset plus its channel-last position. |
| HeadFlatten.AnchorAt | ssd_tme_sw_deconv.py:127-144 | The value at (ch, y, x) of level l is value ch % k of anchor offset(l) + (y * W + x) * boxes + ch / k. The layout has k values per anchor. |
| HeadFlatten.RowsAt | ssd_tme_sw_deconv.py:143-144 | `view(-1, k)` row a holds the k values from position k * a on. |
| Config.PresetsUniform | data/config.py:13-73 | `v` has the keys '512', '300', '1024', '1025'. Every per-level list, aspect ratios included, has 7 entries (6 for '300'). |
| Config.PresetsChainScales | data/config.py:13-73 | In every preset `min_sizes[i] < max_sizes[i]` and `max_sizes[i] == min_sizes[i+1]`. |
| Config.ScalesIncrease | data/config.py:19-20 | Chained scales grow strictly: a later level's range starts at or above the end of every earlier one. |
| Config.PresetResolutions | data/config.py:15-28 | For '512', `steps[i] * feature_maps[i] == min_dim`, and the maps halve over the first four levels. The halving fails for '300' (19 against 10). |
| Config.PresetsDeconv | data/config.py:15-29 | `deconv_feature_maps` starts with `feature_maps[0]`, ends in 1, and is otherwise `feature_maps` shifted one level down. |

## Left out

- The tensor arithmetic of `forward`: convolutions, ReLU, tanh, softmax and the sums are floating-point work done by the framework. Feature maps are terms, and their meaning here is their shape.
- `PriorBoxTme`, `Detect` and `L2Norm` are not part of this model: their source is not available. `L2Norm` appears only as a shape-keeping map, and the priors and the detection stage are left out.
- `load_weights`: file I/O.
- The `variance` floats, the Detect constants, and the `home`/`ddir`/`VOCroot` path strings of data/config.py: opaque or environment-dependent values.
- The batch dimension: a shape is that of one image, and flattening is stated per image.
- Forward.Forward: reports only the IndexError raised by a subscript. A shape mismatch in a layer or a sum is a `None` of `FeatShapes.ShapeOf` instead, so the method does not say which error PyTorch raises first when both could occur.
- The `phase == 'test'` branch at the end of `forward` (softmax and detection) and the `output` tuple: they need `Detect` and the priors.
- `batch_norm=True` in `add_extras` has no effect in the source and is not a parameter of the model. In `vgg` it is modelled.
- The default arguments of `build_ssd(phase, size=512, num_classes=21)` and `vgg(cfg, i, batch_norm=False)`: the model's callers always pass every argument.
