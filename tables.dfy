/** The `base`, `extras` and `mbox` tables of ssd_tme_sw_deconv.py, `build_ssd`,
    and the networks it builds for sizes 300 and 512, computed from the builders. */
module Tables {
  import opened Results
  import opened Layers
  import opened Builders

  /** `base['300']` and `base['512']`: the two tables are the same list. */
  const Vgg16Entries: seq<Entry> := [
    Channels(64), Channels(64), Pool, Channels(128), Channels(128), Pool, Channels(256),
    Channels(256), Channels(256), CeilPool, Channels(512), Channels(512), Channels(512), Pool,
    Channels(512), Channels(512), Channels(512)
  ]

  /** `extras['300']`. */
  const Extras300: seq<Entry> := [
    Channels(256), Stride, Channels(512), Channels(128), Stride, Channels(256), Channels(128),
    Channels(256), Channels(128), Channels(256)
  ]

  /** `extras['512']`. */
  const Extras512: seq<Entry> := [
    Channels(256), Stride, Channels(512), Channels(128), Stride, Channels(256), Channels(128),
    Stride, Channels(256), Channels(128), Stride, Channels(256), Channels(128)
  ]

  /** `mbox['300']` and `mbox['512']`: boxes per feature-map cell, per source. */
  const Mbox300: seq<nat> := [4, 6, 6, 6, 4, 4]
  const Mbox512: seq<nat> := [4, 6, 6, 6, 6, 4, 4]

  /** The three tables, keyed by the input size whose decimal text keys them in the source. */
  const BaseTable: map<int, seq<Entry>> := map[300 := Vgg16Entries, 512 := Vgg16Entries]
  const ExtrasTable: map<int, seq<Entry>> := map[300 := Extras300, 512 := Extras512]
  const MboxTable: map<int, seq<nat>> := map[300 := Mbox300, 512 := Mbox512]

  /** The 35 layers `vgg(base[...], 3)` builds, stage by stage: VGG16 through
      conv5_3, then pool5, conv6 and conv7. */
  const Conv1: seq<Layer> :=
    [Conv(3, 64, 3, 1, 1, 1), ReLU, Conv(64, 64, 3, 1, 1, 1), ReLU, MaxPool(2, 2, 0, false)]
  const Conv2: seq<Layer> :=
    [Conv(64, 128, 3, 1, 1, 1), ReLU, Conv(128, 128, 3, 1, 1, 1), ReLU, MaxPool(2, 2, 0, false)]
  const Conv3: seq<Layer> :=
    [Conv(128, 256, 3, 1, 1, 1), ReLU, Conv(256, 256, 3, 1, 1, 1), ReLU,
     Conv(256, 256, 3, 1, 1, 1), ReLU, MaxPool(2, 2, 0, true)]
  const Conv4: seq<Layer> :=
    [Conv(256, 512, 3, 1, 1, 1), ReLU, Conv(512, 512, 3, 1, 1, 1), ReLU,
     Conv(512, 512, 3, 1, 1, 1), ReLU, MaxPool(2, 2, 0, false)]
  const Conv5: seq<Layer> :=
    [Conv(512, 512, 3, 1, 1, 1), ReLU, Conv(512, 512, 3, 1, 1, 1), ReLU,
     Conv(512, 512, 3, 1, 1, 1), ReLU]
  const SsdVgg: seq<Layer> := Conv1 + Conv2 + Conv3 + Conv4 + Conv5 + VggTail()

  /** The extra layers `add_extras(extras['300'], 300, 1024)` builds. */
  const SsdExtras300: seq<Layer> := [
    Conv(1024, 256, 1, 1, 0, 1), Conv(256, 512, 3, 2, 1, 1), Conv(512, 128, 1, 1, 0, 1),
    Conv(128, 256, 3, 2, 1, 1), Conv(256, 128, 1, 1, 0, 1), Conv(128, 256, 3, 1, 0, 1),
    Conv(256, 128, 1, 1, 0, 1), Conv(128, 256, 3, 1, 0, 1)
  ]

  /** The extra layers `add_extras(extras['512'], 512, 1024)` builds. */
  const SsdExtras512: seq<Layer> := [
    Conv(1024, 256, 1, 1, 0, 1), Conv(256, 512, 3, 2, 1, 1), Conv(512, 128, 1, 1, 0, 1),
    Conv(128, 256, 3, 2, 1, 1), Conv(256, 128, 1, 1, 0, 1), Conv(128, 256, 3, 2, 1, 1),
    Conv(256, 128, 1, 1, 0, 1), Conv(128, 256, 3, 2, 1, 1), Conv(256, 128, 1, 1, 0, 1),
    Conv(128, 256, 4, 1, 1, 1)
  ]

  lemma VggConv1Stage()
    ensures VggFrom(Vgg16Entries, 0, 3, false) == Prepend(Conv1, VggFrom(Vgg16Entries, 3, 64, false))
  {
    var t := VggFrom(Vgg16Entries, 3, 64, false);
    assert VggFrom(Vgg16Entries, 0, 3, false) == Prepend(ConvBlock(3, 64, false), Prepend(ConvBlock(64, 64, false), Prepend([MaxPool(2, 2, 0, false)], t)));
    PrependTwice(ConvBlock(3, 64, false), ConvBlock(64, 64, false), Prepend([MaxPool(2, 2, 0, false)], t));
    PrependTwice(ConvBlock(3, 64, false) + ConvBlock(64, 64, false), [MaxPool(2, 2, 0, false)], t);
    assert Conv1 == ConvBlock(3, 64, false) + ConvBlock(64, 64, false) + [MaxPool(2, 2, 0, false)];
  }

  lemma VggConv2Stage()
    ensures VggFrom(Vgg16Entries, 3, 64, false) == Prepend(Conv2, VggFrom(Vgg16Entries, 6, 128, false))
  {
    var t := VggFrom(Vgg16Entries, 6, 128, false);
    assert VggFrom(Vgg16Entries, 3, 64, false) == Prepend(ConvBlock(64, 128, false), Prepend(ConvBlock(128, 128, false), Prepend([MaxPool(2, 2, 0, false)], t)));
    PrependTwice(ConvBlock(64, 128, false), ConvBlock(128, 128, false), Prepend([MaxPool(2, 2, 0, false)], t));
    PrependTwice(ConvBlock(64, 128, false) + ConvBlock(128, 128, false), [MaxPool(2, 2, 0, false)], t);
    assert Conv2 == ConvBlock(64, 128, false) + ConvBlock(128, 128, false) + [MaxPool(2, 2, 0, false)];
  }

  lemma VggConv3Stage()
    ensures VggFrom(Vgg16Entries, 6, 128, false) == Prepend(Conv3, VggFrom(Vgg16Entries, 10, 256, false))
  {
    var t := VggFrom(Vgg16Entries, 10, 256, false);
    assert VggFrom(Vgg16Entries, 6, 128, false) == Prepend(ConvBlock(128, 256, false), Prepend(ConvBlock(256, 256, false), Prepend(ConvBlock(256, 256, false), Prepend([MaxPool(2, 2, 0, true)], t))));
    PrependTwice(ConvBlock(128, 256, false), ConvBlock(256, 256, false), Prepend(ConvBlock(256, 256, false), Prepend([MaxPool(2, 2, 0, true)], t)));
    PrependTwice(ConvBlock(128, 256, false) + ConvBlock(256, 256, false), ConvBlock(256, 256, false), Prepend([MaxPool(2, 2, 0, true)], t));
    PrependTwice(ConvBlock(128, 256, false) + ConvBlock(256, 256, false) + ConvBlock(256, 256, false), [MaxPool(2, 2, 0, true)], t);
    assert Conv3 == ConvBlock(128, 256, false) + ConvBlock(256, 256, false) + ConvBlock(256, 256, false) + [MaxPool(2, 2, 0, true)];
  }

  lemma VggConv4Stage()
    ensures VggFrom(Vgg16Entries, 10, 256, false) == Prepend(Conv4, VggFrom(Vgg16Entries, 14, 512, false))
  {
    var t := VggFrom(Vgg16Entries, 14, 512, false);
    assert VggFrom(Vgg16Entries, 10, 256, false) == Prepend(ConvBlock(256, 512, false), Prepend(ConvBlock(512, 512, false), Prepend(ConvBlock(512, 512, false), Prepend([MaxPool(2, 2, 0, false)], t))));
    PrependTwice(ConvBlock(256, 512, false), ConvBlock(512, 512, false), Prepend(ConvBlock(512, 512, false), Prepend([MaxPool(2, 2, 0, false)], t)));
    PrependTwice(ConvBlock(256, 512, false) + ConvBlock(512, 512, false), ConvBlock(512, 512, false), Prepend([MaxPool(2, 2, 0, false)], t));
    PrependTwice(ConvBlock(256, 512, false) + ConvBlock(512, 512, false) + ConvBlock(512, 512, false), [MaxPool(2, 2, 0, false)], t);
    assert Conv4 == ConvBlock(256, 512, false) + ConvBlock(512, 512, false) + ConvBlock(512, 512, false) + [MaxPool(2, 2, 0, false)];
  }

  lemma VggConv5Stage()
    ensures VggFrom(Vgg16Entries, 14, 512, false) == Prepend(Conv5, VggFrom(Vgg16Entries, 17, 512, false))
  {
    var t := VggFrom(Vgg16Entries, 17, 512, false);
    assert VggFrom(Vgg16Entries, 14, 512, false) == Prepend(ConvBlock(512, 512, false), Prepend(ConvBlock(512, 512, false), Prepend(ConvBlock(512, 512, false), t)));
    PrependTwice(ConvBlock(512, 512, false), ConvBlock(512, 512, false), Prepend(ConvBlock(512, 512, false), t));
    PrependTwice(ConvBlock(512, 512, false) + ConvBlock(512, 512, false), ConvBlock(512, 512, false), t);
    assert Conv5 == ConvBlock(512, 512, false) + ConvBlock(512, 512, false) + ConvBlock(512, 512, false);
  }

  /** `vgg(base['300'], 3)` and `vgg(base['512'], 3)` build `SsdVgg`. */
  lemma VggOfBaseTable()
    ensures VggFrom(Vgg16Entries, 0, 3, false) == Ok(SsdVgg)
  {
    var t := Ok(VggTail());
    VggConv1Stage(); VggConv2Stage(); VggConv3Stage(); VggConv4Stage(); VggConv5Stage();
    PrependTwice(Conv1, Conv2, Prepend(Conv3, Prepend(Conv4, Prepend(Conv5, t))));
    PrependTwice(Conv1 + Conv2, Conv3, Prepend(Conv4, Prepend(Conv5, t)));
    PrependTwice(Conv1 + Conv2 + Conv3, Conv4, Prepend(Conv5, t));
    PrependTwice(Conv1 + Conv2 + Conv3 + Conv4, Conv5, t);
  }

  /** `add_extras(extras['300'], 300, 1024)` builds `SsdExtras300`. */
  lemma ExtrasOfTable300()
    ensures ExtrasFrom(Extras300, 0, Channels(1024), false, 300) == Ok(SsdExtras300)
  {
    var b := Extras300;
    assert ExtrasFrom(b, 10, Channels(256), false, 300) == Ok([]);
    assert [Conv(128, 256, 3, 1, 0, 1)] + [] == [Conv(128, 256, 3, 1, 0, 1)];
    assert ExtrasFrom(b, 9, Channels(128), true, 300) == Ok([Conv(128, 256, 3, 1, 0, 1)]);
    assert [Conv(256, 128, 1, 1, 0, 1)] + [Conv(128, 256, 3, 1, 0, 1)] == [Conv(256, 128, 1, 1, 0, 1), Conv(128, 256, 3, 1, 0, 1)];
    assert ExtrasFrom(b, 8, Channels(256), false, 300) == Ok([Conv(256, 128, 1, 1, 0, 1), Conv(128, 256, 3, 1, 0, 1)]);
    assert [Conv(128, 256, 3, 1, 0, 1)] + [Conv(256, 128, 1, 1, 0, 1), Conv(128, 256, 3, 1, 0, 1)] == [Conv(128, 256, 3, 1, 0, 1), Conv(256, 128, 1, 1, 0, 1), Conv(128, 256, 3, 1, 0, 1)];
    assert ExtrasFrom(b, 7, Channels(128), true, 300) == Ok([Conv(128, 256, 3, 1, 0, 1), Conv(256, 128, 1, 1, 0, 1), Conv(128, 256, 3, 1, 0, 1)]);
    assert [Conv(256, 128, 1, 1, 0, 1)] + [Conv(128, 256, 3, 1, 0, 1), Conv(256, 128, 1, 1, 0, 1), Conv(128, 256, 3, 1, 0, 1)] == [Conv(256, 128, 1, 1, 0, 1), Conv(128, 256, 3, 1, 0, 1), Conv(256, 128, 1, 1, 0, 1), Conv(128, 256, 3, 1, 0, 1)];
    assert ExtrasFrom(b, 6, Channels(256), false, 300) == Ok([Conv(256, 128, 1, 1, 0, 1), Conv(128, 256, 3, 1, 0, 1), Conv(256, 128, 1, 1, 0, 1), Conv(128, 256, 3, 1, 0, 1)]);
    assert ExtrasFrom(b, 5, Stride, false, 300) == Ok([Conv(256, 128, 1, 1, 0, 1), Conv(128, 256, 3, 1, 0, 1), Conv(256, 128, 1, 1, 0, 1), Conv(128, 256, 3, 1, 0, 1)]);
    assert [Conv(128, 256, 3, 2, 1, 1)] + [Conv(256, 128, 1, 1, 0, 1), Conv(128, 256, 3, 1, 0, 1), Conv(256, 128, 1, 1, 0, 1), Conv(128, 256, 3, 1, 0, 1)] == [Conv(128, 256, 3, 2, 1, 1), Conv(256, 128, 1, 1, 0, 1), Conv(128, 256, 3, 1, 0, 1), Conv(256, 128, 1, 1, 0, 1), Conv(128, 256, 3, 1, 0, 1)];
    assert ExtrasFrom(b, 4, Channels(128), true, 300) == Ok([Conv(128, 256, 3, 2, 1, 1), Conv(256, 128, 1, 1, 0, 1), Conv(128, 256, 3, 1, 0, 1), Conv(256, 128, 1, 1, 0, 1), Conv(128, 256, 3, 1, 0, 1)]);
    assert [Conv(512, 128, 1, 1, 0, 1)] + [Conv(128, 256, 3, 2, 1, 1), Conv(256, 128, 1, 1, 0, 1), Conv(128, 256, 3, 1, 0, 1), Conv(256, 128, 1, 1, 0, 1), Conv(128, 256, 3, 1, 0, 1)] == [Conv(512, 128, 1, 1, 0, 1), Conv(128, 256, 3, 2, 1, 1), Conv(256, 128, 1, 1, 0, 1), Conv(128, 256, 3, 1, 0, 1), Conv(256, 128, 1, 1, 0, 1), Conv(128, 256, 3, 1, 0, 1)];
    assert ExtrasFrom(b, 3, Channels(512), false, 300) == Ok([Conv(512, 128, 1, 1, 0, 1), Conv(128, 256, 3, 2, 1, 1), Conv(256, 128, 1, 1, 0, 1), Conv(128, 256, 3, 1, 0, 1), Conv(256, 128, 1, 1, 0, 1), Conv(128, 256, 3, 1, 0, 1)]);
    assert ExtrasFrom(b, 2, Stride, false, 300) == Ok([Conv(512, 128, 1, 1, 0, 1), Conv(128, 256, 3, 2, 1, 1), Conv(256, 128, 1, 1, 0, 1), Conv(128, 256, 3, 1, 0, 1), Conv(256, 128, 1, 1, 0, 1), Conv(128, 256, 3, 1, 0, 1)]);
    assert [Conv(256, 512, 3, 2, 1, 1)] + [Conv(512, 128, 1, 1, 0, 1), Conv(128, 256, 3, 2, 1, 1), Conv(256, 128, 1, 1, 0, 1), Conv(128, 256, 3, 1, 0, 1), Conv(256, 128, 1, 1, 0, 1), Conv(128, 256, 3, 1, 0, 1)] == [Conv(256, 512, 3, 2, 1, 1), Conv(512, 128, 1, 1, 0, 1), Conv(128, 256, 3, 2, 1, 1), Conv(256, 128, 1, 1, 0, 1), Conv(128, 256, 3, 1, 0, 1), Conv(256, 128, 1, 1, 0, 1), Conv(128, 256, 3, 1, 0, 1)];
    assert ExtrasFrom(b, 1, Channels(256), true, 300) == Ok([Conv(256, 512, 3, 2, 1, 1), Conv(512, 128, 1, 1, 0, 1), Conv(128, 256, 3, 2, 1, 1), Conv(256, 128, 1, 1, 0, 1), Conv(128, 256, 3, 1, 0, 1), Conv(256, 128, 1, 1, 0, 1), Conv(128, 256, 3, 1, 0, 1)]);
    assert [Conv(1024, 256, 1, 1, 0, 1)] + [Conv(256, 512, 3, 2, 1, 1), Conv(512, 128, 1, 1, 0, 1), Conv(128, 256, 3, 2, 1, 1), Conv(256, 128, 1, 1, 0, 1), Conv(128, 256, 3, 1, 0, 1), Conv(256, 128, 1, 1, 0, 1), Conv(128, 256, 3, 1, 0, 1)] == [Conv(1024, 256, 1, 1, 0, 1), Conv(256, 512, 3, 2, 1, 1), Conv(512, 128, 1, 1, 0, 1), Conv(128, 256, 3, 2, 1, 1), Conv(256, 128, 1, 1, 0, 1), Conv(128, 256, 3, 1, 0, 1), Conv(256, 128, 1, 1, 0, 1), Conv(128, 256, 3, 1, 0, 1)];
    assert ExtrasFrom(b, 0, Channels(1024), false, 300) == Ok([Conv(1024, 256, 1, 1, 0, 1), Conv(256, 512, 3, 2, 1, 1), Conv(512, 128, 1, 1, 0, 1), Conv(128, 256, 3, 2, 1, 1), Conv(256, 128, 1, 1, 0, 1), Conv(128, 256, 3, 1, 0, 1), Conv(256, 128, 1, 1, 0, 1), Conv(128, 256, 3, 1, 0, 1)]);
  }

  /** `add_extras(extras['512'], 512, 1024)` builds `SsdExtras512`. */
  lemma ExtrasOfTable512()
    ensures ExtrasFrom(Extras512, 0, Channels(1024), false, 512) == Ok(SsdExtras512)
  {
    var b := Extras512;
    ExtrasOfTable512Upper();
    assert [Conv(256, 512, 3, 2, 1, 1)] + [Conv(512, 128, 1, 1, 0, 1), Conv(128, 256, 3, 2, 1, 1), Conv(256, 128, 1, 1, 0, 1), Conv(128, 256, 3, 2, 1, 1), Conv(256, 128, 1, 1, 0, 1), Conv(128, 256, 3, 2, 1, 1), Conv(256, 128, 1, 1, 0, 1), Conv(128, 256, 4, 1, 1, 1)] == [Conv(256, 512, 3, 2, 1, 1), Conv(512, 128, 1, 1, 0, 1), Conv(128, 256, 3, 2, 1, 1), Conv(256, 128, 1, 1, 0, 1), Conv(128, 256, 3, 2, 1, 1), Conv(256, 128, 1, 1, 0, 1), Conv(128, 256, 3, 2, 1, 1), Conv(256, 128, 1, 1, 0, 1), Conv(128, 256, 4, 1, 1, 1)];
    assert ExtrasFrom(b, 1, Channels(256), true, 512) == Ok([Conv(256, 512, 3, 2, 1, 1), Conv(512, 128, 1, 1, 0, 1), Conv(128, 256, 3, 2, 1, 1), Conv(256, 128, 1, 1, 0, 1), Conv(128, 256, 3, 2, 1, 1), Conv(256, 128, 1, 1, 0, 1), Conv(128, 256, 3, 2, 1, 1), Conv(256, 128, 1, 1, 0, 1), Conv(128, 256, 4, 1, 1, 1)]);
    assert [Conv(1024, 256, 1, 1, 0, 1)] + [Conv(256, 512, 3, 2, 1, 1), Conv(512, 128, 1, 1, 0, 1), Conv(128, 256, 3, 2, 1, 1), Conv(256, 128, 1, 1, 0, 1), Conv(128, 256, 3, 2, 1, 1), Conv(256, 128, 1, 1, 0, 1), Conv(128, 256, 3, 2, 1, 1), Conv(256, 128, 1, 1, 0, 1), Conv(128, 256, 4, 1, 1, 1)] == [Conv(1024, 256, 1, 1, 0, 1), Conv(256, 512, 3, 2, 1, 1), Conv(512, 128, 1, 1, 0, 1), Conv(128, 256, 3, 2, 1, 1), Conv(256, 128, 1, 1, 0, 1), Conv(128, 256, 3, 2, 1, 1), Conv(256, 128, 1, 1, 0, 1), Conv(128, 256, 3, 2, 1, 1), Conv(256, 128, 1, 1, 0, 1), Conv(128, 256, 4, 1, 1, 1)];
    assert ExtrasFrom(b, 0, Channels(1024), false, 512) == Ok([Conv(1024, 256, 1, 1, 0, 1), Conv(256, 512, 3, 2, 1, 1), Conv(512, 128, 1, 1, 0, 1), Conv(128, 256, 3, 2, 1, 1), Conv(256, 128, 1, 1, 0, 1), Conv(128, 256, 3, 2, 1, 1), Conv(256, 128, 1, 1, 0, 1), Conv(128, 256, 3, 2, 1, 1), Conv(256, 128, 1, 1, 0, 1), Conv(128, 256, 4, 1, 1, 1)]);
  }

  /** The entries from the first stride on build the last eight extra layers. */
  lemma ExtrasOfTable512Upper()
    ensures ExtrasFrom(Extras512, 2, Stride, false, 512) == Ok([Conv(512, 128, 1, 1, 0, 1), Conv(128, 256, 3, 2, 1, 1), Conv(256, 128, 1, 1, 0, 1), Conv(128, 256, 3, 2, 1, 1), Conv(256, 128, 1, 1, 0, 1), Conv(128, 256, 3, 2, 1, 1), Conv(256, 128, 1, 1, 0, 1), Conv(128, 256, 4, 1, 1, 1)])
  {
    var b := Extras512;
    ExtrasOfTable512Middle();
    assert [Conv(512, 128, 1, 1, 0, 1)] + [Conv(128, 256, 3, 2, 1, 1), Conv(256, 128, 1, 1, 0, 1), Conv(128, 256, 3, 2, 1, 1), Conv(256, 128, 1, 1, 0, 1), Conv(128, 256, 3, 2, 1, 1), Conv(256, 128, 1, 1, 0, 1), Conv(128, 256, 4, 1, 1, 1)] == [Conv(512, 128, 1, 1, 0, 1), Conv(128, 256, 3, 2, 1, 1), Conv(256, 128, 1, 1, 0, 1), Conv(128, 256, 3, 2, 1, 1), Conv(256, 128, 1, 1, 0, 1), Conv(128, 256, 3, 2, 1, 1), Conv(256, 128, 1, 1, 0, 1), Conv(128, 256, 4, 1, 1, 1)];
    assert ExtrasFrom(b, 3, Channels(512), false, 512) == Ok([Conv(512, 128, 1, 1, 0, 1), Conv(128, 256, 3, 2, 1, 1), Conv(256, 128, 1, 1, 0, 1), Conv(128, 256, 3, 2, 1, 1), Conv(256, 128, 1, 1, 0, 1), Conv(128, 256, 3, 2, 1, 1), Conv(256, 128, 1, 1, 0, 1), Conv(128, 256, 4, 1, 1, 1)]);
    assert ExtrasFrom(b, 2, Stride, false, 512) == Ok([Conv(512, 128, 1, 1, 0, 1), Conv(128, 256, 3, 2, 1, 1), Conv(256, 128, 1, 1, 0, 1), Conv(128, 256, 3, 2, 1, 1), Conv(256, 128, 1, 1, 0, 1), Conv(128, 256, 3, 2, 1, 1), Conv(256, 128, 1, 1, 0, 1), Conv(128, 256, 4, 1, 1, 1)]);
  }

  /** The entries from the second stride on build the last seven extra layers. */
  lemma ExtrasOfTable512Middle()
    ensures ExtrasFrom(Extras512, 4, Channels(128), true, 512) == Ok([Conv(128, 256, 3, 2, 1, 1), Conv(256, 128, 1, 1, 0, 1), Conv(128, 256, 3, 2, 1, 1), Conv(256, 128, 1, 1, 0, 1), Conv(128, 256, 3, 2, 1, 1), Conv(256, 128, 1, 1, 0, 1), Conv(128, 256, 4, 1, 1, 1)])
  {
    var b := Extras512;
    ExtrasOfTable512Back();
    assert [Conv(256, 128, 1, 1, 0, 1)] + [Conv(128, 256, 3, 2, 1, 1), Conv(256, 128, 1, 1, 0, 1), Conv(128, 256, 3, 2, 1, 1), Conv(256, 128, 1, 1, 0, 1), Conv(128, 256, 4, 1, 1, 1)] == [Conv(256, 128, 1, 1, 0, 1), Conv(128, 256, 3, 2, 1, 1), Conv(256, 128, 1, 1, 0, 1), Conv(128, 256, 3, 2, 1, 1), Conv(256, 128, 1, 1, 0, 1), Conv(128, 256, 4, 1, 1, 1)];
    assert ExtrasFrom(b, 6, Channels(256), false, 512) == Ok([Conv(256, 128, 1, 1, 0, 1), Conv(128, 256, 3, 2, 1, 1), Conv(256, 128, 1, 1, 0, 1), Conv(128, 256, 3, 2, 1, 1), Conv(256, 128, 1, 1, 0, 1), Conv(128, 256, 4, 1, 1, 1)]);
    assert ExtrasFrom(b, 5, Stride, false, 512) == Ok([Conv(256, 128, 1, 1, 0, 1), Conv(128, 256, 3, 2, 1, 1), Conv(256, 128, 1, 1, 0, 1), Conv(128, 256, 3, 2, 1, 1), Conv(256, 128, 1, 1, 0, 1), Conv(128, 256, 4, 1, 1, 1)]);
    assert [Conv(128, 256, 3, 2, 1, 1)] + [Conv(256, 128, 1, 1, 0, 1), Conv(128, 256, 3, 2, 1, 1), Conv(256, 128, 1, 1, 0, 1), Conv(128, 256, 3, 2, 1, 1), Conv(256, 128, 1, 1, 0, 1), Conv(128, 256, 4, 1, 1, 1)] == [Conv(128, 256, 3, 2, 1, 1), Conv(256, 128, 1, 1, 0, 1), Conv(128, 256, 3, 2, 1, 1), Conv(256, 128, 1, 1, 0, 1), Conv(128, 256, 3, 2, 1, 1), Conv(256, 128, 1, 1, 0, 1), Conv(128, 256, 4, 1, 1, 1)];
    assert ExtrasFrom(b, 4, Channels(128), true, 512) == Ok([Conv(128, 256, 3, 2, 1, 1), Conv(256, 128, 1, 1, 0, 1), Conv(128, 256, 3, 2, 1, 1), Conv(256, 128, 1, 1, 0, 1), Conv(128, 256, 3, 2, 1, 1), Conv(256, 128, 1, 1, 0, 1), Conv(128, 256, 4, 1, 1, 1)]);
  }

  /** The last six entries of `extras['512']`, from the third stride on,
      build the last five extra layers. */
  lemma ExtrasOfTable512Back()
    ensures ExtrasFrom(Extras512, 7, Channels(128), true, 512) == Ok([Conv(128, 256, 3, 2, 1, 1), Conv(256, 128, 1, 1, 0, 1), Conv(128, 256, 3, 2, 1, 1), Conv(256, 128, 1, 1, 0, 1), Conv(128, 256, 4, 1, 1, 1)])
  {
    var b := Extras512;
    assert ExtrasFrom(b, 13, Channels(128), true, 512) == Ok([Conv(128, 256, 4, 1, 1, 1)]);
    assert [Conv(256, 128, 1, 1, 0, 1)] + [Conv(128, 256, 4, 1, 1, 1)] == [Conv(256, 128, 1, 1, 0, 1), Conv(128, 256, 4, 1, 1, 1)];
    assert ExtrasFrom(b, 12, Channels(256), false, 512) == Ok([Conv(256, 128, 1, 1, 0, 1), Conv(128, 256, 4, 1, 1, 1)]);
    assert ExtrasFrom(b, 11, Stride, false, 512) == Ok([Conv(256, 128, 1, 1, 0, 1), Conv(128, 256, 4, 1, 1, 1)]);
    assert [Conv(128, 256, 3, 2, 1, 1)] + [Conv(256, 128, 1, 1, 0, 1), Conv(128, 256, 4, 1, 1, 1)] == [Conv(128, 256, 3, 2, 1, 1), Conv(256, 128, 1, 1, 0, 1), Conv(128, 256, 4, 1, 1, 1)];
    assert ExtrasFrom(b, 10, Channels(128), true, 512) == Ok([Conv(128, 256, 3, 2, 1, 1), Conv(256, 128, 1, 1, 0, 1), Conv(128, 256, 4, 1, 1, 1)]);
    assert [Conv(256, 128, 1, 1, 0, 1)] + [Conv(128, 256, 3, 2, 1, 1), Conv(256, 128, 1, 1, 0, 1), Conv(128, 256, 4, 1, 1, 1)] == [Conv(256, 128, 1, 1, 0, 1), Conv(128, 256, 3, 2, 1, 1), Conv(256, 128, 1, 1, 0, 1), Conv(128, 256, 4, 1, 1, 1)];
    assert ExtrasFrom(b, 9, Channels(256), false, 512) == Ok([Conv(256, 128, 1, 1, 0, 1), Conv(128, 256, 3, 2, 1, 1), Conv(256, 128, 1, 1, 0, 1), Conv(128, 256, 4, 1, 1, 1)]);
    assert ExtrasFrom(b, 8, Stride, false, 512) == Ok([Conv(256, 128, 1, 1, 0, 1), Conv(128, 256, 3, 2, 1, 1), Conv(256, 128, 1, 1, 0, 1), Conv(128, 256, 4, 1, 1, 1)]);
    assert [Conv(128, 256, 3, 2, 1, 1)] + [Conv(256, 128, 1, 1, 0, 1), Conv(128, 256, 3, 2, 1, 1), Conv(256, 128, 1, 1, 0, 1), Conv(128, 256, 4, 1, 1, 1)] == [Conv(128, 256, 3, 2, 1, 1), Conv(256, 128, 1, 1, 0, 1), Conv(128, 256, 3, 2, 1, 1), Conv(256, 128, 1, 1, 0, 1), Conv(128, 256, 4, 1, 1, 1)];
    assert ExtrasFrom(b, 7, Channels(128), true, 512) == Ok([Conv(128, 256, 3, 2, 1, 1), Conv(256, 128, 1, 1, 0, 1), Conv(128, 256, 3, 2, 1, 1), Conv(256, 128, 1, 1, 0, 1), Conv(128, 256, 4, 1, 1, 1)]);
  }

  /** The per-head channel counts `multibox` reads off the built layers:
      `vgg[24]`, `vgg[-2]`, then every second extra layer. */
  const HeadChannels300: seq<nat> := [512, 1024, 512, 256, 256, 256]
  const HeadChannels512: seq<nat> := [512, 1024, 512, 256, 256, 256, 256]

  lemma VggTaps()
    ensures |SsdVgg| == 35
    ensures SsdVgg[24] == Conv(512, 512, 3, 1, 1, 1)
    ensures SsdVgg[|SsdVgg| - 2] == Conv(1024, 1024, 1, 1, 0, 1)
  {
    assert |Conv1 + Conv2 + Conv3 + Conv4| == 24;
  }

  /** An `SSD` object: the arguments of its constructor that the model keeps. */
  datatype Ssd = Ssd(phase: string, size: int, numClasses: nat, net: Net)

  /** What `build_ssd` does: print and return `None`, raise, or return a network. */
  datatype Outcome = Rejected | Raised(error: Error) | Built(ssd: Ssd)

  /** `build_ssd(phase, size, num_classes)`: the two guards, then the table
      lookups and builders in the order Python evaluates the arguments. */
  function BuildSsd(phase: string, size: int, nc: nat): Outcome {
    if phase != "test" && phase != "train" then Rejected
    else if size != 300 && size != 512 && size != 1024 then Rejected
    else if size !in BaseTable then Raised(MissingKey)
    else match VggFrom(BaseTable[size], 0, 3, false)
      case Err(e) => Raised(e)
      case Ok(vgg) =>
        if size !in ExtrasTable then Raised(MissingKey)
        else match AddExtrasSpec(ExtrasTable[size], size, 1024)
          case Err(e) => Raised(e)
          case Ok(ex) =>
            if size !in MboxTable then Raised(MissingKey)
            else match HeadsFrom(vgg, ex.extras, MboxTable[size], nc, 0)
              case Err(e) => Raised(e)
              case Ok(h) => Built(Ssd(phase, size, nc, Net(vgg, ex.extras, ex.sw, ex.ex, h.loc, h.conf)))
  }

  /** `build_ssd` prints and returns nothing exactly when the phase or the size
      is not one it accepts; size 1024 passes the guard but has no tables, so
      the lookup `base['1024']` raises; sizes 300 and 512 build a network. */
  lemma BuildSsdGuards(phase: string, size: int, nc: nat)
    ensures BuildSsd(phase, size, nc).Rejected? <==>
      (phase != "test" && phase != "train") || (size != 300 && size != 512 && size != 1024)
    ensures (phase == "test" || phase == "train") && size == 1024 ==>
      BuildSsd(phase, size, nc) == Raised(MissingKey)
    ensures (phase == "test" || phase == "train") && (size == 300 || size == 512) ==>
      BuildSsd(phase, size, nc).Built?
  {
    if (phase == "test" || phase == "train") && (size == 300 || size == 512) {
      if size == 300 {
        Net300(phase, nc);
      } else {
        Net512(phase, nc);
      }
    }
  }

  lemma Taps300()
    ensures forall j :: 0 <= j < 6 ==> TapOut(SsdVgg, SsdExtras300, j) == Ok(HeadChannels300[j])
  {
    VggTaps();
    assert HeadCount(SsdExtras300) == 6;
    forall j | 0 <= j < 6 ensures TapOut(SsdVgg, SsdExtras300, j) == Ok(HeadChannels300[j]) {
      if j >= 2 {
        assert SsdExtras300[2 * (j - 2) + 1].outC == HeadChannels300[j];
      }
    }
  }

  lemma Taps512()
    ensures forall j :: 0 <= j < 7 ==> TapOut(SsdVgg, SsdExtras512, j) == Ok(HeadChannels512[j])
  {
    VggTaps();
    assert HeadCount(SsdExtras512) == 7;
    forall j | 0 <= j < 7 ensures TapOut(SsdVgg, SsdExtras512, j) == Ok(HeadChannels512[j]) {
      if j >= 2 {
        assert SsdExtras512[2 * (j - 2) + 1].outC == HeadChannels512[j];
      }
    }
  }

  /** Heads whose k-th loc and conf convs read `channels[k]` channels and
      predict `mbox[k]` boxes: 3x3, pad 1, 4 coordinates or `nc` scores per box. */
  function Heads(channels: seq<nat>, mbox: seq<nat>, nc: nat): HeadTables
    requires |channels| == |mbox|
  {
    HeadTables(seq(|mbox|, j requires 0 <= j < |mbox| => Conv(channels[j], HeadWidth(mbox[j], 4), 3, 1, 1, 1)),
               seq(|mbox|, j requires 0 <= j < |mbox| => Conv(channels[j], HeadWidth(mbox[j], nc), 3, 1, 1, 1)))
  }

  lemma Heads300(nc: nat)
    ensures HeadsFrom(SsdVgg, SsdExtras300, Mbox300, nc, 0) == Ok(Heads(HeadChannels300, Mbox300, nc))
  {
    Taps300();
    HeadsLayout(SsdVgg, SsdExtras300, Mbox300, nc, 0);
    var h := HeadsFrom(SsdVgg, SsdExtras300, Mbox300, nc, 0).value;
    var e := Heads(HeadChannels300, Mbox300, nc);
    assert h.loc == e.loc;
    assert h.conf == e.conf;
  }

  lemma Heads512(nc: nat)
    ensures HeadsFrom(SsdVgg, SsdExtras512, Mbox512, nc, 0) == Ok(Heads(HeadChannels512, Mbox512, nc))
  {
    Taps512();
    HeadsLayout(SsdVgg, SsdExtras512, Mbox512, nc, 0);
    var h := HeadsFrom(SsdVgg, SsdExtras512, Mbox512, nc, 0).value;
    var e := Heads(HeadChannels512, Mbox512, nc);
    assert h.loc == e.loc;
    assert h.conf == e.conf;
  }

  /** `build_ssd(phase, 300, num_classes)` returns the 35 vgg layers, the 8
      extra layers, the 6 gate and 16 extension layers, and 6 heads whose
      channel counts follow the sources they read. */
  lemma Net300(phase: string, nc: nat)
    requires phase == "test" || phase == "train"
    ensures BuildSsd(phase, 300, nc) ==
      Built(Ssd(phase, 300, nc, Net(SsdVgg, SsdExtras300, SwTable(), ExTable(),
                                    Heads(HeadChannels300, Mbox300, nc).loc,
                                    Heads(HeadChannels300, Mbox300, nc).conf)))
  {
    VggOfBaseTable();
    ExtrasOfTable300();
    Heads300(nc);
    assert BaseTable[300] == Vgg16Entries && ExtrasTable[300] == Extras300 && MboxTable[300] == Mbox300;
  }

  /** `build_ssd(phase, 512, num_classes)`: as for 300, with 10 extra layers
      and 7 heads. */
  lemma Net512(phase: string, nc: nat)
    requires phase == "test" || phase == "train"
    ensures BuildSsd(phase, 512, nc) ==
      Built(Ssd(phase, 512, nc, Net(SsdVgg, SsdExtras512, SwTable(), ExTable(),
                                    Heads(HeadChannels512, Mbox512, nc).loc,
                                    Heads(HeadChannels512, Mbox512, nc).conf)))
  {
    VggOfBaseTable();
    ExtrasOfTable512();
    Heads512(nc);
    assert BaseTable[512] == Vgg16Entries && ExtrasTable[512] == Extras512 && MboxTable[512] == Mbox512;
  }
}
