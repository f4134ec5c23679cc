/**
 * Shapes of the forward pass of a preset network: the stride comments of the
 * source, the ARM and ODM shapes, and the well-formedness of every fusion sum.
 * Inputs are `3 x 64a x 64b` images (height and width divisible by 64).
 */
module ForwardShapes {
  import opened Wrappers
  import opened Arithmetic
  import opened Layers
  import opened Shapes
  import opened VggAtrous
  import opened Presets

  /** A network built with five VGG stages of at least one block each and the preset extra stages. */
  predicate Preset(net: VGGAtrousExtractor, layers: seq<nat>, filters: seq<nat>, batchNorm: bool)
  {
    && net.BuiltFrom(layers, filters, SsdExtras, batchNorm)
    && |layers| == 5
    && forall i :: 0 <= i < 5 ==> layers[i] >= 1
  }

  /** The top-down and fusion containers of a network built with `batch_norm` set to `batchNorm`. */
  predicate HeadLayers(net: VGGAtrousExtractor, batchNorm: bool)
  {
    && net.lastLayerTrans == LastLayerTransSpec(batchNorm)
    && |net.transitions| == 3 && (forall i :: 0 <= i < 3 ==> net.transitions[i] == TransitionBranch(batchNorm))
    && |net.fusions| == 3 && (forall i :: 0 <= i < 3 ==> net.fusions[i] == FusionBlock(batchNorm))
  }

  /** The strides of the ARM and ODM features relative to the input. */
  const FeatureStrides: seq<int> := [8, 16, 32, 64]

  /** The ARM channel counts. */
  function ArmChannels(filters: seq<nat>): seq<int>
    requires |filters| >= 4
  {
    [filters[3], 1024, 512, 256]
  }

  // ---------------------------------------------------------------------------
  // Containers
  // ---------------------------------------------------------------------------

  /** A VGG stage sets the channels to `filters[i]` and keeps the extents. */
  lemma VggStageShape(net: VGGAtrousExtractor, layers: seq<nat>, filters: seq<nat>, batchNorm: bool, i: nat, s: Shape)
    requires Preset(net, layers, filters, batchNorm) && i < 5
    requires s.height > 0 && s.width > 0
    ensures SequentialShape(net.stages[i], Some(s)) == Some(Shape(filters[i], s.height, s.width))
  {
    TileShape(filters[i], batchNorm, layers[i], s);
  }

  /** The dilated stage sets 1024 channels and keeps the extents. */
  lemma DilatedStageShape(batchNorm: bool, s: Shape)
    requires s.height > 0 && s.width > 0
    ensures SequentialShape(DilatedStage(batchNorm), Some(s)) == Some(Shape(1024, s.height, s.width))
  {
    var first := ConvBlock(Conv(1024, 3, 1, 6, 6), batchNorm);
    var second := ConvBlock(Conv(1024, 1, 1, 0, 1), batchNorm);
    SequentialShapeAppend(first, second, Some(s));
    DilatedConvPreserves(s.height);
    DilatedConvPreserves(s.width);
    ConvBlockShape(Conv(1024, 3, 1, 6, 6), batchNorm, s);
    ConvBlockShape(Conv(1024, 1, 1, 0, 1), batchNorm, Shape(1024, s.height, s.width));
  }

  /** A preset extra stage `[(c1, 1, 1, 0), (c2, 3, 2, 1)]` halves even extents and sets `c2` channels. */
  lemma SsdExtraShape(c1: nat, c2: nat, batchNorm: bool, c: int, m: int, n: int)
    requires m > 0 && n > 0
    ensures SequentialShape(ExtraStage([ConvCfg(c1, 1, 1, 0), ConvCfg(c2, 3, 2, 1)], batchNorm),
                            Some(Shape(c, 2 * m, 2 * n)))
         == Some(Shape(c2, m, n))
  {
    var cfg := [ConvCfg(c1, 1, 1, 0), ConvCfg(c2, 3, 2, 1)];
    var first := ConvBlock(Conv(c1, 1, 1, 0, 1), batchNorm);
    var second := ConvBlock(Conv(c2, 3, 2, 1, 1), batchNorm);
    assert cfg[..1][..0] == [];
    assert ExtraStage(cfg[..1], batchNorm) == [] + first;
    assert ExtraStage(cfg, batchNorm) == ([] + first) + second;
    assert [] + first == first;
    SequentialShapeAppend(first, second, Some(Shape(c, 2 * m, 2 * n)));
    ExtraConvSizes(m);
    ExtraConvSizes(n);
    ConvBlockShape(Conv(c1, 1, 1, 0, 1), batchNorm, Shape(c, 2 * m, 2 * n));
    ConvBlockShape(Conv(c2, 3, 2, 1, 1), batchNorm, Shape(c1, 2 * m, 2 * n));
  }

  /** A transition branch sets 256 channels and keeps the extents. */
  lemma TransitionShape(batchNorm: bool, s: Shape)
    requires s.height > 0 && s.width > 0
    ensures SequentialShape(TransitionBranch(batchNorm), Some(s)) == Some(Shape(256, s.height, s.width))
  {
    var block := ConvBlock(Conv3x3(256), batchNorm);
    var t := Shape(256, s.height, s.width);
    assert TransitionBranch(batchNorm) == block + ([Conv3x3(256)] + OptionalBatchNorm(batchNorm));
    SequentialShapeAppend(block, [Conv3x3(256)] + OptionalBatchNorm(batchNorm), Some(s));
    Conv3x3BlockShape(256, batchNorm, s);
    SequentialShapeAppend([Conv3x3(256)], OptionalBatchNorm(batchNorm), Some(t));
    Conv3x3Preserves(s.height);
    Conv3x3Preserves(s.width);
    assert [Conv3x3(256)][1..] == [];
    assert SequentialShape([Conv3x3(256)], Some(t)) == Some(t);
    if batchNorm {
      assert [BatchNorm][1..] == [];
    }
  }

  // ---------------------------------------------------------------------------
  // ARM features
  // ---------------------------------------------------------------------------

  /** An extent of `64a` divided by each stride the forward pass reaches. */
  lemma Over64(h: int, a: int)
    requires h == 64 * a
    ensures h / 1 == 64 * a && h / 2 == 32 * a && h / 4 == 16 * a
    ensures h / 8 == 8 * a && h / 16 == 4 * a && h / 32 == 2 * a && h / 64 == a
  {
    DivModUnique(h, 2, 32 * a, 0);
    DivModUnique(h, 4, 16 * a, 0);
    DivModUnique(h, 8, 8 * a, 0);
    DivModUnique(h, 16, 4 * a, 0);
    DivModUnique(h, 32, 2 * a, 0);
    DivModUnique(h, 64, a, 0);
  }

  /** Extent of the running tensor after `k` pooled stages, for an input extent of `64a`. */
  function PooledExtent(k: nat, a: int): int
    requires k <= 3
  {
    (if k == 0 then 64 else if k == 1 then 32 else if k == 2 then 16 else 8) * a
  }

  /**
   * Before stage `k` (k <= 3) the stride is `2^k`: each of the first three
   * stages is followed by a pool that halves the extents.
   */
  lemma {:induction false} PooledShape(net: VGGAtrousExtractor, layers: seq<nat>, filters: seq<nat>,
                                       batchNorm: bool, k: nat, a: int, b: int)
    requires Preset(net, layers, filters, batchNorm) && k <= 3 && a > 0 && b > 0
    ensures net.ShapeOf(Pooled(k, Input), Shape(3, 64 * a, 64 * b))
         == Some(Shape(if k == 0 then 3 else filters[k - 1], PooledExtent(k, a), PooledExtent(k, b)))
  {
    if k > 0 {
      PooledShape(net, layers, filters, batchNorm, k - 1, a, b);
      var s := Shape(if k - 1 == 0 then 3 else filters[k - 2], PooledExtent(k - 1, a), PooledExtent(k - 1, b));
      VggStageShape(net, layers, filters, batchNorm, k - 1, s);
      Pool2x2Halves(PooledExtent(k, a));
      Pool2x2Halves(PooledExtent(k, b));
    }
  }

  /** conv4_3 has stride 8 and `filters[3]` channels. */
  lemma Conv4Shape(net: VGGAtrousExtractor, layers: seq<nat>, filters: seq<nat>, batchNorm: bool, a: int, b: int)
    requires Preset(net, layers, filters, batchNorm) && a > 0 && b > 0
    ensures net.ShapeOf(Conv4Out(Input), Shape(3, 64 * a, 64 * b)) == Some(Shape(filters[3], 8 * a, 8 * b))
  {
    PooledShape(net, layers, filters, batchNorm, 3, a, b);
    VggStageShape(net, layers, filters, batchNorm, 3, Shape(filters[2], 8 * a, 8 * b));
  }

  /** conv4_3 (stride 8, `filters[3]` channels) and conv_fc7 (stride 16, 1024 channels). */
  lemma BaseShapes(net: VGGAtrousExtractor, layers: seq<nat>, filters: seq<nat>, batchNorm: bool, a: int, b: int)
    requires Preset(net, layers, filters, batchNorm) && a > 0 && b > 0
    ensures net.ShapeOf(Conv4Out(Input), Shape(3, 64 * a, 64 * b)) == Some(Shape(filters[3], 8 * a, 8 * b))
    ensures net.ShapeOf(MaxPool(Pool2x2, Conv4Out(Input)), Shape(3, 64 * a, 64 * b))
         == Some(Shape(filters[3], 4 * a, 4 * b))
    ensures net.ShapeOf(Stage(4, MaxPool(Pool2x2, Conv4Out(Input))), Shape(3, 64 * a, 64 * b))
         == Some(Shape(filters[4], 4 * a, 4 * b))
    ensures net.ShapeOf(Fc7Out(Input), Shape(3, 64 * a, 64 * b)) == Some(Shape(1024, 4 * a, 4 * b))
  {
    Conv4Shape(net, layers, filters, batchNorm, a, b);
    Pool2x2Halves(4 * a);
    Pool2x2Halves(4 * b);
    VggStageShape(net, layers, filters, batchNorm, 4, Shape(filters[3], 4 * a, 4 * b));
    Pool3x3Preserves(4 * a);
    Pool3x3Preserves(4 * b);
    DilatedStageShape(batchNorm, Shape(filters[4], 4 * a, 4 * b));
  }

  /** The four ARM features of a preset network, with their channels and extents. */
  lemma ArmShapesScaled(net: VGGAtrousExtractor, layers: seq<nat>, filters: seq<nat>, batchNorm: bool, a: int, b: int)
    requires Preset(net, layers, filters, batchNorm) && a > 0 && b > 0
    ensures |ArmFeatures(Input, |net.extras|)| == 4
    ensures net.ShapeOf(ArmFeatures(Input, |net.extras|)[0], Shape(3, 64 * a, 64 * b)) == Some(Shape(filters[3], 8 * a, 8 * b))
    ensures net.ShapeOf(ArmFeatures(Input, |net.extras|)[1], Shape(3, 64 * a, 64 * b)) == Some(Shape(1024, 4 * a, 4 * b))
    ensures net.ShapeOf(ArmFeatures(Input, |net.extras|)[2], Shape(3, 64 * a, 64 * b)) == Some(Shape(512, 2 * a, 2 * b))
    ensures net.ShapeOf(ArmFeatures(Input, |net.extras|)[3], Shape(3, 64 * a, 64 * b)) == Some(Shape(256, a, b))
  {
    ArmWithTwoExtras(Input);
    BaseShapes(net, layers, filters, batchNorm, a, b);
    SsdExtraShape(256, 512, batchNorm, 1024, 2 * a, 2 * b);
    SsdExtraShape(128, 256, batchNorm, 512, a, b);
  }

  // ---------------------------------------------------------------------------
  // ODM features
  // ---------------------------------------------------------------------------

  /**
   * The top-down pass over any four ARM features with the preset shapes: every
   * unfused ODM slot has 256 channels and the extents of its ARM feature.
   */
  lemma TopDownShapes(net: VGGAtrousExtractor, batchNorm: bool,
                      arm: seq<Tensor>, input: Shape, c4: nat, a: int, b: int)
    requires HeadLayers(net, batchNorm) && a > 0 && b > 0 && |arm| == 4
    requires net.ShapeOf(arm[0], input) == Some(Shape(c4, 8 * a, 8 * b))
    requires net.ShapeOf(arm[1], input) == Some(Shape(1024, 4 * a, 4 * b))
    requires net.ShapeOf(arm[2], input) == Some(Shape(512, 2 * a, 2 * b))
    requires net.ShapeOf(arm[3], input) == Some(Shape(256, a, b))
    ensures net.ShapeOf(TopDown(3, arm), input) == Some(Shape(256, a, b))
    ensures net.ShapeOf(TopDown(2, arm), input) == Some(Shape(256, 2 * a, 2 * b))
    ensures net.ShapeOf(TopDown(1, arm), input) == Some(Shape(256, 4 * a, 4 * b))
    ensures net.ShapeOf(TopDown(0, arm), input) == Some(Shape(256, 8 * a, 8 * b))
  {
    TopDownRoot(net, batchNorm, arm, input, a, b);
    TopDownStep(net, batchNorm, 2, arm, input, 512, a, b);
    TopDownStep(net, batchNorm, 1, arm, input, 1024, 2 * a, 2 * b);
    TopDownStep(net, batchNorm, 0, arm, input, c4, 4 * a, 4 * b);
  }

  /** Slot 3 of the top-down pass keeps the 256 channels and extents of the last ARM feature. */
  lemma TopDownRoot(net: VGGAtrousExtractor, batchNorm: bool, arm: seq<Tensor>, input: Shape, a: int, b: int)
    requires HeadLayers(net, batchNorm) && a > 0 && b > 0 && |arm| == 4
    requires net.ShapeOf(arm[3], input) == Some(Shape(256, a, b))
    ensures net.ShapeOf(TopDown(3, arm), input) == Some(Shape(256, a, b))
  {
    TileShape(256, batchNorm, 3, Shape(256, a, b));
  }

  /** The fused ODM features keep the shapes of the top-down pass. */
  lemma OdmShapes(net: VGGAtrousExtractor, batchNorm: bool,
                  arm: seq<Tensor>, input: Shape, c4: nat, a: int, b: int)
    requires HeadLayers(net, batchNorm) && a > 0 && b > 0 && |arm| == 4
    requires net.ShapeOf(TopDown(3, arm), input) == Some(Shape(256, a, b))
    requires net.ShapeOf(TopDown(2, arm), input) == Some(Shape(256, 2 * a, 2 * b))
    requires net.ShapeOf(TopDown(1, arm), input) == Some(Shape(256, 4 * a, 4 * b))
    requires net.ShapeOf(TopDown(0, arm), input) == Some(Shape(256, 8 * a, 8 * b))
    ensures net.ShapeOf(OdmFeatures(arm)[0], input) == Some(Shape(256, 8 * a, 8 * b))
    ensures net.ShapeOf(OdmFeatures(arm)[1], input) == Some(Shape(256, 4 * a, 4 * b))
    ensures net.ShapeOf(OdmFeatures(arm)[2], input) == Some(Shape(256, 2 * a, 2 * b))
    ensures net.ShapeOf(OdmFeatures(arm)[3], input) == Some(Shape(256, a, b))
  {
    assert net.fusions[0] == FusionBlock(batchNorm);
    assert net.fusions[1] == FusionBlock(batchNorm);
    assert net.fusions[2] == FusionBlock(batchNorm);
    Conv3x3BlockShape(256, batchNorm, Shape(256, 8 * a, 8 * b));
    Conv3x3BlockShape(256, batchNorm, Shape(256, 4 * a, 4 * b));
    Conv3x3BlockShape(256, batchNorm, Shape(256, 2 * a, 2 * b));
  }

  /**
   * One step of the top-down pass: when the deeper slot has half the extents of
   * ARM feature `j`, the upsampled slot and the transition of the ARM feature
   * have the same shape, so the sum is well-formed and slot `j` gets it.
   */
  lemma TopDownStep(net: VGGAtrousExtractor, batchNorm: bool, j: nat, arm: seq<Tensor>, input: Shape,
                    c: nat, h: int, w: int)
    requires HeadLayers(net, batchNorm) && j < 3 && |arm| >= 3 && h > 0 && w > 0
    requires net.ShapeOf(arm[j], input) == Some(Shape(c, 2 * h, 2 * w))
    requires net.ShapeOf(TopDown(j + 1, arm), input) == Some(Shape(256, h, w))
    ensures net.ShapeOf(Upsampled(TopDown(j + 1, arm)), input) == Some(Shape(256, 2 * h, 2 * w))
    ensures net.ShapeOf(Transition(j, arm[j]), input) == Some(Shape(256, 2 * h, 2 * w))
    ensures net.ShapeOf(TopDown(j, arm), input) == Some(Shape(256, 2 * h, 2 * w))
  {
    assert net.transitions[j] == TransitionBranch(batchNorm);
    TransitionShape(batchNorm, Shape(c, 2 * h, 2 * w));
  }

  // ---------------------------------------------------------------------------
  // Stated for an input of height h and width w
  // ---------------------------------------------------------------------------

  /** The strides of the five VGG stage outputs, before their pools. */
  const StageStrides: seq<int> := [1, 2, 4, 8, 16]

  /** The output of VGG stage `k`, before its pool, in the forward pass. */
  function StageOutput(k: nat): Tensor
    requires k < 5
  {
    if k <= 3 then Stage(k, Pooled(k, Input)) else Stage(4, MaxPool(Pool2x2, Conv4Out(Input)))
  }

  /** Stage `k` outputs `filters[k]` channels at stride 1, 2, 4, 8, 16. */
  lemma StageOutputShapes(net: VGGAtrousExtractor, layers: seq<nat>, filters: seq<nat>, batchNorm: bool, h: int, w: int)
    requires Preset(net, layers, filters, batchNorm)
    requires h > 0 && w > 0 && h % 64 == 0 && w % 64 == 0
    ensures forall k :: 0 <= k < 5 ==>
      net.ShapeOf(StageOutput(k), Shape(3, h, w)) == Some(Shape(filters[k], h / StageStrides[k], w / StageStrides[k]))
  {
    var a, b := h / 64, w / 64;
    Over64(h, a);
    Over64(w, b);
    assert Shape(3, h, w) == Shape(3, 64 * a, 64 * b);
    BaseShapes(net, layers, filters, batchNorm, a, b);
    forall k | 0 <= k < 4
      ensures net.ShapeOf(StageOutput(k), Shape(3, h, w)) == Some(Shape(filters[k], PooledExtent(k, a), PooledExtent(k, b)))
    {
      PooledShape(net, layers, filters, batchNorm, k, a, b);
      var s := Shape(if k == 0 then 3 else filters[k - 1], PooledExtent(k, a), PooledExtent(k, b));
      VggStageShape(net, layers, filters, batchNorm, k, s);
    }
  }

  /**
   * ARM and ODM features of a preset network for an `h x w` input, `h` and `w`
   * divisible by 64: both lists have four entries at strides 8, 16, 32, 64;
   * ARM channels are `filters[3]`, 1024, 512, 256 and ODM channels all 256.
   */
  lemma FeatureShapes(net: VGGAtrousExtractor, layers: seq<nat>, filters: seq<nat>, batchNorm: bool, h: int, w: int)
    requires Preset(net, layers, filters, batchNorm)
    requires h > 0 && w > 0 && h % 64 == 0 && w % 64 == 0
    ensures |ArmFeatures(Input, |net.extras|)| == 4
    ensures forall k :: 0 <= k < 4 ==>
      net.ShapeOf(ArmFeatures(Input, |net.extras|)[k], Shape(3, h, w))
      == Some(Shape(ArmChannels(filters)[k], h / FeatureStrides[k], w / FeatureStrides[k]))
    ensures forall k :: 0 <= k < 4 ==>
      net.ShapeOf(OdmFeatures(ArmFeatures(Input, |net.extras|))[k], Shape(3, h, w))
      == Some(Shape(256, h / FeatureStrides[k], w / FeatureStrides[k]))
  {
    var a, b := h / 64, w / 64;
    var arm, input := ArmFeatures(Input, |net.extras|), Shape(3, h, w);
    assert input == Shape(3, 64 * a, 64 * b);
    ArmShapesScaled(net, layers, filters, batchNorm, a, b);
    TopDownShapes(net, batchNorm, arm, input, filters[3], a, b);
    OdmShapes(net, batchNorm, arm, input, filters[3], a, b);
    Over64(h, a);
    Over64(w, b);
  }

  /**
   * The element-wise sum of every top-down step is shape-correct: for
   * `i = 3, 2, 1` the upsampled slot `i` and the transition of ARM feature
   * `i - 1` have one and the same shape, which is therefore no shape error.
   */
  lemma FusionSumsWellFormed(net: VGGAtrousExtractor, layers: seq<nat>, filters: seq<nat>, batchNorm: bool, h: int, w: int)
    requires Preset(net, layers, filters, batchNorm)
    requires h > 0 && w > 0 && h % 64 == 0 && w % 64 == 0
    ensures |ArmFeatures(Input, |net.extras|)| == 4
    ensures forall i :: 1 <= i <= 3 ==>
      SumOperandsAgree(net, ArmFeatures(Input, |net.extras|), Shape(3, h, w), i)
  {
    var a, b := h / 64, w / 64;
    var arm, input := ArmFeatures(Input, |net.extras|), Shape(3, h, w);
    assert input == Shape(3, 64 * a, 64 * b);
    ArmShapesScaled(net, layers, filters, batchNorm, a, b);
    SumsWellFormed(net, batchNorm, arm, input, filters[3], a, b);
  }

  /** The two operands of the sum that fills ODM slot `i - 1` have the same shape, and it is no shape error. */
  predicate SumOperandsAgree(net: VGGAtrousExtractor, arm: seq<Tensor>, input: Shape, i: nat)
    requires 1 <= i <= 3 && |arm| >= 3
  {
    && net.ShapeOf(Upsampled(TopDown(i, arm)), input).Some?
    && net.ShapeOf(Upsampled(TopDown(i, arm)), input) == net.ShapeOf(Transition(i - 1, arm[i - 1]), input)
  }

  /** `FusionSumsWellFormed` for any four ARM features with the preset shapes. */
  lemma SumsWellFormed(net: VGGAtrousExtractor, batchNorm: bool,
                       arm: seq<Tensor>, input: Shape, c4: nat, a: int, b: int)
    requires HeadLayers(net, batchNorm) && a > 0 && b > 0 && |arm| == 4
    requires net.ShapeOf(arm[0], input) == Some(Shape(c4, 8 * a, 8 * b))
    requires net.ShapeOf(arm[1], input) == Some(Shape(1024, 4 * a, 4 * b))
    requires net.ShapeOf(arm[2], input) == Some(Shape(512, 2 * a, 2 * b))
    requires net.ShapeOf(arm[3], input) == Some(Shape(256, a, b))
    ensures forall i :: 1 <= i <= 3 ==> SumOperandsAgree(net, arm, input, i)
  {
    TopDownShapes(net, batchNorm, arm, input, c4, a, b);
    forall i | 1 <= i <= 3
      ensures SumOperandsAgree(net, arm, input, i)
    {
      if i == 3 {
        TopDownStep(net, batchNorm, 2, arm, input, 512, a, b);
      } else if i == 2 {
        TopDownStep(net, batchNorm, 1, arm, input, 1024, 2 * a, 2 * b);
      } else {
        TopDownStep(net, batchNorm, 0, arm, input, c4, 4 * a, 4 * b);
      }
    }
  }

  /**
   * Every network the factory builds meets the forward pass's assertion of six
   * stages and its need of an extra stage, and is a preset in the sense above.
   */
  lemma FactoryNetworksArePresets(net: VGGAtrousExtractor, numLayers: int, batchNorm: bool)
    requires VggSpec(numLayers).Some?
    requires net.BuiltFrom(VggSpec(numLayers).value.layers, VggFilters, SsdExtras, batchNorm)
    ensures |net.stages| == 6 && |net.extras| == 2
    ensures Preset(net, VggSpec(numLayers).value.layers, VggFilters, batchNorm)
  {
  }
}
