/**
 * `VGGAtrousBase` and `VGGAtrousExtractor`: the containers their constructors
 * build, and the slot bookkeeping of the extractor's forward pass. Base and
 * extractor are one class here: the extractor's constructor runs the base's
 * first and only adds containers.
 */
module VggAtrous {
  import opened Wrappers
  import opened Layers
  import opened Shapes
  import opened Arithmetic
  import opened Upsampling

  // ---------------------------------------------------------------------------
  // What each container holds
  // ---------------------------------------------------------------------------

  /** VGG stage `i`: `layers[i]` blocks of a 3x3, pad 1 convolution to `filters[i]` channels. */
  function VggStage(l: nat, f: nat, batchNorm: bool): seq<Layer>
  {
    Tile(ConvBlock(Conv3x3(f), batchNorm), l)
  }

  /** The dilated sixth stage that replaces the dense layers. */
  function DilatedStage(batchNorm: bool): seq<Layer>
  {
    ConvBlock(Conv(1024, 3, 1, 6, 6), batchNorm) + ConvBlock(Conv(1024, 1, 1, 0, 1), batchNorm)
  }

  /** The convolution that one `(f, k, s, p)` tuple adds (dilation keeps its default 1). */
  function CfgConv(c: ConvCfg): Layer
  {
    Conv(c.channels, c.kernel, c.stride, c.pad, 1)
  }

  /** An extra stage: one block per configuration tuple, in order. */
  function ExtraStage(config: seq<ConvCfg>, batchNorm: bool): seq<Layer>
  {
    if config == [] then []
    else ExtraStage(config[..|config| - 1], batchNorm) + ConvBlock(CfgConv(config[|config| - 1]), batchNorm)
  }

  /** `last_layer_trans`: three 256-channel 3x3 blocks. */
  function LastLayerTransSpec(batchNorm: bool): seq<Layer>
  {
    Tile(ConvBlock(Conv3x3(256), batchNorm), 3)
  }

  /** One transition branch: a block, then a second convolution with no activation after it. */
  function TransitionBranch(batchNorm: bool): seq<Layer>
  {
    ConvBlock(Conv3x3(256), batchNorm) + [Conv3x3(256)] + OptionalBatchNorm(batchNorm)
  }

  /** One fusion block. */
  function FusionBlock(batchNorm: bool): seq<Layer>
  {
    ConvBlock(Conv3x3(256), batchNorm)
  }

  // ---------------------------------------------------------------------------
  // The builder loops
  // ---------------------------------------------------------------------------

  /** One VGG stage, as the inner loop of the base constructor adds it. */
  method BuildVggStage(l: nat, f: nat, batchNorm: bool) returns (stage: seq<Layer>)
    ensures stage == VggStage(l, f, batchNorm)
  {
    stage := [];
    var i := 0;
    while i < l
      invariant 0 <= i <= l
      invariant stage == VggStage(i, f, batchNorm)
    {
      stage := stage + [Conv3x3(f)];
      if batchNorm {
        stage := stage + [BatchNorm];
      }
      stage := stage + [Relu];
      i := i + 1;
    }
  }

  /** `self.stages`: one VGG stage per `(layers[i], filters[i])` pair, then the dilated stage. */
  method BuildStages(layers: seq<nat>, filters: seq<nat>, batchNorm: bool) returns (stages: seq<seq<Layer>>)
    requires |layers| == |filters|
    ensures |stages| == |layers| + 1
    ensures forall i :: 0 <= i < |layers| ==> stages[i] == VggStage(layers[i], filters[i], batchNorm)
    ensures stages[|layers|] == DilatedStage(batchNorm)
  {
    stages := [];
    var i := 0;
    while i < |layers|
      invariant 0 <= i <= |layers|
      invariant |stages| == i
      invariant forall j :: 0 <= j < i ==> stages[j] == VggStage(layers[j], filters[j], batchNorm)
    {
      var stage := BuildVggStage(layers[i], filters[i], batchNorm);
      stages := stages + [stage];
      i := i + 1;
    }
    var dilated := [Conv(1024, 3, 1, 6, 6)];
    if batchNorm {
      dilated := dilated + [BatchNorm];
    }
    dilated := dilated + [Relu];
    dilated := dilated + [Conv(1024, 1, 1, 0, 1)];
    if batchNorm {
      dilated := dilated + [BatchNorm];
    }
    dilated := dilated + [Relu];
    stages := stages + [dilated];
  }

  /** One extra stage, as the inner loop over its `(f, k, s, p)` tuples adds it. */
  method BuildExtraStage(config: seq<ConvCfg>, batchNorm: bool) returns (extra: seq<Layer>)
    ensures extra == ExtraStage(config, batchNorm)
  {
    extra := [];
    var i := 0;
    while i < |config|
      invariant 0 <= i <= |config|
      invariant extra == ExtraStage(config[..i], batchNorm)
    {
      assert config[..i + 1][..i] == config[..i];
      var c := config[i];
      extra := extra + [Conv(c.channels, c.kernel, c.stride, c.pad, 1)];
      if batchNorm {
        extra := extra + [BatchNorm];
      }
      extra := extra + [Relu];
      i := i + 1;
    }
    assert config[..|config|] == config;
  }

  /** `self.extras`: one extra stage per configuration entry. */
  method BuildExtras(extras: seq<seq<ConvCfg>>, batchNorm: bool) returns (stages: seq<seq<Layer>>)
    ensures |stages| == |extras|
    ensures forall i :: 0 <= i < |extras| ==> stages[i] == ExtraStage(extras[i], batchNorm)
  {
    stages := [];
    var i := 0;
    while i < |extras|
      invariant 0 <= i <= |extras|
      invariant |stages| == i
      invariant forall j :: 0 <= j < i ==> stages[j] == ExtraStage(extras[j], batchNorm)
    {
      var extra := BuildExtraStage(extras[i], batchNorm);
      stages := stages + [extra];
      i := i + 1;
    }
  }

  /** `self.last_layer_trans`. */
  method BuildLastLayerTrans(batchNorm: bool) returns (trans: seq<Layer>)
    ensures trans == LastLayerTransSpec(batchNorm)
  {
    trans := [];
    var i := 0;
    while i < 3
      invariant 0 <= i <= 3
      invariant trans == Tile(ConvBlock(Conv3x3(256), batchNorm), i)
    {
      trans := trans + [Conv(256, 3, 1, 1, 1)];
      if batchNorm {
        trans := trans + [BatchNorm];
      }
      trans := trans + [Relu];
      i := i + 1;
    }
  }

  /** `self.transitions`: three identical branches. */
  method BuildTransitions(batchNorm: bool) returns (transitions: seq<seq<Layer>>)
    ensures |transitions| == 3
    ensures forall i :: 0 <= i < 3 ==> transitions[i] == TransitionBranch(batchNorm)
  {
    transitions := [];
    var i := 0;
    while i < 3
      invariant 0 <= i <= 3
      invariant |transitions| == i
      invariant forall j :: 0 <= j < i ==> transitions[j] == TransitionBranch(batchNorm)
    {
      var transition := [Conv(256, 3, 1, 1, 1)];
      if batchNorm {
        transition := transition + [BatchNorm];
      }
      transition := transition + [Relu];
      transition := transition + [Conv(256, 3, 1, 1, 1)];
      if batchNorm {
        transition := transition + [BatchNorm];
      }
      transitions := transitions + [transition];
      i := i + 1;
    }
  }

  /** `self.fusions`: three identical blocks. */
  method BuildFusions(batchNorm: bool) returns (fusions: seq<seq<Layer>>)
    ensures |fusions| == 3
    ensures forall i :: 0 <= i < 3 ==> fusions[i] == FusionBlock(batchNorm)
  {
    fusions := [];
    var i := 0;
    while i < 3
      invariant 0 <= i <= 3
      invariant |fusions| == i
      invariant forall j :: 0 <= j < i ==> fusions[j] == FusionBlock(batchNorm)
    {
      var fusion := [Conv(256, 3, 1, 1, 1)];
      if batchNorm {
        fusion := fusion + [BatchNorm];
      }
      fusion := fusion + [Relu];
      fusions := fusions + [fusion];
      i := i + 1;
    }
  }

  // ---------------------------------------------------------------------------
  // Symbolic feature maps of the forward pass
  // ---------------------------------------------------------------------------

  /** A feature map, named by the operations that produced it from the input. */
  datatype Tensor =
    | Input
    | ScaleInput(x: Tensor)               // F.broadcast_mul(x, init_scale)
    | Stage(index: nat, x: Tensor)        // self.stages[index](x)
    | MaxPool(pool: Pool, x: Tensor)      // F.Pooling(pool_type='max', pooling_convention='full')
    | Norm4(x: Tensor)                    // self.norm4(x)
    | Norm5(x: Tensor)                    // self.norm5(x)
    | Extra(index: nat, x: Tensor)        // self.extras[index](x)
    | LastLayerTrans(x: Tensor)           // self.last_layer_trans(x)
    | Transition(index: nat, x: Tensor)   // self.transitions[index](x)
    | Upsampled(x: Tensor)                // _upsample(x), stride 2
    | Plus(deep: Tensor, shallow: Tensor) // element-wise +
    | Activation(x: Tensor)               // F.Activation(x, act_type='relu')
    | Fusion(index: nat, x: Tensor)       // self.fusions[index](x)

  /** The running tensor after input scaling and `k` rounds of "stage, then 2x2 pool". */
  function Pooled(k: nat, x: Tensor): Tensor
  {
    if k == 0 then ScaleInput(x) else MaxPool(Pool2x2, Stage(k - 1, Pooled(k - 1, x)))
  }

  /** Output of the fourth stage (conv4_3). */
  function Conv4Out(x: Tensor): Tensor
  {
    Stage(3, Pooled(3, x))
  }

  /** Output of the dilated stage (conv_fc7). */
  function Fc7Out(x: Tensor): Tensor
  {
    Stage(5, MaxPool(Pool3x3, Stage(4, MaxPool(Pool2x2, Conv4Out(x)))))
  }

  /** The running tensor after the first `n` extra stages. */
  function ExtraChain(n: nat, x: Tensor): Tensor
  {
    if n == 0 then Fc7Out(x) else Extra(n - 1, ExtraChain(n - 1, x))
  }

  /** `ARM_features` after the first `n` extra stages have appended their outputs. */
  function ArmFeatures(x: Tensor, n: nat): (r: seq<Tensor>)
    ensures |r| == n + 2
    ensures r[0] == Norm4(Conv4Out(x)) && r[1] == Norm5(Fc7Out(x))
  {
    if n == 0 then [Norm4(Conv4Out(x)), Norm5(Fc7Out(x))]
    else ArmFeatures(x, n - 1) + [ExtraChain(n, x)]
  }

  /**
   * `ODM_features[j]` before the fusion loop: the last slot comes from the last
   * ARM feature; each shallower one sums the upsampled deeper slot with a
   * transition of the matching ARM feature, then applies ReLU.
   */
  function TopDown(j: nat, arm: seq<Tensor>): (r: Tensor)
    requires j <= 3 && |arm| >= 3
    ensures r.LastLayerTrans? <==> j == 3
    ensures r.Activation? <==> j < 3
    ensures j < 3 ==> r.x.Plus?
    decreases 3 - j
  {
    if j == 3 then LastLayerTrans(arm[|arm| - 1])
    else Activation(Plus(Upsampled(TopDown(j + 1, arm)), Transition(j, arm[j])))
  }

  /** `ODM_features` as returned: slots 0 to 2 fused, slot 3 as the top-down pass left it. */
  function OdmFeatures(arm: seq<Tensor>): (r: seq<Tensor>)
    requires |arm| >= 3
    ensures |r| == 4
    ensures forall j :: 0 <= j < 4 ==> (r[j].Fusion? <==> j < 3)
    ensures forall j :: 0 <= j < 3 ==> r[j].x == TopDown(j, arm)
  {
    [Fusion(0, TopDown(0, arm)), Fusion(1, TopDown(1, arm)), Fusion(2, TopDown(2, arm)), TopDown(3, arm)]
  }

  /** `ODM_features` before the loop's first write: `[None] * 4`. */
  const EmptySlots: seq<Option<Tensor>> := [None, None, None, None]

  /** The ODM slots the forward pass writes, in the order it writes them. */
  const OdmWriteOrder: seq<nat> := [3, 2, 1, 0, 0, 1, 2]

  // ---------------------------------------------------------------------------
  // Shape bookkeeping
  // ---------------------------------------------------------------------------

  /** `F.broadcast_mul` with the `(1, 3, 1, 1)` channel constant: one or three input channels. */
  function ScaleShape(s: Option<Shape>): Option<Shape>
  {
    if s.Some? && (s.value.channels == 3 || s.value.channels == 1)
    then Some(Shape(3, s.value.height, s.value.width)) else None
  }

  /** A `Normalize` layer keeps the shape; its `(1, C, 1, 1)` scale must match the channels. */
  function NormalizeShape(n: Normalize, s: Option<Shape>): Option<Shape>
  {
    if s.Some? && s.value.channels == n.channels then s else None
  }

  /** `_upsample` with stride 2 doubles both extents (see `UpsampleShapeAgrees`). */
  function UpsampleShape(s: Option<Shape>): Option<Shape>
  {
    if s.Some? then Some(Shape(s.value.channels, 2 * s.value.height, 2 * s.value.width)) else None
  }

  /**
   * The shape rule for `Upsampled` is the extents of `_upsample` with stride 2:
   * an `h x w` grid becomes a `2h x 2w` grid, and the channel count is kept.
   */
  lemma UpsampleShapeAgrees<T>(x: seq<seq<T>>, channels: int, h: nat, w: nat)
    requires Rectangular(x, h, w)
    ensures Rectangular(Upsample(x, 2), 2 * h, 2 * w)
    ensures UpsampleShape(Some(Shape(channels, h, w))) == Some(Shape(channels, |Upsample(x, 2)|, 2 * w))
  {
    UpsampleRectangular(x, h, w, 2);
  }

  /** Element-wise `+` of two symbols needs equal shapes. */
  function PlusShape(a: Option<Shape>, b: Option<Shape>): Option<Shape>
  {
    if a.Some? && a == b then a else None
  }

  // ---------------------------------------------------------------------------
  // The extractor
  // ---------------------------------------------------------------------------

  class VGGAtrousExtractor {
    const stages: seq<seq<Layer>>
    const norm4: Normalize
    const norm5: Normalize
    const extras: seq<seq<Layer>>
    const lastLayerTrans: seq<Layer>
    const transitions: seq<seq<Layer>>
    const fusions: seq<seq<Layer>>

    /** The containers are those the constructors build from these arguments. */
    predicate BuiltFrom(layers: seq<nat>, filters: seq<nat>, extraCfg: seq<seq<ConvCfg>>, batchNorm: bool)
    {
      && |layers| == |filters| && |filters| >= 4
      && |stages| == |layers| + 1
      && (forall i :: 0 <= i < |layers| ==> stages[i] == VggStage(layers[i], filters[i], batchNorm))
      && stages[|layers|] == DilatedStage(batchNorm)
      && norm4 == Normalize(filters[3], 20)
      && norm5 == Normalize(1024, 8)
      && |extras| == |extraCfg|
      && (forall i :: 0 <= i < |extraCfg| ==> extras[i] == ExtraStage(extraCfg[i], batchNorm))
      && lastLayerTrans == LastLayerTransSpec(batchNorm)
      && |transitions| == 3 && (forall i :: 0 <= i < 3 ==> transitions[i] == TransitionBranch(batchNorm))
      && |fusions| == 3 && (forall i :: 0 <= i < 3 ==> fusions[i] == FusionBlock(batchNorm))
    }

    /**
     * `VGGAtrousExtractor(layers, filters, extras, batch_norm)`. The base
     * constructor asserts equal lengths and reads `filters[3]`.
     */
    constructor (layers: seq<nat>, filters: seq<nat>, extraCfg: seq<seq<ConvCfg>>, batchNorm: bool)
      requires |layers| == |filters|
      requires |filters| >= 4
      ensures BuiltFrom(layers, filters, extraCfg, batchNorm)
    {
      var s := BuildStages(layers, filters, batchNorm);
      var e := BuildExtras(extraCfg, batchNorm);
      var l := BuildLastLayerTrans(batchNorm);
      var t := BuildTransitions(batchNorm);
      var f := BuildFusions(batchNorm);
      stages := s;
      norm4 := Normalize(filters[3], 20);
      norm5 := Normalize(1024, 8);
      extras := e;
      lastLayerTrans := l;
      transitions := t;
      fusions := f;
    }

    /**
     * `hybrid_forward` on symbols: the ARM list it appends to, the ODM slots it
     * fills, and (ghost) the order in which it writes those slots. It asserts
     * six stages, and `ARM_features[i - 1]` for `i = 3` needs an extra stage.
     */
    method HybridForward(x: Tensor) returns (arm: seq<Tensor>, odm: seq<Option<Tensor>>, ghost order: seq<nat>)
      requires |stages| == 6
      requires |extras| >= 1
      ensures arm == ArmFeatures(x, |extras|)
      ensures |arm| == |extras| + 2
      ensures |odm| == 4
      ensures forall j :: 0 <= j < 4 ==> odm[j] == Some(OdmFeatures(arm)[j])
      ensures order == OdmWriteOrder
    {
      arm := ArmPass(x);
      odm, order := OdmPass(arm);
    }

    /** The backbone half of `hybrid_forward`: VGG stages, pools, norms and extra stages. */
    method ArmPass(x: Tensor) returns (arm: seq<Tensor>)
      ensures arm == ArmFeatures(x, |extras|)
      ensures |arm| == |extras| + 2
    {
      var y := ScaleInput(x);
      var k := 0;
      while k < 3
        invariant 0 <= k <= 3
        invariant y == Pooled(k, x)
      {
        y := Stage(k, y);
        y := MaxPool(Pool2x2, y);
        k := k + 1;
      }
      y := Stage(3, y);
      arm := [Norm4(y)];
      y := MaxPool(Pool2x2, y);
      y := Stage(4, y);
      y := MaxPool(Pool3x3, y);
      y := Stage(5, y);
      arm := arm + [Norm5(y)];
      var e := 0;
      while e < |extras|
        invariant 0 <= e <= |extras|
        invariant y == ExtraChain(e, x)
        invariant arm == ArmFeatures(x, e)
      {
        y := Extra(e, y);
        arm := arm + [y];
        e := e + 1;
      }
      ArmFeaturesLength(x, |extras|);
    }

    /**
     * The fusion half of `hybrid_forward`: the top-down pass fills ODM slots
     * 3 down to 0, then slots 0 to 2 are fused in place.
     */
    method OdmPass(arm: seq<Tensor>) returns (odm: seq<Option<Tensor>>, ghost order: seq<nat>)
      requires |arm| >= 3
      ensures |odm| == 4
      ensures forall j :: 0 <= j < 4 ==> odm[j] == Some(OdmFeatures(arm)[j])
      ensures order == OdmWriteOrder
    {
      odm := EmptySlots;
      odm := odm[3 := Some(LastLayerTrans(arm[|arm| - 1]))];
      order := [3];
      var i := 3;
      while i > 0
        invariant 0 <= i <= 3
        invariant |odm| == 4
        invariant forall j :: 0 <= j < i ==> odm[j] == None
        invariant forall j :: i <= j <= 3 ==> odm[j] == Some(TopDown(j, arm))
        invariant order == OdmWriteOrder[..4 - i]
      {
        var deep, shallow := odm[i].value, arm[i - 1];
        var upsampled := Upsampled(deep);
        var transitioned := Transition(i - 1, shallow);
        odm := odm[i - 1 := Some(Activation(Plus(upsampled, transitioned)))];
        assert OdmWriteOrder[..4 - i] + [i - 1] == OdmWriteOrder[..5 - i];
        order := order + [i - 1];
        i := i - 1;
      }
      while i < 3
        invariant 0 <= i <= 3
        invariant |odm| == 4
        invariant forall j :: 0 <= j < i ==> odm[j] == Some(Fusion(j, TopDown(j, arm)))
        invariant forall j :: i <= j <= 3 ==> odm[j] == Some(TopDown(j, arm))
        invariant order == OdmWriteOrder[..4 + i]
      {
        odm := odm[i := Some(Fusion(i, odm[i].value))];
        assert OdmWriteOrder[..4 + i] + [i] == OdmWriteOrder[..5 + i];
        order := order + [i];
        i := i + 1;
      }
    }

    /** The shape of a feature map for a given input shape; `None` is a shape error. */
    function ShapeOf(t: Tensor, input: Shape): (r: Option<Shape>)
      ensures t.Plus? && r.Some? ==> ShapeOf(t.deep, input) == r && ShapeOf(t.shallow, input) == r
      ensures t.Upsampled? && r.Some? ==> ShapeOf(t.x, input).Some?
    {
      match t
      case Input => Some(input)
      case ScaleInput(a) => ScaleShape(ShapeOf(a, input))
      case Stage(i, a) => if i < |stages| then SequentialShape(stages[i], ShapeOf(a, input)) else None
      case MaxPool(p, a) => PoolShape(p, ShapeOf(a, input))
      case Norm4(a) => NormalizeShape(norm4, ShapeOf(a, input))
      case Norm5(a) => NormalizeShape(norm5, ShapeOf(a, input))
      case Extra(i, a) => if i < |extras| then SequentialShape(extras[i], ShapeOf(a, input)) else None
      case LastLayerTrans(a) => SequentialShape(lastLayerTrans, ShapeOf(a, input))
      case Transition(i, a) =>
        if i < |transitions| then SequentialShape(transitions[i], ShapeOf(a, input)) else None
      case Upsampled(a) => UpsampleShape(ShapeOf(a, input))
      case Plus(a, b) => PlusShape(ShapeOf(a, input), ShapeOf(b, input))
      case Activation(a) => ShapeOf(a, input)
      case Fusion(i, a) => if i < |fusions| then SequentialShape(fusions[i], ShapeOf(a, input)) else None
    }
  }

  // ---------------------------------------------------------------------------
  // Properties of the containers and of the forward schedule
  // ---------------------------------------------------------------------------

  /**
   * `ARM_features` has two entries plus one per extra stage: the normalised
   * conv4_3 output, the normalised conv_fc7 output, then each extra stage's
   * output, each extra stage consuming the previous one's (the first consumes
   * the UNnormalised conv_fc7 output).
   */
  lemma {:induction false} ArmFeaturesLength(x: Tensor, n: nat)
    ensures |ArmFeatures(x, n)| == n + 2
    ensures ArmFeatures(x, n)[0] == Norm4(Conv4Out(x))
    ensures ArmFeatures(x, n)[1] == Norm5(Fc7Out(x))
    ensures forall i :: 2 <= i < n + 2 ==> ArmFeatures(x, n)[i] == Extra(i - 2, ExtraChain(i - 2, x))
  {
    if n > 0 {
      ArmFeaturesLength(x, n - 1);
    }
  }

  /** With the two extra stages of every preset, `ARM_features` is exactly these four tensors. */
  lemma ArmWithTwoExtras(x: Tensor)
    ensures ArmFeatures(x, 2)
         == [Norm4(Conv4Out(x)), Norm5(Fc7Out(x)), Extra(0, Fc7Out(x)), Extra(1, Extra(0, Fc7Out(x)))]
  {
    assert ExtraChain(1, x) == Extra(0, Fc7Out(x));
    assert ExtraChain(2, x) == Extra(1, Extra(0, Fc7Out(x)));
    assert ArmFeatures(x, 1) == [Norm4(Conv4Out(x)), Norm5(Fc7Out(x)), Extra(0, Fc7Out(x))];
  }

  /**
   * The top-down pass: slot 3 comes from the last ARM feature alone; slot
   * `i - 1` for `i = 3, 2, 1` from the UNfused slot `i` and ARM feature `i - 1`.
   * Only slots 0 to 2 are fused, each once, with its own fusion block.
   */
  lemma OdmSchedule(arm: seq<Tensor>)
    requires |arm| >= 3
    ensures OdmFeatures(arm)[3] == LastLayerTrans(arm[|arm| - 1])
    ensures forall i :: 1 <= i <= 3 ==>
      TopDown(i - 1, arm) == Activation(Plus(Upsampled(TopDown(i, arm)), Transition(i - 1, arm[i - 1])))
    ensures forall i :: 0 <= i < 3 ==> OdmFeatures(arm)[i] == Fusion(i, TopDown(i, arm))
    ensures forall i :: 0 <= i <= 3 ==> !TopDown(i, arm).Fusion?
  {
  }

  /** Stage `i` has exactly `l` blocks, each Conv(3x3 to `f`), optional BatchNorm, Relu, in that order. */
  lemma VggStageLayout(l: nat, f: nat, batchNorm: bool, k: nat)
    requires k < |VggStage(l, f, batchNorm)|
    ensures |VggStage(l, f, batchNorm)| == l * (if batchNorm then 3 else 2)
    ensures var r := k % (if batchNorm then 3 else 2);
      VggStage(l, f, batchNorm)[k]
      == (if r == 0 then Conv(f, 3, 1, 1, 1) else if batchNorm && r == 1 then BatchNorm else Relu)
  {
    var block := ConvBlock(Conv3x3(f), batchNorm);
    TileLength(block, l);
    TileAt(block, l, k);
  }

  /** The dilated stage, layer by layer. */
  lemma DilatedStageLayout(batchNorm: bool)
    ensures DilatedStage(batchNorm)
      == if batchNorm then [Conv(1024, 3, 1, 6, 6), BatchNorm, Relu, Conv(1024, 1, 1, 0, 1), BatchNorm, Relu]
         else [Conv(1024, 3, 1, 6, 6), Relu, Conv(1024, 1, 1, 0, 1), Relu]
  {
  }

  /** An extra stage holds one block per tuple, in order, and nothing else. */
  lemma {:induction false} ExtraStageLayout(config: seq<ConvCfg>, batchNorm: bool, j: nat, r: nat)
    requires j < |config| && r < (if batchNorm then 3 else 2)
    ensures |ExtraStage(config, batchNorm)| == |config| * (if batchNorm then 3 else 2)
    ensures ExtraStage(config, batchNorm)[j * (if batchNorm then 3 else 2) + r]
         == ConvBlock(CfgConv(config[j]), batchNorm)[r]
  {
    var w := if batchNorm then 3 else 2;
    var init := config[..|config| - 1];
    ExtraStageLength(init, batchNorm);
    if j < |config| - 1 {
      ExtraStageLayout(init, batchNorm, j, r);
      assert init[j] == config[j];
      assert j * w + r < (j + 1) * w <= |init| * w;
    }
  }

  lemma {:induction false} ExtraStageLength(config: seq<ConvCfg>, batchNorm: bool)
    ensures |ExtraStage(config, batchNorm)| == |config| * (if batchNorm then 3 else 2)
  {
    if config != [] {
      ExtraStageLength(config[..|config| - 1], batchNorm);
    }
  }

  /**
   * Every convolution of the fusion sub-networks is 256 channels, 3x3,
   * stride 1, pad 1; `last_layer_trans` and each fusion block end in `Relu`,
   * each transition branch does not.
   */
  lemma FusionSubnetworks(batchNorm: bool)
    ensures |LastLayerTransSpec(batchNorm)| == 3 * |ConvBlock(Conv3x3(256), batchNorm)|
    ensures forall l :: l in LastLayerTransSpec(batchNorm) && l.Conv? ==> l == Conv(256, 3, 1, 1, 1)
    ensures LastLayerTransSpec(batchNorm)[|LastLayerTransSpec(batchNorm)| - 1] == Relu
    ensures forall l :: l in TransitionBranch(batchNorm) && l.Conv? ==> l == Conv(256, 3, 1, 1, 1)
    ensures ConvCount(TransitionBranch(batchNorm)) == 2
    ensures TransitionBranch(batchNorm)[|TransitionBranch(batchNorm)| - 1] != Relu
    ensures forall l :: l in FusionBlock(batchNorm) && l.Conv? ==> l == Conv(256, 3, 1, 1, 1)
    ensures FusionBlock(batchNorm)[|FusionBlock(batchNorm)| - 1] == Relu
  {
    var block := ConvBlock(Conv3x3(256), batchNorm);
    var t := LastLayerTransSpec(batchNorm);
    TileLength(block, 3);
    forall l | l in t && l.Conv?
      ensures l == Conv(256, 3, 1, 1, 1)
    {
      var k :| 0 <= k < |t| && t[k] == l;
      TileAt(block, 3, k);
    }
    TileAt(block, 3, |t| - 1);
    DivModUnique(|t| - 1, |block|, 2, |block| - 1);
    ConvCountBlock(Conv3x3(256), batchNorm);
    ConvCountAppend(block, [Conv3x3(256)] + OptionalBatchNorm(batchNorm));
    assert TransitionBranch(batchNorm) == block + ([Conv3x3(256)] + OptionalBatchNorm(batchNorm));
    ConvCountAppend([Conv3x3(256)], OptionalBatchNorm(batchNorm));
    assert [Conv3x3(256)][1..] == [];
    if batchNorm {
      assert [BatchNorm][1..] == [];
    }
  }
}
