# VGG-Atrous feature extractor with fusion, modelled in Dafny

This project models the discrete core of `gluoncv/model_zoo/refineDet/vgg_atrous_fusion.py`,
the VGG-Atrous backbone of a RefineDet detector. The backbone produces two lists of four feature maps:

- "ARM" features (anchor refinement module): the coarse ones;
- "ODM" features (object detection module): the top-down fused ones.

Tensor values and floating-point numerics are abstracted away. What remains, and what is proved:

- **Nearest-neighbour upsampling** (`_upsample`), `Upsampling` module. It is a pure function on
  a grid `seq<seq<T>>`, standing for one channel of one image. It repeats along the last axis,
  then along the second-to-last. Proved: output pixel `(i, j)` is input pixel `(i / s, j / s)`;
  the output extents are `s` times the input's; stride 1 is the identity; a 2x2 input gives a
  4x4 output of four 2x2 quadrants.
- **Layer descriptors and builder loops**, `Layers` and `VggAtrous` modules. A layer is
  `Conv(channels, kernel, stride, pad, dilation) | BatchNorm | Relu`. A
  `nn.HybridSequential` container is the sequence of descriptors added to it. The loops
  of both constructors are methods with loops proved against specification functions
  (`VggStage`, `DilatedStage`, `ExtraStage`, `LastLayerTransSpec`, `TransitionBranch`,
  `FusionBlock`). Lemmas about those functions give exact counts, order and parameters.
- **The extractor**, class `VggAtrous.VGGAtrousExtractor`. Its `const` fields are the
  containers and the two `Normalize` layers. Python's `VGGAtrousBase` and
  `VGGAtrousExtractor` are one class here: the subclass only adds containers after the
  base constructor has run.
- **The forward pass** (`HybridForward`) works on symbolic tensors (`Tensor`). Each
  `Tensor` names the operations that produced it. The method's `ensures` give out:
  - the exact ARM list;
  - the contents of each of the four ODM slots;
  - (ghost) a trace of the order in which it writes the slots.

  A shape evaluator, `ShapeOf`, computes the channel count, height and width of any
  `Tensor` from the network's own layer descriptors. It returns `None` on a shape error.
- **Shape arithmetic**, `Shapes` and `ForwardShapes` modules. The output-size formulas of
  MXNet's `Convolution` and `Pooling` (`pooling_convention='full'`) are library semantics,
  not code in this file. They are ASSUMPTIONS, one labelled function each:
  - `Shapes.ConvOutSize`: `floor((n + 2p - d(k-1) - 1) / s) + 1`;
  - `Shapes.PoolOutSize`: `1 + ceil((n + 2p - k) / s)`.

  From these the model proves, for inputs whose height and width are divisible by 64:
  - the stage strides 1, 2, 4, 8, 16 noted at line 88;
  - ARM and ODM strides of 8, 16, 32, 64 (lines 186-188);
  - ARM channels `filters[3]`, 1024, 512, 256, and ODM channels all 256;
  - every element-wise fusion sum adds two operands of the same shape.
- **Preset tables and factory**, `Presets` module. `vgg_spec` and `extra_spec` are
  functions returning `Option`, where an unknown key is `None` (Python's `KeyError`).
  `get_vgg_atrous_extractor` returns a `Result` whose error names the lookup that failed.
  The depth is looked up first, as in the source.

Design decisions:

- The `assert` at line 67 is a precondition of the constructor. The same holds for
  `filters[3]` at line 104, which raises `IndexError` for fewer than four stages.
- The `assert` at line 183 is a precondition of `HybridForward`. The same holds for
  `ARM_features[i - 1]` at line 219, which raises `IndexError` when there are no extra stages.
- None of these Python failures is handled in this file. For the failure at line 67 (an
  `AssertionError`) the precondition means that no container is built.

## Model

| member | source | states |
|---|---|---|
| Upsampling.RepeatEach | gluoncv/model_zoo/refineDet/vgg_atrous_fusion.py:25 | `repeat` along one axis multiplies the length by the repeat count |
| Upsampling.RepeatEachAt | gluoncv/model_zoo/refineDet/vgg_atrous_fusion.py:25 | entry `k` of a repetition by `n` is entry `k / n` of the original |
| Upsampling.RepeatColumnsAt | gluoncv/model_zoo/refineDet/vgg_atrous_fusion.py:25 | `repeat(axis=-1)` keeps row `i` in place, makes it `n` times as long, and its pixel `j` is pixel `j / n` of the input row |
| Upsampling.Upsample | gluoncv/model_zoo/refineDet/vgg_atrous_fusion.py:14-25 | `_upsample(x, stride)` on one channel: the output has `stride` times the rows of the input (its pixels are given by `UpsampleAt`) |
| Upsampling.UpsampleAt | gluoncv/model_zoo/refineDet/vgg_atrous_fusion.py:14-25 | `s*H` rows, row `i` has `s` times the columns of input row `i / s`, and `out[i][j] == x[i / s][j / s]` (pure replication, no interpolation) |
| Upsampling.UpsampleOnce | gluoncv/model_zoo/refineDet/vgg_atrous_fusion.py:14-25 | stride 1 is the identity |
| Upsampling.UpsampleRectangular | gluoncv/model_zoo/refineDet/vgg_atrous_fusion.py:25 | an `h x w` grid becomes an `s*h x s*w` grid |
| Upsampling.UpsampleQuadrants | gluoncv/model_zoo/refineDet/vgg_atrous_fusion.py:25 | a 2x2 input becomes a 4x4 output with each pixel in its own 2x2 quadrant |
| Layers.OptionalBatchNorm | gluoncv/model_zoo/refineDet/vgg_atrous_fusion.py:83-84 | exactly one `BatchNorm` when `batch_norm` is set, and no layer at all otherwise |
| Layers.TileAt | gluoncv/model_zoo/refineDet/vgg_atrous_fusion.py:81-85 | `n` repetitions of a block have `n` times its length, and entry `k` is block entry `k % |block|` |
| Layers.ConvCountTile | gluoncv/model_zoo/refineDet/vgg_atrous_fusion.py:81-85 | a stage of `l` blocks holds exactly `l` convolutions |
| VggAtrous.BuildVggStage | gluoncv/model_zoo/refineDet/vgg_atrous_fusion.py:79-85 | the inner loop builds exactly `VggStage(l, f, batch_norm)` |
| VggAtrous.BuildStages | gluoncv/model_zoo/refineDet/vgg_atrous_fusion.py:77-101 | `len(layers) + 1` stages: stage `i` is `VggStage(layers[i], filters[i])`, the last is the dilated stage |
| VggAtrous.VggStageLayout | gluoncv/model_zoo/refineDet/vgg_atrous_fusion.py:78-86 | stage `i` has `layers[i]` blocks of `Conv(filters[i], k=3, s=1, p=1, d=1)`, then `BatchNorm` iff `batch_norm`, then `Relu`, in that order, and nothing else |
| VggAtrous.DilatedStageLayout | gluoncv/model_zoo/refineDet/vgg_atrous_fusion.py:91-101 | the dilated stage is exactly `Conv(1024, 3, 1, 6, 6)`, [BN], `Relu`, `Conv(1024, 1, 1, 0, 1)`, [BN], `Relu` |
| VggAtrous.BuildExtraStage | gluoncv/model_zoo/refineDet/vgg_atrous_fusion.py:131-137 | the loop over `(f, k, s, p)` tuples builds exactly `ExtraStage(config)` |
| VggAtrous.BuildExtras | gluoncv/model_zoo/refineDet/vgg_atrous_fusion.py:129-138 | one extra stage per configuration entry, in order |
| VggAtrous.ExtraStageLayout | gluoncv/model_zoo/refineDet/vgg_atrous_fusion.py:133-137 | tuple `j` yields, in order, `Conv(f, k, s, p)`, [BN], `Relu` at offset `j * block`; the stage has nothing else |
| VggAtrous.BuildLastLayerTrans | gluoncv/model_zoo/refineDet/vgg_atrous_fusion.py:142-148 | three 256-channel 3x3 blocks |
| VggAtrous.BuildTransitions | gluoncv/model_zoo/refineDet/vgg_atrous_fusion.py:150-161 | exactly three branches, each Conv/[BN]/Relu/Conv/[BN] |
| VggAtrous.BuildFusions | gluoncv/model_zoo/refineDet/vgg_atrous_fusion.py:172-179 | exactly three fusion blocks, each Conv/[BN]/Relu |
| VggAtrous.FusionSubnetworks | gluoncv/model_zoo/refineDet/vgg_atrous_fusion.py:142-179 | every conv of the fusion sub-networks is 256 channels, 3x3, stride 1, pad 1; `last_layer_trans` and the fusion blocks end in `Relu`, a transition has two convs and does not end in `Relu` |
| VggAtrous.VGGAtrousExtractor.constructor | gluoncv/model_zoo/refineDet/vgg_atrous_fusion.py:65-179 | requires equal lengths and a fourth stage; every container and both `Normalize` layers (`filters[3]` with scale 20, 1024 with scale 8) are as the builders specify |
| VggAtrous.VGGAtrousExtractor.HybridForward | gluoncv/model_zoo/refineDet/vgg_atrous_fusion.py:181-228 | ARM is the exact list appended, each ODM slot holds its exact term, and the ghost `order` records the writes as 3, 2, 1, 0 (top-down), then 0, 1, 2 (fusion) |
| VggAtrous.VGGAtrousExtractor.ArmPass | gluoncv/model_zoo/refineDet/vgg_atrous_fusion.py:189-208 | the ARM list is exactly norm4 of conv4_3, norm5 of conv_fc7, then the output of each extra stage in turn, `2 + len(extras)` entries |
| VggAtrous.VGGAtrousExtractor.OdmPass | gluoncv/model_zoo/refineDet/vgg_atrous_fusion.py:213-226 | every ODM slot ends up holding its top-down term, slots 0 to 2 fused and slot 3 not; the top-down loop reads only unfused slots; the ghost `order` records the writes as 3, 2, 1, 0, 0, 1, 2 |
| VggAtrous.ArmFeaturesLength | gluoncv/model_zoo/refineDet/vgg_atrous_fusion.py:190-208 | ARM has `2 + len(extras)` entries: norm4 of conv4_3, norm5 of conv_fc7, then one per extra stage, each consuming the previous one and the first the unnormalised conv_fc7 |
| VggAtrous.ArmFeatures | gluoncv/model_zoo/refineDet/vgg_atrous_fusion.py:189-208 | the reference ARM list after `n` extra stages has `n + 2` entries and starts with norm4 of conv4_3, then norm5 of conv_fc7 |
| VggAtrous.TopDown | gluoncv/model_zoo/refineDet/vgg_atrous_fusion.py:213-222 | the reference ODM slot `j` of the top-down pass: slot 3 is the only one taken from `last_layer_trans`, every other slot is a ReLU applied to a sum |
| VggAtrous.OdmFeatures | gluoncv/model_zoo/refineDet/vgg_atrous_fusion.py:213-228 | the returned ODM list has four entries; exactly slots 0 to 2 are fused, each from its top-down slot |
| VggAtrous.VGGAtrousExtractor.ShapeOf | gluoncv/model_zoo/refineDet/vgg_atrous_fusion.py:186-226 | the shape of every term of the forward pass; an element-wise sum has a shape only when both operands have that same shape, and an upsampled term only when its operand has one |
| VggAtrous.UpsampleShapeAgrees | gluoncv/model_zoo/refineDet/vgg_atrous_fusion.py:14-25 | the `Upsampled` shape rule is what `_upsample` with stride 2 does to an `h x w` grid: `2h x 2w`, channels kept |
| VggAtrous.ArmWithTwoExtras | gluoncv/model_zoo/refineDet/vgg_atrous_fusion.py:184-208 | with two extra stages ARM is exactly [norm4(stage3), norm5(stage5), extra0, extra1] |
| VggAtrous.OdmSchedule | gluoncv/model_zoo/refineDet/vgg_atrous_fusion.py:213-226 | `ODM[3] = last_layer_trans(ARM[-1])`; `ODM[i-1] = relu(up(ODM[i]) + trans[i-1](ARM[i-1]))` for `i = 3, 2, 1` with the unfused `ODM[i]`; only slots 0 to 2 are fused, and `ODM[3]` never is |
| Shapes.CeilDiv | gluoncv/model_zoo/refineDet/vgg_atrous_fusion.py:192-193 | rounding-up division (the "full" pooling convention), characterised by its bounds |
| Shapes.Pool2x2Halves | gluoncv/model_zoo/refineDet/vgg_atrous_fusion.py:192-193 | the 2x2 / stride 2 "full" pool halves an even extent |
| Shapes.Pool3x3Preserves | gluoncv/model_zoo/refineDet/vgg_atrous_fusion.py:200-201 | the 3x3 / stride 1 / pad 1 pool preserves every positive extent |
| Shapes.DilatedConvPreserves | gluoncv/model_zoo/refineDet/vgg_atrous_fusion.py:93-97 | the dilated conv (pad 6, dilation 6) and the 1x1 conv preserve extents |
| Shapes.ExtraConvSizes | gluoncv/model_zoo/refineDet/vgg_atrous_fusion.py:238-241 | a 3x3 / stride 2 / pad 1 conv halves an even extent; a 1x1 conv keeps it |
| Shapes.TileShape | gluoncv/model_zoo/refineDet/vgg_atrous_fusion.py:78-86 | a stage of one or more 3x3 blocks sets its channel count and keeps the extents |
| ForwardShapes.PooledShape | gluoncv/model_zoo/refineDet/vgg_atrous_fusion.py:190-193 | before stage `k <= 3` the extents are the input's divided by `2^k` |
| ForwardShapes.StageOutputShapes | gluoncv/model_zoo/refineDet/vgg_atrous_fusion.py:87-88 | the five VGG stage outputs have strides 1, 2, 4, 8, 16 before their pools, with `filters[k]` channels |
| ForwardShapes.BaseShapes | gluoncv/model_zoo/refineDet/vgg_atrous_fusion.py:194-203 | conv4_3 is at stride 8 with `filters[3]` channels; conv_fc7 is at stride 16 with 1024 channels |
| ForwardShapes.SsdExtraShape | gluoncv/model_zoo/refineDet/vgg_atrous_fusion.py:237-242 | a preset extra stage halves the extents and sets its second conv's channels |
| ForwardShapes.TransitionShape | gluoncv/model_zoo/refineDet/vgg_atrous_fusion.py:150-161 | a transition branch maps any positive-extent input to 256 channels at the same extents |
| ForwardShapes.ArmShapesScaled | gluoncv/model_zoo/refineDet/vgg_atrous_fusion.py:186-208 | for a `64a x 64b` input the four ARM features are `filters[3] x 8a x 8b`, `1024 x 4a x 4b`, `512 x 2a x 2b`, `256 x a x b` |
| ForwardShapes.TopDownStep | gluoncv/model_zoo/refineDet/vgg_atrous_fusion.py:218-223 | when the deeper slot has half the extents, `up(ODM[i])` and `trans[i-1](ARM[i-1])` have the same shape |
| ForwardShapes.TopDownShapes | gluoncv/model_zoo/refineDet/vgg_atrous_fusion.py:213-223 | every unfused ODM slot has 256 channels and the extents of its ARM slot |
| ForwardShapes.OdmShapes | gluoncv/model_zoo/refineDet/vgg_atrous_fusion.py:225-226 | fusion keeps the shape of slots 0 to 2 |
| ForwardShapes.FeatureShapes | gluoncv/model_zoo/refineDet/vgg_atrous_fusion.py:186-228 | for `h, w` divisible by 64 both lists have four entries at strides 8, 16, 32, 64; ARM channels are `filters[3]`, 1024, 512, 256 and ODM channels are all 256 |
| ForwardShapes.FusionSumsWellFormed | gluoncv/model_zoo/refineDet/vgg_atrous_fusion.py:218-222 | for `i = 3, 2, 1` the two operands of the element-wise sum have the same shape, which is not a shape error |
| ForwardShapes.FactoryNetworksArePresets | gluoncv/model_zoo/refineDet/vgg_atrous_fusion.py:183 | every factory network has six stages, so the forward assertion holds, and two extra stages |
| Presets.VggSpec | gluoncv/model_zoo/refineDet/vgg_atrous_fusion.py:230-235 | defined exactly for 11, 13, 16, 19; each entry has 5 layer counts (all at least 1) and filters `[64, 128, 256, 512, 512]`; the layer counts sum to `num_layers - 3` |
| Presets.ExtraSpec | gluoncv/model_zoo/refineDet/vgg_atrous_fusion.py:237-242 | defined exactly for 320 and 512, both the same two-stage configuration |
| Presets.GetVggAtrousExtractor | gluoncv/model_zoo/refineDet/vgg_atrous_fusion.py:268-270 | an unknown depth fails first, then an unknown size; otherwise the network is built from the two table entries and has 6 stages and 2 extra stages |
| Presets.Vgg16Atrous320 | gluoncv/model_zoo/refineDet/vgg_atrous_fusion.py:279-281 | the (16, 320) lookup succeeds and builds the VGG-16 preset |
| Presets.Vgg16Atrous512 | gluoncv/model_zoo/refineDet/vgg_atrous_fusion.py:283-285 | the (16, 512) lookup succeeds and builds the VGG-16 preset |
| Presets.PresetBaseConvolutions | gluoncv/model_zoo/refineDet/vgg_atrous_fusion.py:77-101 | a preset base of depth `d` holds `d - 1` convolutions: `d - 3` in the VGG stages and 2 in the dilated stage |

## Left out

- VggAtrous.VGGAtrousExtractor.OdmPass: the ghost `order` is a trace that the method appends to beside each slot write. It is not a property proved about the writes, and a different fusion order would leave the same final ODM list.
- Tensor values: the model names each feature map by the operations that produced it, and tracks its shape. Convolution, pooling, BatchNorm, ReLU and L2-normalisation arithmetic on floats (lines 47-49) are not modelled, so neither is the Normalize invariant on unit channel norms.
- The `init_scale` constant `[0.229, 0.224, 0.225] * 255` (lines 74-76) is floating point. Only its role in the shapes is kept: a broadcast multiply by a `(1, 3, 1, 1)` tensor.
- Normalize's learned scale is modelled as its channel count and an integer initial value (20 and 8). The `eps` floor is not modelled.
- Parameter initialisation (the Xavier settings at lines 68-72 and `mx.init.Constant` at line 45) is library semantics.
- Pretrained weights (`pretrained`, `ctx`, `root`, `get_model_file`, `initialize`, `load_parameters(..., allow_missing=True)`, lines 271-276) are file I/O and foreign calls.
- MXNet plumbing: `name_scope`, prefixes, parameter names, `HybridBlock`/`HybridSequential` internals, the `F` switch, and indexing by string name.
- The commented-out `Conv2DTranspose` upsampler (lines 163-170) is dead code.
- The `Convolution` and `Pooling` output-size formulas are MXNet operator semantics. They are assumed, not derived (see `Shapes.ConvOutSize`, `Shapes.PoolOutSize`).
- MXNet `NDArray` addition broadcasts; `Symbol` addition needs equal shapes. `VggAtrous.PlusShape` takes the stricter equal-shape rule.
- The batch axis is carried by no shape: no operation here changes it.
- Shape theorems are proved for the preset extra stages and for five VGG stages of at least one block each. For other configurations the model's shape evaluator still computes shapes, but no theorem about them is stated.
- Inputs whose height or width are not divisible by 64 are outside the proved domain. The source leaves them open.
- Python's `AssertionError` and `IndexError` at lines 67, 104, 183 and 219 are not modelled as values. They are preconditions, because the program has no path that recovers from them.
