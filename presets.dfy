/** The preset tables `vgg_spec` and `extra_spec`, and the factory that looks them up. */
module Presets {
  import opened Wrappers
  import opened Layers
  import opened VggAtrous

  /** One `vgg_spec` entry: conv blocks per stage and channels per stage. */
  datatype VggConfig = VggConfig(layers: seq<nat>, filters: seq<nat>)

  /** The channel counts shared by every `vgg_spec` entry. */
  const VggFilters: seq<nat> := [64, 128, 256, 512, 512]

  function Sum(s: seq<nat>): nat
  {
    if s == [] then 0 else s[0] + Sum(s[1..])
  }

  /**
   * `vgg_spec[num_layers]`; `None` is the `KeyError` of an unknown depth.
   * Every entry has five stages, and its conv counts sum to `num_layers - 3`
   * (the three dense layers of a plain VGG are not stages).
   */
  function VggSpec(numLayers: int): (r: Option<VggConfig>)
    ensures r.Some? <==> numLayers in {11, 13, 16, 19}
    ensures r.Some? ==> |r.value.layers| == 5 && r.value.filters == VggFilters
    ensures r.Some? ==> Sum(r.value.layers) == numLayers - 3
    ensures r.Some? ==> forall i :: 0 <= i < 5 ==> r.value.layers[i] >= 1
  {
    if numLayers == 11 then Some(VggConfig([1, 1, 2, 2, 2], VggFilters))
    else if numLayers == 13 then Some(VggConfig([2, 2, 2, 2, 2], VggFilters))
    else if numLayers == 16 then Some(VggConfig([2, 2, 3, 3, 3], VggFilters))
    else if numLayers == 19 then Some(VggConfig([2, 2, 4, 4, 4], VggFilters))
    else None
  }

  /** The extra-stage configuration shared by both input sizes: two stages, 1x1 then 3x3 stride 2. */
  const SsdExtras: seq<seq<ConvCfg>> :=
    [[ConvCfg(256, 1, 1, 0), ConvCfg(512, 3, 2, 1)],
     [ConvCfg(128, 1, 1, 0), ConvCfg(256, 3, 2, 1)]]

  /** `extra_spec[im_size]`; `None` is the `KeyError` of an unknown input size. */
  function ExtraSpec(imSize: int): (r: Option<seq<seq<ConvCfg>>>)
    ensures r.Some? <==> imSize in {320, 512}
    ensures r.Some? ==> r.value == SsdExtras
  {
    if imSize == 320 then Some(SsdExtras)
    else if imSize == 512 then Some(SsdExtras)
    else None
  }

  /** Why the factory fails: the first table lookup that raised. */
  datatype ConfigError = UnknownNumLayers(numLayers: int) | UnknownImSize(imSize: int)

  /**
   * `get_vgg_atrous_extractor(num_layers, im_size, batch_norm=...)` without
   * weight loading: depth is looked up first, then the input size.
   */
  method GetVggAtrousExtractor(numLayers: int, imSize: int, batchNorm: bool)
    returns (r: Result<VGGAtrousExtractor, ConfigError>)
    ensures numLayers !in {11, 13, 16, 19} ==> r == Failure(UnknownNumLayers(numLayers))
    ensures numLayers in {11, 13, 16, 19} && imSize !in {320, 512} ==> r == Failure(UnknownImSize(imSize))
    ensures r.Success? <==> numLayers in {11, 13, 16, 19} && imSize in {320, 512}
    ensures r.Success? ==>
      r.value.BuiltFrom(VggSpec(numLayers).value.layers, VggFilters, SsdExtras, batchNorm)
    ensures r.Success? ==> |r.value.stages| == 6 && |r.value.extras| == 2
  {
    var spec := VggSpec(numLayers);
    if spec.None? {
      return Failure(UnknownNumLayers(numLayers));
    }
    var extras := ExtraSpec(imSize);
    if extras.None? {
      return Failure(UnknownImSize(imSize));
    }
    var net := new VGGAtrousExtractor(spec.value.layers, spec.value.filters, extras.value, batchNorm);
    return Success(net);
  }

  /** `vgg16_atrous_320`: the fixed-key lookup (16, 320). */
  method Vgg16Atrous320(batchNorm: bool) returns (net: VGGAtrousExtractor)
    ensures net.BuiltFrom([2, 2, 3, 3, 3], VggFilters, SsdExtras, batchNorm)
  {
    var r := GetVggAtrousExtractor(16, 320, batchNorm);
    net := r.value;
  }

  /** `vgg16_atrous_512`: the fixed-key lookup (16, 512). */
  method Vgg16Atrous512(batchNorm: bool) returns (net: VGGAtrousExtractor)
    ensures net.BuiltFrom([2, 2, 3, 3, 3], VggFilters, SsdExtras, batchNorm)
  {
    var r := GetVggAtrousExtractor(16, 512, batchNorm);
    net := r.value;
  }

  /** The number of convolutions in all base stages. */
  function TotalConvs(stages: seq<seq<Layer>>): nat
  {
    if stages == [] then 0 else ConvCount(stages[0]) + TotalConvs(stages[1..])
  }

  lemma {:induction false} TotalConvsOfStages(layers: seq<nat>, filters: seq<nat>, batchNorm: bool, stages: seq<seq<Layer>>)
    requires |layers| == |filters| == |stages|
    requires forall i :: 0 <= i < |layers| ==> stages[i] == VggStage(layers[i], filters[i], batchNorm)
    ensures TotalConvs(stages) == Sum(layers)
  {
    if layers != [] {
      ConvCountTile(Conv3x3(filters[0]), batchNorm, layers[0]);
      TotalConvsOfStages(layers[1..], filters[1..], batchNorm, stages[1..]);
    }
  }

  lemma {:induction false} TotalConvsAppend(a: seq<seq<Layer>>, b: seq<seq<Layer>>)
    ensures TotalConvs(a + b) == TotalConvs(a) + TotalConvs(b)
  {
    if a == [] {
      assert a + b == b;
    } else {
      assert (a + b)[1..] == a[1..] + b;
      TotalConvsAppend(a[1..], b);
    }
  }

  /**
   * A preset base network of depth `numLayers` holds `numLayers - 1`
   * convolutions: `numLayers - 3` in the VGG stages and two in the dilated
   * stage that replaces the dense layers.
   */
  lemma PresetBaseConvolutions(net: VGGAtrousExtractor, numLayers: int, extraCfg: seq<seq<ConvCfg>>, batchNorm: bool)
    requires VggSpec(numLayers).Some?
    requires net.BuiltFrom(VggSpec(numLayers).value.layers, VggFilters, extraCfg, batchNorm)
    ensures TotalConvs(net.stages) == numLayers - 1
  {
    var layers := VggSpec(numLayers).value.layers;
    assert net.stages == net.stages[..5] + [net.stages[5]];
    TotalConvsOfStages(layers, VggFilters, batchNorm, net.stages[..5]);
    TotalConvsAppend(net.stages[..5], [net.stages[5]]);
    ConvCountAppend(ConvBlock(Conv(1024, 3, 1, 6, 6), batchNorm), ConvBlock(Conv(1024, 1, 1, 0, 1), batchNorm));
    ConvCountBlock(Conv(1024, 3, 1, 6, 6), batchNorm);
    ConvCountBlock(Conv(1024, 1, 1, 0, 1), batchNorm);
    assert [net.stages[5]][1..] == [];
  }
}
