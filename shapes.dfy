/**
 * Spatial-shape arithmetic. The size formulas of MXNet's `Convolution` and
 * `Pooling` operators belong to the tensor library, not to the modelled file;
 * they are stated here as ASSUMPTIONS, each in one clearly labelled function,
 * and everything else is derived from the layer descriptors.
 */
module Shapes {
  import opened Wrappers
  import opened Layers

  /** Channels, height and width of a feature map (the batch axis is never changed, so it is left out). */
  datatype Shape = Shape(channels: int, height: int, width: int)

  /** A pooling operator's kernel, stride and padding (square). */
  datatype Pool = Pool(kernel: nat, stride: nat, pad: nat)

  /** `F.Pooling(kernel=(2, 2), stride=(2, 2))`, the pool between stages. */
  const Pool2x2: Pool := Pool(2, 2, 0)

  /** `F.Pooling(kernel=(3, 3), stride=(1, 1), pad=(1, 1))`, the pool before the dilated stage. */
  const Pool3x3: Pool := Pool(3, 1, 1)

  /** Rounding-down division. */
  function FloorDiv(a: int, b: int): (q: int)
    requires b > 0
    ensures q * b <= a < q * b + b
  {
    a / b
  }

  /** Rounding-up division. */
  function CeilDiv(a: int, b: int): (q: int)
    requires b > 0
    ensures q * b - b < a <= q * b
  {
    -((-a) / b)
  }

  /** ASSUMPTION (MXNet `Convolution`): output size `floor((n + 2p - d(k-1) - 1) / s) + 1`. */
  function ConvOutSize(n: int, kernel: int, stride: int, pad: int, dilation: int): int
    requires stride > 0
  {
    FloorDiv(n + 2 * pad - dilation * (kernel - 1) - 1, stride) + 1
  }

  /** ASSUMPTION (MXNet `Pooling`, `pooling_convention='full'`): output size `1 + ceil((n + 2p - k) / s)`. */
  function PoolOutSize(n: int, kernel: int, stride: int, pad: int): int
    requires stride > 0
  {
    1 + CeilDiv(n + 2 * pad - kernel, stride)
  }

  /** Shape after one layer; `None` is a shape error (zero stride or an empty output). */
  function LayerShape(l: Layer, s: Shape): Option<Shape>
  {
    match l
    case Conv(c, k, st, p, d) =>
      if st == 0 then None
      else
        var h := ConvOutSize(s.height, k, st, p, d);
        var w := ConvOutSize(s.width, k, st, p, d);
        if h > 0 && w > 0 then Some(Shape(c, h, w)) else None
    case BatchNorm => Some(s)
    case Relu => Some(s)
  }

  /** Shape after a container: its layers applied first to last. */
  function SequentialShape(ls: seq<Layer>, s: Option<Shape>): Option<Shape>
  {
    if ls == [] || s.None? then s else SequentialShape(ls[1..], LayerShape(ls[0], s.value))
  }

  /** Shape after a max-pooling operator: channels are kept. */
  function PoolShape(p: Pool, s: Option<Shape>): Option<Shape>
  {
    if s.None? || p.stride == 0 then None
    else
      var h := PoolOutSize(s.value.height, p.kernel, p.stride, p.pad);
      var w := PoolOutSize(s.value.width, p.kernel, p.stride, p.pad);
      if h > 0 && w > 0 then Some(Shape(s.value.channels, h, w)) else None
  }

  lemma {:induction false} SequentialShapeAppend(a: seq<Layer>, b: seq<Layer>, s: Option<Shape>)
    ensures SequentialShape(a + b, s) == SequentialShape(b, SequentialShape(a, s))
  {
    if a == [] {
      assert a + b == b;
    } else if s.None? {
      NoneStaysNone(b);
    } else {
      assert (a + b)[1..] == a[1..] + b;
      SequentialShapeAppend(a[1..], b, LayerShape(a[0], s.value));
    }
  }

  /** A shape error is never recovered from. */
  lemma {:induction false} NoneStaysNone(ls: seq<Layer>)
    ensures SequentialShape(ls, None) == None
  {
  }

  /** The 2x2 / stride 2 pool halves an even extent exactly. */
  lemma Pool2x2Halves(m: int)
    requires m > 0
    ensures PoolOutSize(2 * m, 2, 2, 0) == m
  {
  }

  /** The 3x3 / stride 1 / pad 1 pool preserves every positive extent. */
  lemma Pool3x3Preserves(n: int)
    requires n > 0
    ensures PoolOutSize(n, 3, 1, 1) == n
  {
  }

  /** A 3x3, pad 1, stride 1 convolution preserves every extent. */
  lemma Conv3x3Preserves(n: int)
    ensures ConvOutSize(n, 3, 1, 1, 1) == n
  {
  }

  /** The dilated 3x3 convolution (pad 6, dilation 6) and the 1x1 convolution preserve every extent. */
  lemma DilatedConvPreserves(n: int)
    ensures ConvOutSize(n, 3, 1, 6, 6) == n
    ensures ConvOutSize(n, 1, 1, 0, 1) == n
  {
  }

  /** A 3x3 / stride 2 / pad 1 convolution halves an even extent; a 1x1 one keeps it. */
  lemma ExtraConvSizes(m: int)
    requires m > 0
    ensures ConvOutSize(2 * m, 3, 2, 1, 1) == m
    ensures ConvOutSize(2 * m, 1, 1, 0, 1) == 2 * m
  {
  }

  /** The optional BatchNorm and the Relu that end a block keep the shape. */
  lemma BlockTailShape(batchNorm: bool, t: Shape)
    ensures SequentialShape(OptionalBatchNorm(batchNorm) + [Relu], Some(t)) == Some(t)
  {
    assert [Relu][1..] == [];
    assert SequentialShape([Relu], Some(t)) == Some(t);
    if batchNorm {
      assert ([BatchNorm] + [Relu])[1..] == [Relu];
    } else {
      assert [] + [Relu] == [Relu];
    }
  }

  /** Conv, optional BatchNorm and Relu map `s` to the convolution's shape. */
  lemma ConvBlockShape(conv: Layer, batchNorm: bool, s: Shape)
    requires LayerShape(conv, s).Some?
    ensures SequentialShape(ConvBlock(conv, batchNorm), Some(s)) == LayerShape(conv, s)
  {
    var tail := OptionalBatchNorm(batchNorm) + [Relu];
    var block := ConvBlock(conv, batchNorm);
    assert block[0] == conv && block[1..] == tail;
    BlockTailShape(batchNorm, LayerShape(conv, s).value);
  }

  /** A 3x3 block maps a shape with positive extents to `channels` channels at the same extents. */
  lemma Conv3x3BlockShape(channels: nat, batchNorm: bool, s: Shape)
    requires s.height > 0 && s.width > 0
    ensures SequentialShape(ConvBlock(Conv3x3(channels), batchNorm), Some(s))
         == Some(Shape(channels, s.height, s.width))
  {
    Conv3x3Preserves(s.height);
    Conv3x3Preserves(s.width);
    ConvBlockShape(Conv3x3(channels), batchNorm, s);
  }

  /**
   * Any number of 3x3 blocks keeps the extents; one or more of them sets the
   * channel count to theirs, and zero leave the shape alone.
   */
  lemma {:induction false} TileShape(channels: nat, batchNorm: bool, n: nat, s: Shape)
    requires s.height > 0 && s.width > 0
    ensures SequentialShape(Tile(ConvBlock(Conv3x3(channels), batchNorm), n), Some(s))
         == Some(if n == 0 then s else Shape(channels, s.height, s.width))
  {
    if n > 0 {
      var block := ConvBlock(Conv3x3(channels), batchNorm);
      TileShape(channels, batchNorm, n - 1, s);
      SequentialShapeAppend(Tile(block, n - 1), block, Some(s));
      var mid := if n - 1 == 0 then s else Shape(channels, s.height, s.width);
      Conv3x3BlockShape(channels, batchNorm, mid);
    }
  }
}
