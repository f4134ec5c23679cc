/**
 * Layer descriptors of the network. A sequential container (`nn.HybridSequential`)
 * is modelled as the sequence of descriptors added to it, in order.
 */
module Layers {
  import opened Arithmetic

  /**
   * One layer added to a container: `nn.Conv2D(channels, kernel_size, strides,
   * padding, dilation=...)` (square kernels only), `nn.BatchNorm()` or
   * `nn.Activation('relu')`.
   */
  datatype Layer =
    | Conv(channels: nat, kernel: nat, stride: nat, pad: nat, dilation: nat)
    | BatchNorm
    | Relu

  /** One `(f, k, s, p)` tuple of an extra-stage configuration. */
  datatype ConvCfg = ConvCfg(channels: nat, kernel: nat, stride: nat, pad: nat)

  /** A `Normalize` layer: the channel count of its scale parameter and the scale's initial value. */
  datatype Normalize = Normalize(channels: nat, initial: nat)

  /** `nn.Conv2D(f, kernel_size=3, padding=1)`: stride and dilation keep their default 1. */
  function Conv3x3(channels: nat): Layer
  {
    Conv(channels, 3, 1, 1, 1)
  }

  /** The `BatchNorm` that is added after a convolution exactly when `batch_norm` is set. */
  function OptionalBatchNorm(batchNorm: bool): (r: seq<Layer>)
    ensures |r| == (if batchNorm then 1 else 0)
    ensures BatchNorm in r <==> batchNorm
  {
    if batchNorm then [BatchNorm] else []
  }

  /** A convolution, the optional `BatchNorm`, then `Relu`: the block every builder loop adds. */
  function ConvBlock(conv: Layer, batchNorm: bool): seq<Layer>
  {
    [conv] + OptionalBatchNorm(batchNorm) + [Relu]
  }

  /** `n` copies of `block`, one after the other. */
  function Tile<T>(block: seq<T>, n: nat): seq<T>
  {
    if n == 0 then [] else Tile(block, n - 1) + block
  }

  /** `Tile(block, n)` has `n * |block|` entries, and entry `k` is entry `k % |block|` of the block. */
  lemma {:induction false} TileAt<T>(block: seq<T>, n: nat, k: nat)
    requires k < n * |block|
    ensures |Tile(block, n)| == n * |block|
    ensures Tile(block, n)[k] == block[k % |block|]
  {
    TileLength(block, n - 1);
    if k < (n - 1) * |block| {
      TileAt(block, n - 1, k);
    } else {
      DivModUnique(k, |block|, n - 1, k - (n - 1) * |block|);
    }
  }

  lemma {:induction false} TileLength<T>(block: seq<T>, n: nat)
    ensures |Tile(block, n)| == n * |block|
  {
    if n > 0 {
      TileLength(block, n - 1);
    }
  }

  /** The number of convolutions in a container. */
  function ConvCount(ls: seq<Layer>): nat
  {
    if ls == [] then 0 else (if ls[0].Conv? then 1 else 0) + ConvCount(ls[1..])
  }

  lemma {:induction false} ConvCountAppend(a: seq<Layer>, b: seq<Layer>)
    ensures ConvCount(a + b) == ConvCount(a) + ConvCount(b)
  {
    if a == [] {
      assert a + b == b;
    } else {
      assert (a + b)[1..] == a[1..] + b;
      ConvCountAppend(a[1..], b);
    }
  }

  /** A block with one convolution, repeated `n` times, holds exactly `n` convolutions. */
  lemma {:induction false} ConvCountTile(conv: Layer, batchNorm: bool, n: nat)
    requires conv.Conv?
    ensures ConvCount(Tile(ConvBlock(conv, batchNorm), n)) == n
  {
    if n > 0 {
      ConvCountTile(conv, batchNorm, n - 1);
      ConvCountAppend(Tile(ConvBlock(conv, batchNorm), n - 1), ConvBlock(conv, batchNorm));
      ConvCountBlock(conv, batchNorm);
    }
  }

  lemma ConvCountBlock(conv: Layer, batchNorm: bool)
    requires conv.Conv?
    ensures ConvCount(ConvBlock(conv, batchNorm)) == 1
  {
    var tail := OptionalBatchNorm(batchNorm) + [Relu];
    assert ConvBlock(conv, batchNorm) == [conv] + tail;
    assert [Relu][1..] == [];
    assert ConvCount([Relu]) == 0;
    if batchNorm {
      assert tail[1..] == [Relu];
    } else {
      assert tail == [Relu];
    }
    assert ConvCount(tail) == 0;
    assert ([conv] + tail)[1..] == tail;
  }
}
