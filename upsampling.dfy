/**
 * `_upsample(x, stride)`: nearest-neighbour upsampling by repetition, first
 * along the last axis (columns), then along the second-to-last (rows). The
 * batch and channel axes are untouched and are left out: a feature map is a
 * grid of rows.
 */
module Upsampling {
  import opened Arithmetic

  /** `repeat(repeats=n)` along one axis: every element is repeated `n` times in place. */
  function RepeatEach<T>(s: seq<T>, n: nat): (r: seq<T>)
    ensures |r| == n * |s|
  {
    if s == [] then [] else seq(n, _ => s[0]) + RepeatEach(s[1..], n)
  }

  /** Repetition along the last axis: every row repeats each of its elements. */
  function RepeatColumns<T>(x: seq<seq<T>>, n: nat): (r: seq<seq<T>>)
    ensures |r| == |x|
    ensures forall i :: 0 <= i < |x| ==> r[i] == RepeatEach(x[i], n)
  {
    seq(|x|, i requires 0 <= i < |x| => RepeatEach(x[i], n))
  }

  /**
   * Repeating along the last axis keeps row `i` in place and makes it `n`
   * times as long; its pixel `j` is pixel `j / n` of the input row.
   */
  lemma RepeatColumnsAt<T>(x: seq<seq<T>>, n: nat, i: nat, j: nat)
    requires i < |x| && j < n * |x[i]|
    ensures |RepeatColumns(x, n)[i]| == n * |x[i]|
    ensures j / n < |x[i]| && RepeatColumns(x, n)[i][j] == x[i][j / n]
  {
    RepeatEachAt(x[i], n, j);
  }

  /** `_upsample(x, stride)` on one channel of one image. */
  function Upsample<T>(x: seq<seq<T>>, stride: nat): (r: seq<seq<T>>)
    ensures |r| == stride * |x|
  {
    RepeatEach(RepeatColumns(x, stride), stride)
  }

  /** Entry `k` of a repetition is entry `k / n` of the original. */
  lemma {:induction false} RepeatEachAt<T>(s: seq<T>, n: nat, k: nat)
    requires k < n * |s|
    ensures k / n < |s|
    ensures RepeatEach(s, n)[k] == s[k / n]
  {
    assert s != [];
    var head, tail := seq(n, _ => s[0]), RepeatEach(s[1..], n);
    assert RepeatEach(s, n) == head + tail;
    if k < n {
      DivModUnique(k, n, 0, k);
    } else {
      assert n * |s| == n * |s[1..]| + n;
      RepeatEachAt(s[1..], n, k - n);
      var q, r := (k - n) / n, (k - n) % n;
      DivModUnique(k - n, n, q, r);
      DivModUnique(k, n, q + 1, r);
      assert RepeatEach(s, n)[k] == tail[k - n];
    }
  }

  /** Repeating once changes nothing. */
  lemma {:induction false} RepeatEachOnce<T>(s: seq<T>)
    ensures RepeatEach(s, 1) == s
  {
    if s != [] {
      RepeatEachOnce(s[1..]);
    }
  }

  /**
   * Each input pixel is replicated into a `stride` x `stride` block with no
   * interpolation: the output has `stride` times the rows, output row `i` has
   * `stride` times the columns of input row `i / stride`, and pixel `(i, j)`
   * is input pixel `(i / stride, j / stride)`.
   */
  lemma UpsampleAt<T>(x: seq<seq<T>>, stride: nat, i: nat, j: nat)
    requires i < stride * |x|
    ensures |Upsample(x, stride)| == stride * |x|
    ensures i / stride < |x|
    ensures |Upsample(x, stride)[i]| == stride * |x[i / stride]|
    ensures j < stride * |x[i / stride]| ==> j / stride < |x[i / stride]|
    ensures j < stride * |x[i / stride]| ==> Upsample(x, stride)[i][j] == x[i / stride][j / stride]
  {
    var rows := RepeatColumns(x, stride);
    RepeatEachAt(rows, stride, i);
    if j < stride * |x[i / stride]| {
      RepeatEachAt(x[i / stride], stride, j);
    }
  }

  /** Stride 1 is the identity. */
  lemma UpsampleOnce<T>(x: seq<seq<T>>)
    ensures Upsample(x, 1) == x
  {
    var rows := RepeatColumns(x, 1);
    forall i | 0 <= i < |x|
      ensures rows[i] == x[i]
    {
      RepeatEachOnce(x[i]);
    }
    assert rows == x;
    RepeatEachOnce(rows);
  }

  /** A grid of `h` rows of `w` columns each. */
  predicate Rectangular<T>(x: seq<seq<T>>, h: nat, w: nat)
  {
    |x| == h && forall i :: 0 <= i < |x| ==> |x[i]| == w
  }

  /** An `h` x `w` grid upsampled by `stride` is a `stride * h` x `stride * w` grid. */
  lemma UpsampleRectangular<T>(x: seq<seq<T>>, h: nat, w: nat, stride: nat)
    requires Rectangular(x, h, w)
    ensures Rectangular(Upsample(x, stride), stride * h, stride * w)
  {
    var u := Upsample(x, stride);
    forall i | 0 <= i < |u|
      ensures |u[i]| == stride * w
    {
      UpsampleAt(x, stride, i, 0);
    }
  }

  /** A 2x2 input becomes a 4x4 output holding each input pixel in its own 2x2 quadrant. */
  lemma UpsampleQuadrants<T>(a: T, b: T, c: T, d: T)
    ensures Upsample([[a, b], [c, d]], 2)
         == [[a, a, b, b], [a, a, b, b], [c, c, d, d], [c, c, d, d]]
  {
    var x := [[a, b], [c, d]];
    var e := [[a, a, b, b], [a, a, b, b], [c, c, d, d], [c, c, d, d]];
    var u := Upsample(x, 2);
    assert |u| == 4;
    forall i | 0 <= i < 4
      ensures u[i] == e[i]
    {
      UpsampleAt(x, 2, i, 0);
      forall j | 0 <= j < 4
        ensures u[i][j] == e[i][j]
      {
        UpsampleAt(x, 2, i, j);
      }
    }
  }
}
