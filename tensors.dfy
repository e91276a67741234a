/** Shape algebra of the tensor operators the network is built from.
    A feature map is abstracted to its shape; the batch dimension is left out
    because no block of the network changes it. An operator that torch would
    reject with a shape error yields None. */
module Tensors {

  /** Failure-compatible option: None stands for the shape error torch raises. */
  datatype Option<+T> = None | Some(value: T) {
    predicate IsFailure() { None? }

    function PropagateFailure<U>(): Option<U>
    {
      None
    }

    function Extract(): T
      requires Some?
    {
      value
    }
  }

  /** Kernel sizes and strides are at least one. */
  type Pos = n: nat | n >= 1 witness 1

  /** Channels, height and width of one feature map. */
  datatype Shape = Shape(c: nat, h: nat, w: nat)

  /** What a stride-2 window of size 3 with padding 1 does to one side: ceil(n / 2). */
  function CeilHalf(n: nat): nat { (n + 1) / 2 }

  /** Length of one spatial side after a sliding window of size k, stride s and
      padding p at both ends (dilation 1, rounding down), as torch computes it for
      convolution and max-pooling. torch refuses a padded side shorter than the window. */
  function Window(n: nat, k: Pos, s: Pos, p: nat): (r: Option<nat>)
    ensures r.Some? <==> k <= n + 2 * p
    ensures r.Some? ==> 1 <= r.value
    ensures s == 1 && k % 2 == 1 && 2 * p + 1 == k && 1 <= n ==> r == Some(n)
    ensures s == 1 && k % 2 == 0 && 2 * p == k ==> r == Some(n + 1)
    ensures k == 3 && s == 2 && p == 1 && 1 <= n ==> r == Some(CeilHalf(n))
  {
    if k <= n + 2 * p then Some((n + 2 * p - k) / s + 1) else None
  }

  /** The window count rounds down: the last window starts within the padded side,
      and one more stride would run past it. */
  lemma WindowRounding(n: nat, k: Pos, s: Pos, p: nat)
    requires k <= n + 2 * p
    ensures var q := Window(n, k, s, p).value;
      (q - 1) * s <= n + 2 * p - k < q * s
  {
    var m := n + 2 * p - k;
    var q := m / s;
    assert m == q * s + m % s;
    assert Window(n, k, s, p).value == q + 1;
  }

  /** Total channel count of a list of feature maps. */
  function Channels(xs: seq<Shape>): nat
  {
    if xs == [] then 0 else Channels(xs[..|xs| - 1]) + xs[|xs| - 1].c
  }

  lemma ChannelsAppend(xs: seq<Shape>, y: Shape)
    ensures Channels(xs + [y]) == Channels(xs) + y.c
  {
    assert (xs + [y])[..|xs|] == xs;
  }

  /** All maps of the list have the height and width of the first one. */
  predicate SameSpatial(xs: seq<Shape>)
    requires xs != []
  {
    forall i :: 0 <= i < |xs| ==> xs[i].h == xs[0].h && xs[i].w == xs[0].w
  }

  /** torch.cat along the channel axis: defined exactly for a non-empty list of maps
      of one spatial size, whose channel counts add up and whose size is kept. */
  function Cat(xs: seq<Shape>): (r: Option<Shape>)
    ensures r.Some? <==> xs != [] && forall i :: 0 <= i < |xs| ==> xs[i].h == xs[0].h && xs[i].w == xs[0].w
    ensures r.Some? ==> r.value.c == Channels(xs)
    ensures r.Some? ==> forall i :: 0 <= i < |xs| ==> xs[i].h == r.value.h && xs[i].w == r.value.w
  {
    if xs != [] && SameSpatial(xs) then Some(Shape(Channels(xs), xs[0].h, xs[0].w)) else None
  }

  /** Concatenating two maps of one spatial size. */
  lemma CatPair(a: Shape, b: Shape)
    ensures Cat([a, b]).Some? <==> a.h == b.h && a.w == b.w
    ensures Cat([a, b]).Some? ==> Cat([a, b]).value == Shape(a.c + b.c, a.h, a.w)
  {
    ChannelsAppend([], a);
    ChannelsAppend([a], b);
    assert [] + [a] == [a] && [a] + [b] == [a, b];
  }

  /** torch.chunk(2, 1): chunks of ceil(c / 2) channels, the last one possibly smaller;
      a single channel cannot be split, so it stays one chunk. */
  function Chunk2(x: Shape): (r: seq<Shape>)
    ensures Channels(r) == x.c
    ensures forall i :: 0 <= i < |r| ==> r[i].h == x.h && r[i].w == x.w
    ensures x.c != 1 ==> |r| == 2 && r[1].c == x.c / 2
    ensures x.c == 1 ==> |r| == 1
  {
    if x.c == 1 then [x]
    else
      var first, second := Shape((x.c + 1) / 2, x.h, x.w), Shape(x.c / 2, x.h, x.w);
      ChannelsAppend([], first);
      ChannelsAppend([first], second);
      [first] + [second]
  }

  /** Nearest-neighbour upsampling by a factor of two. torch refuses a map with no
      channels or an empty side; otherwise channels are kept, and each side becomes an
      even length that a 3x3 stride-2 convolution brings back to the original side. */
  function Upsample2(x: Shape): (r: Option<Shape>)
    ensures r.Some? <==> x.c >= 1 && x.h >= 1 && x.w >= 1
    ensures r.Some? ==> r.value.c == x.c
    ensures r.Some? ==> r.value.h % 2 == 0 && CeilHalf(r.value.h) == x.h
    ensures r.Some? ==> r.value.w % 2 == 0 && CeilHalf(r.value.w) == x.w
  {
    if x.c == 0 || x.h == 0 || x.w == 0 then None else Some(Shape(x.c, 2 * x.h, 2 * x.w))
  }

  /** Max-pooling with window k, stride 1 and padding k / 2; channels are kept. torch
      refuses an input with no channels or an empty side, whatever the window. */
  function MaxPool(k: Pos, x: Shape): (r: Option<Shape>)
    ensures r.Some? <==> x.c >= 1 && x.h >= 1 && x.w >= 1
    ensures r.Some? ==> r.value == Shape(x.c, x.h + 1 - k % 2, x.w + 1 - k % 2)
  {
    assert k % 2 == 1 ==> 2 * (k / 2) + 1 == k;
    if x.c == 0 || x.h == 0 || x.w == 0 then None
    else
      var h :- Window(x.h, k, 1, k / 2);
      var w :- Window(x.w, k, 1, k / 2);
      Some(Shape(x.c, h, w))
  }
}
