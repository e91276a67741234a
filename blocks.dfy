/** The building blocks of the network: Conv, Residual, CSP and SPP, each as the
    shape transformer it is. The numeric content of a block (weights, batch
    normalisation, the SiLU gate) never changes a shape and is abstracted away. */
module Blocks {
  import opened Tensors

  /** A Conv block: 2-D convolution with padding (k - 1) / 2 and no bias, then batch
      normalisation and SiLU. */
  datatype Conv = Conv(inCh: nat, outCh: nat, k: Pos, s: Pos)

  function Pad(k: Pos): nat { (k - 1) / 2 }

  /** Forward pass of a Conv block: the channel count must be the declared input
      width and the block must emit at least one channel (a convolution with no
      output channels can be built but not run); odd kernels at stride 1 keep the
      spatial size, and the 3x3 stride-2 convolution halves it, rounding up. */
  function ApplyConv(m: Conv, x: Shape): (r: Option<Shape>)
    ensures r.Some? <==> x.c == m.inCh && m.outCh >= 1 && m.k <= x.h + 2 * Pad(m.k) && m.k <= x.w + 2 * Pad(m.k)
    ensures r.Some? ==> r.value.c == m.outCh
    ensures r.Some? && m.s == 1 && m.k % 2 == 1 ==> r.value.h == x.h && r.value.w == x.w
    ensures r.Some? && m.k == 3 && m.s == 2 ==> r.value.h == CeilHalf(x.h) && r.value.w == CeilHalf(x.w)
  {
    assert m.k % 2 == 1 ==> 2 * Pad(m.k) + 1 == m.k;
    if x.c != m.inCh || m.outCh == 0 then None
    else
      var h :- Window(x.h, m.k, m.s, Pad(m.k));
      var w :- Window(x.w, m.k, m.s, Pad(m.k));
      Some(Shape(m.outCh, h, w))
  }

  /** A Residual block on ch channels; add says whether the input is added back. */
  datatype Residual = Residual(ch: nat, add: bool)

  function ResidualConv(m: Residual): Conv { Conv(m.ch, m.ch, 3, 1) }

  /** The two chained 3x3 convolutions of a Residual block give back the shape of
      their input, so the two addends of the skip connection always agree. */
  function ApplyResidualBranch(m: Residual, x: Shape): (r: Option<Shape>)
    ensures r.Some? <==> x.c == m.ch && m.ch >= 1 && x.h >= 1 && x.w >= 1
    ensures r.Some? ==> r.value == x
  {
    var y :- ApplyConv(ResidualConv(m), x);
    ApplyConv(ResidualConv(m), y)
  }

  /** Elementwise addition of two maps: defined exactly when the shapes agree
      (broadcasting is never needed here), and the sum has that common shape. */
  function Add(x: Shape, y: Shape): (r: Option<Shape>)
    ensures r.Some? <==> x == y
    ensures r.Some? ==> r.value == x && r.value == y
  {
    if x == y then Some(x) else None
  }

  /** Forward pass of a Residual block: with or without the skip connection it
      preserves channels and spatial size. */
  function ApplyResidual(m: Residual, x: Shape): (r: Option<Shape>)
    ensures r.Some? <==> x.c == m.ch && m.ch >= 1 && x.h >= 1 && x.w >= 1
    ensures r.Some? ==> r.value == x
  {
    var y :- ApplyResidualBranch(m, x);
    if m.add then Add(x, y) else Some(y)
  }

  /** A CSP block: conv1 maps inCh to outCh channels, the result is split in two,
      n Residual blocks on outCh / 2 channels run on the last chunk, and conv2 maps the
      concatenation back to outCh channels. */
  datatype Csp = Csp(inCh: nat, outCh: nat, n: nat, add: bool)

  function CspConv1(m: Csp): Conv { Conv(m.inCh, m.outCh, 1, 1) }

  function CspConv2(m: Csp): Conv { Conv((2 + m.n) * m.outCh / 2, m.outCh, 1, 1) }

  function CspUnit(m: Csp): Residual { Residual(m.outCh / 2, m.add) }

  /** The channel bookkeeping of a CSP block closes: the block emits at least one
      channel, the residual chain accepts the last chunk, and the concatenation has
      the width conv2 was declared with. */
  predicate CspWidthOk(outCh: nat, n: nat)
  {
    outCh >= 1 && (n > 0 ==> outCh != 1) && outCh + n * (outCh / 2) == (2 + n) * outCh / 2
  }

  /** The three steps of a CSP block taken one at a time: conv1 accepts exactly a
      non-empty map of inCh channels when outCh is positive, and keeps its size; the
      residual chain accepts the last chunk exactly when outCh is not 1; conv2 accepts
      the concatenation exactly when outCh is positive and the widths close. */
  lemma CspSteps(m: Csp, x: Shape)
    ensures var y := ApplyConv(CspConv1(m), x);
      (y.Some? <==> x.c == m.inCh && m.outCh >= 1 && x.h >= 1 && x.w >= 1) &&
      (y.Some? ==> y.value == Shape(m.outCh, x.h, x.w)) &&
      (y.Some? ==> var chunks := Chunk2(y.value);
        (ApplyResidual(CspUnit(m), chunks[|chunks| - 1]).Some? <==> m.outCh != 1))
    ensures x.h >= 1 && x.w >= 1 ==>
      var z := ApplyConv(CspConv2(m), Shape(m.outCh + m.n * (m.outCh / 2), x.h, x.w));
      (z.Some? <==> m.outCh >= 1 && m.outCh + m.n * (m.outCh / 2) == (2 + m.n) * m.outCh / 2) &&
      (z.Some? ==> z.value == Shape(m.outCh, x.h, x.w))
  {
  }

  /** Reference definition of a CSP forward pass: the concatenation consists of the
      chunks of conv1's output and n copies of what the residual chain yields on the
      last chunk. The block keeps the spatial size and emits outCh channels. */
  function ApplyCsp(m: Csp, x: Shape): (r: Option<Shape>)
    ensures r.Some? <==> x.c == m.inCh && x.h >= 1 && x.w >= 1 && CspWidthOk(m.outCh, m.n)
    ensures r.Some? ==> r.value == Shape(m.outCh, x.h, x.w)
  {
    CspSteps(m, x);
    var y :- ApplyConv(CspConv1(m), x);
    assert y == Shape(m.outCh, x.h, x.w);
    var chunks := Chunk2(y);
    if m.n > 0 && ApplyResidual(CspUnit(m), chunks[|chunks| - 1]).None? then None
    else ApplyConv(CspConv2(m), Shape(m.outCh + m.n * (m.outCh / 2), x.h, x.w))
  }

  /** The CSP forward pass as the source runs it: the list of chunks grows by one
      residual output per block, and the whole list is concatenated for conv2. Whenever
      the run reaches conv2 (conv1 accepts x, and the residual chain accepts the last
      chunk if there is a chain), the list concatenates to outCh + n * (outCh / 2)
      channels at the size of x, whether or not conv2 then accepts that width; with
      outCh other than 1 it holds 2 + n maps. */
  method CspForward(m: Csp, x: Shape) returns (r: Option<Shape>, yList: seq<Shape>)
    ensures r == ApplyCsp(m, x)
    ensures ApplyConv(CspConv1(m), x).Some? && (m.n == 0 || m.outCh != 1) ==>
      Cat(yList) == Some(Shape(m.outCh + m.n * (m.outCh / 2), x.h, x.w)) &&
      (m.outCh != 1 ==> |yList| == 2 + m.n)
  {
    CspSteps(m, x);
    yList := [];
    var y := ApplyConv(CspConv1(m), x);
    if y.None? {
      return None, yList;
    }
    var chunks := Chunk2(y.value);
    var last := chunks[|chunks| - 1];
    yList := chunks;
    var i := 0;
    while i < m.n
      invariant 0 <= i <= m.n
      invariant |yList| == |chunks| + i && yList[|yList| - 1] == last
      invariant forall j :: 0 <= j < |yList| ==> yList[j].h == x.h && yList[j].w == x.w
      invariant Channels(yList) == m.outCh + i * last.c
      invariant i > 0 ==> ApplyResidual(CspUnit(m), last).Some?
    {
      var z := ApplyResidual(CspUnit(m), yList[|yList| - 1]);
      if z.None? {
        return None, yList;
      }
      ChannelsStep(yList, z.value, m.outCh, i);
      yList := yList + [z.value];
      i := i + 1;
    }
    assert m.n > 0 ==> last.c == m.outCh / 2;
    assert m.n * last.c == m.n * (m.outCh / 2);
    var cat := Cat(yList);
    assert cat == Some(Shape(m.outCh + m.n * (m.outCh / 2), x.h, x.w));
    r := ApplyConv(CspConv2(m), cat.value);
  }

  /** One more residual output of c channels on a list that holds base + i * c. */
  lemma ChannelsStep(ys: seq<Shape>, z: Shape, base: nat, i: nat)
    requires Channels(ys) == base + i * z.c
    ensures Channels(ys + [z]) == base + (i + 1) * z.c
  {
    ChannelsAppend(ys, z);
    assert (i + 1) * z.c == i * z.c + z.c;
  }

  /** The closed form of the CSP width condition: it holds for every positive even
      width, and for an odd width only with at most one Residual block (and not for
      width 1 then). */
  lemma CspWidthOkIff(outCh: nat, n: nat)
    ensures CspWidthOk(outCh, n) <==>
      outCh >= 1 && (outCh % 2 == 0 || n == 0 || (n == 1 && outCh != 1))
  {
    var q := outCh / 2;
    if outCh % 2 == 0 {
      assert outCh == 2 * q;
      assert (2 + n) * outCh == 2 * (outCh + n * q);
    } else {
      assert outCh == 2 * q + 1;
      assert (2 + n) * outCh == 2 * (outCh + n * q) + n;
    }
  }

  /** An SPP block: conv1 halves the channels, three chained max-pools of window k,
      and conv2 maps the concatenation of all four to outCh channels. */
  datatype Spp = Spp(inCh: nat, outCh: nat, k: Pos)

  function SppConv1(m: Spp): Conv { Conv(m.inCh, m.inCh / 2, 1, 1) }

  function SppConv2(m: Spp): Conv { Conv(m.inCh * 2, m.outCh, 1, 1) }

  /** Four maps of one channel count concatenate exactly when they share the spatial
      size of the first, into four times its channels. */
  lemma CatFour(a: Shape, b: Shape, c: Shape, d: Shape)
    requires a.c == b.c == c.c == d.c
    ensures Cat([a, b, c, d]).Some? <==>
      b.h == a.h && b.w == a.w && c.h == a.h && c.w == a.w && d.h == a.h && d.w == a.w
    ensures Cat([a, b, c, d]).Some? ==> Cat([a, b, c, d]).value == Shape(4 * a.c, a.h, a.w)
  {
    ChannelsAppend([], a);
    ChannelsAppend([a], b);
    ChannelsAppend([a, b], c);
    ChannelsAppend([a, b, c], d);
    assert [] + [a] == [a] && [a] + [b] == [a, b];
    assert [a, b] + [c] == [a, b, c] && [a, b, c] + [d] == [a, b, c, d];
    assert SameSpatial([a, b, c, d]) <==>
      b.h == a.h && b.w == a.w && c.h == a.h && c.w == a.w && d.h == a.h && d.w == a.w;
  }

  /** Forward pass of an SPP block: pooling needs conv1 to leave at least one channel
      and conv2 must emit at least one,
      the four concatenated maps only agree in size when the window is odd, and
      4 * (inCh / 2) matches conv2's declared 2 * inCh only for an even inCh. The block
      keeps the spatial size and emits outCh channels. */
  function ApplySpp(m: Spp, x: Shape): (r: Option<Shape>)
    ensures r.Some? <==>
      x.c == m.inCh && x.h >= 1 && x.w >= 1 && m.k % 2 == 1 && m.inCh % 2 == 0 && m.inCh >= 2 &&
      m.outCh >= 1
    ensures r.Some? ==> r.value == Shape(m.outCh, x.h, x.w)
  {
    var x1 :- ApplyConv(SppConv1(m), x);
    var y1 :- MaxPool(m.k, x1);
    var y2 :- MaxPool(m.k, y1);
    var y3 :- MaxPool(m.k, y2);
    CatFour(x1, y1, y2, y3);
    var z :- Cat([x1, y1, y2, y3]);
    ApplyConv(SppConv2(m), z)
  }
}
