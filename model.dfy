/** YOLO: backbone, pyramid and head in sequence, with the stride metadata derived
    from one dummy forward pass at construction; QAT, the quantisation wrapper; and
    the six factory configurations. */
module Model {
  import opened Tensors
  import opened Blocks
  import opened Backbone
  import opened Pyramid
  import opened Detect

  /** YOLO's forward pass: DarkNet, then DarkFPN, then Head. */
  function ApplyYolo(net: DarkNet, fpn: DarkFpn, head: HeadLayers, x: Shape): (r: Option<seq<Shape>>)
    ensures r.Some? ==> |r.value| == 3
  {
    var l :- ApplyDarkNet(net, x);
    var f :- ApplyDarkFpn(fpn, l);
    ApplyHead(head, f)
  }

  /** The head is built for the widths of the three pyramid outputs. */
  function HeadWidths(width: seq<nat>): seq<nat>
    requires |width| >= 6
  {
    [width[3], width[4], width[5]]
  }

  /** The network YOLO(width, depth, nc) builds, applied to x. */
  function Network(width: seq<nat>, depth: seq<nat>, nc: nat, x: Shape): Option<seq<Shape>>
    requires |width| >= 6 && |depth| >= 3
  {
    ApplyYolo(MakeDarkNet(width, depth), MakeDarkFpn(width, depth), MakeHead(nc, HeadWidths(width)), x)
  }

  /** An input side the network accepts: after three halvings (rounding up) it is still
      divisible by four, so that both upsamplings of the pyramid meet their partners. */
  predicate Fits(n: nat)
  {
    n >= 1 && Down(3, n) % 4 == 0
  }

  /** Every CSP and the SPP block of the whole network close. */
  predicate GraphOk(width: seq<nat>, depth: seq<nat>)
    requires |width| >= 6 && |depth| >= 3
  {
    BackboneOk(width, depth) && PyramidOk(width, depth)
  }

  /** The pyramid's size condition on the backbone outputs is exactly Fits. */
  lemma FitsIff(n: nat)
    requires n >= 1
    ensures Fits(n) <==> Down(4, n) == 2 * Down(5, n) && Down(3, n) == 2 * Down(4, n)
  {
    assert Down(4, n) == CeilHalf(Down(3, n));
    assert Down(5, n) == CeilHalf(Down(4, n));
  }

  /** An input side divisible by 32 fits, and the three output sides are exactly
      1/8, 1/16 and 1/32 of it. */
  lemma DivisibleFits(n: nat)
    requires n >= 1 && n % 32 == 0
    ensures Fits(n) && Down(3, n) == n / 8 && Down(4, n) == n / 16 && Down(5, n) == n / 32
  {
    var q := n / 32;
    assert n == 32 * q;
    assert Down(1, n) == 16 * q;
    assert Down(2, n) == 8 * q;
    assert Down(3, n) == 4 * q;
    assert Down(4, n) == 2 * q;
    assert Down(5, n) == q;
  }

  /** Divisibility by 32 is not necessary: a side of 25 fits. */
  lemma FitsNotOnlyMultiples()
    ensures Fits(25) && 25 % 32 != 0
  {
    assert Down(3, 25) == 4;
  }

  /** What the network built from width, depth and nc answers on x: it accepts x
      exactly when x has width[0] channels, both sides fit, every block closes and there
      is at least one class, and
      then returns nc + 4 channels at 1/8, 1/16 and 1/32 of the input side. This is the
      shape condition; batch normalisation's training-mode refusal of a map holding a
      single value per channel depends on the batch size, which is not modelled. */
  predicate Answers(width: seq<nat>, depth: seq<nat>, nc: nat, x: Shape, r: Option<seq<Shape>>)
    requires |width| >= 6 && |depth| >= 3
  {
    (r.Some? <==> x.c == width[0] && Fits(x.h) && Fits(x.w) && GraphOk(width, depth) && nc >= 1) &&
    (r.Some? ==> r.value == [Shape(nc + 4, Down(3, x.h), Down(3, x.w)),
                             Shape(nc + 4, Down(4, x.h), Down(4, x.w)),
                             Shape(nc + 4, Down(5, x.h), Down(5, x.w))])
  }

  /** The whole network accepts x exactly when x has width[0] channels, both sides fit,
      every block closes and nc is at least 1; it then returns three maps of nc + 4 channels
      at 1/8, 1/16 and 1/32 of the input side (rounded up), in p3, p4, p5 order. */
  lemma NetworkShapes(width: seq<nat>, depth: seq<nat>, nc: nat, x: Shape)
    requires |width| >= 6 && |depth| >= 3
    ensures Answers(width, depth, nc, x, Network(width, depth, nc, x))
  {
    DarkNetShapes(width, depth, x);
    var l := ApplyDarkNet(MakeDarkNet(width, depth), x);
    if l.Some? {
      assert l.value == Levels(Shape(width[3], Down(3, x.h), Down(3, x.w)),
                               Shape(width[4], Down(4, x.h), Down(4, x.w)),
                               Shape(width[5], Down(5, x.h), Down(5, x.w)));
      DarkFpnShapes(width, depth, l.value);
      FitsIff(x.h);
      FitsIff(x.w);
      DownPositive(3, x.h);
      DownPositive(3, x.w);
      DownPositive(4, x.h);
      DownPositive(4, x.w);
      DownPositive(5, x.h);
      DownPositive(5, x.w);
      var f := ApplyDarkFpn(MakeDarkFpn(width, depth), l.value);
      if f.Some? {
        HeadShapes(nc, HeadWidths(width), f.value);
      }
    }
  }

  /** NetworkShapes, stated for parts that were built from width, depth and nc. */
  lemma BuiltShapes(width: seq<nat>, depth: seq<nat>, nc: nat, net: DarkNet, fpn: DarkFpn, head: HeadLayers, x: Shape)
    requires |width| >= 6 && |depth| >= 3
    requires net == MakeDarkNet(width, depth) && fpn == MakeDarkFpn(width, depth)
    requires head == MakeHead(nc, HeadWidths(width))
    ensures Answers(width, depth, nc, x, ApplyYolo(net, fpn, head, x))
  {
    NetworkShapes(width, depth, nc, x);
  }

  /** The all-zero input of the dummy pass: width[0] channels, 256 x 256. */
  function DummyInput(width: seq<nat>): Shape
    requires |width| >= 1
  {
    Shape(width[0], 256, 256)
  }

  /** No output map has height zero. */
  predicate NonEmpty(outs: seq<Shape>)
  {
    forall i :: 0 <= i < |outs| ==> outs[i].h >= 1
  }

  /** One stride per output: 256 divided by the output's height. */
  function Strides(outs: seq<Shape>): (r: seq<real>)
    requires NonEmpty(outs)
    ensures |r| == |outs|
    ensures forall i :: 0 <= i < |outs| ==> r[i] * (outs[i].h as real) == 256.0
  {
    seq(|outs|, i requires 0 <= i < |outs| => 256.0 / (outs[i].h as real))
  }

  /** A square input of width[0] channels whose side is a positive multiple of 32 goes
      through exactly when every block closes and there is a class, and comes out at 1/8, 1/16 and 1/32 of
      its side. */
  lemma SquareShapes(width: seq<nat>, depth: seq<nat>, nc: nat, n: nat)
    requires |width| >= 6 && |depth| >= 3
    requires n >= 1 && n % 32 == 0
    ensures var r := Network(width, depth, nc, Shape(width[0], n, n));
      (r.Some? <==> GraphOk(width, depth) && nc >= 1) &&
      (r.Some? ==> r.value == [Shape(nc + 4, n / 8, n / 8), Shape(nc + 4, n / 16, n / 16),
                               Shape(nc + 4, n / 32, n / 32)])
  {
    DivisibleFits(n);
    NetworkShapes(width, depth, nc, Shape(width[0], n, n));
  }

  /** The three outputs of the dummy pass for nc classes: 32 x 32, 16 x 16 and 8 x 8. */
  function DummyOutputs(nc: nat): seq<Shape>
  {
    [Shape(nc + 4, 32, 32), Shape(nc + 4, 16, 16), Shape(nc + 4, 8, 8)]
  }

  /** What the dummy pass answers: it goes through exactly when every block closes and
      there is at least one class, and then yields the three maps of DummyOutputs. */
  predicate DummyAnswers(width: seq<nat>, depth: seq<nat>, nc: nat, r: Option<seq<Shape>>)
    requires |width| >= 6 && |depth| >= 3
  {
    (r.Some? <==> GraphOk(width, depth) && nc >= 1) && (r.Some? ==> r.value == DummyOutputs(nc))
  }

  /** The dummy pass answers the same for every width and depth list that closes. */
  lemma DummyPass(width: seq<nat>, depth: seq<nat>, nc: nat)
    requires |width| >= 6 && |depth| >= 3
    ensures DummyAnswers(width, depth, nc, Network(width, depth, nc, DummyInput(width)))
  {
    SquareShapes(width, depth, nc, 256);
    assert 256 / 8 == 32 && 256 / 16 == 16 && 256 / 32 == 8;
  }

  /** The outputs of the dummy pass give strides 8, 16 and 32. */
  lemma DummyStrides(nc: nat)
    ensures NonEmpty(DummyOutputs(nc)) && Strides(DummyOutputs(nc)) == [8.0, 16.0, 32.0]
  {
    var s := Strides(DummyOutputs(nc));
    assert s[0] * 32.0 == 256.0 && s[1] * 16.0 == 256.0 && s[2] * 8.0 == 256.0;
  }

  /** The dummy pass the constructor runs: the built network applied to the 256 x 256
      input of width[0] channels. */
  method DummyForward(width: seq<nat>, depth: seq<nat>, nc: nat, net: DarkNet, fpn: DarkFpn, head: HeadLayers)
    returns (outs: Option<seq<Shape>>)
    requires |width| >= 6 && |depth| >= 3
    requires net == MakeDarkNet(width, depth) && fpn == MakeDarkFpn(width, depth)
    requires head == MakeHead(nc, HeadWidths(width))
    ensures DummyAnswers(width, depth, nc, outs)
  {
    outs := ApplyYolo(net, fpn, head, DummyInput(width));
    DummyPass(width, depth, nc);
  }

  /** QuantStub and DeQuantStub: a quantised tensor keeps its shape. */
  function Quantize(x: Shape): Shape { x }

  function Dequantize(x: Shape): Shape { x }

  /** Dequantising every output of a list gives back the list, shape for shape. */
  function DequantizeAll(outs: seq<Shape>): (r: seq<Shape>)
    ensures r == outs
  {
    var r := seq(|outs|, i requires 0 <= i < |outs| => Dequantize(outs[i]));
    assert forall i :: 0 <= i < |outs| ==> r[i] == outs[i];
    r
  }

  /** The YOLO object. The widths and depths it was built from are kept as ghost state
      to state its invariant. */
  class Yolo {
    ghost const width: seq<nat>
    ghost const depth: seq<nat>
    const net: DarkNet
    const fpn: DarkFpn
    const head: Head
    var stride: seq<real>

    ghost predicate Valid()
    {
      |width| >= 6 && |depth| >= 3 &&
      net == MakeDarkNet(width, depth) && fpn == MakeDarkFpn(width, depth) &&
      head.layers == MakeHead(head.nc, HeadWidths(width))
    }

    /** YOLO(width, depth, num_classes): builds the parts, runs the 256 x 256 dummy pass
        once (which must not raise) and stores 256 / height of each output as the head's
        stride, mirrored on the model. */
    constructor (width: seq<nat>, depth: seq<nat>, numClasses: nat)
      requires |width| >= 6 && |depth| >= 3
      requires GraphOk(width, depth) && numClasses >= 1
      ensures Valid() && this.width == width && this.depth == depth
      ensures fresh(head) && head.nc == numClasses && head.no == numClasses + 4
      ensures head.stride == Strides(DummyOutputs(numClasses))
      ensures head.stride == [8.0, 16.0, 32.0] && stride == head.stride
    {
      this.width := width;
      this.depth := depth;
      var n := MakeDarkNet(width, depth);
      var f := MakeDarkFpn(width, depth);
      net := n;
      fpn := f;
      var h := new Head(numClasses, HeadWidths(width));
      head := h;
      var outs := DummyForward(width, depth, numClasses, n, f, h.layers);
      DummyStrides(numClasses);
      h.stride := Strides(outs.value);
      stride := h.stride;
    }

    /** YOLO's forward pass on the built network. */
    function Forward(x: Shape): (r: Option<seq<Shape>>)
      requires Valid()
      ensures Answers(width, depth, head.nc, x, r)
    {
      BuiltShapes(width, depth, head.nc, net, fpn, head.layers, x);
      ApplyYolo(net, fpn, head.layers, x)
    }
  }

  /** The QAT wrapper: mirrors the model's class count, outputs per anchor and strides. */
  class Qat {
    const model: Yolo
    var nc: nat
    var no: nat
    var stride: seq<real>

    constructor (model: Yolo)
      ensures this.model == model && nc == model.head.nc && no == model.head.no
      ensures stride == model.stride
    {
      this.model := model;
      nc := model.head.nc;
      no := model.head.no;
      stride := model.stride;
    }

    /** QAT's forward pass: quantise the input, run the model, dequantise each output.
        As far as shapes go it answers exactly what the model answers. */
    function Forward(x: Shape): (r: Option<seq<Shape>>)
      requires model.Valid()
      ensures r == model.Forward(x)
    {
      var outs :- model.Forward(Quantize(x));
      Some(DequantizeAll(outs))
    }
  }

  /** The six size variants of the factory functions. */
  datatype Variant = N | T | S | M | L | X

  /** Width lists of the variants: three input channels and even stage widths. */
  function Widths(v: Variant): (w: seq<nat>)
    ensures |w| == 6 && w[0] == 3
    ensures forall i :: 1 <= i < 6 ==> w[i] > 0 && w[i] % 2 == 0
  {
    match v
    case N => [3, 16, 32, 64, 128, 256]
    case T => [3, 24, 48, 96, 192, 384]
    case S => [3, 32, 64, 128, 256, 512]
    case M => [3, 48, 96, 192, 384, 576]
    case L => [3, 64, 128, 256, 512, 512]
    case X => [3, 80, 160, 320, 640, 640]
  }

  /** Depth lists of the variants. */
  function Depths(v: Variant): (d: seq<nat>)
    ensures |d| == 3 && forall i :: 0 <= i < 3 ==> d[i] >= 1
  {
    match v
    case N => [1, 2, 2]
    case T => [1, 2, 2]
    case S => [1, 2, 2]
    case M => [2, 4, 4]
    case L => [3, 6, 6]
    case X => [3, 6, 6]
  }

  /** Every CSP and SPP block of every variant closes, because all their widths are even. */
  lemma VariantsConsistent(v: Variant)
    ensures GraphOk(Widths(v), Depths(v))
  {
    var w, d := Widths(v), Depths(v);
    forall i, j | 2 <= i < 6 && 0 <= j < 3
      ensures CspWidthOk(w[i], d[j])
    {
      CspWidthOkIff(w[i], d[j]);
    }
  }

  /** yolo_v8_n ... yolo_v8_x: the variant's widths and depths, num_classes 80 by default.
      The model comes out with strides 8, 16 and 32. */
  method Build(v: Variant, numClasses: nat := 80) returns (m: Yolo)
    requires numClasses >= 1
    ensures fresh(m) && m.Valid() && m.width == Widths(v) && m.depth == Depths(v)
    ensures m.head.nc == numClasses && m.head.no == numClasses + 4
    ensures m.head.stride == [8.0, 16.0, 32.0] && m.stride == [8.0, 16.0, 32.0]
  {
    VariantsConsistent(v);
    m := new Yolo(Widths(v), Depths(v), numClasses);
  }

  /** yolo_v8_n(80) on a 3 x 256 x 256 image: three maps of 84 channels, of 32 x 32,
      16 x 16 and 8 x 8. */
  lemma SmallestVariant()
    ensures Network(Widths(N), Depths(N), 80, Shape(3, 256, 256)) ==
      Some([Shape(84, 32, 32), Shape(84, 16, 16), Shape(84, 8, 8)])
  {
    VariantsConsistent(N);
    DivisibleFits(256);
    NetworkShapes(Widths(N), Depths(N), 80, Shape(3, 256, 256));
  }
}
