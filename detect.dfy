/** Head, the detection head: per scale a box branch and a class branch, whose
    outputs are concatenated into nc + 4 channels per location. */
module Detect {
  import opened Tensors
  import opened Blocks
  import opened Backbone

  /** Two 3x3 Conv blocks and a bare 1x1 convolution. The bare torch Conv2d has
      padding 0, which for a 1x1 kernel is the Conv block's (k - 1) / 2, and it has no
      normalisation or activation, which would not change the shape anyway. */
  datatype Branch = Branch(c1: Conv, c2: Conv, out: Conv)

  /** The layers of the head: one box and one class branch per input scale. */
  datatype HeadLayers = HeadLayers(box: seq<Branch>, cls: seq<Branch>)

  function Max(a: nat, b: nat): nat { if a < b then b else a }

  /** Hidden width of every box branch: max(64, ch[0] / 4), the first scale's width
      deciding for all scales. */
  function BoxWidth(ch: seq<nat>): (r: nat)
    requires |ch| >= 1
    ensures r >= 64 && r >= ch[0] / 4 && (r == 64 || r == ch[0] / 4)
  {
    Max(64, ch[0] / 4)
  }

  /** Hidden width of every class branch: max(80, ch[0], nc). */
  function ClsWidth(nc: nat, ch: seq<nat>): (r: nat)
    requires |ch| >= 1
    ensures r >= 80 && r >= ch[0] && r >= nc && (r == 80 || r == ch[0] || r == nc)
  {
    Max(Max(80, ch[0]), nc)
  }

  function BoxBranch(x: nat, width: nat): Branch
  {
    Branch(Conv(x, width, 3, 1), Conv(width, width, 3, 1), Conv(width, 4, 1, 1))
  }

  function ClsBranch(x: nat, width: nat, nc: nat): Branch
  {
    Branch(Conv(x, width, 3, 1), Conv(width, width, 3, 1), Conv(width, nc, 1, 1))
  }

  /** Head(nc, ch): one box and one class branch per entry of ch, the branch of scale
      i taking ch[i] channels, all of them sharing the two hidden widths. */
  function MakeHead(nc: nat, ch: seq<nat>): (m: HeadLayers)
    requires |ch| >= 1
    ensures |m.box| == |ch| && |m.cls| == |ch|
    ensures forall i :: 0 <= i < |ch| ==>
      m.box[i].c1.inCh == ch[i] && m.cls[i].c1.inCh == ch[i] &&
      m.box[i].c1.outCh == BoxWidth(ch) && m.cls[i].c1.outCh == ClsWidth(nc, ch)
    ensures forall i :: 0 <= i < |ch| ==> m.box[i].out.outCh == 4 && m.cls[i].out.outCh == nc
  {
    HeadLayers(
      seq(|ch|, i requires 0 <= i < |ch| => BoxBranch(ch[i], BoxWidth(ch))),
      seq(|ch|, i requires 0 <= i < |ch| => ClsBranch(ch[i], ClsWidth(nc, ch), nc)))
  }

  function ApplyBranch(b: Branch, x: Shape): (r: Option<Shape>)
    ensures r.Some? ==> r.value.c == b.out.outCh
  {
    var y1 :- ApplyConv(b.c1, x);
    var y2 :- ApplyConv(b.c2, y1);
    ApplyConv(b.out, y2)
  }

  /** One scale of the head: the box output followed by the class output. */
  function ApplyScale(m: HeadLayers, i: nat, x: Shape): (r: Option<Shape>)
    requires i < |m.box| && i < |m.cls|
    ensures r.Some? ==> r.value.c == m.box[i].out.outCh + m.cls[i].out.outCh
  {
    var b :- ApplyBranch(m.box[i], x);
    var c :- ApplyBranch(m.cls[i], x);
    CatPair(b, c);
    Cat([b, c])
  }

  /** Head's forward pass: three outputs, for p3, p4 and p5 in this order. A head with
      fewer than three branches of a kind fails on the missing index. */
  function ApplyHead(m: HeadLayers, l: Levels): (r: Option<seq<Shape>>)
    ensures r.Some? ==> |r.value| == 3
  {
    if |m.box| < 3 || |m.cls| < 3 then None
    else
      var o0 :- ApplyScale(m, 0, l.p3);
      var o1 :- ApplyScale(m, 1, l.p4);
      var o2 :- ApplyScale(m, 2, l.p5);
      Some([o0, o1, o2])
  }

  /** One branch of the head accepts a non-empty map of its input width when its hidden
      and output widths are positive; it keeps the spatial size and emits its bare
      convolution's width. */
  lemma BranchShape(x: nat, width: nat, out: nat, s: Shape)
    ensures var r := ApplyBranch(Branch(Conv(x, width, 3, 1), Conv(width, width, 3, 1), Conv(width, out, 1, 1)), s);
      (r.Some? <==> s.c == x && s.h >= 1 && s.w >= 1 && width >= 1 && out >= 1) &&
      (r.Some? ==> r.value == Shape(out, s.h, s.w))
  {
  }

  /** With at least one class, every scale of the head answers a map of ch[i] channels
      with nc + 4 channels at the same spatial size, whatever ch[i] is; with no class
      the classification branch cannot be run and nothing is answered. */
  lemma ScaleShape(nc: nat, ch: seq<nat>, i: nat, s: Shape)
    requires i < |ch|
    ensures var r := ApplyScale(MakeHead(nc, ch), i, s);
      (r.Some? <==> s.c == ch[i] && s.h >= 1 && s.w >= 1 && nc >= 1) &&
      (r.Some? ==> r.value == Shape(nc + 4, s.h, s.w))
  {
    BranchShape(ch[i], BoxWidth(ch), 4, s);
    BranchShape(ch[i], ClsWidth(nc, ch), nc, s);
  }

  /** A head built for three widths and at least one class accepts three non-empty
      maps of those widths and returns, in p3, p4, p5 order, three maps of nc + 4 channels at their sizes. */
  lemma HeadShapes(nc: nat, ch: seq<nat>, l: Levels)
    requires |ch| == 3
    ensures var r := ApplyHead(MakeHead(nc, ch), l);
      (r.Some? <==>
        l.p3.c == ch[0] && l.p4.c == ch[1] && l.p5.c == ch[2] &&
        l.p3.h >= 1 && l.p3.w >= 1 && l.p4.h >= 1 && l.p4.w >= 1 && l.p5.h >= 1 && l.p5.w >= 1 &&
        nc >= 1) &&
      (r.Some? ==> r.value == [Shape(nc + 4, l.p3.h, l.p3.w), Shape(nc + 4, l.p4.h, l.p4.w),
                               Shape(nc + 4, l.p5.h, l.p5.w)])
  {
    ScaleShape(nc, ch, 0, l.p3);
    ScaleShape(nc, ch, 1, l.p4);
    ScaleShape(nc, ch, 2, l.p5);
  }

  /** The Head object: its layers are fixed at construction; its stride tensor starts
      as zeros, one per scale, and is filled in by the owning model. */
  class Head {
    const nc: nat
    const no: nat
    const layers: HeadLayers
    var stride: seq<real>

    constructor (nc: nat, ch: seq<nat>)
      requires |ch| >= 1
      ensures this.nc == nc && no == nc + 4 && layers == MakeHead(nc, ch)
      ensures |stride| == |ch| && forall i :: 0 <= i < |stride| ==> stride[i] == 0.0
    {
      this.nc := nc;
      no := nc + 4;
      layers := MakeHead(nc, ch);
      stride := seq(|ch|, _ => 0.0);
    }
  }
}
