/** DarkNet, the backbone: five stages, each opened by a 3x3 stride-2 Conv, that
    hand the outputs of stages three to five on to the feature pyramid. */
module Backbone {
  import opened Tensors
  import opened Blocks

  /** A stage after the first: a downsampling Conv followed by a CSP block. */
  datatype Stage = Stage(down: Conv, csp: Csp)

  datatype DarkNet = DarkNet(p1: Conv, p2: Stage, p3: Stage, p4: Stage, p5: Stage, spp: Spp)

  /** The three feature maps passed between backbone, pyramid and head. */
  datatype Levels = Levels(p3: Shape, p4: Shape, p5: Shape)

  /** DarkNet(width, depth): stage i maps width[i - 1] to width[i] channels; the CSP
      blocks of stages two to four take depth[0], depth[1], depth[2], and the one of
      stage five takes depth[0] again. Every stage consumes the width its predecessor emits. */
  function MakeDarkNet(width: seq<nat>, depth: seq<nat>): (m: DarkNet)
    requires |width| >= 6 && |depth| >= 3
    ensures m.p1.inCh == width[0]
    ensures m.p2.down.inCh == m.p1.outCh && m.p2.csp.inCh == m.p2.down.outCh
    ensures m.p3.down.inCh == m.p2.csp.outCh && m.p3.csp.inCh == m.p3.down.outCh
    ensures m.p4.down.inCh == m.p3.csp.outCh && m.p4.csp.inCh == m.p4.down.outCh
    ensures m.p5.down.inCh == m.p4.csp.outCh && m.p5.csp.inCh == m.p5.down.outCh
    ensures m.spp.inCh == m.p5.csp.outCh
    ensures m.p3.csp.outCh == width[3] && m.p4.csp.outCh == width[4] && m.spp.outCh == width[5]
    ensures m.p2.csp.n == depth[0] && m.p5.csp.n == depth[0]
  {
    DarkNet(
      Conv(width[0], width[1], 3, 2),
      Stage(Conv(width[1], width[2], 3, 2), Csp(width[2], width[2], depth[0], true)),
      Stage(Conv(width[2], width[3], 3, 2), Csp(width[3], width[3], depth[1], true)),
      Stage(Conv(width[3], width[4], 3, 2), Csp(width[4], width[4], depth[2], true)),
      Stage(Conv(width[4], width[5], 3, 2), Csp(width[5], width[5], depth[0], true)),
      Spp(width[5], width[5], 5))
  }

  function ApplyStage(s: Stage, x: Shape): Option<Shape>
  {
    var y :- ApplyConv(s.down, x);
    ApplyCsp(s.csp, y)
  }

  /** DarkNet's forward pass: the outputs of stages three, four and five, whose
      channel counts are the widths their last blocks were declared with. */
  function ApplyDarkNet(m: DarkNet, x: Shape): (r: Option<Levels>)
    ensures r.Some? ==> r.value.p3.c == m.p3.csp.outCh && r.value.p4.c == m.p4.csp.outCh
    ensures r.Some? ==> r.value.p5.c == m.spp.outCh
  {
    var p1 :- ApplyConv(m.p1, x);
    var p2 :- ApplyStage(m.p2, p1);
    var p3 :- ApplyStage(m.p3, p2);
    var p4 :- ApplyStage(m.p4, p3);
    var c5 :- ApplyStage(m.p5, p4);
    var p5 :- ApplySpp(m.spp, c5);
    Some(Levels(p3, p4, p5))
  }

  /** A side of length n after i stride-2 stages: ceil(n / 2^i). */
  function Down(i: nat, n: nat): nat
  {
    if i == 0 then n else CeilHalf(Down(i - 1, n))
  }

  lemma {:induction false} DownPositive(i: nat, n: nat)
    requires n >= 1
    ensures Down(i, n) >= 1
  {
    if i > 0 {
      DownPositive(i - 1, n);
    }
  }

  /** The width conditions under which the stem emits at least one channel and every
      CSP and the SPP block of DarkNet close. */
  predicate BackboneOk(width: seq<nat>, depth: seq<nat>)
    requires |width| >= 6 && |depth| >= 3
  {
    width[1] >= 1 && CspWidthOk(width[2], depth[0]) && CspWidthOk(width[3], depth[1]) &&
    CspWidthOk(width[4], depth[2]) && CspWidthOk(width[5], depth[0]) &&
    width[5] % 2 == 0 && width[5] >= 2
  }

  /** One downsampling stage halves the side, rounding up, and emits its declared width. */
  lemma StageShape(a: nat, b: nat, n: nat, add: bool, x: Shape)
    ensures var r := ApplyStage(Stage(Conv(a, b, 3, 2), Csp(b, b, n, add)), x);
      (r.Some? <==> x.c == a && x.h >= 1 && x.w >= 1 && CspWidthOk(b, n)) &&
      (r.Some? ==> r.value == Shape(b, CeilHalf(x.h), CeilHalf(x.w)))
  {
  }

  /** DarkNet accepts an input exactly when it has width[0] channels, is not empty, and
      every CSP and the SPP block close; it then returns maps of width[3], width[4] and
      width[5] channels at 1/8, 1/16 and 1/32 of the input side, rounded up. */
  lemma DarkNetShapes(width: seq<nat>, depth: seq<nat>, x: Shape)
    requires |width| >= 6 && |depth| >= 3
    ensures var r := ApplyDarkNet(MakeDarkNet(width, depth), x);
      (r.Some? <==> x.c == width[0] && x.h >= 1 && x.w >= 1 && BackboneOk(width, depth)) &&
      (r.Some? ==> r.value == Levels(Shape(width[3], Down(3, x.h), Down(3, x.w)),
                                     Shape(width[4], Down(4, x.h), Down(4, x.w)),
                                     Shape(width[5], Down(5, x.h), Down(5, x.w))))
  {
    var m := MakeDarkNet(width, depth);
    var p1 := ApplyConv(m.p1, x);
    if p1.Some? {
      DownPositive(1, x.h);
      DownPositive(1, x.w);
      StageShape(width[1], width[2], depth[0], true, p1.value);
      var p2 := ApplyStage(m.p2, p1.value);
      if p2.Some? {
        assert p2.value == Shape(width[2], Down(2, x.h), Down(2, x.w));
        StageShape(width[2], width[3], depth[1], true, p2.value);
        var p3 := ApplyStage(m.p3, p2.value);
        if p3.Some? {
          assert p3.value == Shape(width[3], Down(3, x.h), Down(3, x.w));
          StageShape(width[3], width[4], depth[2], true, p3.value);
          var p4 := ApplyStage(m.p4, p3.value);
          if p4.Some? {
            assert p4.value == Shape(width[4], Down(4, x.h), Down(4, x.w));
            StageShape(width[4], width[5], depth[0], true, p4.value);
            var c5 := ApplyStage(m.p5, p4.value);
            if c5.Some? {
              assert c5.value == Shape(width[5], Down(5, x.h), Down(5, x.w));
              DownPositive(5, x.h);
              DownPositive(5, x.w);
              assert ApplySpp(m.spp, c5.value).Some? <==> width[5] % 2 == 0 && width[5] >= 2;
            }
          }
        }
      }
    }
  }
}
