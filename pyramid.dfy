/** DarkFPN, the feature pyramid: a top-down pass (upsample, concatenate, CSP) and
    a bottom-up pass (stride-2 Conv, concatenate, CSP) over the three backbone maps. */
module Pyramid {
  import opened Tensors
  import opened Blocks
  import opened Backbone

  datatype DarkFpn = DarkFpn(h1: Csp, h2: Csp, h3: Conv, h4: Csp, h5: Conv, h6: Csp)

  /** DarkFPN(width, depth): every block takes depth[0] and none adds its input back. */
  function MakeDarkFpn(width: seq<nat>, depth: seq<nat>): (m: DarkFpn)
    requires |width| >= 6 && |depth| >= 3
    ensures m.h1.inCh == width[4] + width[5] && m.h6.inCh == width[4] + width[5]
    ensures m.h2.inCh == width[3] + width[4] && m.h4.inCh == width[3] + width[4]
    ensures m.h3.inCh == m.h2.outCh && m.h5.inCh == m.h4.outCh
    ensures !m.h1.add && !m.h2.add && !m.h4.add && !m.h6.add
  {
    DarkFpn(
      Csp(width[4] + width[5], width[4], depth[0], false),
      Csp(width[3] + width[4], width[3], depth[0], false),
      Conv(width[3], width[3], 3, 2),
      Csp(width[3] + width[4], width[4], depth[0], false),
      Conv(width[4], width[4], 3, 2),
      Csp(width[4] + width[5], width[5], depth[0], false))
  }

  /** DarkFPN's forward pass; the three maps it returns have the widths of the CSP
      blocks that produce them. */
  function ApplyDarkFpn(m: DarkFpn, l: Levels): (r: Option<Levels>)
    ensures r.Some? ==> r.value.p3.c == m.h2.outCh && r.value.p4.c == m.h4.outCh
    ensures r.Some? ==> r.value.p5.c == m.h6.outCh
  {
    var u5 :- Upsample2(l.p5);
    var c1 :- Cat([u5, l.p4]);
    var p4 :- ApplyCsp(m.h1, c1);
    var u4 :- Upsample2(p4);
    var c2 :- Cat([u4, l.p3]);
    var p3 :- ApplyCsp(m.h2, c2);
    var d3 :- ApplyConv(m.h3, p3);
    var c3 :- Cat([d3, p4]);
    var p4' :- ApplyCsp(m.h4, c3);
    var d4 :- ApplyConv(m.h5, p4');
    var c4 :- Cat([d4, l.p5]);
    var p5 :- ApplyCsp(m.h6, c4);
    Some(Levels(p3, p4', p5))
  }

  /** The width conditions under which the four CSP blocks of DarkFPN close. */
  predicate PyramidOk(width: seq<nat>, depth: seq<nat>)
    requires |width| >= 6 && |depth| >= 3
  {
    CspWidthOk(width[3], depth[0]) && CspWidthOk(width[4], depth[0]) && CspWidthOk(width[5], depth[0])
  }

  /** DarkFPN accepts the three maps exactly when they carry width[3], width[4] and
      width[5] channels, each side of p4 is twice that of p5 and each side of p3 twice
      that of p4 (so that every upsampled or downsampled operand meets its partner in
      size), p5 is not empty, and the CSP blocks close; it then returns three maps of
      the shapes it was given. */
  lemma DarkFpnShapes(width: seq<nat>, depth: seq<nat>, l: Levels)
    requires |width| >= 6 && |depth| >= 3
    ensures var r := ApplyDarkFpn(MakeDarkFpn(width, depth), l);
      (r.Some? <==>
        l.p3.c == width[3] && l.p4.c == width[4] && l.p5.c == width[5] &&
        l.p5.h >= 1 && l.p5.w >= 1 &&
        l.p4.h == 2 * l.p5.h && l.p4.w == 2 * l.p5.w &&
        l.p3.h == 2 * l.p4.h && l.p3.w == 2 * l.p4.w &&
        PyramidOk(width, depth)) &&
      (r.Some? ==> r.value == l)
  {
    var m := MakeDarkFpn(width, depth);
    var u5 := Upsample2(l.p5);
    if u5.Some? {
      CatPair(u5.value, l.p4);
      var c1 := Cat([u5.value, l.p4]);
      if c1.Some? {
        var p4 := ApplyCsp(m.h1, c1.value);
        if p4.Some? {
          var u4 := Upsample2(p4.value);
          CatPair(u4.value, l.p3);
          var c2 := Cat([u4.value, l.p3]);
          if c2.Some? {
            var p3 := ApplyCsp(m.h2, c2.value);
            if p3.Some? {
              var d3 := ApplyConv(m.h3, p3.value);
              CatPair(d3.value, p4.value);
              var c3 := Cat([d3.value, p4.value]);
              var p4' := ApplyCsp(m.h4, c3.value);
              if p4'.Some? {
                var d4 := ApplyConv(m.h5, p4'.value);
                CatPair(d4.value, l.p5);
              }
            }
          }
        }
      }
    }
  }
}
