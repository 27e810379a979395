/** An image placement line: the modifier tokens `<`, `>`, `FLIP` and `+`
    fold over a default anchor/position/scale record, every other token is a
    path segment of the image key, and the record fixes the transform the
    image is drawn with. */
module Placement {
  import opened Text
  import opened Geometry
  import opened Sequences

  /** Anchor: the point of the image, as fractions of its size, that lands on
      `pos`, a fraction of the scene; `scale` multiplies the drawing. */
  datatype PlacementState = PlacementState(anchor: Vec, pos: Vec, scale: Vec)

  /** Bottom centre of the image on the bottom centre of the scene. */
  const Default := PlacementState(Vec(0.5, 1.0), Vec(0.5, 1.0), Vec(1.0, 1.0))

  predicate IsModifier(t: String) {
    t == "<" || t == ">" || t == "FLIP" || t == "+"
  }

  /** The effect of one argument on the record; a non-modifier changes nothing. */
  function Apply(st: PlacementState, t: String): PlacementState
  {
    if t == "<" then
      st.(anchor := st.anchor.(x := 0.0), pos := st.pos.(x := 0.0))
    else if t == ">" then
      st.(anchor := st.anchor.(x := 0.0), pos := st.pos.(x := 1.0), scale := st.scale.(x := -1.0))
    else if t == "FLIP" then
      st.(anchor := st.anchor.(x := 1.0), scale := st.scale.(x := -st.scale.x))
    else if t == "+" then
      st.(anchor := Vec(0.5, 0.5), pos := Vec(0.5, 0.5))
    else
      st
  }

  /** The arguments applied left to right. */
  function Fold(st: PlacementState, args: seq<String>): PlacementState
  {
    if args == [] then st else Apply(Fold(st, args[..|args| - 1]), args[|args| - 1])
  }

  /** The arguments that are not modifiers, in order: the extra path segments. */
  function Segments(args: seq<String>): seq<String>
  {
    if args == [] then []
    else
      var last := args[|args| - 1];
      Segments(args[..|args| - 1]) + (if IsModifier(last) then [] else [last])
  }

  /** The modifiers among the arguments, in order. */
  function Modifiers(args: seq<String>): seq<String>
  {
    if args == [] then []
    else
      var last := args[|args| - 1];
      Modifiers(args[..|args| - 1]) + (if IsModifier(last) then [last] else [])
  }

  /** The lookup key: the command and the path segments joined with `/`. */
  function ImageKey(cmd: String, args: seq<String>): String
  {
    Join([cmd] + Segments(args), "/")
  }

  /** The placement branch of the interpreter: a loop that updates the record
      field by field and pushes the other tokens onto the path. */
  method Place(cmd: String, args: seq<String>) returns (state: PlacementState, key: String)
    ensures state == Fold(Default, args)
    ensures key == ImageKey(cmd, args)
  {
    var ax, ay, px, py, sx, sy := 0.5, 1.0, 0.5, 1.0, 1.0, 1.0;
    var path := [cmd];
    for i := 0 to |args|
      invariant PlacementState(Vec(ax, ay), Vec(px, py), Vec(sx, sy)) == Fold(Default, args[..i])
      invariant path == [cmd] + Segments(args[..i])
    {
      assert args[..i + 1][..i] == args[..i] && args[..i + 1][i] == args[i];
      var arg := args[i];
      if arg == "<" {
        ax := 0.0;
        px := 0.0;
      } else if arg == ">" {
        ax := 0.0;
        px := 1.0;
        sx := -1.0;
      } else if arg == "FLIP" {
        ax := 1.0;
        sx := sx * -1.0;
      } else if arg == "+" {
        ax, ay := 0.5, 0.5;
        px, py := 0.5, 0.5;
      } else {
        path := path + [arg];
      }
    }
    assert args[..|args|] == args;
    state := PlacementState(Vec(ax, ay), Vec(px, py), Vec(sx, sy));
    key := Join(path, "/");
  }

  // ---- Properties of the fold ----

  lemma {:induction false} FoldAppend(st: PlacementState, a: seq<String>, b: seq<String>)
    ensures Fold(st, a + b) == Fold(Fold(st, a), b)
  {
    if b == [] {
      assert a + b == a;
    } else {
      var b' := b[..|b| - 1];
      assert (a + b)[..|a + b| - 1] == a + b';
      FoldAppend(st, a, b');
    }
  }

  /** Only the modifiers matter to the record: the path segments are inert. */
  lemma {:induction false} SegmentsAreInert(st: PlacementState, args: seq<String>)
    ensures Fold(st, args) == Fold(st, Modifiers(args))
  {
    if args != [] {
      var init := args[..|args| - 1];
      var last := args[|args| - 1];
      SegmentsAreInert(st, init);
      assert Fold(st, args) == Apply(Fold(st, init), last);
      if IsModifier(last) {
        var m := Modifiers(init) + [last];
        assert m[..|m| - 1] == Modifiers(init) && m[|m| - 1] == last;
        assert Fold(st, m) == Apply(Fold(st, Modifiers(init)), last);
      } else {
        assert Modifiers(args) == Modifiers(init);
      }
    }
  }

  /** Arguments without a modifier leave the record as it was. */
  lemma NoModifierNoChange(st: PlacementState, args: seq<String>)
    requires Modifiers(args) == []
    ensures Fold(st, args) == st
  {
    SegmentsAreInert(st, args);
  }

  /** Every argument is a path segment or a modifier, never both. */
  lemma SegmentsPartition(args: seq<String>)
    ensures forall k :: 0 <= k < |Segments(args)| ==> !IsModifier(Segments(args)[k])
    ensures forall k :: 0 <= k < |Modifiers(args)| ==> IsModifier(Modifiers(args)[k])
    ensures multiset(Segments(args)) + multiset(Modifiers(args)) == multiset(args)
  {
    SegmentsNotModifiers(args);
    ModifiersAreModifiers(args);
    PartitionCount(args);
  }

  lemma {:induction false} SegmentsNotModifiers(args: seq<String>)
    ensures forall k :: 0 <= k < |Segments(args)| ==> !IsModifier(Segments(args)[k])
  {
    if args != [] {
      SegmentsNotModifiers(args[..|args| - 1]);
    }
  }

  lemma {:induction false} ModifiersAreModifiers(args: seq<String>)
    ensures forall k :: 0 <= k < |Modifiers(args)| ==> IsModifier(Modifiers(args)[k])
  {
    if args != [] {
      ModifiersAreModifiers(args[..|args| - 1]);
    }
  }

  lemma {:induction false} PartitionCount(args: seq<String>)
    ensures multiset(Segments(args)) + multiset(Modifiers(args)) == multiset(args)
  {
    if args != [] {
      var init := args[..|args| - 1];
      var last := args[|args| - 1];
      PartitionCount(init);
      TakeSnoc(args, |args| - 1);
      TakeEnds(args);
      assert multiset(args) == multiset(init) + multiset{last};
      if IsModifier(last) {
        assert Segments(args) == Segments(init) && Modifiers(args) == Modifiers(init) + [last];
      } else {
        assert Segments(args) == Segments(init) + [last] && Modifiers(args) == Modifiers(init);
      }
    }
  }

  /** The record keeps its shape: the vertical scale stays 1, the horizontal
      one stays 1 or -1, and every fraction is one the modifiers write. */
  ghost predicate WellShaped(st: PlacementState) {
    && st.scale.y == 1.0 && (st.scale.x == 1.0 || st.scale.x == -1.0)
    && (st.anchor.x == 0.0 || st.anchor.x == 0.5 || st.anchor.x == 1.0)
    && (st.pos.x == 0.0 || st.pos.x == 0.5 || st.pos.x == 1.0)
    && (st.anchor.y == 0.5 || st.anchor.y == 1.0)
    && (st.pos.y == 0.5 || st.pos.y == 1.0)
  }

  lemma {:induction false} FoldKeepsShape(args: seq<String>)
    ensures WellShaped(Fold(Default, args))
  {
    if args != [] {
      FoldKeepsShape(args[..|args| - 1]);
    }
  }

  /** A later `<` overrides whatever came before: flush left. */
  lemma LastLeft(st: PlacementState, a: seq<String>, b: seq<String>)
    requires Modifiers(b) == []
    ensures var p, r := Fold(st, a), Fold(st, a + ["<"] + b);
      r.anchor == Vec(0.0, p.anchor.y) && r.pos == Vec(0.0, p.pos.y) && r.scale == p.scale
  {
    FoldAppend(st, a + ["<"], b);
    FoldAppend(st, a, ["<"]);
    NoModifierNoChange(Fold(st, a + ["<"]), b);
  }

  /** A later `>` overrides whatever came before: flush right, mirrored. */
  lemma LastRight(st: PlacementState, a: seq<String>, b: seq<String>)
    requires Modifiers(b) == []
    ensures var p, r := Fold(st, a), Fold(st, a + [">"] + b);
      r.anchor == Vec(0.0, p.anchor.y) && r.pos == Vec(1.0, p.pos.y) && r.scale == Vec(-1.0, p.scale.y)
  {
    FoldAppend(st, a + [">"], b);
    FoldAppend(st, a, [">"]);
    NoModifierNoChange(Fold(st, a + [">"]), b);
  }

  /** A later `+` overrides whatever came before: the true centre. */
  lemma LastCentre(st: PlacementState, a: seq<String>, b: seq<String>)
    requires Modifiers(b) == []
    ensures var r := Fold(st, a + ["+"] + b);
      r.anchor == Vec(0.5, 0.5) && r.pos == Vec(0.5, 0.5) && r.scale == Fold(st, a).scale
  {
    FoldAppend(st, a + ["+"], b);
    FoldAppend(st, a, ["+"]);
    NoModifierNoChange(Fold(st, a + ["+"]), b);
  }

  /** A `FLIP` after any arguments, followed by no other modifier, puts the
      anchor on the image's right edge and negates the horizontal scale it
      found; everything else is as before. */
  lemma LastFlip(st: PlacementState, a: seq<String>, b: seq<String>)
    requires Modifiers(b) == []
    ensures var p, r := Fold(st, a), Fold(st, a + ["FLIP"] + b);
      && r.anchor == Vec(1.0, p.anchor.y) && r.pos == p.pos
      && r.scale == Vec(-p.scale.x, p.scale.y)
  {
    FoldAppend(st, a + ["FLIP"], b);
    FoldAppend(st, a, ["FLIP"]);
    NoModifierNoChange(Fold(st, a + ["FLIP"]), b);
  }

  /** Two `FLIP`s in a row restore the horizontal scale. */
  lemma DoubleFlip(st: PlacementState)
    ensures Fold(st, ["FLIP", "FLIP"]).scale == st.scale
    ensures Fold(st, ["FLIP", "FLIP"]).anchor.x == 1.0
  {
    assert ["FLIP", "FLIP"][..1] == ["FLIP"];
    assert ["FLIP"][..0] == [];
    assert Fold(st, ["FLIP"]) == Apply(st, "FLIP");
  }

  // ---- Where the image lands ----

  /** The scene x coordinate of image column `u` under the source's transform:
      translate to `W * pos.x`, scale by `scale.x`, draw at `-w * anchor.x`. */
  function SceneX(st: PlacementState, sceneW: real, w: real, u: real): real {
    sceneW * st.pos.x + st.scale.x * (u - w * st.anchor.x)
  }

  /** The scene y coordinate of image row `v`. */
  function SceneY(st: PlacementState, sceneH: real, h: real, v: real): real {
    sceneH * st.pos.y + st.scale.y * (v - h * st.anchor.y)
  }

  /** The anchor point of the image lands on the target position. */
  lemma AnchorLandsOnPos(st: PlacementState, sceneW: real, sceneH: real, w: real, h: real)
    ensures SceneX(st, sceneW, w, w * st.anchor.x) == sceneW * st.pos.x
    ensures SceneY(st, sceneH, h, h * st.anchor.y) == sceneH * st.pos.y
  {
  }

  /** The default placement centres the image horizontally and stands it on
      the bottom edge. */
  lemma DefaultPlacement(sceneW: real, sceneH: real, w: real, h: real, u: real, v: real)
    ensures SceneX(Default, sceneW, w, u) == sceneW / 2.0 - w / 2.0 + u
    ensures SceneY(Default, sceneH, h, v) == sceneH - h + v
  {
  }

  /** `<` puts the image flush against the left edge, unmirrored. */
  lemma LeftPlacement(sceneW: real, w: real, u: real)
    ensures SceneX(Fold(Default, ["<"]), sceneW, w, u) == u
  {
    assert ["<"][..0] == [];
  }

  /** `>` puts the image flush against the right edge, mirrored. */
  lemma RightPlacement(sceneW: real, w: real, u: real)
    ensures Fold(Default, [">"]) == PlacementState(Vec(0.0, 1.0), Vec(1.0, 1.0), Vec(-1.0, 1.0))
    ensures SceneX(Fold(Default, [">"]), sceneW, w, u) == sceneW - u
  {
    assert [">"][..0] == [];
  }

  /** `FLIP` on its own mirrors the image about its anchor column, which is
      now its right edge: the mirrored image starts at the scene centre. */
  lemma FlipPlacement(sceneW: real, w: real, u: real)
    ensures Fold(Default, ["FLIP"]) == PlacementState(Vec(1.0, 1.0), Vec(0.5, 1.0), Vec(-1.0, 1.0))
    ensures SceneX(Fold(Default, ["FLIP"]), sceneW, w, u) == sceneW / 2.0 + w - u
  {
    assert ["FLIP"][..0] == [];
  }

  /** `< FLIP` keeps the image flush left and mirrors it in place. */
  lemma LeftFlipPlacement(sceneW: real, w: real, u: real)
    ensures SceneX(Fold(Default, ["<", "FLIP"]), sceneW, w, u) == w - u
  {
    assert ["<", "FLIP"][..1] == ["<"];
    assert ["<"][..0] == [];
  }

  /** `> FLIP` keeps the image flush right and undoes the mirroring. */
  lemma RightFlipPlacement(sceneW: real, w: real, u: real)
    ensures SceneX(Fold(Default, [">", "FLIP"]), sceneW, w, u) == sceneW - w + u
  {
    assert [">", "FLIP"][..1] == [">"];
    assert [">"][..0] == [];
  }

  /** `+` centres the image on the scene in both directions. */
  lemma CentrePlacement(sceneW: real, sceneH: real, w: real, h: real, u: real, v: real)
    ensures SceneX(Fold(Default, ["+"]), sceneW, w, u) == sceneW / 2.0 - w / 2.0 + u
    ensures SceneY(Fold(Default, ["+"]), sceneH, h, v) == sceneH / 2.0 - h / 2.0 + v
  {
    assert ["+"][..0] == [];
  }

  /** The key is the command, then the non-modifier arguments in order. */
  lemma KeySegments(cmd: String, args: seq<String>)
    ensures ImageKey(cmd, args) == Join([cmd] + Segments(args), "/")
    ensures forall k :: 0 <= k < |Segments(args)| ==> !IsModifier(Segments(args)[k])
    ensures Modifiers(args) == [] ==> Segments(args) == args
  {
    SegmentsPartition(args);
    if Modifiers(args) == [] { NoModifierSegments(args); }
  }

  lemma {:induction false} NoModifierSegments(args: seq<String>)
    requires Modifiers(args) == []
    ensures Segments(args) == args
  {
    if args != [] {
      var init, last := args[..|args| - 1], args[|args| - 1];
      var tail := if IsModifier(last) then [last] else [];
      assert Modifiers(args) == Modifiers(init) + tail;
      assert |Modifiers(init)| + |tail| == 0;
      assert Modifiers(init) == [] && !IsModifier(last);
      NoModifierSegments(init);
      assert Segments(args) == init + [last];
      assert init + [last] == args;
    }
  }
}
