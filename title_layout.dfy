/** Where the title and the subtitle go: the title's arguments (the title
    text included, as it is the first of them) move both texts, the
    subtitle's own arguments then move the subtitle alone, and a subtitle
    that none of its arguments moved is pushed a tenth of the scene down. */
module TitleLayout {
  import opened Text
  import opened Geometry

  /** Canvas `textAlign`. */
  datatype Align = AlignCenter | AlignLeft | AlignRight

  /** Canvas `textBaseline`; `BaselineCenter` is the value the layout writes
      by default, which is not one the canvas accepts, so the canvas keeps
      its previous baseline for it. */
  datatype Baseline = BaselineCenter | BaselineTop | BaselineBottom

  datatype TextLayout = TextLayout(size: int, align: Align, baseline: Baseline, pos: Vec, bold: bool)

  /** Both texts start centred, in bold, at their configured sizes. */
  function Initial(size: int): TextLayout {
    TextLayout(size, AlignCenter, BaselineCenter, Vec(0.5, 0.5), true)
  }

  datatype Pair = Pair(td: TextLayout, sd: TextLayout)

  predicate IsTextModifier(t: String) {
    t == "<" || t == ">" || t == "^" || t == "v"
  }

  function MoveX(l: TextLayout, x: real, a: Align): TextLayout {
    l.(pos := l.pos.(x := x), align := a)
  }

  function MoveY(l: TextLayout, y: real, b: Baseline): TextLayout {
    l.(pos := l.pos.(y := y), baseline := b)
  }

  /** One title argument, applied to both layouts. */
  function TitleStep(p: Pair, arg: String, hasSub: bool): Pair {
    if arg == "<" then Pair(MoveX(p.td, 0.05, AlignLeft), MoveX(p.sd, 0.05, AlignLeft))
    else if arg == ">" then Pair(MoveX(p.td, 0.95, AlignRight), MoveX(p.sd, 0.95, AlignRight))
    else if arg == "^" then Pair(MoveY(p.td, 0.05, BaselineTop), MoveY(p.sd, 0.05, BaselineTop))
    else if arg == "v" then
      if hasSub then Pair(MoveY(p.td, 0.9, BaselineBottom), MoveY(p.sd, 0.85, BaselineBottom))
      else Pair(MoveY(p.td, 0.95, BaselineBottom), MoveY(p.sd, 0.95, BaselineBottom))
    else p
  }

  function TitleFold(p: Pair, args: seq<String>, hasSub: bool): Pair {
    if args == [] then p
    else TitleStep(TitleFold(p, args[..|args| - 1], hasSub), args[|args| - 1], hasSub)
  }

  /** The subtitle's layout and whether none of its arguments moved it. */
  datatype SubState = SubState(sd: TextLayout, matched: bool)

  function SubStep(s: SubState, arg: String): SubState {
    if arg == "<" then SubState(MoveX(s.sd, 0.05, AlignLeft), false)
    else if arg == ">" then SubState(MoveX(s.sd, 0.95, AlignRight), false)
    else if arg == "^" then SubState(MoveY(s.sd, 0.05, BaselineTop), false)
    else if arg == "v" then SubState(MoveY(s.sd, 0.95, BaselineBottom), false)
    else s
  }

  function SubFold(s: SubState, args: seq<String>): SubState {
    if args == [] then s else SubStep(SubFold(s, args[..|args| - 1]), args[|args| - 1])
  }

  /** The layouts of the title and, when there is one, the subtitle. */
  function Layout(titleSize: int, subtitleSize: int, titleArgs: seq<String>,
                  hasSub: bool, subtitleArgs: seq<String>): Pair
  {
    var p := TitleFold(Pair(Initial(titleSize), Initial(subtitleSize)), titleArgs, hasSub);
    if !hasSub then p
    else
      var s := SubFold(SubState(p.sd, true), subtitleArgs);
      Pair(p.td, if s.matched then s.sd.(pos := s.sd.pos.(y := s.sd.pos.y + 0.1)) else s.sd)
  }

  /** The two loops of the title stage, with the layouts updated in place. */
  method ResolveLayout(titleSize: int, subtitleSize: int, titleArgs: seq<String>,
                       hasSub: bool, subtitleArgs: seq<String>)
    returns (td: TextLayout, sd: TextLayout)
    ensures Pair(td, sd) == Layout(titleSize, subtitleSize, titleArgs, hasSub, subtitleArgs)
  {
    td := Initial(titleSize);
    sd := Initial(subtitleSize);
    var matched := true;
    for i := 0 to |titleArgs|
      invariant Pair(td, sd) == TitleFold(Pair(Initial(titleSize), Initial(subtitleSize)), titleArgs[..i], hasSub)
    {
      assert titleArgs[..i + 1][..i] == titleArgs[..i];
      var arg := titleArgs[i];
      if arg == "<" {
        td, sd := MoveX(td, 0.05, AlignLeft), MoveX(sd, 0.05, AlignLeft);
      } else if arg == ">" {
        td, sd := MoveX(td, 0.95, AlignRight), MoveX(sd, 0.95, AlignRight);
      } else if arg == "^" {
        td, sd := MoveY(td, 0.05, BaselineTop), MoveY(sd, 0.05, BaselineTop);
      } else if arg == "v" {
        td, sd := MoveY(td, 0.95, BaselineBottom), MoveY(sd, 0.95, BaselineBottom);
        if hasSub {
          td := td.(pos := td.pos.(y := 0.9));
          sd := sd.(pos := sd.pos.(y := 0.85));
        }
      }
    }
    assert titleArgs[..|titleArgs|] == titleArgs;
    if hasSub {
      ghost var sd0 := sd;
      for i := 0 to |subtitleArgs|
        invariant SubState(sd, matched) == SubFold(SubState(sd0, true), subtitleArgs[..i])
      {
        assert subtitleArgs[..i + 1][..i] == subtitleArgs[..i];
        var arg := subtitleArgs[i];
        if arg == "<" {
          matched := false;
          sd := MoveX(sd, 0.05, AlignLeft);
        } else if arg == ">" {
          matched := false;
          sd := MoveX(sd, 0.95, AlignRight);
        } else if arg == "^" {
          matched := false;
          sd := MoveY(sd, 0.05, BaselineTop);
        } else if arg == "v" {
          matched := false;
          sd := MoveY(sd, 0.95, BaselineBottom);
        }
      }
      assert subtitleArgs[..|subtitleArgs|] == subtitleArgs;
      if matched {
        sd := sd.(pos := sd.pos.(y := sd.pos.y + 0.1));
      }
    }
  }

  // ---- Properties ----

  /** What the title stage keeps: both texts share their column and
      alignment, and their rows are one of the four the modifiers write. */
  ghost predicate TitleCoupled(p: Pair, hasSub: bool) {
    && p.td.pos.x == p.sd.pos.x && p.td.align == p.sd.align
    && p.td.baseline == p.sd.baseline && p.td.bold && p.sd.bold
    && (|| (p.td.pos.y == 0.5 && p.sd.pos.y == 0.5 && p.td.baseline == BaselineCenter)
        || (p.td.pos.y == 0.05 && p.sd.pos.y == 0.05 && p.td.baseline == BaselineTop)
        || (!hasSub && p.td.pos.y == 0.95 && p.sd.pos.y == 0.95 && p.td.baseline == BaselineBottom)
        || (hasSub && p.td.pos.y == 0.9 && p.sd.pos.y == 0.85 && p.td.baseline == BaselineBottom))
    && (p.td.pos.x == 0.5 || p.td.pos.x == 0.05 || p.td.pos.x == 0.95)
  }

  lemma {:induction false} TitleFoldCoupled(titleSize: int, subtitleSize: int, args: seq<String>, hasSub: bool)
    ensures TitleCoupled(TitleFold(Pair(Initial(titleSize), Initial(subtitleSize)), args, hasSub), hasSub)
    ensures TitleFold(Pair(Initial(titleSize), Initial(subtitleSize)), args, hasSub).td.size == titleSize
    ensures TitleFold(Pair(Initial(titleSize), Initial(subtitleSize)), args, hasSub).sd.size == subtitleSize
  {
    if args != [] {
      TitleFoldCoupled(titleSize, subtitleSize, args[..|args| - 1], hasSub);
    }
  }

  /** Without any argument that moves text, both are centred, the subtitle a
      tenth of the scene below the title. */
  lemma DefaultLayout(titleSize: int, subtitleSize: int, titleArgs: seq<String>, subtitleArgs: seq<String>)
    requires forall k :: 0 <= k < |titleArgs| ==> !IsTextModifier(titleArgs[k])
    requires forall k :: 0 <= k < |subtitleArgs| ==> !IsTextModifier(subtitleArgs[k])
    ensures Layout(titleSize, subtitleSize, titleArgs, true, subtitleArgs)
      == Pair(Initial(titleSize), Initial(subtitleSize).(pos := Vec(0.5, 0.6)))
    ensures Layout(titleSize, subtitleSize, titleArgs, false, subtitleArgs).td == Initial(titleSize)
  {
    var p0 := Pair(Initial(titleSize), Initial(subtitleSize));
    TitleFoldInert(p0, titleArgs, true);
    TitleFoldInert(p0, titleArgs, false);
    SubFoldInert(SubState(Initial(subtitleSize), true), subtitleArgs);
  }

  lemma {:induction false} TitleFoldInert(p: Pair, args: seq<String>, hasSub: bool)
    requires forall k :: 0 <= k < |args| ==> !IsTextModifier(args[k])
    ensures TitleFold(p, args, hasSub) == p
  {
    if args != [] {
      TitleFoldInert(p, args[..|args| - 1], hasSub);
    }
  }

  lemma {:induction false} SubFoldInert(s: SubState, args: seq<String>)
    requires forall k :: 0 <= k < |args| ==> !IsTextModifier(args[k])
    ensures SubFold(s, args) == s
  {
    if args != [] {
      SubFoldInert(s, args[..|args| - 1]);
    }
  }

  /** The subtitle is left unmoved, and so shifted down, exactly when none of
      its arguments is a text modifier. */
  lemma {:induction false} MatchedIff(s: SubState, args: seq<String>)
    requires s.matched
    ensures SubFold(s, args).matched <==> forall k :: 0 <= k < |args| ==> !IsTextModifier(args[k])
  {
    if args != [] {
      var init := args[..|args| - 1];
      MatchedIff(s, init);
      assert forall k :: 0 <= k < |init| ==> init[k] == args[k];
    }
  }

  /** A subtitle without `<` or `>` of its own follows the title's column
      and alignment. */
  lemma {:induction false} SubFollowsTitleColumn(s: SubState, args: seq<String>)
    requires forall k :: 0 <= k < |args| ==> args[k] != "<" && args[k] != ">"
    ensures SubFold(s, args).sd.pos.x == s.sd.pos.x && SubFold(s, args).sd.align == s.sd.align
  {
    if args != [] {
      SubFollowsTitleColumn(s, args[..|args| - 1]);
    }
  }

  lemma SubtitleSharesColumn(titleSize: int, subtitleSize: int, titleArgs: seq<String>, subtitleArgs: seq<String>)
    requires forall k :: 0 <= k < |subtitleArgs| ==> subtitleArgs[k] != "<" && subtitleArgs[k] != ">"
    ensures var p := Layout(titleSize, subtitleSize, titleArgs, true, subtitleArgs);
      p.sd.pos.x == p.td.pos.x && p.sd.align == p.td.align
  {
    var p := TitleFold(Pair(Initial(titleSize), Initial(subtitleSize)), titleArgs, true);
    TitleFoldCoupled(titleSize, subtitleSize, titleArgs, true);
    SubFollowsTitleColumn(SubState(p.sd, true), subtitleArgs);
  }

  /** A subtitle that none of its arguments moved sits below the title and
      inside the scene, whatever the title's arguments were. */
  lemma SubtitleBelowTitle(titleSize: int, subtitleSize: int, titleArgs: seq<String>, subtitleArgs: seq<String>)
    requires forall k :: 0 <= k < |subtitleArgs| ==> !IsTextModifier(subtitleArgs[k])
    ensures var p := Layout(titleSize, subtitleSize, titleArgs, true, subtitleArgs);
      p.td.pos.y < p.sd.pos.y < 1.0 && p.sd.baseline == p.td.baseline
  {
    var p := TitleFold(Pair(Initial(titleSize), Initial(subtitleSize)), titleArgs, true);
    TitleFoldCoupled(titleSize, subtitleSize, titleArgs, true);
    SubFoldInert(SubState(p.sd, true), subtitleArgs);
  }

  /** `v` on the title: with a subtitle the pair sits at 0.9 and 0.95, alone
      the title sits at 0.95. */
  lemma BottomTitle(titleSize: int, subtitleSize: int)
    ensures Layout(titleSize, subtitleSize, ["v"], true, []).td.pos.y == 0.9
    ensures Layout(titleSize, subtitleSize, ["v"], true, []).sd.pos.y == 0.95
    ensures Layout(titleSize, subtitleSize, ["v"], false, []).td.pos.y == 0.95
  {
    assert ["v"][..0] == [];
  }

  /** The title text is the first title argument, so a title that reads `<`
      moves itself to the left. */
  lemma TitleTextActsAsModifier(titleSize: int, subtitleSize: int)
    ensures Layout(titleSize, subtitleSize, ["<"], false, []).td.pos.x == 0.05
    ensures Layout(titleSize, subtitleSize, ["<"], false, []).td.align == AlignLeft
  {
    assert ["<"][..0] == [];
  }

  /** Any later title argument overrides the column an earlier one chose. */
  lemma TitleColumnLastWins(p: Pair, a: seq<String>, m: String, b: seq<String>, hasSub: bool)
    requires m == "<" || m == ">"
    requires forall k :: 0 <= k < |b| ==> b[k] != "<" && b[k] != ">"
    ensures TitleFold(p, a + [m] + b, hasSub).td.pos.x == (if m == "<" then 0.05 else 0.95)
  {
    TitleFoldAppend(p, a + [m], b, hasSub);
    var q := TitleFold(p, a + [m], hasSub);
    assert (a + [m])[..|a + [m]| - 1] == a;
    TitleColumnKept(q, b, hasSub);
  }

  lemma {:induction false} TitleFoldAppend(p: Pair, a: seq<String>, b: seq<String>, hasSub: bool)
    ensures TitleFold(p, a + b, hasSub) == TitleFold(TitleFold(p, a, hasSub), b, hasSub)
  {
    if b == [] {
      assert a + b == a;
    } else {
      assert (a + b)[..|a + b| - 1] == a + b[..|b| - 1];
      TitleFoldAppend(p, a, b[..|b| - 1], hasSub);
    }
  }

  lemma {:induction false} TitleColumnKept(p: Pair, b: seq<String>, hasSub: bool)
    requires forall k :: 0 <= k < |b| ==> b[k] != "<" && b[k] != ">"
    ensures TitleFold(p, b, hasSub).td.pos.x == p.td.pos.x
  {
    if b != [] {
      TitleColumnKept(p, b[..|b| - 1], hasSub);
    }
  }

  lemma {:induction false} SubFoldKeepsBold(s: SubState, args: seq<String>)
    ensures SubFold(s, args).sd.bold == s.sd.bold && SubFold(s, args).sd.size == s.sd.size
  {
    if args != [] {
      SubFoldKeepsBold(s, args[..|args| - 1]);
    }
  }

  /** Both texts are always bold, at their configured sizes. */
  lemma LayoutBold(titleSize: int, subtitleSize: int, titleArgs: seq<String>, hasSub: bool, subtitleArgs: seq<String>)
    ensures var p := Layout(titleSize, subtitleSize, titleArgs, hasSub, subtitleArgs);
      p.td.bold && p.sd.bold && p.td.size == titleSize && p.sd.size == subtitleSize
  {
    var p := TitleFold(Pair(Initial(titleSize), Initial(subtitleSize)), titleArgs, hasSub);
    TitleFoldCoupled(titleSize, subtitleSize, titleArgs, hasSub);
    SubFoldKeepsBold(SubState(p.sd, true), subtitleArgs);
  }
}
