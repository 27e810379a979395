/** The BLUR directive: the CSS filter string it builds from its arguments,
    and the edge-padded buffer the blur is drawn through so that the scene's
    borders do not fade to transparent. */
module Blur {
  import opened Wrappers
  import opened Sequences
  import opened Text
  import opened Numbers
  import opened Tokenizer

  // ---- The filter string ----

  /** The colour adjustments BLUR understands after the blur itself. */
  datatype Effect = Dark | Darker | Light | Lighter | Desat | Sat {
    /** The text the adjustment appends to the filter. */
    function Text(): String {
      match this
      case Dark => " brightness(0.5)"
      case Darker => " brightness(0.25)"
      case Light => " brightness(1.5)"
      case Lighter => " brightness(1.8)"
      case Desat => " saturate(0.5)"
      case Sat => " saturate(1.5)"
    }
  }

  /** The argument words of the adjustments; any other word is ignored. */
  function EffectNamed(arg: String): Option<Effect> {
    match arg
    case "DARK" => Some(Dark)
    case "DARKER" => Some(Darker)
    case "LIGHT" => Some(Light)
    case "LIGHTER" => Some(Lighter)
    case "DESAT" => Some(Desat)
    case "SAT" => Some(Sat)
    case _ => None
  }

  /** The text one argument appends: its adjustment's, or nothing. */
  function Suffix(arg: String): String {
    match EffectNamed(arg)
    case None => ""
    case Some(e) => e.Text()
  }

  function Suffixes(args: seq<String>): String {
    if args == [] then [] else Suffixes(args[..|args| - 1]) + Suffix(args[|args| - 1])
  }

  /** `blur(Npx)`, N being what `parseInt` made of the `pixels` value. */
  function BlurHead(pixels: Option<int>): String {
    "blur(" + NumberText(pixels) + "px)"
  }

  function BlurFilter(pixels: Option<int>, args: seq<String>): String {
    BlurHead(pixels) + Suffixes(args)
  }

  /** The source's loop: start from the blur and append one suffix per
      argument, the switch over the six words being `Suffix`. */
  method BuildBlurFilter(pixels: Option<int>, args: seq<String>) returns (filter: String)
    ensures filter == BlurFilter(pixels, args)
  {
    filter := AppendSuffixes(BlurHead(pixels), args);
  }

  /** The loop itself, appending to whatever text came before. */
  method AppendSuffixes(head: String, args: seq<String>) returns (filter: String)
    ensures filter == head + Suffixes(args)
  {
    filter := head;
    assert args[..0] == [] && head + [] == head;
    for i := 0 to |args|
      invariant filter == head + Suffixes(args[..i])
    {
      var suffix := Suffix(args[i]);
      SuffixesStep(args, i);
      ConcatAssoc(head, Suffixes(args[..i]), suffix);
      filter := filter + suffix;
    }
    assert args[..|args|] == args;
  }

  lemma SuffixesStep(args: seq<String>, i: nat)
    requires i < |args|
    ensures Suffixes(args[..i + 1]) == Suffixes(args[..i]) + Suffix(args[i])
  {
    assert args[..i + 1][..i] == args[..i];
  }

  /** The recognised adjustments, in argument order. */
  function Effects(args: seq<String>): seq<Effect> {
    if args == [] then []
    else
      var tail := match EffectNamed(args[|args| - 1]) case None => [] case Some(e) => [e];
      Effects(args[..|args| - 1]) + tail
  }

  /** Which adjustment a suffix came from. */
  function EffectOf(t: String): Option<Effect> {
    if t == Dark.Text() then Some(Dark)
    else if t == Darker.Text() then Some(Darker)
    else if t == Light.Text() then Some(Light)
    else if t == Lighter.Text() then Some(Lighter)
    else if t == Desat.Text() then Some(Desat)
    else if t == Sat.Text() then Some(Sat)
    else None
  }

  /** Reads a run of suffixes back into the adjustments that produced them:
      each suffix ends at its first `)`. */
  function ParseSuffixes(s: String): Option<seq<Effect>>
    decreases |s|
  {
    if s == [] then Some([])
    else
      var j := Find(s, ')');
      if j == |s| then None
      else match EffectOf(s[..j + 1])
        case None => None
        case Some(k) =>
          match ParseSuffixes(s[j + 1..])
          case None => None
          case Some(ks) => Some([k] + ks)
  }

  // ---- Properties of the filter string ----

  lemma {:induction false} SuffixesAppend(a: seq<String>, b: seq<String>)
    ensures Suffixes(a + b) == Suffixes(a) + Suffixes(b)
  {
    if b == [] {
      assert a + b == a;
    } else {
      var b', x := b[..|b| - 1], b[|b| - 1];
      assert (a + b)[..|a + b| - 1] == a + b';
      assert (a + b)[|a + b| - 1] == x;
      SuffixesAppend(a, b');
      ConcatAssoc(Suffixes(a), Suffixes(b'), Suffix(x));
    }
  }

  lemma {:induction false} EffectsAppend(a: seq<String>, b: seq<String>)
    ensures Effects(a + b) == Effects(a) + Effects(b)
  {
    if b == [] {
      assert a + b == a;
    } else {
      var b', x := b[..|b| - 1], b[|b| - 1];
      assert (a + b)[..|a + b| - 1] == a + b';
      assert (a + b)[|a + b| - 1] == x;
      EffectsAppend(a, b');
      var tail := match EffectNamed(x) case None => [] case Some(e) => [e];
      ConcatAssoc(Effects(a), Effects(b'), tail);
    }
  }

  lemma Single(x: String)
    ensures Suffixes([x]) == Suffix(x)
    ensures Effects([x]) == match EffectNamed(x) case None => [] case Some(e) => [e]
  {
    assert [x][..0] == [];
  }

  /** Every suffix closes at its last character and nowhere before. */
  predicate ClosesOnce(t: String) {
    |t| > 0 && t[|t| - 1] == ')' && ')' !in t[..|t| - 1]
  }

  lemma TextShape(e: Effect)
    ensures ClosesOnce(e.Text()) && EffectOf(e.Text()) == Some(e)
  {
  }

  lemma FindClose(t: String, rest: String)
    requires ClosesOnce(t)
    ensures Find(t + rest, ')') == |t| - 1
  {
    var s := t + rest;
    assert s[|t| - 1] == ')';
    assert forall k :: 0 <= k < |t| - 1 ==> s[k] == t[..|t| - 1][k];
  }

  lemma ParseOne(e: Effect, rest: String)
    ensures ParseSuffixes(e.Text() + rest) ==
      match ParseSuffixes(rest) case None => None case Some(ks) => Some([e] + ks)
  {
    var t := e.Text();
    TextShape(e);
    FindClose(t, rest);
    var s := t + rest;
    assert s[..|t|] == t;
    assert s[|t|..] == rest;
  }

  /** The suffixes read back as exactly the recognised adjustments, in
      order: each recognised argument adds one, the others add nothing. */
  lemma {:induction false} SuffixesRoundTrip(args: seq<String>)
    ensures ParseSuffixes(Suffixes(args)) == Some(Effects(args))
    decreases |args|
  {
    if args != [] {
      var x := args[0];
      var rest := args[1..];
      assert args == [x] + rest;
      SuffixesAppend([x], rest);
      EffectsAppend([x], rest);
      Single(x);
      SuffixesRoundTrip(rest);
      match EffectNamed(x)
      case Some(e) =>
        ParseOne(e, Suffixes(rest));
      case None =>
        assert [] + Suffixes(rest) == Suffixes(rest);
        assert [] + Effects(rest) == Effects(rest);
    }
  }

  /** Arguments that are not adjustment words leave the filter unchanged. */
  lemma IgnoredArguments(pixels: Option<int>, a: seq<String>, x: String, b: seq<String>)
    requires EffectNamed(x).None?
    ensures BlurFilter(pixels, a + [x] + b) == BlurFilter(pixels, a + b)
  {
    SuffixesAppend(a + [x], b);
    SuffixesAppend(a, [x]);
    SuffixesAppend(a, b);
    Single(x);
    assert Suffixes(a) + [] == Suffixes(a);
  }

  /** The whole filter string read back: `blur(`, the pixel count, `px)`,
      then the recognised adjustments in order. */
  lemma BlurFilterRoundTrip(n: int, args: seq<String>)
    ensures var f := BlurFilter(Some(n), args); var m := |IntToString(n)|;
      && f[..5] == "blur("
      && ParseInt(f[5..5 + m]) == Some(n)
      && f[5 + m..8 + m] == "px)"
      && ParseSuffixes(f[8 + m..]) == Some(Effects(args))
  {
    var d := IntToString(n);
    assert BlurFilter(Some(n), args) == "blur(" + d + "px)" + Suffixes(args);
    Slices4("blur(", d, "px)", Suffixes(args));
    ParseIntOfText(n);
    SuffixesRoundTrip(args);
  }

  lemma Suffixes3(a: String, b: String, c: String)
    ensures Suffixes([a, b, c]) == Suffix(a) + Suffix(b) + Suffix(c)
  {
    var args := [a, b, c];
    assert args[..2] == [a, b] && [a, b][..1] == [a];
    Single(a);
    assert Suffixes([a, b]) == Suffix(a) + Suffix(b);
  }

  /** `BLUR pixels:12 DARK x SAT`: one brightness and one saturation step,
      the unknown word ignored. */
  lemma BlurFilterExample()
    ensures Suffixes(["DARK", "x", "SAT"]) == " brightness(0.5) saturate(1.5)"
  {
    Suffixes3("DARK", "x", "SAT");
    assert Suffix("DARK") == " brightness(0.5)";
    assert Suffix("x") == "";
    assert Suffix("SAT") == " saturate(1.5)";
  }

  // ---- The edge-padded buffer ----

  /** Pixels as packed integers; 0 is transparent. */
  type Grid = seq<seq<int>>

  predicate IsGrid(g: Grid, h: nat, w: nat) {
    |g| == h && forall y :: 0 <= y < h ==> |g[y]| == w
  }

  /** The padded buffer's pixel `(y, x)`: the image at offset `(p, p)`; each
      padding strip repeats the image's nearest edge line; the four corner
      squares stay transparent. */
  function PaddedAt(img: Grid, h: nat, w: nat, p: nat, y: int, x: int): int
    requires IsGrid(img, h, w) && h > 0 && w > 0
  {
    var iy := y - p;
    var ix := x - p;
    if 0 <= iy < h && 0 <= ix < w then img[iy][ix]
    else if 0 <= iy < h then (if ix < 0 then img[iy][0] else img[iy][w - 1])
    else if 0 <= ix < w then (if iy < 0 then img[0][ix] else img[h - 1][ix])
    else 0
  }

  function PadSpec(img: Grid, h: nat, w: nat, p: nat): (r: Grid)
    requires IsGrid(img, h, w) && h > 0 && w > 0
    ensures IsGrid(r, h + 2 * p, w + 2 * p)
  {
    seq(h + 2 * p, y requires 0 <= y < h + 2 * p => seq(w + 2 * p, x requires 0 <= x < w + 2 * p => PaddedAt(img, h, w, p, y, x)))
  }

  /** The scene's `(h, w)` region of `g` at offset `(p, p)`; pixels outside
      `g` read as transparent. */
  function Crop(g: Grid, p: nat, h: nat, w: nat): (r: Grid)
    ensures IsGrid(r, h, w)
  {
    seq(h, y requires 0 <= y < h => seq(w, x requires 0 <= x < w => GridAt(g, y + p, x + p)))
  }

  function GridAt(g: Grid, y: int, x: int): int {
    if 0 <= y < |g| && 0 <= x < |g[y]| then g[y][x] else 0
  }

  /** Builds the padded buffer as the source does: the image is put at
      `(p, p)`, then the left, right, top and bottom strips are each filled
      from the buffer's own edge line next to them. */
  method Pad(img: Grid, h: nat, w: nat, p: nat) returns (buf: array2<int>)
    requires IsGrid(img, h, w) && h > 0 && w > 0
    ensures buf.Length0 == h + 2 * p && buf.Length1 == w + 2 * p
    ensures forall y, x :: 0 <= y < h + 2 * p && 0 <= x < w + 2 * p ==> buf[y, x] == PaddedAt(img, h, w, p, y, x)
  {
    buf := new int[h + 2 * p, w + 2 * p]((y, x) => 0);
    forall y, x | p <= y < p + h && p <= x < p + w {
      buf[y, x] := img[y - p][x - p];
    }
    forall y, x | p <= y < p + h && 0 <= x < p {
      buf[y, x] := buf[y, p];
    }
    forall y, x | p <= y < p + h && p + w <= x < w + 2 * p {
      buf[y, x] := buf[y, p + w - 1];
    }
    forall y, x | 0 <= y < p && p <= x < p + w {
      buf[y, x] := buf[p, x];
    }
    forall y, x | p + h <= y < h + 2 * p && p <= x < p + w {
      buf[y, x] := buf[p + h - 1, x];
    }
  }

  /** The buffer's pixels as a grid. */
  method Snapshot(buf: array2<int>) returns (g: Grid)
    ensures IsGrid(g, buf.Length0, buf.Length1)
    ensures forall y, x :: 0 <= y < buf.Length0 && 0 <= x < buf.Length1 ==> g[y][x] == buf[y, x]
  {
    g := [];
    for y := 0 to buf.Length0
      invariant IsGrid(g, y, buf.Length1)
      invariant forall i, x :: 0 <= i < y && 0 <= x < buf.Length1 ==> g[i][x] == buf[i, x]
    {
      var row := [];
      for x := 0 to buf.Length1
        invariant |row| == x
        invariant forall j :: 0 <= j < x ==> row[j] == buf[y, j]
      {
        row := row + [buf[y, x]];
      }
      g := g + [row];
    }
  }

  /** `drawFiltered` with a positive pixel count: pad, draw the buffer
      through the filter (`kernel`, left abstract), crop back at `(p, p)`. */
  method DrawPadded(img: Grid, h: nat, w: nat, p: nat, kernel: Grid -> Grid) returns (out: Grid)
    requires IsGrid(img, h, w) && h > 0 && w > 0 && p > 0
    ensures out == Crop(kernel(PadSpec(img, h, w, p)), p, h, w)
  {
    var buf := Pad(img, h, w, p);
    var g := Snapshot(buf);
    assert g == PadSpec(img, h, w, p) by {
      var s := PadSpec(img, h, w, p);
      assert forall y :: 0 <= y < |g| ==> g[y] == s[y];
    }
    out := Crop(kernel(g), p, h, w);
  }

  // ---- Properties of the padded buffer ----

  /** The buffer's size, and its four strips: the left and right strips
      repeat the image's first and last columns, the top and bottom strips
      its first and last rows, and the corners are transparent. */
  lemma PadStrips(img: Grid, h: nat, w: nat, p: nat)
    requires IsGrid(img, h, w) && h > 0 && w > 0
    ensures var b := PadSpec(img, h, w, p);
      && IsGrid(b, h + 2 * p, w + 2 * p)
      && (forall y, x :: p <= y < p + h && p <= x < p + w ==> b[y][x] == img[y - p][x - p])
      && (forall y, x :: p <= y < p + h && 0 <= x < p ==> b[y][x] == img[y - p][0])
      && (forall y, x :: p <= y < p + h && p + w <= x < w + 2 * p ==> b[y][x] == img[y - p][w - 1])
      && (forall y, x :: 0 <= y < p && p <= x < p + w ==> b[y][x] == img[0][x - p])
      && (forall y, x :: p + h <= y < h + 2 * p && p <= x < p + w ==> b[y][x] == img[h - 1][x - p])
      && (forall y, x :: 0 <= y < h + 2 * p && 0 <= x < w + 2 * p && (y < p || p + h <= y) && (x < p || p + w <= x) ==> b[y][x] == 0)
  {
  }

  /** Cropping the padded buffer at `(p, p)` before any filter gives back the
      original image. */
  lemma PadThenCrop(img: Grid, h: nat, w: nat, p: nat)
    requires IsGrid(img, h, w) && h > 0 && w > 0
    ensures Crop(PadSpec(img, h, w, p), p, h, w) == img
  {
    var c := Crop(PadSpec(img, h, w, p), p, h, w);
    var b := PadSpec(img, h, w, p);
    forall y | 0 <= y < h
      ensures c[y] == img[y]
    {
      forall x | 0 <= x < w
        ensures c[y][x] == img[y][x]
      {
        assert c[y][x] == GridAt(b, y + p, x + p);
        assert b[y + p][x + p] == PaddedAt(img, h, w, p, y + p, x + p);
      }
    }
  }
}
