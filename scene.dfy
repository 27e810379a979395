/** The scene interpreter: the trimmed source is split into lines, each line
    that is not blank and holds no `%%` is tokenized and dispatched on its
    first word, and the title and subtitle are drawn after every other
    directive. The canvas is a log of the operations drawn on it, in order. */
module Scene {
  import opened Wrappers
  import opened Sequences
  import opened Text
  import opened Numbers
  import opened Geometry
  import opened Tokenizer
  import opened Placement
  import opened TitleLayout
  import opened Zoom
  import opened Blur
  import opened Overlay
  import opened ImageCache

  /** A CSS filter as the directives write it; a parameter that is not a
      number is `None`. */
  datatype CssFilter =
    | Blurred(text: String)
    | Grayscale(percent: Option<real>)
    | SepiaTone(percent: Option<real>)
    | InvertFull
    | HueRotate(degrees: Option<real>)

  /** What is drawn on the scene canvas. */
  datatype Op =
    | ClearAll
      /** The diagnostic cyan circle drawn before any directive. */
    | Marker
    | FillAll(colour: Colour)
      /** Sets the canvas filter; it stays set for everything drawn later. */
    | SetFilter(filter: CssFilter)
      /** The canvas drawn onto itself under the current filter. */
    | RedrawSelf
      /** The scene redrawn through an edge-padded buffer as in `Blur.DrawPadded`. */
    | PaddedFilter(filter: CssFilter, pixels: nat)
    | DrawImage(path: String, placement: PlacementState, size: Size)
      /** The scene copied, cleared and drawn back through the zoom view. */
    | ZoomRedraw(view: Option<ZoomView>)
    | DrawText(text: String, layout: TextLayout, font: String)

  datatype Settings = Settings(sceneW: nat, sceneH: nat, defaultFont: String, titleSize: int, subtitleSize: int)

  const DefaultSettings := Settings(1920, 1080, "", 192, 96)

  /** The world outside the interpreter: settings, which vault paths hold a
      file, and what decoding a path gives. */
  datatype Env = Env(settings: Settings, vault: String -> bool, decoder: String -> Option<Size>)

  /** The interpreter's state between lines. `stopped` records an exception
      escaping the render: nothing after it is drawn. */
  datatype Frame = Frame(ops: seq<Op>, fill: Colour, titleArgs: seq<String>,
                         subtitleArgs: seq<String>, stopped: bool)

  const Start := Frame([ClearAll, Marker], MarkerCyan, [], [], false)

  datatype Directive =
    | TitleD | SubtitleD | DarkD | LightD | BlurD | BloomD | ZoomD
    | GrayD | SepiaD | InvertD | HueD | PlaceD

  /** The dispatch on a line's first word; every other word places an image. */
  function Classify(cmd: String): Directive {
    match cmd
    case "TITLE" => TitleD
    case "T" => TitleD
    case "SUBTITLE" => SubtitleD
    case "S" => SubtitleD
    case "DARK" => DarkD
    case "LIGHT" => LightD
    case "BLUR" => BlurD
    case "BLOOM" => BloomD
    case "ZOOM" => ZoomD
    case "GRAY" => GrayD
    case "GRAYSCALE" => GrayD
    case "SEPIA" => SepiaD
    case "INVERT" => InvertD
    case "HUE" => HueD
    case _ => PlaceD
  }

  const Keywords: set<String> := {"TITLE", "T", "SUBTITLE", "S", "DARK", "LIGHT", "BLUR", "BLOOM",
                                  "ZOOM", "GRAY", "GRAYSCALE", "SEPIA", "INVERT", "HUE"}

  /** A line that is blank once trimmed, or holds `%%` anywhere, is skipped. */
  predicate Skipped(line: String) {
    Trim(line) == [] || HasComment(line)
  }

  /** A `parseFloat` option with a numeric default. */
  function FloatParam(kw: map<String, String>, key: String, default: real): Option<real> {
    if key in kw then ParseFloat(kw[key]) else Some(default)
  }

  /** A `parseInt` option with a numeric default. */
  function IntParam(kw: map<String, String>, key: String, default: int): Option<int> {
    if key in kw then ParseInt(kw[key]) else Some(default)
  }

  /** `drawFiltered`: padded when the pixel count is a positive number,
      otherwise the filter is set on the canvas itself. */
  function Filtered(filter: CssFilter, pixels: Option<int>): seq<Op> {
    if pixels.Some? && pixels.value > 0 then [PaddedFilter(filter, pixels.value)]
    else [SetFilter(filter), RedrawSelf]
  }

  /** A line's command word and its remaining arguments; a line of options
      only has an empty command. */
  function Command(head: seq<String>): String {
    if head == [] then [] else head[0]
  }

  function Rest(head: seq<String>): seq<String> {
    if head == [] then [] else head[1..]
  }

  /** The ZOOM view for the line's options, with the defaults zoom 2, no
      rotation and the scene centre. */
  function ZoomViewOf(s: Settings, kw: map<String, String>): Option<ZoomView> {
    Window(s.sceneW as real, s.sceneH as real, FloatParam(kw, "zoom", 2.0), FloatParam(kw, "degrees", 0.0),
           FloatParam(kw, "xpos", 0.5), FloatParam(kw, "ypos", 0.5))
  }

  /** The placement branch: resolve the key, load the file, draw it. A key
      that resolves to nothing draws nothing; a failed decode stops the
      render. */
  function PlaceImage(f: Frame, c: Cache, cmd: String, args: seq<String>, env: Env): (Frame, Cache) {
    var st := Fold(Default, args);
    var (c1, r) := Resolve(c, ImageKey(cmd, args), env.vault);
    if r.None? then (f, c1)
    else
      var (c2, h) := Load(c1, r.value, env.decoder);
      if h.decoded.None? then (f.(stopped := true), c2)
      else (f.(ops := f.ops + [DrawImage(r.value, st, h.decoded.value)]), c2)
  }

  /** One directive. */
  function Dispatch(f: Frame, c: Cache, d: Directive, cmd: String, args: seq<String>,
                    kw: map<String, String>, env: Env): (Frame, Cache) {
    match d
    case TitleD => (f.(titleArgs := args), c)
    case SubtitleD => (f.(subtitleArgs := args), c)
    case DarkD =>
      var fill := DarkFill(f.fill, FloatParam(kw, "amount", 0.5));
      (f.(fill := fill, ops := f.ops + [FillAll(fill)]), c)
    case LightD =>
      // The intended white; main.js:254 writes `Overlay.LightFillAsWritten`.
      var fill := LightFill(f.fill, FloatParam(kw, "amount", 0.5));
      (f.(fill := fill, ops := f.ops + [FillAll(fill)]), c)
    case BlurD =>
      var px := IntParam(kw, "pixels", 8);
      (f.(ops := f.ops + Filtered(Blurred(BlurFilter(px, args)), px)), c)
    case BloomD =>
      var px := IntParam(kw, "pixels", 8);
      (f.(ops := f.ops + Filtered(Blurred(BlurHead(px)), Some(0)), stopped := true), c)
    case ZoomD => (f.(ops := f.ops + [ZoomRedraw(ZoomViewOf(env.settings, kw))]), c)
    case GrayD => (f.(ops := f.ops + Filtered(Grayscale(FloatParam(kw, "amount", 100.0)), Some(0))), c)
    case SepiaD => (f.(ops := f.ops + Filtered(SepiaTone(FloatParam(kw, "amount", 100.0)), Some(0))), c)
    case InvertD => (f.(ops := f.ops + Filtered(InvertFull, Some(0))), c)
    case HueD => (f.(ops := f.ops + Filtered(HueRotate(FloatParam(kw, "amount", 90.0)), Some(0))), c)
    case PlaceD => PlaceImage(f, c, cmd, args, env)
  }

  /** One source line. */
  function Execute(f: Frame, c: Cache, line: String, env: Env): (Frame, Cache) {
    if f.stopped || Skipped(line) then (f, c)
    else
      var (head, kw) := ArgKwargs(Trim(line));
      var cmd := Command(head);
      Dispatch(f, c, Classify(cmd), cmd, Rest(head), kw, env)
  }

  function ExecuteAll(f: Frame, c: Cache, lines: seq<String>, env: Env): (Frame, Cache) {
    if lines == [] then (f, c)
    else
      var (f1, c1) := ExecuteAll(f, c, lines[..|lines| - 1], env);
      Execute(f1, c1, lines[|lines| - 1], env)
  }

  /** A text is drawn when its first argument exists and is not empty. */
  predicate Present(args: seq<String>) {
    args != [] && args[0] != []
  }

  /** The canvas font `drawText` sets. */
  function Font(s: Settings, l: TextLayout): String {
    var base := if s.defaultFont != [] then IntToString(l.size) + "px \"" + s.defaultFont + "\", sans-serif"
                else IntToString(l.size) + "px sans-serif";
    if l.bold then "bold " + base else base
  }

  /** The title stage. A subtitle without a title is passed no position, and
      drawing it fails before anything is drawn. */
  function TextOps(f: Frame, s: Settings): seq<Op> {
    if Present(f.titleArgs) then
      var hasSub := Present(f.subtitleArgs);
      var p := Layout(s.titleSize, s.subtitleSize, f.titleArgs, hasSub, f.subtitleArgs);
      [DrawText(f.titleArgs[0], p.td, Font(s, p.td))]
        + (if hasSub then [DrawText(f.subtitleArgs[0], p.sd, Font(s, p.sd))] else [])
    else []
  }

  function Lines(source: String): seq<String> {
    SplitLines(Trim(source))
  }

  /** A whole render: the operations drawn and the caches afterwards. */
  function Render(source: String, env: Env, c: Cache): (seq<Op>, Cache) {
    var (f, c1) := ExecuteAll(Start, c, Lines(source), env);
    (if f.stopped then f.ops else f.ops + TextOps(f, env.settings), c1)
  }

  // ---- The interpreter as the source runs it ----

  /** One line of `drawScene`'s loop: skip it, or read it and run its
      directive. */
  method ExecuteLine(f: Frame, line: String, env: Env, store: ImageStore) returns (g: Frame)
    requires !f.stopped
    modifies store
    ensures (g, store.State()) == Execute(f, old(store.State()), line, env)
  {
    g := f;
    if Trim(line) == [] || HasComment(line) {
      return;
    }
    var head, kw := GetArgKwargs(Trim(line));
    var cmd := Command(head);
    g := DispatchLine(f, Classify(cmd), cmd, Rest(head), kw, env, store);
  }

  /** The `switch` on the command word. */
  method DispatchLine(f: Frame, d: Directive, cmd: String, args: seq<String>,
                      kw: map<String, String>, env: Env, store: ImageStore) returns (g: Frame)
    modifies store
    ensures (g, store.State()) == Dispatch(f, old(store.State()), d, cmd, args, kw, env)
  {
    match d
    case TitleD =>
      g := f.(titleArgs := args);
    case SubtitleD =>
      g := f.(subtitleArgs := args);
    case DarkD =>
      var fill := DarkFill(f.fill, FloatParam(kw, "amount", 0.5));
      g := f.(fill := fill, ops := f.ops + [FillAll(fill)]);
    case LightD =>
      var fill := LightFill(f.fill, FloatParam(kw, "amount", 0.5));
      g := f.(fill := fill, ops := f.ops + [FillAll(fill)]);
    case BlurD =>
      var px := IntParam(kw, "pixels", 8);
      var filter := BuildBlurFilter(px, args);
      g := f.(ops := f.ops + Filtered(Blurred(filter), px));
    case BloomD =>
      var px := IntParam(kw, "pixels", 8);
      g := f.(ops := f.ops + Filtered(Blurred(BlurHead(px)), Some(0)), stopped := true);
    case ZoomD =>
      g := f.(ops := f.ops + [ZoomRedraw(ZoomViewOf(env.settings, kw))]);
    case GrayD =>
      g := f.(ops := f.ops + Filtered(Grayscale(FloatParam(kw, "amount", 100.0)), Some(0)));
    case SepiaD =>
      g := f.(ops := f.ops + Filtered(SepiaTone(FloatParam(kw, "amount", 100.0)), Some(0)));
    case InvertD =>
      g := f.(ops := f.ops + Filtered(InvertFull, Some(0)));
    case HueD =>
      g := f.(ops := f.ops + Filtered(HueRotate(FloatParam(kw, "amount", 90.0)), Some(0)));
    case PlaceD =>
      g := PlaceLine(f, cmd, args, env, store);
  }

  /** The `default` branch: place an image by its key. */
  method PlaceLine(f: Frame, cmd: String, args: seq<String>, env: Env, store: ImageStore) returns (g: Frame)
    modifies store
    ensures (g, store.State()) == PlaceImage(f, old(store.State()), cmd, args, env)
  {
    g := f;
    var state, key := Place(cmd, args);
    var path := store.ResolveImagePath(key, env.vault);
    if path.Some? {
      var handle := store.LoadImage(path.value, env.decoder);
      if handle.decoded.None? {
        g := f.(stopped := true);
      } else {
        g := f.(ops := f.ops + [DrawImage(path.value, state, handle.decoded.value)]);
      }
    }
  }

  method DrawTitles(f: Frame, s: Settings) returns (ops: seq<Op>)
    ensures ops == TextOps(f, s)
  {
    ops := [];
    if Present(f.titleArgs) {
      var hasSub := Present(f.subtitleArgs);
      var td, sd := ResolveLayout(s.titleSize, s.subtitleSize, f.titleArgs, hasSub, f.subtitleArgs);
      ops := [DrawText(f.titleArgs[0], td, Font(s, td))];
      if hasSub {
        ops := ops + [DrawText(f.subtitleArgs[0], sd, Font(s, sd))];
      }
    }
  }

  /** `drawScene`: one pass over the lines, then the title stage. */
  method DrawScene(source: String, env: Env, store: ImageStore) returns (ops: seq<Op>)
    modifies store
    ensures (ops, store.State()) == Render(source, env, old(store.State()))
  {
    ghost var c0 := store.State();
    var lines := Lines(source);
    var f := Start;
    var i := 0;
    while i < |lines|
      invariant 0 <= i <= |lines| && !f.stopped
      invariant (f, store.State()) == ExecuteAll(Start, c0, lines[..i], env)
    {
      ExecuteAllStep(Start, c0, lines, i, env);
      f := ExecuteLine(f, lines[i], env, store);
      i := i + 1;
      if f.stopped {
        StoppedFinish(Start, c0, lines, i, env);
        return f.ops;
      }
    }
    TakeEnds(lines);
    var text := DrawTitles(f, env.settings);
    ops := f.ops + text;
  }

  // ---- Properties ----

  /** Lines run in order: running two blocks is running the first, then the
      second from where it left off. */
  lemma {:induction false} ExecuteAllAppend(f: Frame, c: Cache, a: seq<String>, b: seq<String>, env: Env)
    ensures ExecuteAll(f, c, a + b, env)
      == (var (f1, c1) := ExecuteAll(f, c, a, env); ExecuteAll(f1, c1, b, env))
  {
    if b == [] {
      assert a + b == a;
    } else {
      assert (a + b)[..|a + b| - 1] == a + b[..|b| - 1];
      assert (a + b)[|a + b| - 1] == b[|b| - 1];
      ExecuteAllAppend(f, c, a, b[..|b| - 1], env);
    }
  }

  /** One more line of the loop. */
  lemma ExecuteAllStep(f: Frame, c: Cache, lines: seq<String>, i: nat, env: Env)
    requires i < |lines|
    ensures ExecuteAll(f, c, lines[..i + 1], env)
      == (var (f1, c1) := ExecuteAll(f, c, lines[..i], env); Execute(f1, c1, lines[i], env))
  {
    assert lines[..i + 1][..i] == lines[..i];
  }

  /** Stopping after `i` lines is the end of the whole render. */
  lemma StoppedFinish(f: Frame, c: Cache, lines: seq<String>, i: nat, env: Env)
    requires i <= |lines| && ExecuteAll(f, c, lines[..i], env).0.stopped
    ensures ExecuteAll(f, c, lines, env) == ExecuteAll(f, c, lines[..i], env)
  {
    var a, b := lines[..i], lines[i..];
    var r := ExecuteAll(f, c, a, env);
    StoppedStays(r.0, r.1, b, env);
    ExecuteAllAppend(f, c, a, b, env);
    TakeDrop(lines, i);
  }

  /** Once the render has stopped, no later line changes anything. */
  lemma {:induction false} StoppedStays(f: Frame, c: Cache, lines: seq<String>, env: Env)
    requires f.stopped
    ensures ExecuteAll(f, c, lines, env) == (f, c)
  {
    if lines != [] {
      StoppedStays(f, c, lines[..|lines| - 1], env);
    }
  }

  /** A skipped line has no effect at all: not even a line starting with a
      directive draws anything once it holds `%%`. */
  lemma SkippedLineNoEffect(f: Frame, c: Cache, line: String, env: Env)
    requires Skipped(line)
    ensures Execute(f, c, line, env) == (f, c)
  {
  }

  function Directives(lines: seq<String>): seq<String> {
    if lines == [] then []
    else
      var last := lines[|lines| - 1];
      Directives(lines[..|lines| - 1]) + (if Skipped(last) then [] else [last])
  }

  /** The lines that count are the non-skipped ones, run in source order. */
  lemma {:induction false} OnlyDirectivesCount(f: Frame, c: Cache, lines: seq<String>, env: Env)
    ensures ExecuteAll(f, c, lines, env) == ExecuteAll(f, c, Directives(lines), env)
    ensures forall k :: 0 <= k < |Directives(lines)| ==> !Skipped(Directives(lines)[k])
  {
    if lines != [] {
      var init := lines[..|lines| - 1];
      var last := lines[|lines| - 1];
      OnlyDirectivesCount(f, c, init, env);
      if !Skipped(last) {
        var d := Directives(init) + [last];
        assert d[..|d| - 1] == Directives(init);
      } else {
        assert Directives(lines) == Directives(init);
      }
    }
  }

  /** A source of blank and commented lines draws only the clear and the
      marker and leaves the caches alone. */
  lemma EmptySceneRender(source: String, env: Env, c: Cache)
    requires forall k :: 0 <= k < |Lines(source)| ==> Skipped(Lines(source)[k])
    ensures Render(source, env, c) == ([ClearAll, Marker], c)
  {
    var lines := Lines(source);
    OnlyDirectivesCount(Start, c, lines, env);
    NoDirectives(lines);
    assert ExecuteAll(Start, c, lines, env) == (Start, c);
    assert TextOps(Start, env.settings) == [];
    assert Start.ops + [] == Start.ops;
  }

  lemma {:induction false} NoDirectives(lines: seq<String>)
    requires forall k :: 0 <= k < |lines| ==> Skipped(lines[k])
    ensures Directives(lines) == []
  {
    if lines != [] {
      NoDirectives(lines[..|lines| - 1]);
    }
  }

  /** Exactly the words outside the keyword set place an image. */
  lemma PlaceIffNotKeyword(cmd: String)
    ensures Classify(cmd) == PlaceD <==> cmd !in Keywords
  {
  }

  predicate NoText(ops: seq<Op>) {
    forall k :: 0 <= k < |ops| ==> !ops[k].DrawText?
  }

  /** `g` is `f` with some operations drawn after it, none of them text. */
  ghost predicate Grows(f: Frame, g: Frame) {
    |f.ops| <= |g.ops| && g.ops[..|f.ops|] == f.ops && NoText(g.ops[|f.ops|..])
  }

  lemma AppendGrows(f: Frame, g: Frame, tail: seq<Op>)
    requires g.ops == f.ops + tail && NoText(tail)
    ensures Grows(f, g)
  {
    assert g.ops[..|f.ops|] == f.ops;
    assert g.ops[|f.ops|..] == tail;
  }

  lemma GrowsTrans(a: Frame, b: Frame, c: Frame)
    requires Grows(a, b) && Grows(b, c)
    ensures Grows(a, c)
  {
    assert c.ops[..|b.ops|][..|a.ops|] == c.ops[..|a.ops|];
    assert c.ops[|a.ops|..] == b.ops[|a.ops|..] + c.ops[|b.ops|..];
  }

  lemma PlaceImageGrows(f: Frame, c: Cache, cmd: String, args: seq<String>, env: Env)
    ensures var g := PlaceImage(f, c, cmd, args, env).0;
      Grows(f, g) && g.titleArgs == f.titleArgs && g.subtitleArgs == f.subtitleArgs
  {
    var g := PlaceImage(f, c, cmd, args, env).0;
    if g.ops == f.ops {
      AppendGrows(f, g, []);
    } else {
      var (c1, r) := Resolve(c, ImageKey(cmd, args), env.vault);
      var (c2, h) := Load(c1, r.value, env.decoder);
      AppendGrows(f, g, [DrawImage(r.value, Fold(Default, args), h.decoded.value)]);
    }
  }

  /** A directive only draws after what is already drawn, never text; only
      TITLE changes the title state and only SUBTITLE the subtitle state. */
  lemma DispatchGrows(f: Frame, c: Cache, d: Directive, cmd: String, args: seq<String>,
                      kw: map<String, String>, env: Env)
    ensures var g := Dispatch(f, c, d, cmd, args, kw, env).0;
      && Grows(f, g)
      && (d == TitleD ==> g.titleArgs == args)
      && (d != TitleD ==> g.titleArgs == f.titleArgs)
      && (d == SubtitleD ==> g.subtitleArgs == args)
      && (d != SubtitleD ==> g.subtitleArgs == f.subtitleArgs)
  {
    var g := Dispatch(f, c, d, cmd, args, kw, env).0;
    if d == PlaceD {
      PlaceImageGrows(f, c, cmd, args, env);
    } else {
      var tail := DispatchTail(f, c, d, cmd, args, kw, env);
      AppendGrows(f, g, tail);
    }
  }

  /** What a directive other than an image placement appends. */
  lemma DispatchTail(f: Frame, c: Cache, d: Directive, cmd: String, args: seq<String>,
                     kw: map<String, String>, env: Env) returns (tail: seq<Op>)
    requires d != PlaceD
    ensures var g := Dispatch(f, c, d, cmd, args, kw, env).0;
      g.ops == f.ops + tail && NoText(tail)
  {
    match d
    case TitleD => tail := [];
    case SubtitleD => tail := [];
    case DarkD => tail := [FillAll(DarkFill(f.fill, FloatParam(kw, "amount", 0.5)))];
    case LightD => tail := [FillAll(LightFill(f.fill, FloatParam(kw, "amount", 0.5)))];
    case BlurD =>
      var px := IntParam(kw, "pixels", 8);
      tail := Filtered(Blurred(BlurFilter(px, args)), px);
      FilteredNoText(Blurred(BlurFilter(px, args)), px);
    case BloomD =>
      var px := IntParam(kw, "pixels", 8);
      tail := Filtered(Blurred(BlurHead(px)), Some(0));
      FilteredNoText(Blurred(BlurHead(px)), Some(0));
    case ZoomD => tail := [ZoomRedraw(ZoomViewOf(env.settings, kw))];
    case GrayD =>
      tail := Filtered(Grayscale(FloatParam(kw, "amount", 100.0)), Some(0));
      FilteredNoText(Grayscale(FloatParam(kw, "amount", 100.0)), Some(0));
    case SepiaD =>
      tail := Filtered(SepiaTone(FloatParam(kw, "amount", 100.0)), Some(0));
      FilteredNoText(SepiaTone(FloatParam(kw, "amount", 100.0)), Some(0));
    case InvertD =>
      tail := Filtered(InvertFull, Some(0));
      FilteredNoText(InvertFull, Some(0));
    case HueD =>
      tail := Filtered(HueRotate(FloatParam(kw, "amount", 90.0)), Some(0));
      FilteredNoText(HueRotate(FloatParam(kw, "amount", 90.0)), Some(0));
  }

  lemma FilteredNoText(filter: CssFilter, pixels: Option<int>)
    ensures NoText(Filtered(filter, pixels))
  {
  }


  predicate IsTitleLine(line: String) {
    !Skipped(line) && Classify(Command(ArgKwargs(Trim(line)).0)) == TitleD
  }

  predicate IsSubtitleLine(line: String) {
    !Skipped(line) && Classify(Command(ArgKwargs(Trim(line)).0)) == SubtitleD
  }

  /** The arguments a line's directive receives. */
  function LineArgs(line: String): seq<String> {
    Rest(ArgKwargs(Trim(line)).0)
  }

  /** One line draws only after what is drawn, never text, and sets the
      title state exactly when it is a TITLE line and the subtitle state
      exactly when it is a SUBTITLE line. */
  lemma ExecuteGrows(f: Frame, c: Cache, line: String, env: Env)
    ensures var g := Execute(f, c, line, env).0;
      && Grows(f, g)
      && (!f.stopped && IsTitleLine(line) ==> g.titleArgs == LineArgs(line))
      && (!IsTitleLine(line) ==> g.titleArgs == f.titleArgs)
      && (!f.stopped && IsSubtitleLine(line) ==> g.subtitleArgs == LineArgs(line))
      && (!IsSubtitleLine(line) ==> g.subtitleArgs == f.subtitleArgs)
  {
    if f.stopped || Skipped(line) {
      AppendGrows(f, f, []);
    } else {
      var (head, kw) := ArgKwargs(Trim(line));
      var cmd := Command(head);
      DispatchGrows(f, c, Classify(cmd), cmd, Rest(head), kw, env);
    }
  }

  lemma {:induction false} ExecuteAllGrows(f: Frame, c: Cache, lines: seq<String>, env: Env)
    ensures Grows(f, ExecuteAll(f, c, lines, env).0)
  {
    if lines == [] {
      AppendGrows(f, f, []);
    } else {
      var (f1, c1) := ExecuteAll(f, c, lines[..|lines| - 1], env);
      ExecuteAllGrows(f, c, lines[..|lines| - 1], env);
      ExecuteGrows(f1, c1, lines[|lines| - 1], env);
      GrowsTrans(f, f1, Execute(f1, c1, lines[|lines| - 1], env).0);
    }
  }

  /** No operation other than text follows a text operation. */
  predicate TextLast(ops: seq<Op>) {
    forall i, j :: 0 <= i < j < |ops| && ops[i].DrawText? ==> ops[j].DrawText?
  }

  /** Text is drawn after every other operation. */
  lemma TextDrawnLast(source: String, env: Env, c: Cache)
    ensures TextLast(Render(source, env, c).0)
  {
    var r := ExecuteAll(Start, c, Lines(source), env);
    ExecuteAllGrows(Start, c, Lines(source), env);
    GrowsNoText(Start, r.0);
    FinishTextLast(r.0, env.settings);
  }

  /** The end of a render draws text, if at all, after the frame's
      operations. */
  lemma FinishTextLast(f: Frame, s: Settings)
    requires NoText(f.ops)
    ensures TextLast(if f.stopped then f.ops else f.ops + TextOps(f, s))
  {
    if f.stopped {
      TextAfter(f.ops, []);
      TakeEnds(f.ops);
    } else {
      TextOpsAreText(f, s);
      TextAfter(f.ops, TextOps(f, s));
    }
  }

  /** The end of a render draws only text. */
  lemma TextOpsAreText(f: Frame, s: Settings)
    ensures forall k :: 0 <= k < |TextOps(f, s)| ==> TextOps(f, s)[k].DrawText?
  {
  }

  /** Growing a frame without text keeps it without text. */
  lemma GrowsNoText(f: Frame, g: Frame)
    requires NoText(f.ops) && Grows(f, g)
    ensures NoText(g.ops)
  {
    assert g.ops == f.ops + g.ops[|f.ops|..];
  }

  /** Operations without text, then only text. */
  lemma TextAfter(a: seq<Op>, b: seq<Op>)
    requires NoText(a) && forall k :: 0 <= k < |b| ==> b[k].DrawText?
    ensures TextLast(a + b)
  {
  }

  lemma ExecuteAllSnoc(f: Frame, c: Cache, a: seq<String>, x: String, env: Env)
    ensures ExecuteAll(f, c, a + [x], env)
      == (var (f1, c1) := ExecuteAll(f, c, a, env); Execute(f1, c1, x, env))
  {
    assert (a + [x])[..|a|] == a;
  }

  /** Only the last TITLE line counts. */
  lemma {:induction false} LastTitleWins(f: Frame, c: Cache, a: seq<String>, line: String, b: seq<String>, env: Env)
    requires IsTitleLine(line)
    requires forall k :: 0 <= k < |b| ==> !IsTitleLine(b[k])
    requires !ExecuteAll(f, c, a, env).0.stopped
    ensures ExecuteAll(f, c, a + [line] + b, env).0.titleArgs == LineArgs(line)
    decreases |b|
  {
    if b == [] {
      assert a + [line] + b == a + [line];
      ExecuteAllSnoc(f, c, a, line, env);
      var (f1, c1) := ExecuteAll(f, c, a, env);
      ExecuteGrows(f1, c1, line, env);
    } else {
      var b' := b[..|b| - 1];
      var x := b[|b| - 1];
      assert forall k :: 0 <= k < |b'| ==> b'[k] == b[k];
      LastTitleWins(f, c, a, line, b', env);
      SnocSplit(a + [line], b);
      ExecuteAllSnoc(f, c, a + [line] + b', x, env);
      var (f1, c1) := ExecuteAll(f, c, a + [line] + b', env);
      ExecuteGrows(f1, c1, x, env);
    }
  }

  /** Only the last SUBTITLE line counts. */
  lemma {:induction false} LastSubtitleWins(f: Frame, c: Cache, a: seq<String>, line: String, b: seq<String>, env: Env)
    requires IsSubtitleLine(line)
    requires forall k :: 0 <= k < |b| ==> !IsSubtitleLine(b[k])
    requires !ExecuteAll(f, c, a, env).0.stopped
    ensures ExecuteAll(f, c, a + [line] + b, env).0.subtitleArgs == LineArgs(line)
    decreases |b|
  {
    if b == [] {
      assert a + [line] + b == a + [line];
      ExecuteAllSnoc(f, c, a, line, env);
      var (f1, c1) := ExecuteAll(f, c, a, env);
      ExecuteGrows(f1, c1, line, env);
    } else {
      var b' := b[..|b| - 1];
      var x := b[|b| - 1];
      assert forall k :: 0 <= k < |b'| ==> b'[k] == b[k];
      LastSubtitleWins(f, c, a, line, b', env);
      SnocSplit(a + [line], b);
      ExecuteAllSnoc(f, c, a + [line] + b', x, env);
      var (f1, c1) := ExecuteAll(f, c, a + [line] + b', env);
      ExecuteGrows(f1, c1, x, env);
    }
  }

  /** Without TITLE lines the title state is never set. */
  predicate NoTitleLines(lines: seq<String>) {
    forall k :: 0 <= k < |lines| ==> !IsTitleLine(lines[k])
  }

  lemma {:induction false} NoTitleKeepsTitle(f: Frame, c: Cache, lines: seq<String>, env: Env)
    requires NoTitleLines(lines)
    ensures ExecuteAll(f, c, lines, env).0.titleArgs == f.titleArgs
  {
    if lines != [] {
      var init := lines[..|lines| - 1];
      assert forall k :: 0 <= k < |init| ==> init[k] == lines[k];
      NoTitleKeepsTitle(f, c, init, env);
      var (f1, c1) := ExecuteAll(f, c, init, env);
      ExecuteGrows(f1, c1, lines[|lines| - 1], env);
    }
  }

  /** A scene without a TITLE line draws no text at all, however many
      SUBTITLE lines it has. */
  lemma NoTitleNoText(source: String, env: Env, c: Cache)
    requires NoTitleLines(Lines(source))
    ensures NoText(Render(source, env, c).0)
  {
    NoTitleFrame(c, Lines(source), env);
    FinishNoText(ExecuteAll(Start, c, Lines(source), env).0, env.settings);
  }

  /** Lines without a TITLE draw no text and leave the title unset. */
  lemma NoTitleFrame(c: Cache, lines: seq<String>, env: Env)
    requires NoTitleLines(lines)
    ensures var r := ExecuteAll(Start, c, lines, env).0; NoText(r.ops) && r.titleArgs == []
  {
    var r := ExecuteAll(Start, c, lines, env).0;
    NoTitleKeepsTitle(Start, c, lines, env);
    ExecuteAllGrows(Start, c, lines, env);
    GrowsNoText(Start, r);
  }

  /** Without a title the end of a render adds nothing. */
  lemma FinishNoText(f: Frame, s: Settings)
    requires NoText(f.ops) && f.titleArgs == []
    ensures NoText(if f.stopped then f.ops else f.ops + TextOps(f, s))
  {
    SubtitleAloneNotDrawn(f, s);
    assert f.ops + [] == f.ops;
  }

  /** A ZOOM line whose `degrees` text `parseFloat` reads as NaN draws exactly what
      the same line without `degrees` draws: the canvas ignores the NaN
      rotation and the zoom still happens. */
  lemma NonNumericDegreesIgnored(f: Frame, c: Cache, cmd: String, args: seq<String>,
                                 kw: map<String, String>, v: String, env: Env)
    requires ParseFloat(v).None?
    ensures Dispatch(f, c, ZoomD, cmd, args, kw["degrees" := v], env)
      == Dispatch(f, c, ZoomD, cmd, args, kw - {"degrees"}, env)
  {
    NonNumericDegreesView(env.settings, kw, v);
    ZoomBySameView(f, c, cmd, args, kw["degrees" := v], kw - {"degrees"}, env);
  }

  /** A ZOOM line depends on its options only through the view they give. */
  lemma ZoomBySameView(f: Frame, c: Cache, cmd: String, args: seq<String>,
                       kw1: map<String, String>, kw2: map<String, String>, env: Env)
    requires ZoomViewOf(env.settings, kw1) == ZoomViewOf(env.settings, kw2)
    ensures Dispatch(f, c, ZoomD, cmd, args, kw1, env) == Dispatch(f, c, ZoomD, cmd, args, kw2, env)
  {
  }

  lemma NonNumericDegreesView(s: Settings, kw: map<String, String>, v: String)
    requires ParseFloat(v).None?
    ensures ZoomViewOf(s, kw["degrees" := v]) == ZoomViewOf(s, kw - {"degrees"})
  {
    var kw1, kw2 := kw["degrees" := v], kw - {"degrees"};
    assert FloatParam(kw1, "degrees", 0.0) == None && FloatParam(kw2, "degrees", 0.0) == Some(0.0);
    OtherOptionKept(kw, "degrees", v, "zoom", 2.0);
    OtherOptionKept(kw, "degrees", v, "xpos", 0.5);
    OtherOptionKept(kw, "degrees", v, "ypos", 0.5);
    var w, h := s.sceneW as real, s.sceneH as real;
    var z, x, y := FloatParam(kw2, "zoom", 2.0), FloatParam(kw2, "xpos", 0.5), FloatParam(kw2, "ypos", 0.5);
    assert ZoomViewOf(s, kw1) == Window(w, h, z, None, x, y);
    assert ZoomViewOf(s, kw2) == Window(w, h, z, Some(0.0), x, y);
    NaNDegreesUnrotated(w, h, z, x, y);
  }

  /** Setting or removing one option leaves every other option as it was. */
  lemma OtherOptionKept(kw: map<String, String>, k: String, v: String, key: String, default: real)
    requires key != k
    ensures FloatParam(kw[k := v], key, default) == FloatParam(kw - {k}, key, default)
  {
    if key in kw {
      assert key in kw[k := v] && kw[k := v][key] == kw[key];
      assert key in kw - {k} && (kw - {k})[key] == kw[key];
    }
  }

  /** GRAY, SEPIA, INVERT and HUE set their filter on the canvas itself and
      redraw it, never through the padded buffer; the `amount` option is read
      by `parseFloat`, with 100 (percent) for GRAY and SEPIA and 90 (degrees)
      for HUE when it is absent. Nothing else changes. */
  lemma CanvasFilters(f: Frame, c: Cache, d: Directive, cmd: String, args: seq<String>,
                      kw: map<String, String>, env: Env)
    requires d == GrayD || d == SepiaD || d == InvertD || d == HueD
    ensures var (g, c1) := Dispatch(f, c, d, cmd, args, kw, env);
      && c1 == c && |g.ops| == |f.ops| + 2 && g.ops[..|f.ops|] == f.ops
      && g.ops[|f.ops|].SetFilter? && g.ops[|f.ops| + 1] == RedrawSelf
      && g == f.(ops := g.ops)
      && (d == InvertD ==> g.ops[|f.ops|].filter == InvertFull)
      && ("amount" !in kw ==>
            && (d == GrayD ==> g.ops[|f.ops|].filter == Grayscale(Some(100.0)))
            && (d == SepiaD ==> g.ops[|f.ops|].filter == SepiaTone(Some(100.0)))
            && (d == HueD ==> g.ops[|f.ops|].filter == HueRotate(Some(90.0))))
      && ("amount" in kw ==>
            && (d == GrayD ==> g.ops[|f.ops|].filter == Grayscale(ParseFloat(kw["amount"])))
            && (d == SepiaD ==> g.ops[|f.ops|].filter == SepiaTone(ParseFloat(kw["amount"])))
            && (d == HueD ==> g.ops[|f.ops|].filter == HueRotate(ParseFloat(kw["amount"]))))
  {
  }

  /** Every render keeps the caches coherent. */
  lemma {:induction false} ExecuteAllCoherent(f: Frame, c: Cache, lines: seq<String>, env: Env)
    requires Coherent(c)
    ensures Coherent(ExecuteAll(f, c, lines, env).1)
  {
    if lines != [] {
      var (f1, c1) := ExecuteAll(f, c, lines[..|lines| - 1], env);
      ExecuteAllCoherent(f, c, lines[..|lines| - 1], env);
      ExecuteCoherent(f1, c1, lines[|lines| - 1], env);
    }
  }

  lemma ExecuteCoherent(f: Frame, c: Cache, line: String, env: Env)
    requires Coherent(c)
    ensures Coherent(Execute(f, c, line, env).1)
  {
    if !f.stopped && !Skipped(line) {
      var (head, kw) := ArgKwargs(Trim(line));
      var cmd := Command(head);
      DispatchCoherent(f, c, Classify(cmd), cmd, Rest(head), kw, env);
    }
  }

  /** Only an image placement touches the caches, and it keeps them coherent. */
  lemma DispatchCoherent(f: Frame, c: Cache, d: Directive, cmd: String, args: seq<String>,
                         kw: map<String, String>, env: Env)
    requires Coherent(c)
    ensures d != PlaceD ==> Dispatch(f, c, d, cmd, args, kw, env).1 == c
    ensures Coherent(Dispatch(f, c, d, cmd, args, kw, env).1)
  {
    if d == PlaceD {
      var (c1, r) := Resolve(c, ImageKey(cmd, args), env.vault);
      ResolveKeepsCoherent(c, ImageKey(cmd, args), env.vault);
      if r.Some? {
        LoadKeepsCoherent(c1, r.value, env.decoder);
      }
    }
  }

  lemma RenderKeepsCoherent(source: String, env: Env, c: Cache)
    requires Coherent(c)
    ensures Coherent(Render(source, env, c).1)
  {
    ExecuteAllCoherent(Start, c, Lines(source), env);
  }

  /** A subtitle with no title is never drawn. */
  lemma SubtitleAloneNotDrawn(f: Frame, s: Settings)
    requires !Present(f.titleArgs)
    ensures TextOps(f, s) == []
  {
  }

  /** With a title and a subtitle, the title is drawn first, then the
      subtitle, each with its own text and a bold font. */
  lemma TitleThenSubtitle(f: Frame, s: Settings)
    requires Present(f.titleArgs) && Present(f.subtitleArgs)
    ensures var ops := TextOps(f, s);
      && |ops| == 2 && ops[0].DrawText? && ops[1].DrawText?
      && ops[0].text == f.titleArgs[0] && ops[1].text == f.subtitleArgs[0]
      && ops[0].font[..5] == "bold " && ops[1].font[..5] == "bold "
  {
    var p := Layout(s.titleSize, s.subtitleSize, f.titleArgs, true, f.subtitleArgs);
    LayoutBold(s.titleSize, s.subtitleSize, f.titleArgs, true, f.subtitleArgs);
    BoldFont(s, p.td);
    BoldFont(s, p.sd);
  }

  lemma BoldFont(s: Settings, l: TextLayout)
    requires l.bold
    ensures Font(s, l)[..5] == "bold "
  {
    var base := if s.defaultFont != [] then IntToString(l.size) + "px \"" + s.defaultFont + "\", sans-serif"
                else IntToString(l.size) + "px sans-serif";
    assert Font(s, l) == "bold " + base;
  }
}
