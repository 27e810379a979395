# Scene interpreter model

This project models the interpreter behind an Obsidian plugin's `scene` code blocks (`main.js`).
A scene is a few lines of a small language. Each line is one directive:
- `TITLE` / `T` and `SUBTITLE` / `S` set the text drawn at the end.
- `DARK` and `LIGHT` draw a translucent overlay.
- `BLUR`, `BLOOM`, `ZOOM`, `GRAY` / `GRAYSCALE`, `SEPIA`, `INVERT` and `HUE` are post-effects.
- Any other first word places an image from the vault. Modifier words (`<`, `>`, `FLIP`, `+`) position it; the remaining words form its lookup key.

The interpreter does the following:
- It trims the source, splits it into lines on runs of `\r`, `\n` and `&`, and skips blank lines and lines containing `%%`.
- It tokenizes each line into positional arguments and `key:value` options.
- It runs the directives in order against the canvas.
- It draws the title and subtitle last.

The model is a set of modules, one per piece of that interpreter:

- `Text`: JavaScript `trim` (its whitespace set), splitting on separator runs, `join`, and the `%%` test.
- `Numbers`: `parseInt` and `parseFloat`, and the decimal text of an integer. A `None` result stands for `NaN`.
- `Tokenizer`: `getArgKwargs`.
  - A regex-free scanning loop produces quoted, bracketed and plain tokens.
  - A sorting loop sends colon-free tokens to the arguments and `key:value` tokens to a map.
  - Each loop is proved against a recursive specification.
- `Placement`: the default branch.
  - A loop folds the modifiers into an anchor/position/scale record and collects the path segments.
  - The segments are joined with `/`.
  - The module also gives the scene coordinates the image transform produces.
- `TitleLayout`: the title stage.
  - Two loops update the title and subtitle layouts in place.
  - They also keep the `matched` flag and apply the final `+0.1` shift.
- `Zoom`: the ZOOM crop window.
  - The window is `1/zoom` of the scene, centred on the clamped requested point.
  - The module also gives the mapping the redraw applies.
- `Blur`:
  - The BLUR filter string, built by a loop and parsed back.
  - The edge-padded buffer of `drawFiltered`, an `array2` written strip by strip, cropped back after an abstract kernel.
- `Overlay`: the DARK and LIGHT overlay colours and how they composite.
- `ImageCache`: `resolveImagePath` and `loadImage`.
  - A class `ImageStore` holds the three maps plus counters of vault probes and decodes started.
  - Its methods are proved against value-level functions `Resolve` and `Load`.
- `Scene`: the directive dispatch and `drawScene`.
  - The canvas is an ordered log of operations: clear, marker circle, fill, filter, padded filter, image, zoom redraw, text.
  - `Render` is the specification.
  - `DrawScene` is the line loop that updates the store in place.
- `Geometry`, `Sequences` and `Wrappers`: reals, sequence lemmas and `Option`.

Facts scattered through the source are modelled as follows:
- An exception that escapes `drawScene` is a `stopped` flag on the frame. Nothing is drawn after it. This is what happens when an image's decode fails, and what the BLOOM case does.
- The canvas ignores a fill colour whose alpha is `NaN`: the previous fill stays.
- The initial fill is the cyan of the marker circle.

## Model

| member | source | states |
|---|---|---|
| Text.Trim | main.js:228 | definition; `String.prototype.trim`, characterised by `Text.TrimIsSlice` and `Text.TrimEmptyIffAllSpace` |
| Text.Join | main.js:383 | definition; `Array.prototype.join`, undone by `Text.SplitLines` in `Text.SplitJoin` |
| Text.HasComment | main.js:233 | definition; `line.includes("%%")`; such lines are skipped, see `Scene.OnlyDirectivesCount` |
| Text.TrimStart | main.js:228 | drops exactly a leading run of JavaScript whitespace: the result is a suffix of the input, what was cut is all whitespace, and the result does not start with whitespace |
| Text.TrimEnd | main.js:228 | drops exactly a trailing run of whitespace: the result is a prefix, what was cut is whitespace, and the result does not end with whitespace |
| Text.TrimIsSlice | main.js:228 | `trim` returns a slice `s[i..j]` with whitespace on both sides cut and no whitespace at either end of the result |
| Text.TrimEmptyIffAllSpace | main.js:233 | a line is blank after trimming exactly when every character is whitespace |
| Text.TrimEndKeepsFirst | main.js:228 | a text starting with a non-space character does not trim to empty |
| Text.FindSep | main.js:228 | the position of the first `\r`, `\n` or `&`, with none before it |
| Text.SepRun | main.js:228 | the length of the run of separators at the front, and the run is maximal |
| Text.SplitLines | main.js:228 | splitting on separator runs gives at least one line, and no line contains a separator; `Text.SplitRun` says how a run breaks the text |
| Text.SplitJoin | main.js:228 | lines that are non-empty and separator-free, joined by any one separator, split back into the same lines |
| Text.SplitRun | main.js:228 | a run of separators of any length, such as `\r\n`, makes exactly one break: the piece before it is a line and splitting resumes after the whole run |
| Text.FindSepAt | main.js:228 | the first separator is the one with none before it |
| Text.SepRunAt | main.js:228 | the leading run ends at the first character that is not a separator |
| Text.JoinHead | main.js:383 | a join whose first part is non-empty starts with that part's first character |
| Numbers.ParseInt | main.js:258 | definition; `parseInt` without a radix; it inverts the integer's text by `Numbers.ParseIntOfText` |
| Numbers.ParseFloat | main.js:250 | definition; `parseFloat` on decimal text; it inverts the integer's text by `Numbers.ParseFloatOfText`, and `Numbers.ParseFloatNaN` gives its NaN case |
| Numbers.DigitValue | main.js:258 | a hex digit's value is below 16, and a decimal digit's below 10 |
| Numbers.DigitChar | main.js:259 | the digit character for a value below 10 reads back as that value |
| Numbers.DigitRun | main.js:258 | the longest prefix of radix digits: all of it is digits and the next character is not |
| Numbers.NatToString | main.js:259 | the decimal text of a number is non-empty, consists of digits, and has no leading zero |
| Numbers.Pow10 | main.js:250 | a power of ten is at least 1 |
| Numbers.DigitsOfNat | main.js:259 | the digits of a number's text have that number as their value |
| Numbers.IntTextShape | main.js:259 | an integer's text has no leading whitespace; it is `-` then the magnitude's digits for a negative number, and the digits otherwise |
| Numbers.DigitRunOfDigits | main.js:258 | a text made only of digits is read to its end |
| Numbers.ParseDigitsOfNat | main.js:258 | the digit reader gives back the number whose decimal text it reads |
| Numbers.ParseDecimalOfNat | main.js:250 | the decimal reader gives back, as a real, the number whose text it reads |
| Numbers.SignOfText | main.js:258 | an integer's text splits into its sign and the decimal text of its magnitude |
| Numbers.ParseIntOfText | main.js:258-259 | `parseInt` of an integer's text gives that integer back |
| Numbers.ParseFloatOfText | main.js:250 | `parseFloat` of an integer's text gives that integer back as a real |
| Numbers.ParseFloatNaN | main.js:299 | `parseFloat` is NaN for a text whose first non-space character is not a digit, a sign or a dot |
| Tokenizer.ArgKwargs | main.js:91-111 | definition; `getArgKwargs` as a value, computed by `Tokenizer.GetArgKwargs` |
| Tokenizer.ArgsOf | main.js:102-109 | definition; the positional arguments; `Tokenizer.ArgsOfIsFilter` proves them the colon-free tokens in order |
| Tokenizer.KwargsOf | main.js:102-109 | definition; the options; `Tokenizer.KwargsDomain` and `Tokenizer.KwargsLastWins` give their keys and values |
| Tokenizer.Find | main.js:104 | the position of the first occurrence of a character, with none before it |
| Tokenizer.FindSpace | main.js:92 | the position of the first whitespace character, with none before it |
| Tokenizer.TokenAt | main.js:92-100 | the token at a non-space position is non-empty and advances the scan by at least one character |
| Tokenizer.Tokens | main.js:92-101 | the token sequence of a line, in order; no token is empty |
| Tokenizer.GetArgKwargs | main.js:91-111 | `getArgKwargs` returns exactly the positional arguments and the options of the line's tokens |
| Tokenizer.ScanTokens | main.js:96-101 | the `regex.exec` loop collects exactly the line's token sequence |
| Tokenizer.ScanStep | main.js:97-100 | one step of the scan either skips whitespace or takes one token, moves forward, and what it takes starts the rest of the token sequence |
| Tokenizer.SortTokens | main.js:102-109 | the sorting loop produces exactly `ArgsOf` and `KwargsOf` of the tokens |
| Tokenizer.SkipSpaces | main.js:92 | a run of whitespace before a text adds no token |
| Tokenizer.QuotedToken | main.js:92-98 | a non-empty `"…"` run yields its inner text without the quotes, spaces and all |
| Tokenizer.BracketToken | main.js:92-99 | a non-empty `[…]` run yields itself with the brackets kept |
| Tokenizer.WordToken | main.js:92-100 | a plain word followed by whitespace or the end is one token |
| Tokenizer.TokensOfWords | main.js:92-101 | plain words joined by single spaces tokenize back to the same words |
| Tokenizer.WordThenSpace | main.js:92-101 | a word, a space, then anything: the word is the first token |
| Tokenizer.KeyValueSplit | main.js:103-105 | `key:value` is an option token whose key is the text before the colon and whose value is the text after it |
| Tokenizer.SecondColonDropsTail | main.js:104 | with a second colon, the value stops at it and the rest is lost |
| Tokenizer.ArgsAreColonFree | main.js:102-109 | no argument has a colon, every colon-free token is an argument, and arguments plus option tokens account for every token |
| Tokenizer.ColonFreeAppend | main.js:102-109 | the colon-free filter and the colon filter grow by the new token when it is of their kind |
| Tokenizer.ArgsOfIsFilter | main.js:106-107 | the arguments are exactly the colon-free tokens in their original order |
| Tokenizer.KwargsDomain | main.js:103-105 | a key is in the options exactly when it is non-empty and some token sets it |
| Tokenizer.KwargsLastWins | main.js:105 | a key's value is the one from the last token that sets it |
| Tokenizer.KwargsKeysWellFormed | main.js:104-105 | no option key is empty or contains a colon |
| Tokenizer.NoColonNoOptions | main.js:102-109 | tokens without colons are all arguments, in order, and give no options |
| Tokenizer.OptionBetweenArgs | main.js:91-111 | `a key:value b` gives arguments `[a, b]` and the single option `key → value`, as in `BLUR pixels:12 DARK` |
| Tokenizer.WordThenQuoted | main.js:92-101 | a word, a space, then a quoted run: the word and the quoted text are the next two tokens |
| Tokenizer.QuotedLineTokens | main.js:92-101 | `w "text with spaces" m` tokenizes into three tokens, the quoted text being one |
| Tokenizer.QuotedTextLine | main.js:91-111 | such a line gives the three tokens as arguments and no options |
| Placement.Apply | main.js:357-381 | definition; one argument of the placement loop, with its meaning in `Placement.LastLeft`, `LastRight`, `LastFlip` and `LastCentre` |
| Placement.Fold | main.js:351-382 | definition; the placement loop as a fold, computed by `Placement.Place` and split by `Placement.FoldAppend` |
| Placement.ImageKey | main.js:356-383 | definition; the `/`-joined path, characterised by `Placement.KeySegments` |
| Placement.Place | main.js:351-383 | the placement loop ends with the fold of the modifiers from the default record, and with the key made from the command and the non-modifier arguments joined by `/` |
| Placement.FoldAppend | main.js:357-382 | folding two runs of arguments is folding the first, then the second |
| Placement.SegmentsAreInert | main.js:378-380 | path segments do not change the record: the fold over all arguments equals the fold over the modifiers alone |
| Placement.NoModifierNoChange | main.js:357-382 | arguments without modifiers leave the record as it was |
| Placement.SegmentsPartition | main.js:357-382 | every argument goes either to the path or to the modifiers, never both: no segment is a modifier, every modifier is one, and together they are a permutation of the arguments |
| Placement.SegmentsNotModifiers | main.js:378-380 | no path segment is a modifier |
| Placement.ModifiersAreModifiers | main.js:359-377 | every collected modifier is one of `<`, `>`, `FLIP`, `+` |
| Placement.PartitionCount | main.js:357-382 | segments and modifiers together are a permutation of the arguments |
| Placement.FoldKeepsShape | main.js:351-377 | from the default record, scale.y stays 1, scale.x stays ±1, and anchor and position take only the values the modifiers write |
| Placement.LastLeft | main.js:359-362 | after a last `<`, at the end of any arguments, anchor.x = pos.x = 0, and anchor.y, pos.y and the whole scale are what they were before the `<` |
| Placement.LastRight | main.js:363-367 | after a last `>`, at the end of any arguments, anchor.x = 0, pos.x = 1 and scale.x = −1, and anchor.y, pos.y and scale.y are what they were before the `>` |
| Placement.LastCentre | main.js:372-377 | after a last `+`, anchor and position are (0.5, 0.5) and the scale is unchanged |
| Placement.LastFlip | main.js:368-371 | after a last `FLIP`, at the end of any arguments, the anchor is on the image's right edge, the horizontal scale found is negated, and the rest of the record is as it was |
| Placement.DoubleFlip | main.js:368-371 | two `FLIP`s restore the scale and leave anchor.x at 1 |
| Placement.AnchorLandsOnPos | main.js:149-151 | the image's anchor point is drawn at the scene position `pos` |
| Placement.DefaultPlacement | main.js:351-355 | with no modifier, the image is centred horizontally and stands on the bottom edge |
| Placement.LeftPlacement | main.js:359-362 | `<` puts the image against the left edge |
| Placement.RightPlacement | main.js:363-367 | `>` mirrors the image and puts it against the right edge |
| Placement.FlipPlacement | main.js:368-371 | `FLIP` alone mirrors the image and puts it just right of the centre line: its columns span W/2 to W/2 + w |
| Placement.LeftFlipPlacement | main.js:359-371 | `< FLIP` mirrors the image in place against the left edge |
| Placement.RightFlipPlacement | main.js:363-371 | `> FLIP` unmirrors the image and puts it against the right edge |
| Placement.CentrePlacement | main.js:372-377 | `+` centres the image on the scene both ways |
| Placement.KeySegments | main.js:356-383 | the key is the command and the segments joined with `/`, no segment is a modifier, and without modifiers the segments are all the arguments |
| Placement.NoModifierSegments | main.js:378-380 | without modifiers every argument is a path segment, in order |
| TitleLayout.Layout | main.js:389-415 | definition; the title stage's layouts, computed by `TitleLayout.ResolveLayout` and characterised by `TitleLayout.TitleFoldCoupled`, `SubtitleBelowTitle` and `BottomTitle` |
| TitleLayout.ResolveLayout | main.js:388-415 | the two layout loops and the `matched` shift end with exactly the layouts `Layout` specifies |
| TitleLayout.TitleFoldCoupled | main.js:389-404 | during the title loop, title and subtitle share column and alignment, stay bold and keep their sizes, and their rows are one of the four pairs the modifiers write |
| TitleLayout.DefaultLayout | main.js:389-415 | without modifiers, the title is centred at y 0.5 and a subtitle is at y 0.6; without a subtitle the title layout is the initial one |
| TitleLayout.TitleFoldInert | main.js:392-404 | title arguments that are not modifiers change nothing |
| TitleLayout.SubFoldInert | main.js:407-414 | subtitle arguments that are not modifiers change nothing |
| TitleLayout.MatchedIff | main.js:391-414 | `matched` survives the subtitle loop exactly when the subtitle has no modifier |
| TitleLayout.SubFollowsTitleColumn | main.js:409-410 | without `<` or `>` of its own, the subtitle keeps its column and alignment |
| TitleLayout.SubtitleSharesColumn | main.js:394-410 | without `<` or `>` of its own, the subtitle has the title's column and alignment |
| TitleLayout.SubtitleBelowTitle | main.js:396-415 | without modifiers of its own, the subtitle is below the title, on the scene, with the same baseline |
| TitleLayout.BottomTitle | main.js:397-401 | `v` with a subtitle puts the title at 0.9 and the subtitle at 0.95 after the shift; without a subtitle the title is at 0.95 |
| TitleLayout.TitleTextActsAsModifier | main.js:239-240 | a title whose text is `<` is itself read as a modifier and moves the title left |
| TitleLayout.TitleColumnLastWins | main.js:394-395 | the last `<` or `>` among the title arguments decides the title column |
| TitleLayout.TitleFoldAppend | main.js:392-404 | the title loop over two runs is the loop over the first, then the second |
| TitleLayout.TitleColumnKept | main.js:396-402 | arguments without `<` or `>` keep the title column |
| TitleLayout.SubFoldKeepsBold | main.js:407-414 | the subtitle loop keeps the bold flag and the size |
| TitleLayout.LayoutBold | main.js:389-390 | both texts are bold and have the configured sizes |
| Zoom.Window | main.js:298-309 | definition; the ZOOM view; `Zoom.WindowInsideScene` and `Zoom.WindowFillsCanvas` give its meaning |
| Zoom.Centre | main.js:305-307 | definition; the clamped window centre; `Zoom.CentreIsRequestedPoint` and `Zoom.ZoomOutPinsStart` give its meaning |
| Geometry.Clamp | main.js:305 | definition; `Math.max(min, Math.min(max, v))`, as used by `Zoom.Centre` |
| Zoom.WindowInsideScene | main.js:302-309 | for zoom ≥ 1 the window of width W/zoom centred at the clamped point lies inside the scene |
| Zoom.CentreIsRequestedPoint | main.js:306-307 | a requested point far enough from the edges is the window centre itself |
| Zoom.ZoomOutPinsStart | main.js:305-309 | for 0 < zoom < 1 the window starts at 0, i.e. the centre is the lower bound sw/2 |
| Zoom.WindowFillsCanvas | main.js:319-332 | the redraw maps the window's edges onto the canvas edges |
| Zoom.UnitZoomIsIdentity | main.js:302-332 | zoom 1 without rotation redraws every point where it was, so the centre is (W/2, H/2) |
| Zoom.DefaultZoomExample | main.js:298-307 | the default ZOOM on 1920×1080 centres the window at (960, 540) |
| Zoom.LeftEdgeZoomExample | main.js:298-307 | `xpos:0` with zoom 2 on 1920 clamps the centre to 480 |
| Blur.BlurFilter | main.js:258-269 | definition; the BLUR filter text, built by `Blur.BuildBlurFilter` and read back by `Blur.BlurFilterRoundTrip` |
| Blur.Suffixes | main.js:260-269 | definition; the effect suffixes, built by `Blur.AppendSuffixes` and read back by `Blur.SuffixesRoundTrip` |
| Blur.BuildBlurFilter | main.js:258-269 | the string-building loop produces `blur(Npx)` followed by the suffixes of the arguments |
| Blur.AppendSuffixes | main.js:260-269 | the loop appends the suffixes of the arguments, in order, to the head |
| Blur.SuffixesAppend | main.js:260-269 | the suffixes of two runs of arguments are the suffixes of the first followed by those of the second |
| Blur.EffectsAppend | main.js:260-269 | the recognised effects of two runs of arguments are those of the first followed by those of the second |
| Blur.ParseOne | main.js:262-267 | each effect's suffix reads back as that effect in front of the rest |
| Blur.SuffixesRoundTrip | main.js:260-269 | the suffix string reads back as exactly the recognised keywords, in argument order |
| Blur.IgnoredArguments | main.js:261-268 | an argument that is not an effect keyword adds nothing to the filter |
| Blur.BlurFilterRoundTrip | main.js:258-269 | the filter reads back as `blur(`, the pixel count, `px)`, and the effects of the arguments in order |
| Blur.BlurFilterExample | main.js:262-267 | `DARK x SAT` gives ` brightness(0.5) saturate(1.5)` |
| Blur.PadSpec | main.js:193-204 | the padded buffer is (H+2p)×(W+2p) |
| Blur.Crop | main.js:210 | the crop is H×W |
| Blur.Pad | main.js:193-204 | the buffer written strip by strip holds, at every pixel, the image at offset (p, p), the nearest edge line in each strip, and empty corners |
| Blur.Snapshot | main.js:206-207 | the buffer read out as a grid of the same size and pixels |
| Blur.DrawPadded | main.js:193-210 | a positive radius pads, runs the filter over the padded buffer, and crops back at (p, p) |
| Blur.PadStrips | main.js:199-204 | the left, right, top and bottom strips repeat column 0, column W−1, row 0 and row H−1, and the corners stay empty |
| Blur.PadThenCrop | main.js:199-210 | cropping the padded buffer at (p, p) with no filter gives the original image back |
| Overlay.DarkFill | main.js:249-251 | definition; the DARK colour; see `Overlay.DarkNeverLightens` and `Overlay.DarkOpacity` |
| Overlay.LightFillAsWritten | main.js:253-255 | definition; LIGHT as written; see `Overlay.LightAsWrittenNeverLightens` |
| Overlay.LightFill | main.js:253-255 | definition; LIGHT as evidently intended; see `Overlay.LightNeverDarkens` |
| Overlay.Tint | main.js:250-254 | an overlay with a numeric amount is grey at the given level; its alpha is the amount when that lies in [0, 1], 0 below and 1 above; a `NaN` amount keeps the current fill |
| Overlay.OverBetween | main.js:251-255 | a composite channel lies between the background and the overlay's level, and equals them at alpha 0 and 1 |
| Overlay.DarkNeverLightens | main.js:249-251 | DARK never makes a channel brighter |
| Overlay.DarkOpacity | main.js:249-251 | DARK at opacity v in [0, 1] keeps the fraction 1 - v of every channel |
| Overlay.LightAsWrittenNeverLightens | main.js:253-255 | LIGHT as written never brightens a channel of value at least 1: it darkens |
| Overlay.LightAsWrittenExample | main.js:253-255 | LIGHT as written, at the default amount, takes a channel of 128 down to 64.5 |
| Overlay.LightNeverDarkens | main.js:253-255 | LIGHT with a white overlay never makes a channel darker |
| ImageCache.ProbeFrom | main.js:118-127 | definition; the extension probe; `ImageCache.ProbeFirstHit` gives the path found and the lookups made |
| ImageCache.Resolve | main.js:115-128 | definition; `resolveImagePath` as a value, computed by `ImageStore.ResolveImagePath`; see `ResolveTwice`, `MissIsNotCached` and `HitIsCached` |
| ImageCache.Load | main.js:130-141 | definition; `loadImage` as a value, computed by `ImageStore.LoadImage`; see `LoadedOnce` and `LoadKeepsCoherent` |
| ImageCache.ImageStore.constructor | main.js:16-17 | a new store has empty caches and zero counters |
| ImageCache.ImageStore.ResolveImagePath | main.js:115-128 | the method updates the caches and answers exactly as `Resolve` specifies |
| ImageCache.ImageStore.LoadImage | main.js:130-141 | the method updates the caches and answers exactly as `Load` specifies |
| ImageCache.ProbeFirstHit | main.js:118-127 | probing finds nothing exactly when no candidate exists; otherwise it returns the first existing candidate in `.webp`, `.png`, `.jpg`, `.jpeg` order, with a lookup for each candidate up to it |
| ImageCache.WebpFirst | main.js:113-124 | when `gfx/<id>.webp` exists it is returned after one lookup |
| ImageCache.ResolveTwice | main.js:115-128 | once an id has resolved to a path, resolving it again, whatever the vault holds by then, gives the same path with no lookup and no change to the caches |
| ImageCache.MissIsNotCached | main.js:118-127 | a miss records no path, only the four lookups |
| ImageCache.MissIsRetried | main.js:116-127 | after a miss, a later call probes again and finds a file that has appeared |
| ImageCache.HitIsCached | main.js:121-124 | a hit is an existing candidate path of the id, and it is cached under the id |
| ImageCache.LoadedOnce | main.js:131-139 | a second load of a path starts no decode and returns the same handle, so each path is decoded at most once |
| ImageCache.FailedDecodeIsNotRetried | main.js:132-139 | a failed decode records no size, and its handle stays cached, so later loads return the same failure |
| ImageCache.ResolveExtends | main.js:115-128 | resolution never removes or changes a cache entry or lowers a counter |
| ImageCache.LoadExtends | main.js:130-141 | loading never removes or changes a cache entry or lowers a counter |
| ImageCache.ResolveKeepsCoherent | main.js:115-128 | resolution keeps every cached path a candidate of its id |
| ImageCache.LoadKeepsCoherent | main.js:130-141 | loading keeps one decode per stored handle and keeps sizes and handles in agreement; the handle returned is the path's, with a size recorded exactly when it decoded |
| ImageCache.StoreHandle | main.js:136-139 | storing a new handle, and its size when decoded, keeps the caches in agreement |
| Scene.Skipped | main.js:233 | definition; the skip test; `Text.TrimEmptyIffAllSpace` and `Scene.OnlyDirectivesCount` give its meaning |
| Scene.Classify | main.js:236-350 | definition; the `switch` labels; `Scene.PlaceIffNotKeyword` ties it to the keyword set |
| Scene.FloatParam | main.js:250 | definition; `parseFloat(kwargs?.key ?? default)` |
| Scene.IntParam | main.js:258 | definition; `parseInt(kwargs?.key ?? default)` |
| Scene.Filtered | main.js:189-217 | definition; `drawFiltered` as operations; see `Scene.FilteredNoText` and, for the padded case, `Blur.DrawPadded` |
| Scene.ZoomViewOf | main.js:298-309 | definition; the ZOOM view of a line's options; see `Scene.NonNumericDegreesIgnored` |
| Scene.PlaceImage | main.js:350-385 | definition; the `default` branch with `drawImage` (main.js:143-152), computed by `Scene.PlaceLine`; see `Scene.PlaceImageGrows` |
| Scene.Dispatch | main.js:236-386 | definition; the `switch`, computed by `Scene.DispatchLine`; see `DispatchGrows`, `DispatchCoherent` and `CanvasFilters` |
| Scene.Execute | main.js:233-386 | definition; one line of the loop, computed by `Scene.ExecuteLine`; see `ExecuteGrows` and `ExecuteCoherent` |
| Scene.ExecuteAll | main.js:232-387 | definition; the line loop; see `ExecuteAllAppend`, `LastTitleWins` and `LastSubtitleWins` |
| Scene.Font | main.js:158-162 | definition; the canvas font `drawText` sets; see `Scene.BoldFont` |
| Scene.TextOps | main.js:388-423 | definition; the title stage, computed by `Scene.DrawTitles`; see `TitleThenSubtitle` and `NoTitleNoText` |
| Scene.Render | main.js:219-424 | definition; `drawScene`, computed by `Scene.DrawScene`; see `TextDrawnLast`, `EmptySceneRender` and `RenderKeepsCoherent` |
| Scene.ExecuteLine | main.js:233-235 | one turn of the line loop changes the frame and the store exactly as `Execute` specifies |
| Scene.DispatchLine | main.js:236-386 | the switch changes the frame and the store exactly as `Dispatch` specifies for the line's directive, with LIGHT in the corrected white of the LIGHT finding |
| Scene.PlaceLine | main.js:350-385 | the default branch changes the frame and the store exactly as `PlaceImage` specifies |
| Scene.DrawTitles | main.js:388-423 | the title stage draws exactly `TextOps` |
| Scene.DrawScene | main.js:219-424 | the whole render draws exactly the operations, and leaves the caches exactly as `Render` specifies, with LIGHT in the corrected white of the LIGHT finding |
| Scene.ExecuteAllAppend | main.js:232 | running two runs of lines is running the first, then the second from where it stopped |
| Scene.StoppedFinish | main.js:232 | once a render has stopped, the remaining lines change nothing |
| Scene.StoppedStays | main.js:232 | a stopped frame stays as it is whatever lines follow |
| Scene.OnlyDirectivesCount | main.js:232-233 | a render runs only the lines that are not skipped, in source order |
| Scene.EmptySceneRender | main.js:220-233 | a scene with only skipped lines draws just the clear and the marker circle, and leaves the caches alone |
| Scene.NoDirectives | main.js:233 | only skipped lines leave no directive |
| Scene.PlaceIffNotKeyword | main.js:236-350 | a line places an image exactly when its first word is not a keyword |
| Scene.AppendGrows | main.js:232-387 | appending operations without text grows the frame |
| Scene.GrowsTrans | main.js:232-387 | growth composes |
| Scene.PlaceImageGrows | main.js:350-385 | placing an image only appends operations, none of them text, and leaves the title and subtitle alone |
| Scene.DispatchGrows | main.js:236-386 | every directive only appends operations, none of them text; TITLE sets the title arguments and SUBTITLE the subtitle arguments, and every other directive keeps each of them |
| Scene.DispatchTail | main.js:237-349 | every directive other than a placement appends its own operations, none of them text, and nothing else of the log changes |
| Scene.FilteredNoText | main.js:189-217 | `drawFiltered` draws no text |
| Scene.ExecuteGrows | main.js:232-387 | a line only appends operations, none of them text; a title line that runs sets the title arguments and a subtitle line the subtitle arguments, and any other line keeps each of them |
| Scene.ExecuteAllGrows | main.js:232-387 | the line loop only appends operations, none of them text |
| Scene.TextDrawnLast | main.js:232-423 | in a render, no operation other than text follows a text |
| Scene.FinishTextLast | main.js:388-423 | drawing text after operations without text keeps text last |
| Scene.TextOpsAreText | main.js:388-423 | the title stage draws only text |
| Scene.GrowsNoText | main.js:232-387 | growing a frame without text keeps it without text |
| Scene.TextAfter | main.js:388-423 | operations without text followed by only text have text last |
| Scene.LastTitleWins | main.js:237-242 | when no later line is a title line, the last title line decides the title arguments |
| Scene.LastSubtitleWins | main.js:243-248 | when no later line is a subtitle line, the last subtitle line decides the subtitle arguments |
| Scene.NoTitleKeepsTitle | main.js:237-242 | lines without a title line never set the title arguments |
| Scene.NoTitleFrame | main.js:232-387 | lines without a title line draw no text and leave the title unset |
| Scene.NoTitleNoText | main.js:388-422 | a scene without a title line draws no text at all, whatever its subtitle lines |
| Scene.FinishNoText | main.js:388-422 | without a title the title stage draws nothing |
| Scene.ExecuteAllCoherent | main.js:232-387 | the line loop keeps the caches coherent |
| Scene.ExecuteCoherent | main.js:232-387 | a line keeps the caches coherent |
| Scene.DispatchCoherent | main.js:236-386 | only a placement touches the caches, and every directive keeps them coherent |
| Scene.NonNumericDegreesIgnored | main.js:298-325 | a ZOOM line whose `degrees` text `parseFloat` reads as NaN draws exactly what the same line without `degrees` draws, because `rotate(NaN)` is ignored and the zoom still happens |
| Scene.NonNumericDegreesView | main.js:298-325 | a `degrees` option that `parseFloat` reads as NaN gives the same view as no `degrees` option |
| Scene.ZoomBySameView | main.js:298-325 | two ZOOM lines whose options give the same view draw the same thing |
| Scene.OtherOptionKept | main.js:298-301 | setting or removing one option leaves the reading of every other option as it was |
| Scene.CanvasFilters | main.js:337-349 | GRAY, SEPIA, INVERT and HUE set their filter on the canvas and redraw it, never padded; the amount is read by `parseFloat` with 100, 100 and 90 as defaults, and nothing else changes |
| Scene.RenderKeepsCoherent | main.js:219-424 | a render keeps the caches coherent |
| Scene.TitleThenSubtitle | main.js:406-417 | with a title and a subtitle, exactly two bold texts are drawn: the title's, then the subtitle's |
| Scene.BoldFont | main.js:158-162 | a bold layout's font starts with `bold ` |

## Left out

- Plugin and DOM glue (main.js:11-45, 50-89, 426-514) is not modelled: tag registration, container styling, the settings tab and persistence, display scaling and unload. The settings are a parameter, `Scene.Settings`, whose defaults are main.js:3-9.
- Raster work is not modelled; the canvas is an ordered log of operations. The text stroke, gradient and shadow, the transform matrices, alpha and `lighter` compositing, and the filter kernels are left out. `Blur.DrawPadded` takes the kernel as an abstract function.
- Floating point: numbers are mathematical reals and integers. NaN is `None`; Infinity and rounding are not modelled. On the output side, `Numbers.NumberText` writes plain decimal digits, so it does not produce the exponent form (`1e+21`) that `blur(${pixels}px)` prints for integers of 10^21 or more. `parseFloat` reads `[+-]digits[.digits][e[+-]digits]`. `parseInt` reads an optional sign, then `0x` hex or decimal digits.
- Asynchrony and concurrency: resolution and loading run sequentially. A decode is an abstract function of the path giving a size or a failure. The promise that `loadImage` caches is modelled as the handle stored before decoding.
- ImageCache.HitIsCached: the file's own `path` (main.js:123-124) is taken to be the candidate path probed.
- Scene.Dispatch, Scene.DispatchLine, Scene.DispatchTail and Scene.DrawScene: LIGHT fills in the corrected white `rgba(255, 255, 255, amount)`, not the `rgba(1, 1, 1, amount)` of main.js:254 (see Findings). The as-written colour is `Overlay.LightFillAsWritten`, so the render here lightens where the source darkens.
- Zoom.Window: a zoom or position that is not a number, or a zoom of 0, gives no view (`None`). The canvas would apply the parts of such a transform that are finite numbers; the model does not follow that.
- `kwargs` is modelled as a map from strings to strings. The special behaviour of JavaScript object keys such as `__proto__` is left out.
- ROTATE (main.js:280-296) is commented out in the source and is not modelled.
- BLOOM: the `alpha` option and the `lighter` composite at main.js:273-276 show an additive bloom was meant, but the code never reaches them. It calls `drawFiltered` unpadded (pixels 0), gets `undefined` back, and then hits the `temp` binding of the ZOOM case before its initialisation, which throws. The model draws the unpadded blur and stops the render. The alpha parameter and the additive composite are therefore never reached and are not modelled.
- The subtitle-only branch (main.js:421-422) passes no position, so `drawText` throws before drawing anything. The model draws no text there (`Scene.NoTitleNoText`).
- The canvas ignores a `textBaseline` of `"center"`, which is not a canvas value. The model keeps the value the source writes.
- The `italic` flag (main.js:163) is never set by any caller and is not modelled.
- Blur.Pad, Blur.DrawPadded, Blur.PadStrips, Blur.PadSpec and Blur.PadThenCrop require a non-empty image (W, H ≥ 1); with an empty scene the canvas calls they model would throw.
- The padding strips of `drawFiltered` each repeat the nearest edge line of the scene (main.js:199-202), as `Blur.PadStrips` states.
- The filter text is recorded as written, including `blur(NaNpx)`. A text the canvas would reject is not modelled as such.
- A line with only `key:value` tokens has an empty command. It places the image with key `""`, without a special case.

## Findings

| source | as written | input that shows it | evidently intended | confidence | as-written member | corrected member |
|---|---|---|---|---|---|---|
| main.js:254 | LIGHT fills with `rgba(1, 1, 1, amount)`, a colour that is all but black, so the overlay darkens the scene like DARK | `LIGHT` over a channel of 128 with the default amount gives 64.5 | a white overlay `rgba(255, 255, 255, amount)` that lightens the scene | not executed | Overlay.LightAsWrittenNeverLightens | Overlay.LightNeverDarkens |
