/** `getArgKwargs`: one directive line becomes positional arguments and a
    `key:value` option map. The token scan is the global regular expression
    `"([^"]+)"|\[([^\]]+)\]|(\S+)` run to exhaustion. */
module Tokenizer {
  import opened Text
  import opened Sequences

  /** Index of the first `c` in `s`, or `|s|` when there is none. */
  function Find(s: String, c: char): (i: nat)
    ensures i <= |s| && (i < |s| ==> s[i] == c)
    ensures forall k :: 0 <= k < i ==> s[k] != c
  {
    if s == [] || s[0] == c then 0 else 1 + Find(s[1..], c)
  }

  /** Index of the first whitespace character, or `|s|`. */
  function FindSpace(s: String): (i: nat)
    ensures i <= |s| && (i < |s| ==> IsSpace(s[i]))
    ensures forall k :: 0 <= k < i ==> !IsSpace(s[k])
  {
    if s == [] || IsSpace(s[0]) then 0 else 1 + FindSpace(s[1..])
  }

  /** One regular-expression match: the token's text and how many characters
      of the input it consumed. */
  datatype Lexeme = Lexeme(text: String, len: nat)

  /** The match that starts at `s[0]`, a non-whitespace character. The
      alternatives are tried in order: a quoted run with at least one
      character inside (quotes dropped), a bracketed run with at least one
      character inside (brackets kept), else the maximal non-whitespace run. */
  function TokenAt(s: String): (l: Lexeme)
    requires s != [] && !IsSpace(s[0])
    ensures 0 < l.len <= |s| && l.text != []
  {
    var q := 1 + Find(s[1..], '"');
    var b := 1 + Find(s[1..], ']');
    if s[0] == '"' && 1 < q < |s| then Lexeme(s[1..q], q + 1)
    else if s[0] == '[' && 1 < b < |s| then Lexeme(s[..b + 1], b + 1)
    else Lexeme(s[..FindSpace(s)], FindSpace(s))
  }

  /** Every match of the scan, left to right; whitespace between matches is
      skipped because no alternative can start with it. */
  function Tokens(s: String): (r: seq<String>)
    decreases |s|
    ensures forall k :: 0 <= k < |r| ==> r[k] != []
  {
    if s == [] then []
    else if IsSpace(s[0]) then Tokens(s[1..])
    else
      var l := TokenAt(s);
      [l.text] + Tokens(s[l.len..])
  }

  predicate HasColon(t: String) { ':' in t }

  /** `t.split(":")[0]`: the text before the first colon. */
  function KeyOf(t: String): String {
    t[..Find(t, ':')]
  }

  /** `t.split(":")[1]`: the text between the first colon and the second
      (or the end); anything after a second colon is lost. */
  function ValueOf(t: String): String
    requires HasColon(t)
  {
    var rest := t[Find(t, ':') + 1..];
    rest[..Find(rest, ':')]
  }

  /** The positional arguments: the tokens without a colon, in order. */
  function ArgsOf(tokens: seq<String>): (r: seq<String>)
  {
    if tokens == [] then []
    else
      var last := tokens[|tokens| - 1];
      ArgsOf(tokens[..|tokens| - 1]) + (if HasColon(last) then [] else [last])
  }

  /** The option map: every token with a colon and a non-empty key, a later
      one overwriting an earlier one with the same key. */
  function KwargsOf(tokens: seq<String>): map<String, String>
  {
    if tokens == [] then map[]
    else
      var m := KwargsOf(tokens[..|tokens| - 1]);
      var last := tokens[|tokens| - 1];
      if HasColon(last) && KeyOf(last) != [] then m[KeyOf(last) := ValueOf(last)] else m
  }

  /** The specification of `getArgKwargs`. */
  function ArgKwargs(line: String): (seq<String>, map<String, String>)
  {
    (ArgsOf(Tokens(line)), KwargsOf(Tokens(line)))
  }

  /** The tokenizer as the source runs it: a scan loop that pushes tokens,
      then a loop that sorts each token into the arguments or the options. */
  method GetArgKwargs(line: String) returns (args: seq<String>, kwargs: map<String, String>)
    ensures (args, kwargs) == ArgKwargs(line)
  {
    var tokens := ScanTokens(line);
    args, kwargs := SortTokens(tokens);
  }

  /** The scan loop: each pass either skips a whitespace character or takes
      the match that starts where it stands. */
  method ScanTokens(line: String) returns (tokens: seq<String>)
    ensures tokens == Tokens(line)
  {
    tokens := [];
    var i := 0;
    while i < |line|
      invariant 0 <= i <= |line|
      invariant tokens + Tokens(line[i..]) == Tokens(line)
    {
      var len, found := ScanStep(line, i);
      ConcatAssoc(tokens, found, Tokens(line[i + len..]));
      tokens := tokens + found;
      i := i + len;
    }
    TakeEnds(tokens);
  }

  /** One pass of the scan at `line[i]`: how far it moves and the token it
      takes, if any (none for whitespace). */
  method ScanStep(line: String, i: nat) returns (len: nat, found: seq<String>)
    requires i < |line|
    ensures 0 < len <= |line| - i
    ensures Tokens(line[i..]) == found + Tokens(line[i + len..])
  {
    var rest := line[i..];
    if IsSpace(line[i]) {
      len, found := 1, [];
      assert Tokens(line[i..]) == found + Tokens(line[i + len..]) by {
        TokensSkip(rest);
        SliceOfSuffix(line, i, 1);
      }
    } else {
      var l := TokenAt(rest);
      len, found := l.len, [l.text];
      assert Tokens(line[i..]) == found + Tokens(line[i + len..]) by {
        TokensTake(rest);
        SliceOfSuffix(line, i, l.len);
      }
    }
  }

  /** The sorting loop over the tokens. */
  method SortTokens(tokens: seq<String>) returns (args: seq<String>, kwargs: map<String, String>)
    ensures args == ArgsOf(tokens) && kwargs == KwargsOf(tokens)
  {
    args, kwargs := [], map[];
    TakeEnds(tokens);
    for k := 0 to |tokens|
      invariant args == ArgsOf(tokens[..k]) && kwargs == KwargsOf(tokens[..k])
    {
      var pair := tokens[k];
      TakeSnoc(tokens, k);
      SortAppend(tokens[..k], pair);
      if HasColon(pair) {
        var key := KeyOf(pair);
        if key != [] {
          kwargs := kwargs[key := ValueOf(pair)];
        }
      } else {
        args := args + [pair];
      }
    }
  }

  // ---- The token scan ----

  /** One step of the scan, for a text that starts with whitespace. */
  lemma TokensSkip(s: String)
    requires s != [] && IsSpace(s[0])
    ensures Tokens(s) == Tokens(s[1..])
  {
  }

  /** One step of the scan, for a text that starts with a token. */
  lemma TokensTake(s: String)
    requires s != [] && !IsSpace(s[0])
    ensures Tokens(s) == [TokenAt(s).text] + Tokens(s[TokenAt(s).len..])
  {
  }

  /** Leading whitespace produces no token. */
  lemma {:induction false} SkipSpaces(ws: String, rest: String)
    requires AllSpace(ws)
    ensures Tokens(ws + rest) == Tokens(rest)
  {
    if ws != [] {
      var s := ws + rest;
      assert s[0] == ws[0] && IsSpace(s[0]);
      assert s[1..] == ws[1..] + rest;
      SkipSpaces(ws[1..], rest);
    } else {
      assert ws + rest == rest;
    }
  }

  /** A quoted run with something inside yields its inner text, whatever
      follows the closing quote. */
  lemma QuotedToken(t: String, rest: String)
    requires t != [] && '"' !in t
    ensures Tokens("\"" + t + "\"" + rest) == [t] + Tokens(rest)
  {
    var s := "\"" + t + "\"" + rest;
    var inner := s[1..];
    assert Find(inner, '"') == |t| by {
      assert inner[|t|] == '"';
      assert forall k :: 0 <= k < |t| ==> inner[k] == t[k];
    }
    assert TokenAt(s) == Lexeme(t, |t| + 2) by {
      assert s[1..|t| + 1] == t;
    }
    assert s[|t| + 2..] == rest;
    TokensTake(s);
  }

  /** A bracketed run with something inside yields itself, brackets kept. */
  lemma BracketToken(t: String, rest: String)
    requires t != [] && ']' !in t
    ensures Tokens("[" + t + "]" + rest) == ["[" + t + "]"] + Tokens(rest)
  {
    var s := "[" + t + "]" + rest;
    var inner := s[1..];
    assert Find(inner, ']') == |t| by {
      assert inner[|t|] == ']';
      assert forall k :: 0 <= k < |t| ==> inner[k] == t[k];
    }
    assert TokenAt(s) == Lexeme("[" + t + "]", |t| + 2) by {
      assert s[..|t| + 2] == "[" + t + "]";
    }
    assert s[|t| + 2..] == rest;
    TokensTake(s);
  }

  /** A plain word: no whitespace, and not opening a quote or a bracket. */
  predicate IsWord(w: String) {
    w != [] && w[0] != '"' && w[0] != '[' && forall k :: 0 <= k < |w| ==> !IsSpace(w[k])
  }

  /** A plain word up to whitespace or the end is one token. */
  lemma WordToken(w: String, rest: String)
    requires IsWord(w)
    requires rest == [] || IsSpace(rest[0])
    ensures Tokens(w + rest) == [w] + Tokens(rest)
  {
    var s := w + rest;
    assert FindSpace(s) == |w| by {
      assert forall k :: 0 <= k < |w| ==> s[k] == w[k];
      assert |w| < |s| ==> s[|w|] == rest[0];
    }
    assert TokenAt(s) == Lexeme(w, |w|) by {
      assert s[..|w|] == w;
    }
    assert s[|w|..] == rest;
    TokensTake(s);
  }

  /** Words joined by single spaces tokenize back into the same words. */
  lemma {:induction false} TokensOfWords(words: seq<String>)
    requires forall i :: 0 <= i < |words| ==> IsWord(words[i])
    ensures Tokens(Join(words, " ")) == words
  {
    if |words| == 1 {
      assert IsWord(words[0]);
      WordToken(words[0], []);
      assert words[0] + [] == words[0];
    } else if |words| > 1 {
      var tail := Join(words[1..], " ");
      assert Join(words, " ") == words[0] + (" " + tail) by {
        ConcatAssoc(words[0], " ", tail);
      }
      assert IsWord(words[0]);
      WordThenSpace(words[0], tail);
      assert forall i :: 0 <= i < |words| - 1 ==> words[1..][i] == words[i + 1];
      TokensOfWords(words[1..]);
      assert [words[0]] + words[1..] == words;
    }
  }

  /** A word followed by one space is one token, and the scan goes on after
      the space. */
  lemma WordThenSpace(w: String, tail: String)
    requires IsWord(w)
    ensures Tokens(w + (" " + tail)) == [w] + Tokens(tail)
  {
    var spaced := " " + tail;
    WordToken(w, spaced);
    TokensSkip(spaced);
    assert spaced[1..] == tail;
  }

  // ---- Sorting tokens into arguments and options ----

  /** `key:value` splits at the first colon. */
  lemma KeyValueSplit(key: String, value: String)
    requires ':' !in key && ':' !in value
    ensures HasColon(key + ":" + value)
    ensures KeyOf(key + ":" + value) == key && ValueOf(key + ":" + value) == value
  {
    var t := key + ":" + value;
    assert t[|key|] == ':';
    assert forall k :: 0 <= k < |key| ==> t[k] == key[k];
    assert Find(t, ':') == |key|;
    assert t[..|key|] == key;
    var rest := t[|key| + 1..];
    assert rest == value;
    assert Find(rest, ':') == |rest|;
  }

  /** Only the text between the first and the second colon is the value. */
  lemma SecondColonDropsTail(key: String, value: String, tail: String)
    requires ':' !in key && ':' !in value
    ensures var t := key + ":" + value + ":" + tail;
      HasColon(t) && KeyOf(t) == key && ValueOf(t) == value
  {
    var t := key + ":" + value + ":" + tail;
    assert t[|key|] == ':';
    assert forall k :: 0 <= k < |key| ==> t[k] == key[k];
    assert Find(t, ':') == |key|;
    assert t[..|key|] == key;
    var rest := t[|key| + 1..];
    assert rest == value + ":" + tail;
    assert rest[|value|] == ':';
    assert forall k :: 0 <= k < |value| ==> rest[k] == value[k];
    assert Find(rest, ':') == |value|;
    assert rest[..|value|] == value;
  }

  /** Sorting one more token extends the arguments or updates the options. */
  lemma SortAppend(tokens: seq<String>, t: String)
    ensures ArgsOf(tokens + [t]) == ArgsOf(tokens) + (if HasColon(t) then [] else [t])
    ensures KwargsOf(tokens + [t]) ==
      if HasColon(t) && KeyOf(t) != [] then KwargsOf(tokens)[KeyOf(t) := ValueOf(t)] else KwargsOf(tokens)
  {
    assert (tokens + [t])[..|tokens|] == tokens;
  }

  /** The arguments are exactly the colon-free tokens: none of them has a
      colon, every colon-free token is one of them, and together with the
      tokens that have a colon they account for every token. */
  lemma {:induction false} ArgsAreColonFree(tokens: seq<String>)
    ensures forall k :: 0 <= k < |ArgsOf(tokens)| ==> !HasColon(ArgsOf(tokens)[k])
    ensures forall i :: 0 <= i < |tokens| && !HasColon(tokens[i]) ==> tokens[i] in ArgsOf(tokens)
    ensures |ArgsOf(tokens)| + |Colons(tokens)| == |tokens|
  {
    if tokens != [] {
      var n := |tokens| - 1;
      var init, last := tokens[..n], tokens[n];
      ArgsAreColonFree(init);
      TakeSnoc(tokens, n);
      TakeEnds(tokens);
      SortAppend(init, last);
      ColonFreeAppend(init, last);
      assert forall i :: 0 <= i < n ==> init[i] == tokens[i];
    }
  }

  /** The colon-free tokens, as a reference filter from the front. */
  function ColonFree(tokens: seq<String>): seq<String> {
    if tokens == [] then []
    else (if HasColon(tokens[0]) then [] else [tokens[0]]) + ColonFree(tokens[1..])
  }

  /** The tokens with a colon. */
  function Colons(tokens: seq<String>): seq<String> {
    if tokens == [] then []
    else (if HasColon(tokens[0]) then [tokens[0]] else []) + Colons(tokens[1..])
  }

  lemma {:induction false} ColonFreeAppend(init: seq<String>, t: String)
    ensures ColonFree(init + [t]) == ColonFree(init) + (if HasColon(t) then [] else [t])
    ensures Colons(init + [t]) == Colons(init) + (if HasColon(t) then [t] else [])
  {
    if init != [] {
      assert (init + [t])[1..] == init[1..] + [t];
      ColonFreeAppend(init[1..], t);
    }
  }

  /** The arguments computed by the source's loop are the reference filter. */
  lemma {:induction false} ArgsOfIsFilter(tokens: seq<String>)
    ensures ArgsOf(tokens) == ColonFree(tokens)
  {
    if tokens != [] {
      var n := |tokens| - 1;
      ArgsOfIsFilter(tokens[..n]);
      TakeSnoc(tokens, n);
      TakeEnds(tokens);
      SortAppend(tokens[..n], tokens[n]);
      ColonFreeAppend(tokens[..n], tokens[n]);
    }
  }

  /** The token sets option `key`: it has a colon and `key` before it. */
  predicate SetsKey(t: String, key: String) {
    HasColon(t) && KeyOf(t) == key
  }

  /** A key is in the options exactly when it is non-empty and some token
      sets it. */
  lemma {:induction false} KwargsDomain(tokens: seq<String>, key: String)
    ensures key in KwargsOf(tokens) <==>
      key != [] && exists i :: 0 <= i < |tokens| && SetsKey(tokens[i], key)
  {
    if tokens != [] {
      var n := |tokens| - 1;
      KwargsDomain(tokens[..n], key);
      assert forall i :: 0 <= i < n ==> tokens[..n][i] == tokens[i];
      if key != [] && SetsKey(tokens[n], key) {
        assert key in KwargsOf(tokens);
      }
    }
  }

  /** A later token overwrites an earlier one: the value of an option is the
      value of the last token that sets its key. */
  lemma {:induction false} KwargsLastWins(tokens: seq<String>, key: String, i: nat)
    requires i < |tokens| && key != [] && SetsKey(tokens[i], key)
    requires forall j :: i < j < |tokens| ==> !SetsKey(tokens[j], key)
    ensures key in KwargsOf(tokens) && KwargsOf(tokens)[key] == ValueOf(tokens[i])
  {
    var n := |tokens| - 1;
    if i < n {
      assert tokens[..n][i] == tokens[i];
      assert forall j :: i < j < n ==> tokens[..n][j] == tokens[j];
      KwargsLastWins(tokens[..n], key, i);
      assert !SetsKey(tokens[n], key);
    }
  }

  /** An option key never has a colon and is never empty, and an argument is
      never also an option: no token lands in both. */
  lemma {:induction false} KwargsKeysWellFormed(tokens: seq<String>)
    ensures forall key :: key in KwargsOf(tokens) ==> key != [] && ':' !in key
  {
    if tokens != [] {
      KwargsKeysWellFormed(tokens[..|tokens| - 1]);
      var last := tokens[|tokens| - 1];
      var i := Find(last, ':');
      assert forall k :: 0 <= k < i ==> last[..i][k] == last[k];
    }
  }

  /** Tokens none of which has a colon are all arguments, and there are no
      options. */
  lemma {:induction false} NoColonNoOptions(tokens: seq<String>)
    requires forall i :: 0 <= i < |tokens| ==> !HasColon(tokens[i])
    ensures ArgsOf(tokens) == tokens && KwargsOf(tokens) == map[]
  {
    if tokens != [] {
      var n := |tokens| - 1;
      TakeSnoc(tokens, n);
      TakeEnds(tokens);
      assert forall i :: 0 <= i < n ==> tokens[..n][i] == tokens[i];
      NoColonNoOptions(tokens[..n]);
      SortAppend(tokens[..n], tokens[n]);
    }
  }

  /** A line of two plain arguments with one `key:value` option between them,
      the shape of `BLUR pixels:12 DARK`: the option is taken out of the
      arguments and into the map. */
  lemma OptionBetweenArgs(a: String, key: String, value: String, b: String)
    requires IsWord(a) && IsWord(b) && !HasColon(a) && !HasColon(b)
    requires IsWord(key + ":" + value) && key != [] && ':' !in key && ':' !in value
    ensures ArgKwargs(a + " " + (key + ":" + value) + " " + b) == ([a, b], map[key := value])
  {
    var opt := key + ":" + value;
    var ws := [a, opt, b];
    var line := a + " " + opt + " " + b;
    assert Join(ws, " ") == line by {
      assert ws[1..] == [opt, b] && [opt, b][1..] == [b];
      assert Join([opt, b], " ") == opt + " " + b;
      assert a + " " + (opt + " " + b) == line;
    }
    assert IsWord(ws[0]) && IsWord(ws[1]) && IsWord(ws[2]);
    TokensOfWords(ws);
    assert Tokens(line) == ws;
    KeyValueSplit(key, value);
    assert [a] + [opt] == [a, opt] && [a, opt] + [b] == ws;
    NoColonNoOptions([a]);
    SortAppend([a], opt);
    assert ArgsOf([a, opt]) == [a] && KwargsOf([a, opt]) == map[key := value];
    SortAppend([a, opt], b);
    assert ArgsOf(ws) == [a, b] && KwargsOf(ws) == map[key := value];
  }

  /** A word, one space and a quoted run: the shape of `TITLE "text" ...`. */
  lemma WordThenQuoted(w: String, t: String, rest: String)
    requires IsWord(w)
    requires t != [] && '"' !in t
    ensures Tokens(w + (" " + ("\"" + t + "\"" + rest))) == [w, t] + Tokens(rest)
  {
    var q := "\"" + t + "\"" + rest;
    var sq := " " + q;
    QuotedToken(t, rest);
    TokensSkip(sq);
    assert sq[1..] == q;
    WordToken(w, sq);
    ConcatAssoc([w], [t], Tokens(rest));
  }

  /** A title line `TITLE "text" <` keeps the quoted text, spaces and all, as
      one token between the keyword and the trailing modifier. */
  lemma QuotedLineTokens(w: String, t: String, m: String)
    requires IsWord(w) && IsWord(m)
    requires t != [] && '"' !in t
    ensures Tokens(w + " \"" + t + "\" " + m) == [w, t, m]
  {
    var sm := " " + m;
    assert w + " \"" + t + "\" " + m == w + (" " + ("\"" + t + "\"" + sm));
    WordThenQuoted(w, t, sm);
    assert Tokens(sm) == [m] by {
      TokensSkip(sm);
      assert sm[1..] == m + [];
      WordToken(m, []);
    }
  }

  /** Such a line sorts into three arguments, and a text without a colon adds
      no option. */
  lemma QuotedTextLine(w: String, t: String, m: String)
    requires IsWord(w) && IsWord(m) && !HasColon(w) && !HasColon(m)
    requires t != [] && '"' !in t && ':' !in t
    ensures ArgKwargs(w + " \"" + t + "\" " + m) == ([w, t, m], map[])
  {
    QuotedLineTokens(w, t, m);
    NoColonNoOptions([w, t, m]);
  }
}
