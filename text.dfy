/** String primitives the interpreter relies on: JavaScript's whitespace class,
    `trim`, the line splitter `split(/[\r\n&]+/)`, `includes("%%")` and
    `Array.prototype.join`. */
module Text {

  import opened Sequences

  type String = seq<char>

  /** The characters JavaScript's `\s` matches and `trim` removes
      (WhiteSpace and LineTerminator). */
  predicate IsSpace(c: char) {
    || c == ' ' || c == '\t' || c == '\n' || c == '\r' || c == '\U{B}' || c == '\U{C}'
    || c == '\U{A0}' || c == '\U{1680}' || ('\U{2000}' <= c <= '\U{200A}')
    || c == '\U{2028}' || c == '\U{2029}' || c == '\U{202F}' || c == '\U{205F}'
    || c == '\U{3000}' || c == '\U{FEFF}'
  }

  predicate AllSpace(s: String) {
    forall k :: 0 <= k < |s| ==> IsSpace(s[k])
  }

  lemma AllSpaceCons(c: char, s: String)
    requires IsSpace(c) && AllSpace(s)
    ensures AllSpace([c] + s)
  {
    assert forall k :: 0 < k <= |s| ==> ([c] + s)[k] == s[k - 1];
  }

  lemma AllSpaceSnoc(s: String, c: char)
    requires AllSpace(s) && IsSpace(c)
    ensures AllSpace(s + [c])
  {
    assert forall k :: 0 <= k < |s| ==> (s + [c])[k] == s[k];
  }

  /** `trimStart`: drops the leading whitespace and nothing else. */
  function TrimStart(s: String): (r: String)
    ensures |r| <= |s| && r == s[|s| - |r|..]
    ensures AllSpace(s[..|s| - |r|])
    ensures r == [] || !IsSpace(r[0])
  {
    if s != [] && IsSpace(s[0]) then
      var t := s[1..];
      var r := TrimStart(t);
      assert s[..|s| - |r|] == [s[0]] + t[..|t| - |r|];
      assert s[|s| - |r|..] == t[|t| - |r|..];
      AllSpaceCons(s[0], t[..|t| - |r|]);
      r
    else
      s
  }

  /** `trimEnd`: drops the trailing whitespace and nothing else. */
  function TrimEnd(s: String): (r: String)
    ensures |r| <= |s| && r == s[..|r|]
    ensures AllSpace(s[|r|..])
    ensures r == [] || !IsSpace(r[|r| - 1])
  {
    if s != [] && IsSpace(s[|s| - 1]) then
      var t := s[..|s| - 1];
      var r := TrimEnd(t);
      assert s[|r|..] == t[|r|..] + [s[|s| - 1]];
      assert s[..|r|] == t[..|r|];
      AllSpaceSnoc(t[|r|..], s[|s| - 1]);
      r
    else
      s
  }

  /** `String.prototype.trim`. */
  function Trim(s: String): String {
    TrimEnd(TrimStart(s))
  }

  /** The trimmed text is a slice of the input, everything cut off is
      whitespace, and it neither starts nor ends with whitespace. */
  lemma TrimIsSlice(s: String)
    ensures exists i, j :: 0 <= i <= j <= |s| && Trim(s) == s[i..j]
                           && AllSpace(s[..i]) && AllSpace(s[j..])
    ensures Trim(s) == [] || (!IsSpace(Trim(s)[0]) && !IsSpace(Trim(s)[|Trim(s)| - 1]))
  {
    var i, j := TrimBounds(s);
    assert Trim(s) == s[i..j] && AllSpace(s[..i]) && AllSpace(s[j..]);
    TrimEdges(s);
  }

  /** Where the trimmed text sits in the input. */
  lemma TrimBounds(s: String) returns (i: nat, j: nat)
    ensures i <= j <= |s| && Trim(s) == s[i..j] && AllSpace(s[..i]) && AllSpace(s[j..])
  {
    var t := TrimStart(s);
    var u := TrimEnd(t);
    i := |s| - |t|;
    j := i + |u|;
    SliceOfSuffix(s, i, |u|);
  }

  lemma TrimEdges(s: String)
    ensures Trim(s) == [] || (!IsSpace(Trim(s)[0]) && !IsSpace(Trim(s)[|Trim(s)| - 1]))
  {
    var t := TrimStart(s);
    var u := TrimEnd(t);
    if u != [] {
      assert u[0] == t[0];
    }
  }

  /** A line is blank exactly when it is made of whitespace only. */
  lemma {:induction false} TrimEmptyIffAllSpace(s: String)
    ensures Trim(s) == [] <==> AllSpace(s)
  {
    var t := TrimStart(s);
    assert s == s[..|s| - |t|] + t;
    if t != [] {
      assert !IsSpace(t[0]) && !AllSpace(s);
      TrimEndKeepsFirst(t);
    }
  }

  /** Trimming the end never removes a first character that is not whitespace. */
  lemma {:induction false} TrimEndKeepsFirst(t: String)
    requires t != [] && !IsSpace(t[0])
    ensures TrimEnd(t) != []
  {
    if IsSpace(t[|t| - 1]) {
      TrimEndKeepsFirst(t[..|t| - 1]);
    }
  }

  /** The separators of the line splitter `/[\r\n&]+/`. */
  predicate IsSep(c: char) {
    c == '\r' || c == '\n' || c == '&'
  }

  predicate NoSep(s: String) {
    forall k :: 0 <= k < |s| ==> !IsSep(s[k])
  }

  /** Index of the first separator, or `|s|` when there is none. */
  function FindSep(s: String): (i: nat)
    ensures i <= |s| && NoSep(s[..i]) && (i < |s| ==> IsSep(s[i]))
  {
    if s == [] || IsSep(s[0]) then 0
    else
      var i := 1 + FindSep(s[1..]);
      assert s[..i] == [s[0]] + s[1..][..i - 1];
      i
  }

  /** Length of the run of separators `s` starts with. */
  function SepRun(s: String): (n: nat)
    ensures n <= |s| && (forall k :: 0 <= k < n ==> IsSep(s[k])) && (n < |s| ==> !IsSep(s[n]))
  {
    if s != [] && IsSep(s[0]) then 1 + SepRun(s[1..]) else 0
  }

  /** `s.split(/[\r\n&]+/)`: the pieces between maximal runs of separators,
      with an empty piece before a leading run and after a trailing one. */
  function SplitLines(s: String): (r: seq<String>)
    decreases |s|
    ensures |r| >= 1
    ensures forall k :: 0 <= k < |r| ==> NoSep(r[k])
  {
    var i := FindSep(s);
    if i == |s| then
      assert s[..i] == s;
      [s]
    else
      var rest := s[i..];
      var n := SepRun(rest);
      [s[..i]] + SplitLines(rest[n..])
  }

  /** `Array.prototype.join(sep)` on strings. */
  function Join(parts: seq<String>, sep: String): String
  {
    if |parts| == 0 then []
    else if |parts| == 1 then parts[0]
    else parts[0] + sep + Join(parts[1..], sep)
  }

  /** Splitting undoes a join on one separator character, as long as no line
      is empty and none contains a separator of its own. */
  lemma {:induction false} SplitJoin(lines: seq<String>, c: char)
    requires |lines| >= 1 && IsSep(c)
    requires forall k :: 0 <= k < |lines| ==> lines[k] != [] && NoSep(lines[k])
    ensures SplitLines(Join(lines, [c])) == lines
  {
    var s := Join(lines, [c]);
    if |lines| == 1 {
      assert s == lines[0];
    } else {
      var l0 := lines[0];
      var tail := Join(lines[1..], [c]);
      assert s == l0 + [c] + tail;
      var i := FindSep(s);
      assert s[..|l0|] == l0 && IsSep(s[|l0|]);
      assert i <= |l0| ==> i < |s| && IsSep(s[i]);
      assert s[..i] == l0;
      var rest := s[i..];
      assert rest == [c] + tail;
      SplitJoin(lines[1..], c);
      JoinHead(lines[1..], [c]);
      assert SepRun(rest) == 1 by {
        assert rest[1] == tail[0] == lines[1][0];
      }
      assert rest[1..] == tail;
    }
  }

  /** A run of separators of any length, such as the `\r\n` line ending,
      makes a single break: the piece before it is one line and splitting
      carries on after the whole run. */
  lemma SplitRun(l: String, r: String, t: String)
    requires NoSep(l) && r != [] && (forall k :: 0 <= k < |r| ==> IsSep(r[k]))
    requires t == [] || !IsSep(t[0])
    ensures SplitLines(l + r + t) == [l] + SplitLines(t)
  {
    var s := l + r + t;
    FindSepAt(s, |l|);
    assert s[..|l|] == l;
    var rest := s[|l|..];
    assert rest == r + t;
    SepRunAt(rest, |r|);
    assert rest[|r|..] == t;
  }

  /** The first separator is at `j` when none comes before it and one is there. */
  lemma {:induction false} FindSepAt(s: String, j: nat)
    requires j < |s| && IsSep(s[j]) && forall k :: 0 <= k < j ==> !IsSep(s[k])
    ensures FindSep(s) == j
  {
    if j > 0 {
      assert !IsSep(s[0]);
      FindSepAt(s[1..], j - 1);
    }
  }

  /** The leading run is `j` long when its first `j` characters are
      separators and the next one is not. */
  lemma {:induction false} SepRunAt(s: String, j: nat)
    requires j <= |s| && (forall k :: 0 <= k < j ==> IsSep(s[k])) && (j < |s| ==> !IsSep(s[j]))
    ensures SepRun(s) == j
  {
    if j > 0 {
      assert IsSep(s[0]);
      SepRunAt(s[1..], j - 1);
    }
  }

  /** A join of non-empty parts starts with the first part's first character. */
  lemma JoinHead(parts: seq<String>, sep: String)
    requires |parts| >= 1 && parts[0] != []
    ensures Join(parts, sep) != [] && Join(parts, sep)[0] == parts[0][0]
  {
  }

  /** `line.includes("%%")`. */
  predicate HasComment(s: String) {
    exists k :: 0 <= k < |s| - 1 && s[k] == '%' && s[k + 1] == '%'
  }
}
