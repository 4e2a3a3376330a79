/**
 * `tokenizeSentence`: split the input at every word boundary, trim each piece,
 * and drop the pieces left empty.
 * The same tokenization was used to build the tagger's training data.
 */
module Tokenizer {
  import opened Js

  /** `\w` of a JavaScript regular expression without the `u` flag. */
  predicate IsWordChar(c: char) {
    ('a' <= c <= 'z') || ('A' <= c <= 'Z') || ('0' <= c <= '9') || c == '_'
  }

  /** Every character of `w` lies on the same side of `\b`: all word characters, or none. */
  predicate OfClass(w: string, word: bool) {
    forall c :: c in w ==> IsWordChar(c) == word
  }

  function Concat(pieces: seq<string>): string {
    if |pieces| == 0 then [] else pieces[0] + Concat(pieces[1..])
  }

  /**
   * `pieces` cut `s` at exactly its word boundaries: they concatenate back to
   * `s`, each is a non-empty run of one character class, and neighbouring
   * runs are of different classes (so every cut is a boundary and every
   * boundary is a cut).
   */
  ghost predicate CutAtBoundaries(s: string, pieces: seq<string>) {
    && Concat(pieces) == s
    && (forall i :: 0 <= i < |pieces| ==> pieces[i] != [] && OfClass(pieces[i], IsWordChar(pieces[i][0])))
    && (forall i :: 0 < i < |pieces| ==> IsWordChar(pieces[i - 1][0]) != IsWordChar(pieces[i][0]))
  }

  /** The maximal runs of word and of non-word characters of `s`, in order. */
  function Runs(s: string): (pieces: seq<string>)
    ensures CutAtBoundaries(s, pieces)
  {
    if |s| == 0 then []
    else
      var rest := Runs(s[1..]);
      if |rest| > 0 && IsWordChar(s[0]) == IsWordChar(rest[0][0]) then
        assert Concat(rest) == rest[0] + Concat(rest[1..]);
        [[s[0]] + rest[0]] + rest[1..]
      else
        [[s[0]]] + rest
  }

  /** There is only one way to cut a string at its word boundaries. */
  lemma {:induction false} RunsUnique(s: string, pieces: seq<string>)
    requires CutAtBoundaries(s, pieces)
    ensures pieces == Runs(s)
    decreases |s|
  {
    if |pieces| == 0 {
      return;
    }
    var p := pieces[0];
    var tail := pieces[1..];
    assert s == p + Concat(tail);
    assert s[0] == p[0];
    if |p| == 1 {
      assert s[1..] == Concat(tail);
      assert forall i :: 0 < i < |tail| ==> tail[i - 1] == pieces[i] && tail[i] == pieces[i + 1];
      RunsUnique(s[1..], tail);
      assert p == [s[0]];
    } else {
      var shorter := [p[1..]] + tail;
      assert Concat(shorter) == p[1..] + Concat(tail);
      assert s[1..] == Concat(shorter);
      assert p[1] in p;
      assert forall i :: 1 <= i < |shorter| ==> shorter[i] == pieces[i];
      RunsUnique(s[1..], shorter);
      assert [s[0]] + p[1..] == p;
    }
  }

  /** `s.split(/\b/)`: the runs, except that an empty string splits into one empty piece. */
  function SplitAtBoundaries(s: string): seq<string> {
    if s == "" then [""] else Runs(s)
  }

  /** Trim every piece. */
  function TrimEach(pieces: seq<string>): (r: seq<string>)
    ensures |r| == |pieces|
    ensures forall i :: 0 <= i < |r| ==> r[i] == Trim(pieces[i])
  {
    seq(|pieces|, i requires 0 <= i < |pieces| => Trim(pieces[i]))
  }

  /** Keep the non-empty strings, in order. */
  function DropEmpty(ts: seq<string>): (r: seq<string>)
    ensures |r| <= |ts|
    ensures forall t :: t in r <==> t in ts && t != []
  {
    if |ts| == 0 then []
    else if ts[0] == [] then DropEmpty(ts[1..])
    else [ts[0]] + DropEmpty(ts[1..])
  }

  /** The strings of `TrimEach(pieces)` are exactly the trims of the pieces. */
  lemma TrimEachMembers(pieces: seq<string>)
    ensures forall t :: t in TrimEach(pieces) <==> exists p :: p in pieces && t == Trim(p)
  {
    MapMembers(pieces, TrimEach(pieces), Trim);
  }

  /** The elements of `pieces.map(f)` are the images of the elements of `pieces`. */
  lemma MapMembers(pieces: seq<string>, r: seq<string>, f: string -> string)
    requires |r| == |pieces| && forall i :: 0 <= i < |r| ==> r[i] == f(pieces[i])
    ensures forall t :: t in r <==> exists p :: p in pieces && t == f(p)
  {
    forall t | t in r
      ensures exists p :: p in pieces && t == f(p)
    {
      var i :| 0 <= i < |r| && r[i] == t;
      assert pieces[i] in pieces;
    }
    forall t | (exists p :: p in pieces && t == f(p))
      ensures t in r
    {
      var p :| p in pieces && t == f(p);
      var j :| 0 <= j < |pieces| && pieces[j] == p;
      assert r[j] == t;
    }
  }

  /**
   * The tokens of a sentence, as `tokenizeSentence` produces them: exactly
   * the trims of the sentence's word and non-word runs that are not all
   * whitespace.
   */
  function Tokenize(input: string): (tokens: seq<string>)
    ensures forall t :: t in tokens <==> exists p :: p in Runs(input) && !AllSpace(p) && t == Trim(p)
  {
    TrimEachMembers(SplitAtBoundaries(input));
    DropEmpty(TrimEach(SplitAtBoundaries(input)))
  }

  /**
   * Every token is non-empty, has no surrounding whitespace, and is made of
   * word characters only or of non-word characters only.
   */
  lemma TokensAreTrimmedRuns(input: string)
    ensures forall t :: t in Tokenize(input) ==>
      && t != []
      && !IsSpace(t[0]) && !IsSpace(t[|t| - 1])
      && OfClass(t, IsWordChar(t[0]))
  {
    forall t | t in Tokenize(input)
      ensures t != [] && !IsSpace(t[0]) && !IsSpace(t[|t| - 1]) && OfClass(t, IsWordChar(t[0]))
    {
      var p :| p in Runs(input) && !AllSpace(p) && t == Trim(p);
      RunOfInput(input, p);
    }
  }

  /** A run of the input is non-empty and of one character class; trimming it keeps that. */
  lemma RunOfInput(input: string, p: string)
    requires p in Runs(input) && !AllSpace(p)
    ensures var t := Trim(p);
      t != [] && !IsSpace(t[0]) && !IsSpace(t[|t| - 1]) && OfClass(t, IsWordChar(t[0]))
  {
    var runs := Runs(input);
    var j :| 0 <= j < |runs| && runs[j] == p;
    TrimOfRun(p);
  }

  /** Trimming a run of one character class that is not all whitespace leaves a trimmed run of that class. */
  lemma TrimOfRun(p: string)
    requires p != [] && OfClass(p, IsWordChar(p[0])) && !AllSpace(p)
    ensures var t := Trim(p);
      t != [] && !IsSpace(t[0]) && !IsSpace(t[|t| - 1]) && OfClass(t, IsWordChar(t[0]))
  {
    SameClass(p, Trim(p));
  }

  /** Characters taken from a run of one class are of that class. */
  lemma SameClass(p: string, t: string)
    requires p != [] && OfClass(p, IsWordChar(p[0]))
    requires t != [] && forall c :: c in t ==> c in p
    ensures OfClass(t, IsWordChar(t[0]))
  {
    assert t[0] in t;
  }

  /** A non-empty run of one character class is not cut by `split(/\b/)`. */
  lemma SingleRun(t: string)
    requires t != [] && OfClass(t, IsWordChar(t[0]))
    ensures SplitAtBoundaries(t) == [t]
  {
    assert Concat([t]) == t + Concat([]);
    RunsUnique(t, [t]);
  }

  /** A trimmed non-empty run of one character class tokenizes to itself. */
  lemma TokenizeTrimmedRun(t: string)
    requires t != [] && !IsSpace(t[0]) && !IsSpace(t[|t| - 1]) && OfClass(t, IsWordChar(t[0]))
    ensures Tokenize(t) == [t]
  {
    assert !AllSpace(t) by {
      assert !IsSpace(t[0]);
    }
    RunPipeline(t);
    TrimOfTrimmed(t);
  }

  lemma {:induction false} ConcatAppend(x: seq<string>, y: seq<string>)
    ensures Concat(x + y) == Concat(x) + Concat(y)
  {
    if |x| == 0 {
      assert x + y == y;
    } else {
      assert (x + y)[1..] == x[1..] + y;
      ConcatAppend(x[1..], y);
    }
  }

  /** The last piece of a cut ends the string. */
  lemma ConcatLast(pieces: seq<string>)
    requires |pieces| > 0
    ensures Concat(pieces) == Concat(pieces[..|pieces| - 1]) + pieces[|pieces| - 1]
  {
    var n := |pieces|;
    assert pieces == pieces[..n - 1] + [pieces[n - 1]];
    ConcatAppend(pieces[..n - 1], [pieces[n - 1]]);
    assert Concat([pieces[n - 1]]) == pieces[n - 1] + Concat([]);
  }

  /**
   * Where the last character of `a` and the first of `b` lie on different
   * sides of `\b`, the runs of `a + b` are the runs of `a` followed by those of `b`.
   */
  lemma RunsAppend(a: string, b: string)
    requires a != [] && b != [] && IsWordChar(a[|a| - 1]) != IsWordChar(b[0])
    ensures Runs(a + b) == Runs(a) + Runs(b)
  {
    var ra := Runs(a);
    var rb := Runs(b);
    assert |ra| > 0 && |rb| > 0;
    assert IsWordChar(ra[|ra| - 1][0]) == IsWordChar(a[|a| - 1]) by {
      ConcatLast(ra);
      var last := ra[|ra| - 1];
      assert a[|a| - 1] == last[|last| - 1];
      assert last[|last| - 1] in last;
    }
    assert rb[0][0] == b[0] by {
      assert Concat(rb) == rb[0] + Concat(rb[1..]);
    }
    CutAppend(a, b, ra, rb);
    RunsUnique(a + b, ra + rb);
  }

  /** Cuts of `a` and of `b` whose meeting pieces differ in class make a cut of `a + b`. */
  lemma CutAppend(a: string, b: string, ra: seq<string>, rb: seq<string>)
    requires CutAtBoundaries(a, ra) && CutAtBoundaries(b, rb) && |ra| > 0 && |rb| > 0
    requires IsWordChar(ra[|ra| - 1][0]) != IsWordChar(rb[0][0])
    ensures CutAtBoundaries(a + b, ra + rb)
  {
    var pieces := ra + rb;
    ConcatAppend(ra, rb);
    forall i | 0 <= i < |pieces|
      ensures pieces[i] != [] && OfClass(pieces[i], IsWordChar(pieces[i][0]))
    {
      if i >= |ra| {
        assert pieces[i] == rb[i - |ra|];
      }
    }
    forall i | 0 < i < |pieces|
      ensures IsWordChar(pieces[i - 1][0]) != IsWordChar(pieces[i][0])
    {
      if i > |ra| {
        assert pieces[i - 1] == rb[i - 1 - |ra|] && pieces[i] == rb[i - |ra|];
      }
    }
  }

  lemma TrimEachAppend(x: seq<string>, y: seq<string>)
    ensures TrimEach(x + y) == TrimEach(x) + TrimEach(y)
  {
  }

  /** Dropping empty strings keeps the order: it works piece by piece. */
  lemma {:induction false} DropEmptyAppend(x: seq<string>, y: seq<string>)
    ensures DropEmpty(x + y) == DropEmpty(x) + DropEmpty(y)
  {
    if |x| == 0 {
      assert x + y == y;
    } else {
      assert (x + y)[1..] == x[1..] + y;
      DropEmptyAppend(x[1..], y);
    }
  }

  /** The steps of `Tokenize` split at a word boundary. */
  lemma PipelineAppend(a: string, b: string)
    requires a != [] && b != [] && IsWordChar(a[|a| - 1]) != IsWordChar(b[0])
    ensures DropEmpty(TrimEach(SplitAtBoundaries(a + b)))
         == DropEmpty(TrimEach(SplitAtBoundaries(a))) + DropEmpty(TrimEach(SplitAtBoundaries(b)))
  {
    RunsAppend(a, b);
    TrimEachAppend(Runs(a), Runs(b));
    DropEmptyAppend(TrimEach(Runs(a)), TrimEach(Runs(b)));
  }

  /**
   * Tokenizing a string cut at a word boundary tokenizes each side, in
   * order; with `TokenizeRun` this fixes the token list of every input.
   */
  lemma TokenizeAtBoundary(a: string, b: string)
    requires a != [] && b != [] && IsWordChar(a[|a| - 1]) != IsWordChar(b[0])
    ensures Tokenize(a + b) == Tokenize(a) + Tokenize(b)
  {
    PipelineAppend(a, b);
  }

  /** The steps of `Tokenize` on a single run. */
  lemma RunPipeline(p: string)
    requires p != [] && OfClass(p, IsWordChar(p[0]))
    ensures DropEmpty(TrimEach(SplitAtBoundaries(p))) == if AllSpace(p) then [] else [Trim(p)]
  {
    SingleRun(p);
    assert TrimEach([p]) == [Trim(p)];
    assert DropEmpty([Trim(p)]) == (if Trim(p) == [] then [] else [Trim(p)]) + DropEmpty([]);
  }

  /** A run of one character class gives its trim as its only token, or nothing when it is all whitespace. */
  lemma TokenizeRun(p: string)
    requires p != [] && OfClass(p, IsWordChar(p[0]))
    ensures Tokenize(p) == if AllSpace(p) then [] else [Trim(p)]
  {
    RunPipeline(p);
  }

  /** Tokenizing a token again gives back exactly that token. */
  lemma TokenIsItsOwnTokenization(input: string, t: string)
    requires t in Tokenize(input)
    ensures Tokenize(t) == [t]
  {
    TokensAreTrimmedRuns(input);
    TokenizeTrimmedRun(t);
  }
}
