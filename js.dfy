/**
 * The part of JavaScript's built-in behaviour that the chat bot's pipeline
 * relies on: array reads and `slice(0, n)`, `Math.max(...a)` with
 * `a.indexOf(max)`, `String.prototype.trim` and `Array.prototype.join`.
 */
module Js {

  datatype Option<+T> = None | Some(value: T)

  /** A settled promise: the value it resolved with, or a rejection (a thrown error). */
  datatype Promise<+T> = Resolved(value: T) | Rejected

  function Min(a: int, b: int): int {
    if a < b then a else b
  }

  /** `s.slice(0, n)` for `n >= 0`: a slice past the end is clamped to the end. */
  function Take<T>(s: seq<T>, n: nat): (r: seq<T>)
    ensures |r| == Min(|s|, n)
    ensures r == s[..|r|]
  {
    if n < |s| then s[..n] else s
  }

  /** `s[i]`: `undefined` for an index outside the array (including -1). */
  function At<T>(s: seq<T>, i: int): Option<T> {
    if 0 <= i < |s| then Some(s[i]) else None
  }

  // ---------------------------------------------------------------------------
  // Math.max and indexOf over score arrays

  /** The value of `Math.max(...s)`: minus infinity for an empty array. */
  datatype Extended = NegativeInfinity | Finite(value: real)

  function Max(s: seq<real>): (m: Extended)
    ensures m.NegativeInfinity? <==> |s| == 0
    ensures forall i :: 0 <= i < |s| ==> m.Finite? && s[i] <= m.value
    ensures m.Finite? ==> m.value in s
  {
    if |s| == 0 then NegativeInfinity
    else
      var rest := Max(s[1..]);
      if rest.NegativeInfinity? || rest.value <= s[0] then Finite(s[0]) else rest
  }

  /** `s.indexOf(v)`: the first index holding `v` (strict equality), or -1. */
  function IndexOf(s: seq<real>, v: Extended): (i: int)
    ensures -1 <= i < |s|
    ensures 0 <= i ==> v == Finite(s[i])
    ensures forall j :: 0 <= j < |s| && (i == -1 || j < i) ==> v != Finite(s[j])
  {
    if |s| == 0 then -1
    else if v == Finite(s[0]) then 0
    else
      var k := IndexOf(s[1..], v);
      if k == -1 then -1 else k + 1
  }

  /** `s.indexOf(Math.max(...s))`: the first index of the maximum, -1 for an empty array. */
  function FirstMaxIndex(s: seq<real>): (k: int)
    ensures |s| == 0 ==> k == -1
    ensures |s| > 0 ==> 0 <= k < |s| && Max(s) == Finite(s[k])
    ensures |s| > 0 ==> forall j :: 0 <= j < |s| ==> s[j] <= s[k]
    ensures |s| > 0 ==> forall j :: 0 <= j < k ==> s[j] < s[k]
  {
    IndexOf(s, Max(s))
  }

  /**
   * An independent description of the first index of the maximum: -1 for
   * no scores, otherwise the `k` where no score exceeds the one at `k` and
   * every earlier score is strictly smaller.
   */
  lemma FirstMaxIndexIs(s: seq<real>, k: int)
    ensures FirstMaxIndex(s) == k <==>
      || (|s| == 0 && k == -1)
      || (&& 0 <= k < |s|
          && (forall j :: 0 <= j < |s| ==> s[j] <= s[k])
          && (forall j :: 0 <= j < k ==> s[j] < s[k]))
  {
    var m := FirstMaxIndex(s);
    if 0 <= k < |s| && (forall j :: 0 <= j < |s| ==> s[j] <= s[k]) && (forall j :: 0 <= j < k ==> s[j] < s[k]) {
      assert 0 <= m < |s|;
      assert s[k] <= s[m] && s[m] <= s[k];
    }
  }

  // ---------------------------------------------------------------------------
  // Whitespace and String.prototype.trim

  /** The characters `trim` removes: ECMAScript WhiteSpace and LineTerminator. */
  predicate IsSpace(c: char) {
    || c == '\t' || c == '\n' || c == '\U{000B}' || c == '\U{000C}' || c == '\r'
    || c == ' ' || c == '\U{00A0}' || c == '\U{1680}' || ('\U{2000}' <= c <= '\U{200A}')
    || c == '\U{2028}' || c == '\U{2029}' || c == '\U{202F}' || c == '\U{205F}'
    || c == '\U{3000}' || c == '\U{FEFF}'
  }

  predicate AllSpace(s: string) {
    forall i :: 0 <= i < |s| ==> IsSpace(s[i])
  }

  /** `s` with its leading whitespace removed. */
  function TrimStart(s: string): (r: string)
    ensures |r| <= |s| && r == s[|s| - |r|..]
    ensures AllSpace(s[..|s| - |r|])
    ensures r == [] || !IsSpace(r[0])
  {
    if |s| > 0 && IsSpace(s[0]) then
      var r := TrimStart(s[1..]);
      assert s[..|s| - |r|] == [s[0]] + s[1..][..|s| - 1 - |r|];
      assert s[1..][|s| - 1 - |r|..] == s[|s| - |r|..];
      r
    else s
  }

  /** `s` with its trailing whitespace removed. */
  function TrimEnd(s: string): (r: string)
    ensures |r| <= |s| && r == s[..|r|]
    ensures AllSpace(s[|r|..])
    ensures r == [] || !IsSpace(r[|r| - 1])
  {
    if |s| > 0 && IsSpace(s[|s| - 1]) then
      var r := TrimEnd(s[..|s| - 1]);
      assert s[|r|..] == s[..|s| - 1][|r|..] + [s[|s| - 1]];
      r
    else s
  }

  /** `s.trim()` */
  function Trim(s: string): (r: string)
    ensures r == [] <==> AllSpace(s)
    ensures r != [] ==> !IsSpace(r[0]) && !IsSpace(r[|r| - 1])
    ensures forall c :: c in r ==> c in s
  {
    TrimStartBlank(s);
    TrimEndBlank(TrimStart(s));
    TrimEnd(TrimStart(s))
  }

  lemma TrimStartBlank(s: string)
    ensures TrimStart(s) == [] <==> AllSpace(s)
    ensures forall c :: c in TrimStart(s) ==> c in s
  {
    var t := TrimStart(s);
    var cut := |s| - |t|;
    if t == [] {
      assert s[..cut] == s;
    } else {
      assert s[cut] == t[0];
    }
    forall c | c in t
      ensures c in s
    {
      var i :| 0 <= i < |t| && t[i] == c;
      assert s[cut + i] == c;
    }
  }

  lemma TrimEndBlank(s: string)
    ensures TrimEnd(s) == [] <==> AllSpace(s)
    ensures forall c :: c in TrimEnd(s) ==> c in s
  {
    var r := TrimEnd(s);
    if r == [] {
      assert s[|r|..] == s;
    } else {
      assert s[|r| - 1] == r[|r| - 1];
    }
    forall c | c in r
      ensures c in s
    {
      var i :| 0 <= i < |r| && r[i] == c;
      assert s[i] == c;
    }
  }

  /** A string without surrounding whitespace is its own trim. */
  lemma TrimOfTrimmed(s: string)
    requires s == [] || (!IsSpace(s[0]) && !IsSpace(s[|s| - 1]))
    ensures Trim(s) == s
  {
  }

  /**
   * `trim` is determined on every input: whitespace, then a string with no
   * whitespace at either end, then whitespace, trims to that middle string.
   */
  lemma TrimCharacterized(a: string, r: string, b: string)
    requires AllSpace(a) && AllSpace(b)
    requires r == [] || (!IsSpace(r[0]) && !IsSpace(r[|r| - 1]))
    ensures Trim(a + r + b) == r
  {
    TrimPadded(a, r, b);
    TrimOfTrimmed(r);
  }

  lemma {:induction false} TrimStartAfterSpaces(a: string, x: string)
    requires AllSpace(a)
    ensures TrimStart(a + x) == TrimStart(x)
  {
    if |a| > 0 {
      assert (a + x)[1..] == a[1..] + x;
      TrimStartAfterSpaces(a[1..], x);
    } else {
      assert a + x == x;
    }
  }

  lemma {:induction false} TrimEndBeforeSpaces(x: string, b: string)
    requires AllSpace(b)
    ensures TrimEnd(x + b) == TrimEnd(x)
  {
    if |b| > 0 {
      assert (x + b)[..|x + b| - 1] == x + b[..|b| - 1];
      TrimEndBeforeSpaces(x, b[..|b| - 1]);
    } else {
      assert x + b == x;
    }
  }

  lemma {:induction false} TrimStartOfNonBlank(t: string, b: string)
    requires !AllSpace(t)
    ensures TrimStart(t + b) == TrimStart(t) + b
  {
    if IsSpace(t[0]) {
      assert (t + b)[1..] == t[1..] + b;
      TrimStartOfNonBlank(t[1..], b);
    }
  }

  /** Whitespace around a string does not change its trim. */
  lemma TrimPadded(a: string, t: string, b: string)
    requires AllSpace(a) && AllSpace(b)
    ensures Trim(a + t + b) == Trim(t)
  {
    if AllSpace(t) {
      assert AllSpace(a + t + b);
    } else {
      assert a + t + b == a + (t + b);
      TrimStartAfterSpaces(a, t + b);
      TrimStartOfNonBlank(t, b);
      TrimEndBeforeSpaces(TrimStart(t), b);
    }
  }

  // ---------------------------------------------------------------------------
  // Array.prototype.join

  /** How `join` renders an element: `undefined` becomes the empty string. */
  function Render(v: Option<string>): string {
    if v.Some? then v.value else ""
  }

  /** `parts.join(separator)`: the empty array joins to the empty string. */
  function Join(parts: seq<Option<string>>, separator: string): (r: string)
    ensures |parts| == 0 ==> r == ""
    ensures |parts| == 1 ==> r == Render(parts[0])
  {
    if |parts| == 0 then ""
    else if |parts| == 1 then Render(parts[0])
    else Render(parts[0]) + separator + Join(parts[1..], separator)
  }

  /** A join starts with its first part's text. */
  lemma JoinStartsWithFirst(parts: seq<Option<string>>, separator: string)
    requires |parts| > 0
    ensures var first := Render(parts[0]);
      |first| <= |Join(parts, separator)| && Join(parts, separator)[..|first|] == first
  {
    if |parts| > 1 {
      var first := Render(parts[0]);
      assert (first + separator + Join(parts[1..], separator))[..|first|] == first;
    }
  }

  /** Joining two non-empty arrays back to back puts one separator between their joins. */
  lemma {:induction false} JoinAppend(a: seq<Option<string>>, b: seq<Option<string>>, separator: string)
    requires |a| > 0 && |b| > 0
    ensures Join(a + b, separator) == Join(a, separator) + separator + Join(b, separator)
    decreases |a|
  {
    assert (a + b)[0] == a[0];
    assert (a + b)[1..] == a[1..] + b;
    if |a| > 1 {
      JoinAppend(a[1..], b, separator);
      var first := Render(a[0]);
      assert first + separator + (Join(a[1..], separator) + separator + Join(b, separator))
          == (first + separator + Join(a[1..], separator)) + separator + Join(b, separator);
    } else {
      assert a[1..] + b == b;
    }
  }

  /** Every character of a join comes from the separator or from one of the parts. */
  lemma {:induction false} JoinChars(parts: seq<Option<string>>, separator: string)
    ensures forall c :: c in Join(parts, separator) ==>
      c in separator || exists i :: 0 <= i < |parts| && c in Render(parts[i])
  {
    if |parts| > 1 {
      var rest := parts[1..];
      JoinChars(rest, separator);
      forall c | c in Join(parts, separator)
        ensures c in separator || exists i :: 0 <= i < |parts| && c in Render(parts[i])
      {
        if c in Join(rest, separator) && c !in separator {
          var i :| 0 <= i < |rest| && c in Render(rest[i]);
          assert rest[i] == parts[i + 1];
        }
      }
    }
  }

  /** With a blank separator, a join is blank exactly when every rendered part is. */
  lemma {:induction false} JoinBlank(parts: seq<Option<string>>, separator: string)
    requires AllSpace(separator)
    ensures AllSpace(Join(parts, separator)) <==> forall i :: 0 <= i < |parts| ==> AllSpace(Render(parts[i]))
  {
    if |parts| > 1 {
      JoinBlank(parts[1..], separator);
      var rest := Join(parts[1..], separator);
      var whole := Render(parts[0]) + separator + rest;
      assert whole[..|Render(parts[0])|] == Render(parts[0]);
      assert whole[|Render(parts[0])| + |separator|..] == rest;
      if AllSpace(whole) {
        forall i | 0 <= i < |parts| ensures AllSpace(Render(parts[i])) {
          if i > 0 { assert parts[i] == parts[1..][i - 1]; }
        }
      }
      if forall i :: 0 <= i < |parts| ==> AllSpace(Render(parts[i])) {
        assert forall i :: 0 <= i < |parts[1..]| ==> parts[1..][i] == parts[i + 1];
      }
    }
  }

  /** `n` spaces. */
  function Blanks(n: nat): (r: string)
    ensures |r| == n && AllSpace(r)
  {
    seq(n, _ => ' ')
  }

  /**
   * Joining with a single space, where only the part at `k` renders as
   * non-empty text `t`: `t` surrounded by one space per other part.
   */
  lemma {:induction false} JoinSingle(parts: seq<Option<string>>, k: nat, t: string)
    requires k < |parts| && parts[k] == Some(t)
    requires forall j :: 0 <= j < |parts| && j != k ==> Render(parts[j]) == ""
    ensures Join(parts, " ") == Blanks(k) + t + Blanks(|parts| - 1 - k)
  {
    if k == 0 {
      JoinSingleFirst(parts, t);
    } else {
      var rest := parts[1..];
      assert forall j :: 0 <= j < |rest| ==> rest[j] == parts[j + 1];
      JoinSingle(rest, k - 1, t);
      assert Join(parts, " ") == " " + Join(rest, " ") by {
        assert Render(parts[0]) == "";
      }
      var after := Blanks(|parts| - 1 - k);
      BlanksSucc(k - 1);
      assert " " + (Blanks(k - 1) + t + after) == (" " + Blanks(k - 1)) + t + after;
    }
  }

  lemma BlanksSucc(n: nat)
    ensures Blanks(n + 1) == " " + Blanks(n)
  {
  }

  /** `JoinSingle` when the text is the first part. */
  lemma JoinSingleFirst(parts: seq<Option<string>>, t: string)
    requires 0 < |parts| && parts[0] == Some(t)
    requires forall j :: 0 < j < |parts| ==> Render(parts[j]) == ""
    ensures Join(parts, " ") == t + Blanks(|parts| - 1)
  {
    if |parts| > 1 {
      var rest := parts[1..];
      assert forall j :: 0 <= j < |rest| ==> rest[j] == parts[j + 1];
      JoinNothing(rest);
      BlanksSucc(|parts| - 2);
    }
  }

  /** Joining `n > 0` parts that all render empty with a single space gives `n - 1` spaces. */
  lemma {:induction false} JoinNothing(parts: seq<Option<string>>)
    requires |parts| > 0
    requires forall j :: 0 <= j < |parts| ==> Render(parts[j]) == ""
    ensures Join(parts, " ") == Blanks(|parts| - 1)
  {
    if |parts| > 1 {
      JoinNothing(parts[1..]);
      assert Blanks(|parts| - 1) == " " + Blanks(|parts| - 2);
    }
  }
}
