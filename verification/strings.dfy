/** Character classes and the Python string helpers the model relies on:
    `''.join`, `' '.join`, `str.split()` and character deletion. */
module Strings {

  /** The whitespace characters the model recognises. */
  predicate IsSpace(c: char) {
    c == ' ' || c == '\t' || c == '\n' || c == '\r'
  }

  predicate IsDigit(c: char) {
    '0' <= c <= '9'
  }

  predicate NotDigit(c: char) {
    !IsDigit(c)
  }

  predicate NotSpace(c: char) {
    !IsSpace(c)
  }

  predicate IsUpper(c: char) {
    'A' <= c <= 'Z'
  }

  predicate IsLower(c: char) {
    'a' <= c <= 'z'
  }

  predicate IsLetter(c: char) {
    IsUpper(c) || IsLower(c)
  }

  /** A token as `str.split()` produces it: non-empty, without whitespace. */
  predicate IsToken(t: string) {
    |t| > 0 && forall i :: 0 <= i < |t| ==> !IsSpace(t[i])
  }

  /** Concatenation of a list of sequences, in order; on strings, `''.join(parts)`. */
  function Flatten<T>(chunks: seq<seq<T>>): (s: seq<T>)
  {
    if |chunks| == 0 then [] else chunks[0] + Flatten(chunks[1..])
  }

  /** `sep.join(parts)` */
  function Join(parts: seq<string>, sep: string): (s: string)
    ensures |parts| == 1 ==> s == parts[0]
  {
    if |parts| == 0 then ""
    else if |parts| == 1 then parts[0]
    else parts[0] + sep + Join(parts[1..], sep)
  }

  /** The string with every character satisfying `drop` removed, order kept. */
  function Without(s: string, drop: char -> bool): (r: string)
    ensures |r| <= |s|
    ensures forall i :: 0 <= i < |r| ==> !drop(r[i])
  {
    if |s| == 0 then ""
    else (if drop(s[0]) then "" else [s[0]]) + Without(s[1..], drop)
  }

  lemma {:induction false} WithoutAppend(a: string, b: string, drop: char -> bool)
    ensures Without(a + b, drop) == Without(a, drop) + Without(b, drop)
  {
    if |a| == 0 {
      assert a + b == b;
    } else {
      assert (a + b)[1..] == a[1..] + b;
      WithoutAppend(a[1..], b, drop);
    }
  }

  /** Removing characters that are absent changes nothing. */
  lemma {:induction false} WithoutNothing(s: string, drop: char -> bool)
    requires forall i :: 0 <= i < |s| ==> !drop(s[i])
    ensures Without(s, drop) == s
  {
    if |s| > 0 {
      WithoutNothing(s[1..], drop);
    }
  }

  /** Length of the leading run of non-whitespace characters. */
  function TokenLen(s: string): (k: nat)
    ensures k <= |s|
    ensures forall i :: 0 <= i < k ==> !IsSpace(s[i])
    ensures k < |s| ==> IsSpace(s[k])
  {
    if |s| == 0 || IsSpace(s[0]) then 0 else 1 + TokenLen(s[1..])
  }

  /** `s.split()`: the maximal runs of non-whitespace characters, in order. */
  function Split(s: string): (tokens: seq<string>)
    ensures forall i :: 0 <= i < |tokens| ==> IsToken(tokens[i])
    decreases |s|
  {
    if |s| == 0 then []
    else if IsSpace(s[0]) then Split(s[1..])
    else
      var k := TokenLen(s);
      [s[..k]] + Split(s[k..])
  }

  /** Splitting loses nothing but whitespace. */
  lemma {:induction false} SplitKeepsContent(s: string)
    ensures Flatten(Split(s)) == Without(s, IsSpace)
    decreases |s|
  {
    if |s| == 0 {
    } else if IsSpace(s[0]) {
      SplitKeepsContent(s[1..]);
    } else {
      var k := TokenLen(s);
      SplitKeepsContent(s[k..]);
      assert s == s[..k] + s[k..];
      WithoutAppend(s[..k], s[k..], IsSpace);
      WithoutNothing(s[..k], IsSpace);
      assert Split(s)[1..] == Split(s[k..]);
    }
  }

  lemma {:induction false} TokenLenOfToken(t: string, rest: string)
    requires IsToken(t)
    requires |rest| == 0 || IsSpace(rest[0])
    ensures TokenLen(t + rest) == |t|
    decreases |t|
  {
    if |t| == 1 {
      assert (t + rest)[1..] == rest;
    } else {
      assert (t + rest)[1..] == t[1..] + rest;
      TokenLenOfToken(t[1..], rest);
    }
  }

  /** Splitting a single-space join of tokens gives the tokens back. */
  lemma {:induction false} SplitJoin(tokens: seq<string>)
    requires forall i :: 0 <= i < |tokens| ==> IsToken(tokens[i])
    ensures Split(Join(tokens, " ")) == tokens
    decreases |tokens|
  {
    if |tokens| == 0 {
    } else if |tokens| == 1 {
      var t := tokens[0];
      TokenLenOfToken(t, "");
      assert t + "" == t;
      assert t[|t|..] == "";
    } else {
      var t := tokens[0];
      var rest := " " + Join(tokens[1..], " ");
      assert Join(tokens, " ") == t + rest;
      TokenLenOfToken(t, rest);
      assert (t + rest)[..|t|] == t;
      assert (t + rest)[|t|..] == rest;
      assert rest[1..] == Join(tokens[1..], " ");
      SplitJoin(tokens[1..]);
    }
  }
}
