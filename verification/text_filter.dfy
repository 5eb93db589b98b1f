/** `filter_text(text, numbers_mode, preserve_case)`: the normaliser that turns
    raw text into a dictionary lookup key. Its source file is not part of this
    model; its behaviour is the one its parametrised tests fix:
      1. acute and grave accented vowels fold to their base vowel;
      2. letters are lower-cased unless `preserve_case` is set;
      3. characters other than letters, whitespace, `, . ? ! '`, `{ }` (and
         digits when `numbers_mode` is on) are deleted, leaving no gap;
      4. every run of two or more whitespace characters becomes one space. */
module TextFilter {
  import opened Strings

  /** The accent table: acute and grave vowels to their base vowel, case kept. */
  function FoldAccent(c: char): char
  {
    if c < '\U{C0}' then c else
    match c
    case '\U{E1}' => 'a'  case '\U{E9}' => 'e'  case '\U{ED}' => 'i'  case '\U{F3}' => 'o'  case '\U{FA}' => 'u'
    case '\U{E0}' => 'a'  case '\U{E8}' => 'e'  case '\U{EC}' => 'i'  case '\U{F2}' => 'o'  case '\U{F9}' => 'u'
    case '\U{C1}' => 'A'  case '\U{C9}' => 'E'  case '\U{CD}' => 'I'  case '\U{D3}' => 'O'  case '\U{DA}' => 'U'
    case '\U{C0}' => 'A'  case '\U{C8}' => 'E'  case '\U{CC}' => 'I'  case '\U{D2}' => 'O'  case '\U{D9}' => 'U'
    case _ => c
  }

  /** ASCII lower-casing: a capital becomes its own small letter, anything else is kept. */
  function ToLower(c: char): (d: char)
    ensures !IsUpper(d)
    ensures IsLetter(c) <==> IsLetter(d)
    ensures IsUpper(c) ==> IsLower(d) && d as int - 'a' as int == c as int - 'A' as int
    ensures !IsUpper(c) ==> d == c
  {
    if IsUpper(c) then (c as int + 32) as char else c
  }

  /** Accent folding followed, unless case is preserved, by lower-casing. */
  function Canonical(c: char, preserveCase: bool): char
  {
    var f := FoldAccent(c);
    if preserveCase then f else ToLower(f)
  }

  /** Sentence punctuation, the apostrophe and the braces that mark phoneme overrides. */
  predicate IsKeptPunctuation(c: char)
  {
    c == ',' || c == '.' || c == '?' || c == '!' || c == '\'' || c == '{' || c == '}'
  }

  /** The characters that survive the punctuation and number filters. */
  predicate Allowed(c: char, numbersMode: bool)
  {
    IsLetter(c) || IsSpace(c) || IsKeptPunctuation(c) || (numbersMode && IsDigit(c))
  }

  /** Steps 1-3: canonicalise each character and drop the disallowed ones. */
  function Sift(s: string, numbersMode: bool, preserveCase: bool): (r: string)
    ensures |r| <= |s|
    ensures forall i :: 0 <= i < |r| ==> Allowed(r[i], numbersMode)
    ensures !preserveCase ==> forall i :: 0 <= i < |r| ==> !IsUpper(r[i])
  {
    if |s| == 0 then ""
    else
      var c := Canonical(s[0], preserveCase);
      (if Allowed(c, numbersMode) then [c] else "") + Sift(s[1..], numbersMode, preserveCase)
  }

  /** No two whitespace characters are adjacent. */
  predicate SingleSpaced(s: string)
  {
    forall i :: 0 <= i < |s| - 1 ==> !(IsSpace(s[i]) && IsSpace(s[i + 1]))
  }

  /** Step 4: each run of at least two whitespace characters becomes one space;
      a lone whitespace character stays as it is. Two adjacent whitespace
      characters merge into one space until no such pair is left. */
  function Collapse(s: string): (r: string)
    decreases |s|
  {
    if |s| < 2 then s
    else if IsSpace(s[0]) && IsSpace(s[1]) then Collapse([' '] + s[2..])
    else [s[0]] + Collapse(s[1..])
  }

  /** `filter_text(text, numbers_mode, preserve_case)` */
  function FilterText(text: string, numbersMode: bool, preserveCase: bool): (r: string)
    ensures forall i :: 0 <= i < |r| ==> Allowed(r[i], numbersMode)
    ensures !preserveCase ==> forall i :: 0 <= i < |r| ==> !IsUpper(r[i])
    ensures !numbersMode ==> forall i :: 0 <= i < |r| ==> !IsDigit(r[i])
    ensures SingleSpaced(r)
    ensures |r| <= |text|
  {
    var s := Sift(text, numbersMode, preserveCase);
    CollapseProperties(s);
    Collapse(s)
  }

  // ---------------------------------------------------------------------------
  // Properties of the whitespace collapse

  /** Collapse is shorter, keeps allowed characters, leaves no adjacent whitespace,
      and starts with whitespace only if the input does. */
  lemma {:induction false} CollapseProperties(s: string)
    ensures |Collapse(s)| <= |s|
    ensures SingleSpaced(Collapse(s))
    ensures forall i :: 0 <= i < |Collapse(s)| ==> Collapse(s)[i] in s || Collapse(s)[i] == ' '
    ensures |Collapse(s)| > 0 && IsSpace(Collapse(s)[0]) ==> |s| > 0 && IsSpace(s[0])
    decreases |s|
  {
    if |s| < 2 {
    } else if IsSpace(s[0]) && IsSpace(s[1]) {
      var m := [' '] + s[2..];
      CollapseProperties(m);
      forall i | 0 <= i < |Collapse(s)|
        ensures Collapse(s)[i] in s || Collapse(s)[i] == ' '
      {
        var c := Collapse(s)[i];
        if c in m && c != ' ' {
          var j :| 0 <= j < |m| && m[j] == c;
          assert s[j + 1] == c;
        }
      }
    } else {
      var t := Collapse(s[1..]);
      CollapseProperties(s[1..]);
      assert Collapse(s) == [s[0]] + t;
      forall i | 0 <= i < |Collapse(s)|
        ensures Collapse(s)[i] in s || Collapse(s)[i] == ' '
      {
        if i > 0 {
          var c := t[i - 1];
          if c in s[1..] {
            var j :| 0 <= j < |s[1..]| && s[1..][j] == c;
            assert s[j + 1] == c;
          }
        }
      }
    }
  }

  /** Collapse leaves single-spaced text unchanged. */
  lemma {:induction false} CollapseSingleSpaced(s: string)
    requires SingleSpaced(s)
    ensures Collapse(s) == s
    decreases |s|
  {
    if |s| >= 2 {
      CollapseSingleSpaced(s[1..]);
    }
  }

  /** Collapse touches whitespace only: the non-whitespace characters are kept, in order. */
  lemma {:induction false} CollapseKeepsContent(s: string)
    ensures Without(Collapse(s), IsSpace) == Without(s, IsSpace)
    decreases |s|
  {
    if |s| < 2 {
    } else if IsSpace(s[0]) && IsSpace(s[1]) {
      CollapseKeepsContent([' '] + s[2..]);
      assert ([' '] + s[2..])[1..] == s[2..];
      assert s[1..][1..] == s[2..];
    } else {
      CollapseKeepsContent(s[1..]);
      WithoutAppend([s[0]], Collapse(s[1..]), IsSpace);
      assert s == [s[0]] + s[1..];
      WithoutAppend([s[0]], s[1..], IsSpace);
    }
  }

  // ---------------------------------------------------------------------------
  // Properties of the character filter

  /** A character already in filtered form: allowed, and unchanged by canonicalisation. */
  predicate Settled(c: char, numbersMode: bool, preserveCase: bool)
  {
    Allowed(c, numbersMode) && Canonical(c, preserveCase) == c
  }

  lemma SettledOutput(c: char, numbersMode: bool, preserveCase: bool)
    requires Allowed(c, numbersMode)
    requires !preserveCase ==> !IsUpper(c)
    ensures Settled(c, numbersMode, preserveCase)
  {
  }

  lemma {:induction false} SiftSettled(s: string, numbersMode: bool, preserveCase: bool)
    requires forall i :: 0 <= i < |s| ==> Settled(s[i], numbersMode, preserveCase)
    ensures Sift(s, numbersMode, preserveCase) == s
  {
    if |s| > 0 {
      SiftSettled(s[1..], numbersMode, preserveCase);
    }
  }

  lemma {:induction false} SiftAppend(a: string, b: string, numbersMode: bool, preserveCase: bool)
    ensures Sift(a + b, numbersMode, preserveCase) == Sift(a, numbersMode, preserveCase) + Sift(b, numbersMode, preserveCase)
  {
    if |a| == 0 {
      assert a + b == b;
    } else {
      assert (a + b)[1..] == a[1..] + b;
      SiftAppend(a[1..], b, numbersMode, preserveCase);
    }
  }

  /** Canonicalisation never turns whitespace into something else or back. */
  lemma CanonicalSpace(c: char, preserveCase: bool)
    ensures IsSpace(Canonical(c, preserveCase)) <==> IsSpace(c)
  {
  }

  /** Sifting and removing whitespace commute. */
  lemma {:induction false} SiftWithoutSpace(s: string, numbersMode: bool, preserveCase: bool)
    ensures Without(Sift(s, numbersMode, preserveCase), IsSpace) == Sift(Without(s, IsSpace), numbersMode, preserveCase)
  {
    if |s| > 0 {
      SiftWithoutSpace(s[1..], numbersMode, preserveCase);
      CanonicalSpace(s[0], preserveCase);
      var c := Canonical(s[0], preserveCase);
      var head := if Allowed(c, numbersMode) then [c] else "";
      WithoutAppend(head, Sift(s[1..], numbersMode, preserveCase), IsSpace);
      var keep := if IsSpace(s[0]) then "" else [s[0]];
      SiftAppend(keep, Without(s[1..], IsSpace), numbersMode, preserveCase);
    }
  }

  /** Deleted characters leave no gap: the whitespace of the sifted text is
      exactly the whitespace of the input, in order. */
  lemma {:induction false} SiftNoGap(s: string, numbersMode: bool, preserveCase: bool)
    ensures Without(Sift(s, numbersMode, preserveCase), NotSpace) == Without(s, NotSpace)
  {
    if |s| > 0 {
      SiftNoGap(s[1..], numbersMode, preserveCase);
      CanonicalSpace(s[0], preserveCase);
      var c := Canonical(s[0], preserveCase);
      var head := if Allowed(c, numbersMode) then [c] else "";
      WithoutAppend(head, Sift(s[1..], numbersMode, preserveCase), NotSpace);
      assert IsSpace(s[0]) ==> c == s[0];
    }
  }

  // ---------------------------------------------------------------------------
  // Properties of filter_text

  /** Filtering already filtered text changes nothing. */
  lemma FilterTextIdempotent(text: string, numbersMode: bool, preserveCase: bool)
    ensures FilterText(FilterText(text, numbersMode, preserveCase), numbersMode, preserveCase)
         == FilterText(text, numbersMode, preserveCase)
  {
    var r := FilterText(text, numbersMode, preserveCase);
    forall i | 0 <= i < |r|
      ensures Settled(r[i], numbersMode, preserveCase)
    {
      SettledOutput(r[i], numbersMode, preserveCase);
    }
    SiftSettled(r, numbersMode, preserveCase);
    CollapseSingleSpaced(r);
  }

  /** Text that is already lower-case, allowed and single-spaced is returned as is. */
  lemma FilterTextFixpoint(text: string, numbersMode: bool, preserveCase: bool)
    requires forall i :: 0 <= i < |text| ==> Allowed(text[i], numbersMode)
    requires !preserveCase ==> forall i :: 0 <= i < |text| ==> !IsUpper(text[i])
    requires SingleSpaced(text)
    ensures FilterText(text, numbersMode, preserveCase) == text
  {
    forall i | 0 <= i < |text|
      ensures Settled(text[i], numbersMode, preserveCase)
    {
      SettledOutput(text[i], numbersMode, preserveCase);
    }
    SiftSettled(text, numbersMode, preserveCase);
    CollapseSingleSpaced(text);
  }

  /** Apart from whitespace, the result is exactly the canonicalised allowed
      characters of the input, in input order: deletion leaves no gap behind. */
  lemma FilterTextContent(text: string, numbersMode: bool, preserveCase: bool)
    ensures Without(FilterText(text, numbersMode, preserveCase), IsSpace)
         == Sift(Without(text, IsSpace), numbersMode, preserveCase)
  {
    CollapseKeepsContent(Sift(text, numbersMode, preserveCase));
    SiftWithoutSpace(text, numbersMode, preserveCase);
  }

  /** The digits of the input: all kept in numbers mode, none otherwise. */
  lemma {:induction false} SiftDigits(s: string, numbersMode: bool, preserveCase: bool)
    ensures Without(Sift(s, numbersMode, preserveCase), NotDigit)
         == if numbersMode then Without(s, NotDigit) else ""
  {
    if |s| > 0 {
      SiftDigits(s[1..], numbersMode, preserveCase);
      CanonicalDigit(s[0], preserveCase);
      var c := Canonical(s[0], preserveCase);
      var head := if Allowed(c, numbersMode) then [c] else "";
      WithoutAppend(head, Sift(s[1..], numbersMode, preserveCase), NotDigit);
    }
  }

  /** Canonicalisation maps digits to themselves and nothing else to a digit. */
  lemma CanonicalDigit(c: char, preserveCase: bool)
    ensures IsDigit(Canonical(c, preserveCase)) <==> IsDigit(c)
    ensures IsDigit(c) ==> Canonical(c, preserveCase) == c
  {
  }

  lemma FilterTextDigits(text: string, numbersMode: bool, preserveCase: bool)
    ensures Without(FilterText(text, numbersMode, preserveCase), NotDigit)
         == if numbersMode then Without(text, NotDigit) else ""
  {
    var s := Sift(text, numbersMode, preserveCase);
    CollapseKeepsContent(s);
    SiftDigits(text, numbersMode, preserveCase);
    WithoutTwice(Collapse(s));
    WithoutTwice(s);
  }

  /** Deleting whitespace, then non-digits, is deleting non-digits. */
  lemma {:induction false} WithoutTwice(s: string)
    ensures Without(Without(s, IsSpace), NotDigit) == Without(s, NotDigit)
  {
    if |s| > 0 {
      WithoutTwice(s[1..]);
      var keep := if IsSpace(s[0]) then "" else [s[0]];
      WithoutAppend(keep, Without(s[1..], IsSpace), NotDigit);
    }
  }

  // ---------------------------------------------------------------------------
  // Filtering is compositional where the pieces do not meet in whitespace

  lemma {:induction false} CollapseAppend(a: string, b: string)
    requires |a| == 0 || |b| == 0 || !IsSpace(a[|a| - 1]) || !IsSpace(b[0])
    ensures Collapse(a + b) == Collapse(a) + Collapse(b)
    decreases |a|
  {
    if |a| == 0 {
      assert a + b == b;
    } else if |a| == 1 {
      if |b| > 0 {
        assert (a + b)[1..] == b;
      } else {
        assert a + b == a;
      }
    } else if IsSpace(a[0]) && IsSpace(a[1]) {
      var m := [' '] + a[2..];
      assert [' '] + (a + b)[2..] == m + b;
      CollapseAppend(m, b);
    } else {
      assert (a + b)[1..] == a[1..] + b;
      CollapseAppend(a[1..], b);
    }
  }

  /** Filtering two pieces whose filtered forms do not meet in whitespace is
      filtering each piece. */
  lemma FilterTextAppend(a: string, b: string, numbersMode: bool, preserveCase: bool)
    requires var sa := Sift(a, numbersMode, preserveCase);
             var sb := Sift(b, numbersMode, preserveCase);
             |sa| == 0 || |sb| == 0 || !IsSpace(sa[|sa| - 1]) || !IsSpace(sb[0])
    ensures FilterText(a + b, numbersMode, preserveCase)
         == FilterText(a, numbersMode, preserveCase) + FilterText(b, numbersMode, preserveCase)
  {
    SiftAppend(a, b, numbersMode, preserveCase);
    CollapseAppend(Sift(a, numbersMode, preserveCase), Sift(b, numbersMode, preserveCase));
  }

  /** A run of two or more whitespace characters becomes a single space. */
  lemma {:induction false} CollapseRun(run: string, t: string)
    requires |run| >= 2 && forall i :: 0 <= i < |run| ==> IsSpace(run[i])
    requires |t| == 0 || !IsSpace(t[0])
    ensures Collapse(run + t) == " " + Collapse(t)
    decreases |run|
  {
    var m := [' '] + run[2..];
    assert [' '] + (run + t)[2..] == m + t;
    if |run| == 2 {
      if |t| > 0 {
        assert (m + t)[1..] == t;
      } else {
        assert m + t == " ";
      }
    } else {
      CollapseRun(m, t);
    }
  }
}
