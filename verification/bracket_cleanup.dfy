/** The output cleanup of `Infer.__call__`: each phoneme string the phonemiser
    returns, such as `[K][AA1][N]`, has every `][` replaced by a space and
    every remaining `[` and `]` deleted, giving `K AA1 N`. */
module BracketCleanup {
  import opened Strings

  predicate IsOpen(c: char) { c == '[' }
  predicate IsClose(c: char) { c == ']' }

  predicate IsBracket(c: char) { c == '[' || c == ']' }

  /** The characters the cleanup may add or remove: brackets and the space. */
  predicate IsLayout(c: char) { c == '[' || c == ']' || c == ' ' }

  /** `s.replace('][', ' ')`: occurrences found left to right, never overlapping. */
  function ReplaceSeams(s: string): (r: string)
    ensures |r| <= |s|
  {
    if |s| < 2 then s
    else if s[0] == ']' && s[1] == '[' then " " + ReplaceSeams(s[2..])
    else [s[0]] + ReplaceSeams(s[1..])
  }

  /** The cleanup of one string. The two deletions of the source, first of
      `[` and then of `]`, are one deletion of both (`TwoPasses`). */
  function Clean(s: string): (r: string)
    ensures forall i :: 0 <= i < |r| ==> !IsBracket(r[i])
    ensures |r| <= |s|
  {
    Without(ReplaceSeams(s), IsBracket)
  }

  /** Deleting `[` and then `]` is deleting both brackets at once. */
  lemma {:induction false} TwoPasses(s: string)
    ensures Without(Without(s, IsOpen), IsClose) == Without(s, IsBracket)
  {
    if |s| > 0 {
      TwoPasses(s[1..]);
      var keep := if IsOpen(s[0]) then "" else [s[0]];
      WithoutAppend(keep, Without(s[1..], IsOpen), IsClose);
    }
  }

  /** The cleanup of every result, in order. */
  function Cleanup(results: seq<string>): (r: seq<string>)
    ensures |r| == |results|
    ensures forall i :: 0 <= i < |r| ==> r[i] == Clean(results[i])
  {
    if |results| == 0 then [] else [Clean(results[0])] + Cleanup(results[1..])
  }

  // ---------------------------------------------------------------------------
  // The seam replacement

  /** One step of the replacement on a string that starts with a seam, alone
      and followed by more text. */
  lemma SeamFirst(a: string, b: string)
    requires |a| >= 2 && a[0] == ']' && a[1] == '['
    ensures ReplaceSeams(a) == " " + ReplaceSeams(a[2..])
    ensures ReplaceSeams(a + b) == " " + ReplaceSeams(a[2..] + b)
  {
    var s := a + b;
    assert s[0] == a[0] && s[1] == a[1];
    assert s[2..] == a[2..] + b;
  }

  /** One step of the replacement on a string whose first character starts no
      seam, alone and followed by more text. */
  lemma KeepFirst(a: string, b: string)
    requires |a| >= 2 && !(a[0] == ']' && a[1] == '[')
    ensures ReplaceSeams(a) == [a[0]] + ReplaceSeams(a[1..])
    ensures ReplaceSeams(a + b) == [a[0]] + ReplaceSeams(a[1..] + b)
  {
    var s := a + b;
    assert s[0] == a[0] && s[1] == a[1];
    assert s[1..] == a[1..] + b;
  }

  /** A single character followed by text that does not complete a seam with it. */
  lemma KeepSingle(a: string, b: string)
    requires |a| == 1 && !(|b| > 0 && a[0] == ']' && b[0] == '[')
    ensures ReplaceSeams(a + b) == ReplaceSeams(a) + ReplaceSeams(b)
  {
    var s := a + b;
    if |b| == 0 {
      assert s == a;
    } else {
      assert s[0] == a[0] && s[1] == b[0];
      assert s[1..] == b;
    }
  }

  /** Re-association of a three-part concatenation, kept apart so that the
      induction below sees one sequence equation at a time. */
  lemma Regroup(p: string, x: string, y: string)
    ensures p + (x + y) == p + x + y
  {
  }

  /** Replacing seams distributes over a concatenation that does not itself form a seam. */
  lemma {:induction false} ReplaceSeamsAppend(a: string, b: string)
    requires !(|a| > 0 && |b| > 0 && a[|a| - 1] == ']' && b[0] == '[')
    ensures ReplaceSeams(a + b) == ReplaceSeams(a) + ReplaceSeams(b)
    decreases |a|
  {
    if |a| == 0 {
      assert a + b == b;
    } else if |a| == 1 {
      KeepSingle(a, b);
    } else if a[0] == ']' && a[1] == '[' {
      assert |a[2..]| > 0 ==> a[2..][|a[2..]| - 1] == a[|a| - 1];
      ReplaceSeamsAppend(a[2..], b);
      SeamFirst(a, b);
      Regroup(" ", ReplaceSeams(a[2..]), ReplaceSeams(b));
    } else {
      assert a[1..][|a[1..]| - 1] == a[|a| - 1];
      ReplaceSeamsAppend(a[1..], b);
      KeepFirst(a, b);
      Regroup([a[0]], ReplaceSeams(a[1..]), ReplaceSeams(b));
    }
  }

  /** Text without brackets has no seam to replace. */
  lemma {:induction false} ReplaceSeamsPlain(s: string)
    requires forall i :: 0 <= i < |s| ==> !IsBracket(s[i])
    ensures ReplaceSeams(s) == s
  {
    if |s| >= 2 {
      ReplaceSeamsPlain(s[1..]);
    }
  }

  /** Every `][` becomes one space, and the two sides are cleaned on their own. */
  lemma Seam(a: string, b: string)
    ensures Clean(a + "][" + b) == Clean(a) + " " + Clean(b)
  {
    assert a + "][" + b == a + ("][" + b);
    ReplaceSeamsAppend(a, "][" + b);
    assert ("][" + b)[2..] == b;
    assert ReplaceSeams("][" + b) == " " + ReplaceSeams(b);
    var x := ReplaceSeams(a);
    var y := ReplaceSeams(b);
    WithoutAppend(x, " " + y, IsBracket);
    WithoutAppend(" ", y, IsBracket);
  }

  // ---------------------------------------------------------------------------
  // Nothing but layout changes, and a second cleanup changes nothing

  lemma {:induction false} ReplaceSeamsSkeleton(s: string)
    ensures Without(ReplaceSeams(s), IsLayout) == Without(s, IsLayout)
  {
    if |s| < 2 {
    } else if s[0] == ']' && s[1] == '[' {
      ReplaceSeamsSkeleton(s[2..]);
      WithoutAppend(" ", ReplaceSeams(s[2..]), IsLayout);
      assert s == s[..2] + s[2..];
      WithoutAppend(s[..2], s[2..], IsLayout);
      assert s[..2][1..] == "[";
    } else {
      ReplaceSeamsSkeleton(s[1..]);
      WithoutAppend([s[0]], ReplaceSeams(s[1..]), IsLayout);
      assert s == [s[0]] + s[1..];
      WithoutAppend([s[0]], s[1..], IsLayout);
    }
  }

  /** Deleting some layout characters first does not change what deleting all layout leaves. */
  lemma {:induction false} WithoutLayout(s: string, drop: char -> bool)
    requires forall c :: drop(c) ==> IsLayout(c)
    ensures Without(Without(s, drop), IsLayout) == Without(s, IsLayout)
  {
    if |s| > 0 {
      WithoutLayout(s[1..], drop);
      var keep := if drop(s[0]) then "" else [s[0]];
      WithoutAppend(keep, Without(s[1..], drop), IsLayout);
    }
  }

  /** The cleanup only touches brackets and spaces: deleting those from input
      and output leaves the same string. */
  lemma CleanSkeleton(s: string)
    ensures Without(Clean(s), IsLayout) == Without(s, IsLayout)
  {
    ReplaceSeamsSkeleton(s);
    WithoutLayout(ReplaceSeams(s), IsBracket);
  }

  /** Text without brackets is left as it is. */
  lemma CleanPlain(s: string)
    requires forall i :: 0 <= i < |s| ==> !IsBracket(s[i])
    ensures Clean(s) == s
  {
    ReplaceSeamsPlain(s);
    WithoutNothing(s, IsBracket);
  }

  /** A second cleanup leaves the result unchanged. */
  lemma CleanIdempotent(s: string)
    ensures Clean(Clean(s)) == Clean(s)
  {
    CleanPlain(Clean(s));
  }

  /** The cleanup of a list distributes over concatenation of lists. */
  lemma {:induction false} CleanupAppend(a: seq<string>, b: seq<string>)
    ensures Cleanup(a + b) == Cleanup(a) + Cleanup(b)
  {
    if |a| > 0 {
      assert (a + b)[1..] == a[1..] + b;
      CleanupAppend(a[1..], b);
    } else {
      assert a + b == b;
    }
  }

  // ---------------------------------------------------------------------------
  // Bracketed phoneme lists

  /** A phoneme as the phoneme tokenizer spells it: `[` + symbol + `]`. */
  function Wrap(p: string): string {
    "[" + p + "]"
  }

  function WrapAll(ps: seq<string>): (r: seq<string>)
    ensures |r| == |ps|
    ensures forall i :: 0 <= i < |r| ==> r[i] == Wrap(ps[i])
  {
    if |ps| == 0 then [] else [Wrap(ps[0])] + WrapAll(ps[1..])
  }

  /** Cleaning the concatenation of bracketed, bracket-free phonemes gives the
      phonemes joined by single spaces. */
  lemma {:induction false} CleanWrapped(ps: seq<string>)
    requires forall i :: 0 <= i < |ps| ==> forall k :: 0 <= k < |ps[i]| ==> !IsBracket(ps[i][k])
    ensures Clean(Flatten(WrapAll(ps))) == Join(ps, " ")
  {
    if |ps| == 0 {
    } else {
      WrappedForm(ps);
      var inner := Seams(ps);
      assert Flatten(WrapAll(ps)) == "[" + inner + "]";
      SeamsClean(ps);
      assert "[" + inner + "]" == "[" + (inner + "]");
      ReplaceSeamsAppend("[", inner + "]");
      if |inner| > 0 {
        ReplaceSeamsAppend(inner, "]");
      } else {
        assert inner + "]" == "]";
      }
      var r := ReplaceSeams(inner);
      assert ReplaceSeams(Flatten(WrapAll(ps))) == "[" + (r + "]");
      WithoutAppend("[", r + "]", IsBracket);
      WithoutAppend(r, "]", IsBracket);
    }
  }

  /** The phonemes joined by `][`: what lies between the outer brackets. */
  function Seams(ps: seq<string>): string
    requires |ps| > 0
  {
    if |ps| == 1 then ps[0] else ps[0] + "][" + Seams(ps[1..])
  }

  lemma {:induction false} WrappedForm(ps: seq<string>)
    requires |ps| > 0
    ensures Flatten(WrapAll(ps)) == "[" + Seams(ps) + "]"
  {
    if |ps| == 1 {
      assert WrapAll(ps)[1..] == [];
    } else {
      WrappedForm(ps[1..]);
      assert WrapAll(ps)[1..] == WrapAll(ps[1..]);
    }
  }

  lemma {:induction false} SeamsClean(ps: seq<string>)
    requires |ps| > 0
    requires forall i :: 0 <= i < |ps| ==> forall k :: 0 <= k < |ps[i]| ==> !IsBracket(ps[i][k])
    ensures Clean(Seams(ps)) == Join(ps, " ")
  {
    CleanPlain(ps[0]);
    if |ps| > 1 {
      SeamsClean(ps[1..]);
      Seam(ps[0], Seams(ps[1..]));
    }
  }

  /** A leading `[` before bracket-free text is dropped. */
  lemma CleanOpen(p: string)
    requires forall i :: 0 <= i < |p| ==> !IsBracket(p[i])
    ensures Clean("[" + p) == p
  {
    ReplaceSeamsAppend("[", p);
    ReplaceSeamsPlain(p);
    WithoutAppend("[", p, IsBracket);
    WithoutNothing(p, IsBracket);
  }

  /** A trailing `]` after bracket-free text is dropped. */
  lemma CleanClose(p: string)
    requires forall i :: 0 <= i < |p| ==> !IsBracket(p[i])
    ensures Clean(p + "]") == p
  {
    ReplaceSeamsAppend(p, "]");
    ReplaceSeamsPlain(p);
    WithoutAppend(p, "]", IsBracket);
    WithoutNothing(p, IsBracket);
  }

  /** `CleanExample` with its input and output written as their pieces. */
  lemma CleanExamplePieces()
    ensures Clean(("[" + "K") + "][" + ("AA1" + "][" + ("N" + "]"))) == "K" + " " + "AA1" + " " + "N"
  {
    Seam("[" + "K", "AA1" + "][" + ("N" + "]"));
    Seam("AA1", "N" + "]");
    CleanOpen("K");
    CleanPlain("AA1");
    CleanClose("N");
  }

  /** The literal input of `CleanExample` is the concatenation of its pieces. */
  lemma ExampleInput()
    ensures "[K][AA1][N]" == ("[" + "K") + "][" + ("AA1" + "][" + ("N" + "]"))
  {
  }

  /** The literal output of `CleanExample` is the concatenation of its pieces. */
  lemma ExampleOutput()
    ensures "K AA1 N" == "K" + " " + "AA1" + " " + "N"
  {
  }

  /** A bracketed phoneme string comes out as its phonemes separated by single spaces. */
  lemma CleanExample()
    ensures Clean("[K][AA1][N]") == "K AA1 N"
  {
    ExampleInput();
    ExampleOutput();
    CleanExamplePieces();
  }
}
