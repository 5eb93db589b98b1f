/** `DictReader`: the pronunciation lexicon, read line by line into a map from
    a word to its ordered list of pronunciation variants. Its source file is
    not part of this model; its behaviour is the one its tests fix:
      - a line is `WORD PH1 PH2 ...`, split on whitespace;
      - `;;;` comment lines and lines with fewer than two tokens are skipped;
      - each entry line appends its phonemes to the variant list of its word;
      - a word of the form `BASE(n)` is also appended to the list of `BASE`,
        and keeps its own key as well. */
module DictReader {
  import opened Strings
  import opened Results

  /** One parsed lexicon line. */
  datatype Entry = Entry(word: string, phonemes: seq<string>)

  /** Word to variants; variant 0 is the first in lexicon order. */
  type Lexicon = map<string, seq<seq<string>>>

  predicate IsComment(line: string) {
    |line| >= 3 && line[..3] == ";;;"
  }

  /** A line is an entry when it is no comment and has a word and at least one phoneme. */
  function ParseLine(line: string): (e: Option<Entry>)
    ensures e.Some? <==> !IsComment(line) && |Split(line)| >= 2
    ensures e.Some? ==> IsToken(e.value.word) && |e.value.phonemes| >= 1
    ensures e.Some? ==> forall j :: 0 <= j < |e.value.phonemes| ==> IsToken(e.value.phonemes[j])
  {
    if IsComment(line) then None
    else
      var tokens := Split(line);
      if |tokens| < 2 then None else Some(Entry(tokens[0], tokens[1..]))
  }

  /** Number of decimal digits at the end of `s`. */
  function TrailingDigits(s: string): (k: nat)
    ensures k <= |s|
    ensures forall i :: |s| - k <= i < |s| ==> IsDigit(s[i])
    ensures k < |s| ==> !IsDigit(s[|s| - k - 1])
  {
    if |s| == 0 || !IsDigit(s[|s| - 1]) then 0 else 1 + TrailingDigits(s[..|s| - 1])
  }

  predicate IsNumeral(d: string) {
    |d| > 0 && forall i :: 0 <= i < |d| ==> IsDigit(d[i])
  }

  /** The base word of a numbered variant: `Some("console")` for `console(1)`,
      `None` for a word without a `(digits)` suffix or with an empty base. */
  function VariantBase(w: string): (b: Option<string>)
    ensures b.Some? ==> |b.value| > 0 && exists d :: IsNumeral(d) && w == b.value + "(" + d + ")"
    ensures b.Some? ==> |b.value| + 3 <= |w|
  {
    if |w| < 2 || w[|w| - 1] != ')' then None
    else
      var inner := w[..|w| - 1];
      var k := TrailingDigits(inner);
      if k == 0 || k == |inner| || inner[|inner| - k - 1] != '(' then None
      else
        var base := inner[..|inner| - k - 1];
        if |base| == 0 then None
        else
          var d := inner[|inner| - k..];
          assert w == base + "(" + d + ")";
          Some(base)
  }

  /** Every numbered variant word is recognised, with its base. */
  lemma VariantBaseOf(base: string, d: string)
    requires |base| > 0 && IsNumeral(d)
    ensures VariantBase(base + "(" + d + ")") == Some(base)
  {
    var w := base + "(" + d + ")";
    var inner := w[..|w| - 1];
    assert inner == base + "(" + d;
    TrailingDigitsOf(base + "(", d);
    assert inner[..|inner| - |d| - 1] == base;
  }

  lemma {:induction false} TrailingDigitsOf(a: string, d: string)
    requires |a| > 0 && !IsDigit(a[|a| - 1])
    requires forall i :: 0 <= i < |d| ==> IsDigit(d[i])
    ensures TrailingDigits(a + d) == |d|
    decreases |d|
  {
    if |d| > 0 {
      assert (a + d)[..|a + d| - 1] == a + d[..|d| - 1];
      TrailingDigitsOf(a, d[..|d| - 1]);
    } else {
      assert a + d == a;
    }
  }

  function Variants0(lex: Lexicon, w: string): seq<seq<string>>
  {
    if w in lex then lex[w] else []
  }

  /** Appends a variant to the list of `w`, creating the key if needed. */
  function Append(lex: Lexicon, w: string, v: seq<string>): Lexicon
  {
    lex[w := Variants0(lex, w) + [v]]
  }

  /** Adds one entry: to its own word, and to its base word when it is a numbered variant. */
  function Add(lex: Lexicon, e: Entry): Lexicon
  {
    var own := Append(lex, e.word, e.phonemes);
    match VariantBase(e.word)
    case None => own
    case Some(base) => Append(own, base, e.phonemes)
  }

  /** Every key holds at least one variant, and every variant at least one phoneme. */
  predicate WellFormed(lex: Lexicon) {
    forall w :: w in lex ==> |lex[w]| > 0 && forall j :: 0 <= j < |lex[w]| ==> |lex[w][j]| > 0
  }

  /** Reading the lexicon: a fold of `Add` over the entry lines, in order. */
  function Load(lines: seq<string>): (lex: Lexicon)
    ensures WellFormed(lex)
  {
    if |lines| == 0 then map[]
    else
      var lex := Load(lines[..|lines| - 1]);
      match ParseLine(lines[|lines| - 1])
      case None => lex
      case Some(e) =>
        AddWellFormed(lex, e);
        Add(lex, e)
  }

  lemma AppendWellFormed(lex: Lexicon, w: string, v: seq<string>)
    requires WellFormed(lex) && |v| > 0
    ensures WellFormed(Append(lex, w, v))
  {
    var r := Append(lex, w, v);
    forall u | u in r
      ensures |r[u]| > 0 && forall j :: 0 <= j < |r[u]| ==> |r[u][j]| > 0
    {
      if u == w {
        assert r[u] == Variants0(lex, w) + [v];
      }
    }
  }

  lemma AddWellFormed(lex: Lexicon, e: Entry)
    requires WellFormed(lex) && |e.phonemes| > 0
    ensures WellFormed(Add(lex, e))
  {
    AppendWellFormed(lex, e.word, e.phonemes);
    if VariantBase(e.word).Some? {
      AppendWellFormed(Append(lex, e.word, e.phonemes), VariantBase(e.word).value, e.phonemes);
    }
  }

  /** `dict[word][index]`, with a miss instead of an exception. */
  function Lookup(lex: Lexicon, w: string, index: nat): (r: Option<seq<string>>)
    ensures r.Some? <==> w in lex && index < |lex[w]|
    ensures r.Some? ==> r.value == lex[w][index]
  {
    if w in lex && index < |lex[w]| then Some(lex[w][index]) else None
  }

  // ---------------------------------------------------------------------------
  // A reference definition of the variant lists

  /** Whether the entry contributes a variant to `w`. */
  predicate Feeds(e: Entry, w: string) {
    e.word == w || VariantBase(e.word) == Some(w)
  }

  /** The phonemes of every entry line that feeds `w`, in lexicon order. */
  function Variants(lines: seq<string>, w: string): seq<seq<string>>
  {
    if |lines| == 0 then []
    else
      var rest := Variants(lines[..|lines| - 1], w);
      match ParseLine(lines[|lines| - 1])
      case None => rest
      case Some(e) => if Feeds(e, w) then rest + [e.phonemes] else rest
  }

  lemma AddVariants(lex: Lexicon, e: Entry, w: string)
    ensures Variants0(Add(lex, e), w) == if Feeds(e, w) then Variants0(lex, w) + [e.phonemes] else Variants0(lex, w)
    ensures w in Add(lex, e) <==> w in lex || Feeds(e, w)
  {
  }

  /** The lexicon holds exactly the words some entry line feeds, and each
      word's list is exactly the phonemes of those lines, in lexicon order. */
  lemma {:induction false} LoadVariants(lines: seq<string>, w: string)
    ensures w in Load(lines) <==> |Variants(lines, w)| > 0
    ensures Variants0(Load(lines), w) == Variants(lines, w)
  {
    if |lines| > 0 {
      LoadVariants(lines[..|lines| - 1], w);
      match ParseLine(lines[|lines| - 1])
      case None =>
      case Some(e) =>
        AddVariants(Load(lines[..|lines| - 1]), e, w);
    }
  }

  /** Variant `index` of `w` is the `index`-th line feeding `w`, and there is
      none beyond the last such line. */
  lemma LookupVariants(lines: seq<string>, w: string, index: nat)
    ensures Lookup(Load(lines), w, index)
         == if index < |Variants(lines, w)| then Some(Variants(lines, w)[index]) else None
  {
    LoadVariants(lines, w);
  }

  // ---------------------------------------------------------------------------
  // Reading lines built from tokens

  /** A lexicon line written as its tokens separated by single spaces. */
  function EntryLine(word: string, phonemes: seq<string>): string
  {
    Join([word] + phonemes, " ")
  }

  /** A line written from a word and at least one phoneme reads back as that entry. */
  lemma ParseEntryLine(word: string, phonemes: seq<string>)
    requires IsToken(word) && |phonemes| >= 1
    requires forall j :: 0 <= j < |phonemes| ==> IsToken(phonemes[j])
    requires !IsComment(word)
    ensures ParseLine(EntryLine(word, phonemes)) == Some(Entry(word, phonemes))
  {
    var tokens := [word] + phonemes;
    assert forall i :: 0 <= i < |tokens| ==> IsToken(tokens[i]);
    SplitJoin(tokens);
    var line := EntryLine(word, phonemes);
    assert line == word + " " + Join(phonemes, " ");
    assert !IsComment(line) by {
      if |word| >= 3 {
        assert line[..3] == word[..3];
      } else if |line| >= 3 {
        assert line[..3][|word|] == ' ';
      }
    }
    assert tokens[1..] == phonemes;
  }
}
