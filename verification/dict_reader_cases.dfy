/** The lexicon tests (tests/test_dict_reader.py), proved of the model on a
    sample lexicon that holds the entries those tests query after a comment
    line, with `console` before `console(1)`: the order the variant indexes
    follow. */
module DictReaderCases {
  import opened Results
  import opened DictReader

  const HashMark: seq<string> := ["HH", "AE1", "M", "AA2", "R", "K"]
  const Park: seq<string> := ["P", "AA1", "R", "K"]
  const Console0: seq<string> := ["K", "AA1", "N", "S", "OW0", "L"]
  const Console1: seq<string> := ["K", "AH0", "N", "S", "OW1", "L"]

  const Sample: seq<string> := [
    ";;;" + " sample lexicon",
    EntryLine("#hash-mark", HashMark),
    EntryLine("park", Park),
    EntryLine("console", Console0),
    EntryLine("console(1)", Console1)
  ]

  /** How each sample line reads. */
  lemma SampleLine0()
    ensures ParseLine(Sample[0]) == None
  {
    assert Sample[0][..3] == ";;;";
  }

  lemma SampleLine1()
    ensures ParseLine(Sample[1]) == Some(Entry("#hash-mark", HashMark))
  {
    assert "#hash-mark"[..3][0] == '#';
    ParseEntryLine("#hash-mark", HashMark);
  }

  lemma SampleLine2()
    ensures ParseLine(Sample[2]) == Some(Entry("park", Park))
  {
    assert "park"[..3][0] == 'p';
    ParseEntryLine("park", Park);
  }

  lemma SampleLine3()
    ensures ParseLine(Sample[3]) == Some(Entry("console", Console0))
  {
    assert "console"[..3][0] == 'c';
    ParseEntryLine("console", Console0);
  }

  lemma SampleLine4()
    ensures ParseLine(Sample[4]) == Some(Entry("console(1)", Console1))
  {
    assert "console(1)"[..3][0] == 'c';
    ParseEntryLine("console(1)", Console1);
  }

  /** Which sample words are numbered variants. */
  lemma SampleBases()
    ensures VariantBase("#hash-mark") == None
    ensures VariantBase("park") == None
    ensures VariantBase("console") == None
    ensures VariantBase("console(1)") == Some("console")
  {
    assert "console(1)" == "console" + "(" + "1" + ")";
    VariantBaseOf("console", "1");
  }

  /** The variant lists of the first `k` sample lines, by the reference definition. */
  lemma SamplePrefix1(w: string)
    ensures Variants(Sample[..1], w) == []
  {
    var first := Sample[..1];
    assert first[..0] == [] && first[0] == Sample[0];
    SampleLine0();
  }

  lemma SamplePrefix2(w: string)
    ensures Variants(Sample[..2], w) == if w == "#hash-mark" then [HashMark] else []
  {
    assert Sample[..2][..1] == Sample[..1];
    SamplePrefix1(w);
    SampleLine1();
    SampleBases();
  }

  lemma SamplePrefix3(w: string)
    ensures Variants(Sample[..3], w) == Variants(Sample[..2], w) + if w == "park" then [Park] else []
  {
    assert Sample[..3][..2] == Sample[..2];
    SampleLine2();
    SampleBases();
  }

  lemma SamplePrefix4(w: string)
    ensures Variants(Sample[..4], w) == Variants(Sample[..3], w) + if w == "console" then [Console0] else []
  {
    assert Sample[..4][..3] == Sample[..3];
    SampleLine3();
    SampleBases();
  }

  lemma SamplePrefix5(w: string)
    ensures Variants(Sample, w)
         == Variants(Sample[..4], w) + if w == "console(1)" || w == "console" then [Console1] else []
  {
    assert Sample[..5][..4] == Sample[..4];
    assert Sample[..5] == Sample;
    SampleLine4();
    SampleBases();
  }

  lemma SampleVariants(w: string)
    ensures Variants(Sample, w)
         == (if w == "#hash-mark" then [HashMark] else [])
          + (if w == "park" then [Park] else [])
          + (if w == "console" then [Console0] else [])
          + (if w == "console(1)" || w == "console" then [Console1] else [])
  {
    SamplePrefix2(w);
    SamplePrefix3(w);
    SamplePrefix4(w);
    SamplePrefix5(w);
  }

  /** `park` has exactly one variant (tests/test_dict_reader.py:12-16, 35). */
  lemma ParkCase()
    ensures Lookup(Load(Sample), "park", 0) == Some(["P", "AA1", "R", "K"])
    ensures |Load(Sample)["park"]| == 1
  {
    SampleVariants("park");
    LoadVariants(Sample, "park");
    LookupVariants(Sample, "park", 0);
  }

  /** A key may hold `#` and `-` (tests/test_dict_reader.py:34). */
  lemma HashMarkCase()
    ensures Lookup(Load(Sample), "#hash-mark", 0) == Some(["HH", "AE1", "M", "AA2", "R", "K"])
  {
    SampleVariants("#hash-mark");
    LookupVariants(Sample, "#hash-mark", 0);
  }

  /** `console` has the bare line as variant 0 and the `console(1)` line as
      variant 1, and no third (tests/test_dict_reader.py:36-37). */
  lemma ConsoleCase()
    ensures Lookup(Load(Sample), "console", 0) == Some(["K", "AA1", "N", "S", "OW0", "L"])
    ensures Lookup(Load(Sample), "console", 1) == Some(["K", "AH0", "N", "S", "OW1", "L"])
    ensures Lookup(Load(Sample), "console", 2) == None
  {
    SampleVariants("console");
    LookupVariants(Sample, "console", 0);
    LookupVariants(Sample, "console", 1);
    LookupVariants(Sample, "console", 2);
  }

  /** `console(1)` keeps a key of its own, whose variant 0 is variant 1 of
      `console` (tests/test_dict_reader.py:37-38). */
  lemma NumberedKeyCase()
    ensures Lookup(Load(Sample), "console(1)", 0) == Some(["K", "AH0", "N", "S", "OW1", "L"])
    ensures Lookup(Load(Sample), "console(1)", 0) == Lookup(Load(Sample), "console", 1)
  {
    SampleVariants("console(1)");
    SampleVariants("console");
    LookupVariants(Sample, "console(1)", 0);
    LookupVariants(Sample, "console", 1);
  }

  /** One key per entry line: the comment adds none and the numbered variant
      keeps its own key (tests/test_dict_reader.py:11). */
  lemma SampleKeys()
    ensures Load(Sample).Keys == {"#hash-mark", "park", "console", "console(1)"}
  {
    forall w
      ensures w in Load(Sample) <==> w in {"#hash-mark", "park", "console", "console(1)"}
    {
      SampleVariants(w);
      LoadVariants(Sample, w);
    }
  }
}
