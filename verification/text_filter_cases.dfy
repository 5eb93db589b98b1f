/** The parametrised cases of the normaliser's tests (tests/test_filter.py),
    each proved of the model. Each `<Case>Case` lemma states its input and output
    literally; `<Case>Text` writes the input as a concatenation of
    three-character pieces, and `<Case>Pieces` proves the case on that form.
    The character filter `Sift` distributes over concatenation (`SiftAppend`),
    so each `<Case>Piece<j>` lemma evaluates one piece, each `<Case>Sift<k>`
    joins two and `<Case>Sifted` joins them all. The whitespace collapse is then
    settled by `FilterSingleSpaced` or, for inputs with runs of spaces, by
    peeling one stretch at a time (`CollapseStretch`, `<Case>Collapsed<k>`). */
module TextFilterCases {
  import opened Strings
  import opened TextFilter

  /** Filtering text whose sifted form is already single-spaced yields that form. */
  lemma FilterSingleSpaced(text: string, numbersMode: bool, preserveCase: bool, sifted: string)
    requires Sift(text, numbersMode, preserveCase) == sifted
    requires SingleSpaced(sifted)
    ensures FilterText(text, numbersMode, preserveCase) == sifted
  {
    CollapseSingleSpaced(sifted);
  }

  /** Filtering is collapsing the sifted form. */
  lemma FilterCollapsed(text: string, numbersMode: bool, preserveCase: bool, sifted: string, r: string)
    requires Sift(text, numbersMode, preserveCase) == sifted
    requires Collapse(sifted) == r
    ensures FilterText(text, numbersMode, preserveCase) == r
  {
  }

  /** A single-spaced stretch followed by a whitespace run: the stretch is kept
      and the run becomes one space. */
  lemma CollapseStretch(a: string, run: string, b: string)
    requires SingleSpaced(a) && (|a| == 0 || !IsSpace(a[|a| - 1]))
    requires |run| >= 2 && forall i :: 0 <= i < |run| ==> IsSpace(run[i])
    requires |b| == 0 || !IsSpace(b[0])
    ensures Collapse(a + (run + b)) == a + (" " + Collapse(b))
  {
    assert (run + b)[0] == run[0];
    CollapseAppend(a, run + b);
    CollapseSingleSpaced(a);
    CollapseRun(run, b);
  }

  // ---------------------------------------------------------------------------
  // Acute and grave vowels, lower or upper case, fold to "aeiou" (tests/test_filter.py:7-15).

  lemma AcuteLowerPiece1()
    ensures Sift("\U{E1}\U{E9}\U{ED}", false, false) == "aei"
  {
  }

  lemma AcuteLowerPiece2()
    ensures Sift("\U{F3}\U{FA}", false, false) == "ou"
  {
  }

  lemma AcuteLowerSifted()
    ensures Sift("\U{E1}\U{E9}\U{ED}" + "\U{F3}\U{FA}", false, false) == "aeiou"
  {
    AcuteLowerPiece1();
    AcuteLowerPiece2();
    SiftAppend("\U{E1}\U{E9}\U{ED}", "\U{F3}\U{FA}", false, false);
  }

  lemma AcuteLowerPieces()
    ensures FilterText("\U{E1}\U{E9}\U{ED}" + "\U{F3}\U{FA}", false, false) == "aeiou"
  {
    AcuteLowerSifted();
    FilterSingleSpaced("\U{E1}\U{E9}\U{ED}" + "\U{F3}\U{FA}", false, false, "aeiou");
  }

  lemma AcuteLowerText()
    ensures "\U{E1}\U{E9}\U{ED}\U{F3}\U{FA}" == "\U{E1}\U{E9}\U{ED}" + "\U{F3}\U{FA}"
  {
  }

  /** Lower-case acute vowels (tests/test_filter.py:8). */
  lemma AcuteLowerCase()
    ensures FilterText("\U{E1}\U{E9}\U{ED}\U{F3}\U{FA}", false, false) == "aeiou"
  {
    AcuteLowerText();
    AcuteLowerPieces();
  }

  lemma AcuteUpperPiece1()
    ensures Sift("\U{C1}\U{C9}\U{CD}", false, false) == "aei"
  {
  }

  lemma AcuteUpperPiece2()
    ensures Sift("\U{D3}\U{DA}", false, false) == "ou"
  {
  }

  lemma AcuteUpperSifted()
    ensures Sift("\U{C1}\U{C9}\U{CD}" + "\U{D3}\U{DA}", false, false) == "aeiou"
  {
    AcuteUpperPiece1();
    AcuteUpperPiece2();
    SiftAppend("\U{C1}\U{C9}\U{CD}", "\U{D3}\U{DA}", false, false);
  }

  lemma AcuteUpperPieces()
    ensures FilterText("\U{C1}\U{C9}\U{CD}" + "\U{D3}\U{DA}", false, false) == "aeiou"
  {
    AcuteUpperSifted();
    FilterSingleSpaced("\U{C1}\U{C9}\U{CD}" + "\U{D3}\U{DA}", false, false, "aeiou");
  }

  lemma AcuteUpperText()
    ensures "\U{C1}\U{C9}\U{CD}\U{D3}\U{DA}" == "\U{C1}\U{C9}\U{CD}" + "\U{D3}\U{DA}"
  {
  }

  /** Upper-case acute vowels (tests/test_filter.py:9). */
  lemma AcuteUpperCase()
    ensures FilterText("\U{C1}\U{C9}\U{CD}\U{D3}\U{DA}", false, false) == "aeiou"
  {
    AcuteUpperText();
    AcuteUpperPieces();
  }

  lemma GraveLowerPiece1()
    ensures Sift("\U{E0}\U{E8}\U{EC}", false, false) == "aei"
  {
  }

  lemma GraveLowerPiece2()
    ensures Sift("\U{F2}\U{F9}", false, false) == "ou"
  {
  }

  lemma GraveLowerSifted()
    ensures Sift("\U{E0}\U{E8}\U{EC}" + "\U{F2}\U{F9}", false, false) == "aeiou"
  {
    GraveLowerPiece1();
    GraveLowerPiece2();
    SiftAppend("\U{E0}\U{E8}\U{EC}", "\U{F2}\U{F9}", false, false);
  }

  lemma GraveLowerPieces()
    ensures FilterText("\U{E0}\U{E8}\U{EC}" + "\U{F2}\U{F9}", false, false) == "aeiou"
  {
    GraveLowerSifted();
    FilterSingleSpaced("\U{E0}\U{E8}\U{EC}" + "\U{F2}\U{F9}", false, false, "aeiou");
  }

  lemma GraveLowerText()
    ensures "\U{E0}\U{E8}\U{EC}\U{F2}\U{F9}" == "\U{E0}\U{E8}\U{EC}" + "\U{F2}\U{F9}"
  {
  }

  /** Lower-case grave vowels (tests/test_filter.py:10). */
  lemma GraveLowerCase()
    ensures FilterText("\U{E0}\U{E8}\U{EC}\U{F2}\U{F9}", false, false) == "aeiou"
  {
    GraveLowerText();
    GraveLowerPieces();
  }

  lemma GraveUpperPiece1()
    ensures Sift("\U{C0}\U{C8}\U{CC}", false, false) == "aei"
  {
  }

  lemma GraveUpperPiece2()
    ensures Sift("\U{D2}\U{D9}", false, false) == "ou"
  {
  }

  lemma GraveUpperSifted()
    ensures Sift("\U{C0}\U{C8}\U{CC}" + "\U{D2}\U{D9}", false, false) == "aeiou"
  {
    GraveUpperPiece1();
    GraveUpperPiece2();
    SiftAppend("\U{C0}\U{C8}\U{CC}", "\U{D2}\U{D9}", false, false);
  }

  lemma GraveUpperPieces()
    ensures FilterText("\U{C0}\U{C8}\U{CC}" + "\U{D2}\U{D9}", false, false) == "aeiou"
  {
    GraveUpperSifted();
    FilterSingleSpaced("\U{C0}\U{C8}\U{CC}" + "\U{D2}\U{D9}", false, false, "aeiou");
  }

  lemma GraveUpperText()
    ensures "\U{C0}\U{C8}\U{CC}\U{D2}\U{D9}" == "\U{C0}\U{C8}\U{CC}" + "\U{D2}\U{D9}"
  {
  }

  /** Upper-case grave vowels (tests/test_filter.py:11). */
  lemma GraveUpperCase()
    ensures FilterText("\U{C0}\U{C8}\U{CC}\U{D2}\U{D9}", false, false) == "aeiou"
  {
    GraveUpperText();
    GraveUpperPieces();
  }

  // ---------------------------------------------------------------------------
  // The default mode lower-cases every letter (tests/test_filter.py:19-26).

  lemma AllUpperPiece1()
    ensures Sift("TES", false, false) == "tes"
  {
  }

  lemma AllUpperPiece2()
    ensures Sift("TCa", false, false) == "tca"
  {
  }

  lemma AllUpperSift1()
    ensures Sift("TES" + "TCa", false, false) == "testca"
  {
    AllUpperPiece1();
    AllUpperPiece2();
    SiftAppend("TES", "TCa", false, false);
  }

  lemma AllUpperSifted()
    ensures Sift(("TES" + "TCa") + "se", false, false) == "testca" + "se"
  {
    AllUpperSift1();
    SiftAppend(("TES" + "TCa"), "se", false, false);
  }

  lemma AllUpperPieces()
    ensures FilterText(("TES" + "TCa") + "se", false, false) == "testcase"
  {
    AllUpperSifted();
    FilterSingleSpaced(("TES" + "TCa") + "se", false, false, "testca" + "se");
  }

  lemma AllUpperText()
    ensures "TESTCase" == ("TES" + "TCa") + "se"
  {
  }

  /** Mostly upper case (tests/test_filter.py:20). */
  lemma AllUpperCase()
    ensures FilterText("TESTCase", false, false) == "testcase"
  {
    AllUpperText();
    AllUpperPieces();
  }

  lemma CamelPiece1()
    ensures Sift("Tes", false, false) == "tes"
  {
  }

  lemma CamelPiece2()
    ensures Sift("tCa", false, false) == "tca"
  {
  }

  lemma CamelSift1()
    ensures Sift("Tes" + "tCa", false, false) == "testca"
  {
    CamelPiece1();
    CamelPiece2();
    SiftAppend("Tes", "tCa", false, false);
  }

  lemma CamelSifted()
    ensures Sift(("Tes" + "tCa") + "se", false, false) == "testca" + "se"
  {
    CamelSift1();
    SiftAppend(("Tes" + "tCa"), "se", false, false);
  }

  lemma CamelPieces()
    ensures FilterText(("Tes" + "tCa") + "se", false, false) == "testcase"
  {
    CamelSifted();
    FilterSingleSpaced(("Tes" + "tCa") + "se", false, false, "testca" + "se");
  }

  lemma CamelText()
    ensures "TestCase" == ("Tes" + "tCa") + "se"
  {
  }

  /** Camel case (tests/test_filter.py:21). */
  lemma CamelCase()
    ensures FilterText("TestCase", false, false) == "testcase"
  {
    CamelText();
    CamelPieces();
  }

  lemma AllLowerPiece1()
    ensures Sift("tes", false, false) == "tes"
  {
  }

  lemma AllLowerPiece2()
    ensures Sift("tca", false, false) == "tca"
  {
  }

  lemma AllLowerSift1()
    ensures Sift("tes" + "tca", false, false) == "testca"
  {
    AllLowerPiece1();
    AllLowerPiece2();
    SiftAppend("tes", "tca", false, false);
  }

  lemma AllLowerSifted()
    ensures Sift(("tes" + "tca") + "se", false, false) == "testca" + "se"
  {
    AllLowerSift1();
    SiftAppend(("tes" + "tca"), "se", false, false);
  }

  lemma AllLowerPieces()
    ensures FilterText(("tes" + "tca") + "se", false, false) == "testcase"
  {
    AllLowerSifted();
    FilterSingleSpaced(("tes" + "tca") + "se", false, false, "testca" + "se");
  }

  lemma AllLowerText()
    ensures "testcase" == ("tes" + "tca") + "se"
  {
  }

  /** Already lower case (tests/test_filter.py:22). */
  lemma AllLowerCase()
    ensures FilterText("testcase", false, false) == "testcase"
  {
    AllLowerText();
    AllLowerPieces();
  }

  // ---------------------------------------------------------------------------
  // Disallowed punctuation is deleted without leaving a gap; `, ? ! '` and braces survive (tests/test_filter.py:30-35).

  lemma BracketsPiece1()
    ensures Sift("w, ", false, false) == "w, "
  {
  }

  lemma BracketsPiece2()
    ensures Sift("cas", false, false) == "cas"
  {
  }

  lemma BracketsSift1()
    ensures Sift("w, " + "cas", false, false) == "w, cas"
  {
    BracketsPiece1();
    BracketsPiece2();
    SiftAppend("w, ", "cas", false, false);
  }

  lemma BracketsPiece3()
    ensures Sift("e[s", false, false) == "es"
  {
  }

  lemma BracketsPiece4()
    ensures Sift("]?!", false, false) == "?!"
  {
  }

  lemma BracketsSift2()
    ensures Sift("e[s" + "]?!", false, false) == "es?!"
  {
    BracketsPiece3();
    BracketsPiece4();
    SiftAppend("e[s", "]?!", false, false);
  }

  lemma BracketsPiece5()
    ensures Sift(" 'T", false, false) == " 't"
  {
  }

  lemma BracketsPiece6()
    ensures Sift("s", false, false) == "s"
  {
  }

  lemma BracketsSift3()
    ensures Sift(" 'T" + "s", false, false) == " 'ts"
  {
    BracketsPiece5();
    BracketsPiece6();
    SiftAppend(" 'T", "s", false, false);
  }

  lemma BracketsSifted()
    ensures Sift(("w, " + "cas") + ("e[s" + "]?!") + (" 'T" + "s"), false, false) == "w, cas" + "es?!" + " 'ts"
  {
    BracketsSift1();
    BracketsSift2();
    BracketsSift3();
    SiftAppend(("w, " + "cas"), ("e[s" + "]?!"), false, false);
    SiftAppend(("w, " + "cas") + ("e[s" + "]?!"), (" 'T" + "s"), false, false);
  }

  lemma BracketsPieces()
    ensures FilterText(("w, " + "cas") + ("e[s" + "]?!") + (" 'T" + "s"), false, false) == "w, cases?! 'ts"
  {
    BracketsSifted();
    FilterSingleSpaced(("w, " + "cas") + ("e[s" + "]?!") + (" 'T" + "s"), false, false, "w, cas" + "es?!" + " 'ts");
  }

  lemma BracketsText()
    ensures "w, case[s]?! 'Ts" == ("w, " + "cas") + ("e[s" + "]?!") + (" 'T" + "s")
  {
  }

  /** Square brackets go, sentence punctuation and the apostrophe stay (tests/test_filter.py:31). */
  lemma BracketsCase()
    ensures FilterText("w, case[s]?! 'Ts", false, false) == "w, cases?! 'ts"
  {
    BracketsText();
    BracketsPieces();
  }

  lemma SymbolsPiece1()
    ensures Sift("te ", false, false) == "te "
  {
  }

  lemma SymbolsPiece2()
    ensures Sift("@#$", false, false) == ""
  {
  }

  lemma SymbolsSift1()
    ensures Sift("te " + "@#$", false, false) == "te "
  {
    SymbolsPiece1();
    SymbolsPiece2();
    SiftAppend("te ", "@#$", false, false);
  }

  lemma SymbolsPiece3()
    ensures Sift("%^&", false, false) == ""
  {
  }

  lemma SymbolsPiece4()
    ensures Sift("*_+", false, false) == ""
  {
  }

  lemma SymbolsSift2()
    ensures Sift("%^&" + "*_+", false, false) == ""
  {
    SymbolsPiece3();
    SymbolsPiece4();
    SiftAppend("%^&", "*_+", false, false);
  }

  lemma SymbolsPiece5()
    ensures Sift("=[]", false, false) == ""
  {
  }

  lemma SymbolsPiece6()
    ensures Sift("{T}", false, false) == "{t}"
  {
  }

  lemma SymbolsSift3()
    ensures Sift("=[]" + "{T}", false, false) == "{t}"
  {
    SymbolsPiece5();
    SymbolsPiece6();
    SiftAppend("=[]", "{T}", false, false);
  }

  lemma SymbolsPiece7()
    ensures Sift(";:\\", false, false) == ""
  {
  }

  lemma SymbolsPiece8()
    ensures Sift("\"\\/", false, false) == ""
  {
  }

  lemma SymbolsSift4()
    ensures Sift(";:\\" + "\"\\/", false, false) == ""
  {
    SymbolsPiece7();
    SymbolsPiece8();
    SiftAppend(";:\\", "\"\\/", false, false);
  }

  lemma SymbolsPiece9()
    ensures Sift("<>`", false, false) == ""
  {
  }

  lemma SymbolsPiece10()
    ensures Sift("~ s", false, false) == " s"
  {
  }

  lemma SymbolsSift5()
    ensures Sift("<>`" + "~ s", false, false) == " s"
  {
    SymbolsPiece9();
    SymbolsPiece10();
    SiftAppend("<>`", "~ s", false, false);
  }

  lemma SymbolsSifted()
    ensures Sift(("te " + "@#$") + ("%^&" + "*_+") + ("=[]" + "{T}") + (";:\\" + "\"\\/") + ("<>`" + "~ s") + "t", false, false) == "te " + "" + "{t}" + "" + " s" + "t"
  {
    SymbolsSift1();
    SymbolsSift2();
    SymbolsSift3();
    SymbolsSift4();
    SymbolsSift5();
    SiftAppend(("te " + "@#$"), ("%^&" + "*_+"), false, false);
    SiftAppend(("te " + "@#$") + ("%^&" + "*_+"), ("=[]" + "{T}"), false, false);
    SiftAppend(("te " + "@#$") + ("%^&" + "*_+") + ("=[]" + "{T}"), (";:\\" + "\"\\/"), false, false);
    SiftAppend(("te " + "@#$") + ("%^&" + "*_+") + ("=[]" + "{T}") + (";:\\" + "\"\\/"), ("<>`" + "~ s"), false, false);
    SiftAppend(("te " + "@#$") + ("%^&" + "*_+") + ("=[]" + "{T}") + (";:\\" + "\"\\/") + ("<>`" + "~ s"), "t", false, false);
  }

  lemma SymbolsPieces()
    ensures FilterText(("te " + "@#$") + ("%^&" + "*_+") + ("=[]" + "{T}") + (";:\\" + "\"\\/") + ("<>`" + "~ s") + "t", false, false) == "te {t} st"
  {
    SymbolsSifted();
    FilterSingleSpaced(("te " + "@#$") + ("%^&" + "*_+") + ("=[]" + "{T}") + (";:\\" + "\"\\/") + ("<>`" + "~ s") + "t", false, false, "te " + "" + "{t}" + "" + " s" + "t");
  }

  lemma SymbolsText()
    ensures "te @#$%^&*_+=[]{T};:\\\"\\/<>`~ st" == ("te " + "@#$") + ("%^&" + "*_+") + ("=[]" + "{T}") + (";:\\" + "\"\\/") + ("<>`" + "~ s") + "t"
  {
  }

  /** Every symbol goes except the braces (tests/test_filter.py:32). */
  lemma SymbolsCase()
    ensures FilterText("te @#$%^&*_+=[]{T};:\\\"\\/<>`~ st", false, false) == "te {t} st"
  {
    SymbolsText();
    SymbolsPieces();
  }

  // ---------------------------------------------------------------------------
  // Preserving case keeps letter case but still strips punctuation (tests/test_filter.py:40-46).

  lemma ShoutPiece1()
    ensures Sift("TeS", false, true) == "TeS"
  {
  }

  lemma ShoutPiece2()
    ensures Sift("T@", false, true) == "T"
  {
  }

  lemma ShoutSifted()
    ensures Sift("TeS" + "T@", false, true) == "TeST"
  {
    ShoutPiece1();
    ShoutPiece2();
    SiftAppend("TeS", "T@", false, true);
  }

  lemma ShoutPieces()
    ensures FilterText("TeS" + "T@", false, true) == "TeST"
  {
    ShoutSifted();
    FilterSingleSpaced("TeS" + "T@", false, true, "TeST");
  }

  lemma ShoutText()
    ensures "TeST@" == "TeS" + "T@"
  {
  }

  /** A trailing symbol goes, the mixed case stays (tests/test_filter.py:41). */
  lemma ShoutCase()
    ensures FilterText("TeST@", false, true) == "TeST"
  {
    ShoutText();
    ShoutPieces();
  }

  lemma SymbolsCasedPiece1()
    ensures Sift("Te ", false, true) == "Te "
  {
  }

  lemma SymbolsCasedPiece2()
    ensures Sift("@#$", false, true) == ""
  {
  }

  lemma SymbolsCasedSift1()
    ensures Sift("Te " + "@#$", false, true) == "Te "
  {
    SymbolsCasedPiece1();
    SymbolsCasedPiece2();
    SiftAppend("Te ", "@#$", false, true);
  }

  lemma SymbolsCasedPiece3()
    ensures Sift("%^&", false, true) == ""
  {
  }

  lemma SymbolsCasedPiece4()
    ensures Sift("*_+", false, true) == ""
  {
  }

  lemma SymbolsCasedSift2()
    ensures Sift("%^&" + "*_+", false, true) == ""
  {
    SymbolsCasedPiece3();
    SymbolsCasedPiece4();
    SiftAppend("%^&", "*_+", false, true);
  }

  lemma SymbolsCasedPiece5()
    ensures Sift("=[]", false, true) == ""
  {
  }

  lemma SymbolsCasedPiece6()
    ensures Sift("{T}", false, true) == "{T}"
  {
  }

  lemma SymbolsCasedSift3()
    ensures Sift("=[]" + "{T}", false, true) == "{T}"
  {
    SymbolsCasedPiece5();
    SymbolsCasedPiece6();
    SiftAppend("=[]", "{T}", false, true);
  }

  lemma SymbolsCasedPiece7()
    ensures Sift(";:\\", false, true) == ""
  {
  }

  lemma SymbolsCasedPiece8()
    ensures Sift("\"\\/", false, true) == ""
  {
  }

  lemma SymbolsCasedSift4()
    ensures Sift(";:\\" + "\"\\/", false, true) == ""
  {
    SymbolsCasedPiece7();
    SymbolsCasedPiece8();
    SiftAppend(";:\\", "\"\\/", false, true);
  }

  lemma SymbolsCasedPiece9()
    ensures Sift("<>`", false, true) == ""
  {
  }

  lemma SymbolsCasedPiece10()
    ensures Sift("~ s", false, true) == " s"
  {
  }

  lemma SymbolsCasedSift5()
    ensures Sift("<>`" + "~ s", false, true) == " s"
  {
    SymbolsCasedPiece9();
    SymbolsCasedPiece10();
    SiftAppend("<>`", "~ s", false, true);
  }

  lemma SymbolsCasedSifted()
    ensures Sift(("Te " + "@#$") + ("%^&" + "*_+") + ("=[]" + "{T}") + (";:\\" + "\"\\/") + ("<>`" + "~ s") + "T", false, true) == "Te " + "" + "{T}" + "" + " s" + "T"
  {
    SymbolsCasedSift1();
    SymbolsCasedSift2();
    SymbolsCasedSift3();
    SymbolsCasedSift4();
    SymbolsCasedSift5();
    SiftAppend(("Te " + "@#$"), ("%^&" + "*_+"), false, true);
    SiftAppend(("Te " + "@#$") + ("%^&" + "*_+"), ("=[]" + "{T}"), false, true);
    SiftAppend(("Te " + "@#$") + ("%^&" + "*_+") + ("=[]" + "{T}"), (";:\\" + "\"\\/"), false, true);
    SiftAppend(("Te " + "@#$") + ("%^&" + "*_+") + ("=[]" + "{T}") + (";:\\" + "\"\\/"), ("<>`" + "~ s"), false, true);
    SiftAppend(("Te " + "@#$") + ("%^&" + "*_+") + ("=[]" + "{T}") + (";:\\" + "\"\\/") + ("<>`" + "~ s"), "T", false, true);
  }

  lemma SymbolsCasedPieces()
    ensures FilterText(("Te " + "@#$") + ("%^&" + "*_+") + ("=[]" + "{T}") + (";:\\" + "\"\\/") + ("<>`" + "~ s") + "T", false, true) == "Te {T} sT"
  {
    SymbolsCasedSifted();
    FilterSingleSpaced(("Te " + "@#$") + ("%^&" + "*_+") + ("=[]" + "{T}") + (";:\\" + "\"\\/") + ("<>`" + "~ s") + "T", false, true, "Te " + "" + "{T}" + "" + " s" + "T");
  }

  lemma SymbolsCasedText()
    ensures "Te @#$%^&*_+=[]{T};:\\\"\\/<>`~ sT" == ("Te " + "@#$") + ("%^&" + "*_+") + ("=[]" + "{T}") + (";:\\" + "\"\\/") + ("<>`" + "~ s") + "T"
  {
  }

  /** Every symbol goes except the braces, the case stays (tests/test_filter.py:42). */
  lemma SymbolsCasedCase()
    ensures FilterText("Te @#$%^&*_+=[]{T};:\\\"\\/<>`~ sT", false, true) == "Te {T} sT"
  {
    SymbolsCasedText();
    SymbolsCasedPieces();
  }

  // ---------------------------------------------------------------------------
  // Runs of spaces collapse to one; single-spaced text is unchanged (tests/test_filter.py:50-58).

  lemma RunsPiece1()
    ensures Sift("In ", false, false) == "in "
  {
  }

  lemma RunsPiece2()
    ensures Sift("som", false, false) == "som"
  {
  }

  lemma RunsSift1()
    ensures Sift("In " + "som", false, false) == "in som"
  {
    RunsPiece1();
    RunsPiece2();
    SiftAppend("In ", "som", false, false);
  }

  lemma RunsPiece3()
    ensures Sift("e  ", false, false) == "e  "
  {
  }

  lemma RunsPiece4()
    ensures Sift("lin", false, false) == "lin"
  {
  }

  lemma RunsSift2()
    ensures Sift("e  " + "lin", false, false) == "e  lin"
  {
    RunsPiece3();
    RunsPiece4();
    SiftAppend("e  ", "lin", false, false);
  }

  lemma RunsPiece5()
    ensures Sift("e  ", false, false) == "e  "
  {
  }

  lemma RunsPiece6()
    ensures Sift(" li", false, false) == " li"
  {
  }

  lemma RunsSift3()
    ensures Sift("e  " + " li", false, false) == "e   li"
  {
    RunsPiece5();
    RunsPiece6();
    SiftAppend("e  ", " li", false, false);
  }

  lemma RunsPiece7()
    ensures Sift("ke ", false, false) == "ke "
  {
  }

  lemma RunsPiece8()
    ensures Sift("   ", false, false) == "   "
  {
  }

  lemma RunsSift4()
    ensures Sift("ke " + "   ", false, false) == "ke    "
  {
    RunsPiece7();
    RunsPiece8();
    SiftAppend("ke ", "   ", false, false);
  }

  lemma RunsPiece9()
    ensures Sift("thi", false, false) == "thi"
  {
  }

  lemma RunsPiece10()
    ensures Sift("s.", false, false) == "s."
  {
  }

  lemma RunsSift5()
    ensures Sift("thi" + "s.", false, false) == "this."
  {
    RunsPiece9();
    RunsPiece10();
    SiftAppend("thi", "s.", false, false);
  }

  lemma RunsSifted()
    ensures Sift(("In " + "som") + ("e  " + "lin") + ("e  " + " li") + ("ke " + "   ") + ("thi" + "s."), false, false) == "in som" + "e  lin" + "e   li" + "ke    " + "this."
  {
    RunsSift1();
    RunsSift2();
    RunsSift3();
    RunsSift4();
    RunsSift5();
    SiftAppend(("In " + "som"), ("e  " + "lin"), false, false);
    SiftAppend(("In " + "som") + ("e  " + "lin"), ("e  " + " li"), false, false);
    SiftAppend(("In " + "som") + ("e  " + "lin") + ("e  " + " li"), ("ke " + "   "), false, false);
    SiftAppend(("In " + "som") + ("e  " + "lin") + ("e  " + " li") + ("ke " + "   "), ("thi" + "s."), false, false);
  }

  lemma RunsCollapsed4()
    ensures Collapse("this.") == "this."
  {
    CollapseSingleSpaced("this.");
  }

  lemma RunsCollapsed3()
    ensures Collapse("like" + ("    " + "this.")) == "like this."
  {
    CollapseStretch("like", "    ", "this.");
    RunsCollapsed4();
  }

  lemma RunsCollapsed2()
    ensures Collapse("line" + ("   " + ("like" + ("    " + "this.")))) == "line like this."
  {
    CollapseStretch("line", "   ", "like" + ("    " + "this."));
    RunsCollapsed3();
  }

  lemma RunsCollapsed1()
    ensures Collapse("in some" + ("  " + ("line" + ("   " + ("like" + ("    " + "this.")))))) == "in some line like this."
  {
    CollapseStretch("in some", "  ", "line" + ("   " + ("like" + ("    " + "this."))));
    RunsCollapsed2();
  }

  lemma RunsPieces()
    ensures FilterText(("In " + "som") + ("e  " + "lin") + ("e  " + " li") + ("ke " + "   ") + ("thi" + "s."), false, false) == "in some line like this."
  {
    RunsSifted();
    assert "in som" + "e  lin" + "e   li" + "ke    " + "this." == "in some" + ("  " + ("line" + ("   " + ("like" + ("    " + "this.")))));
    RunsCollapsed1();
    FilterCollapsed(("In " + "som") + ("e  " + "lin") + ("e  " + " li") + ("ke " + "   ") + ("thi" + "s."), false, false, "in some" + ("  " + ("line" + ("   " + ("like" + ("    " + "this."))))), "in some line like this.");
  }

  lemma RunsText()
    ensures "In some  line   like    this." == ("In " + "som") + ("e  " + "lin") + ("e  " + " li") + ("ke " + "   ") + ("thi" + "s.")
  {
  }

  /** Runs of two, three and four spaces (tests/test_filter.py:51). */
  lemma RunsCase()
    ensures FilterText("In some  line   like    this.", false, false) == "in some line like this."
  {
    RunsText();
    RunsPieces();
  }

  lemma SingleSpacesPiece1()
    ensures Sift("nor", false, false) == "nor"
  {
  }

  lemma SingleSpacesPiece2()
    ensures Sift("mal", false, false) == "mal"
  {
  }

  lemma SingleSpacesSift1()
    ensures Sift("nor" + "mal", false, false) == "normal"
  {
    SingleSpacesPiece1();
    SingleSpacesPiece2();
    SiftAppend("nor", "mal", false, false);
  }

  lemma SingleSpacesPiece3()
    ensures Sift(" sp", false, false) == " sp"
  {
  }

  lemma SingleSpacesPiece4()
    ensures Sift("ace", false, false) == "ace"
  {
  }

  lemma SingleSpacesSift2()
    ensures Sift(" sp" + "ace", false, false) == " space"
  {
    SingleSpacesPiece3();
    SingleSpacesPiece4();
    SiftAppend(" sp", "ace", false, false);
  }

  lemma SingleSpacesSifted()
    ensures Sift(("nor" + "mal") + (" sp" + "ace") + "s.", false, false) == "normal" + " space" + "s."
  {
    SingleSpacesSift1();
    SingleSpacesSift2();
    SiftAppend(("nor" + "mal"), (" sp" + "ace"), false, false);
    SiftAppend(("nor" + "mal") + (" sp" + "ace"), "s.", false, false);
  }

  lemma SingleSpacesPieces()
    ensures FilterText(("nor" + "mal") + (" sp" + "ace") + "s.", false, false) == "normal spaces."
  {
    SingleSpacesSifted();
    FilterSingleSpaced(("nor" + "mal") + (" sp" + "ace") + "s.", false, false, "normal" + " space" + "s.");
  }

  lemma SingleSpacesText()
    ensures "normal spaces." == ("nor" + "mal") + (" sp" + "ace") + "s."
  {
  }

  /** Nothing to collapse (tests/test_filter.py:53). */
  lemma SingleSpacesCase()
    ensures FilterText("normal spaces.", false, false) == "normal spaces."
  {
    SingleSpacesText();
    SingleSpacesPieces();
  }

  // ---------------------------------------------------------------------------
  // Numbers mode keeps digits verbatim; without it they are deleted (tests/test_filter.py:62-69).

  lemma DigitsKeptPiece1()
    ensures Sift("123", true, false) == "123"
  {
  }

  lemma DigitsKeptPiece2()
    ensures Sift("456", true, false) == "456"
  {
  }

  lemma DigitsKeptSift1()
    ensures Sift("123" + "456", true, false) == "123456"
  {
    DigitsKeptPiece1();
    DigitsKeptPiece2();
    SiftAppend("123", "456", true, false);
  }

  lemma DigitsKeptPiece3()
    ensures Sift("789", true, false) == "789"
  {
  }

  lemma DigitsKeptPiece4()
    ensures Sift("0", true, false) == "0"
  {
  }

  lemma DigitsKeptSift2()
    ensures Sift("789" + "0", true, false) == "7890"
  {
    DigitsKeptPiece3();
    DigitsKeptPiece4();
    SiftAppend("789", "0", true, false);
  }

  lemma DigitsKeptSifted()
    ensures Sift(("123" + "456") + ("789" + "0"), true, false) == "123456" + "7890"
  {
    DigitsKeptSift1();
    DigitsKeptSift2();
    SiftAppend(("123" + "456"), ("789" + "0"), true, false);
  }

  lemma DigitsKeptPieces()
    ensures FilterText(("123" + "456") + ("789" + "0"), true, false) == "1234567890"
  {
    DigitsKeptSifted();
    FilterSingleSpaced(("123" + "456") + ("789" + "0"), true, false, "123456" + "7890");
  }

  lemma DigitsKeptText()
    ensures "1234567890" == ("123" + "456") + ("789" + "0")
  {
  }

  /** Numbers mode on (tests/test_filter.py:63). */
  lemma DigitsKeptCase()
    ensures FilterText("1234567890", true, false) == "1234567890"
  {
    DigitsKeptText();
    DigitsKeptPieces();
  }

  lemma DigitsDroppedPiece1()
    ensures Sift("123", false, false) == ""
  {
  }

  lemma DigitsDroppedPiece2()
    ensures Sift("456", false, false) == ""
  {
  }

  lemma DigitsDroppedSift1()
    ensures Sift("123" + "456", false, false) == ""
  {
    DigitsDroppedPiece1();
    DigitsDroppedPiece2();
    SiftAppend("123", "456", false, false);
  }

  lemma DigitsDroppedPiece3()
    ensures Sift("789", false, false) == ""
  {
  }

  lemma DigitsDroppedPiece4()
    ensures Sift("0", false, false) == ""
  {
  }

  lemma DigitsDroppedSift2()
    ensures Sift("789" + "0", false, false) == ""
  {
    DigitsDroppedPiece3();
    DigitsDroppedPiece4();
    SiftAppend("789", "0", false, false);
  }

  lemma DigitsDroppedSifted()
    ensures Sift(("123" + "456") + ("789" + "0"), false, false) == "" + ""
  {
    DigitsDroppedSift1();
    DigitsDroppedSift2();
    SiftAppend(("123" + "456"), ("789" + "0"), false, false);
  }

  lemma DigitsDroppedPieces()
    ensures FilterText(("123" + "456") + ("789" + "0"), false, false) == ""
  {
    DigitsDroppedSifted();
    FilterSingleSpaced(("123" + "456") + ("789" + "0"), false, false, "" + "");
  }

  lemma DigitsDroppedText()
    ensures "1234567890" == ("123" + "456") + ("789" + "0")
  {
  }

  /** Numbers mode off (tests/test_filter.py:64). */
  lemma DigitsDroppedCase()
    ensures FilterText("1234567890", false, false) == ""
  {
    DigitsDroppedText();
    DigitsDroppedPieces();
  }

  lemma SentencePiece1()
    ensures Sift("In ", false, false) == "in "
  {
  }

  lemma SentencePiece2()
    ensures Sift("123", false, false) == ""
  {
  }

  lemma SentenceSift1()
    ensures Sift("In " + "123", false, false) == "in "
  {
    SentencePiece1();
    SentencePiece2();
    SiftAppend("In ", "123", false, false);
  }

  lemma SentencePiece3()
    ensures Sift("456", false, false) == ""
  {
  }

  lemma SentencePiece4()
    ensures Sift("789", false, false) == ""
  {
  }

  lemma SentenceSift2()
    ensures Sift("456" + "789", false, false) == ""
  {
    SentencePiece3();
    SentencePiece4();
    SiftAppend("456", "789", false, false);
  }

  lemma SentencePiece5()
    ensures Sift("0 l", false, false) == " l"
  {
  }

  lemma SentencePiece6()
    ensures Sift("ine", false, false) == "ine"
  {
  }

  lemma SentenceSift3()
    ensures Sift("0 l" + "ine", false, false) == " line"
  {
    SentencePiece5();
    SentencePiece6();
    SiftAppend("0 l", "ine", false, false);
  }

  lemma SentencePiece7()
    ensures Sift(" 56", false, false) == " "
  {
  }

  lemma SentencePiece8()
    ensures Sift(".", false, false) == "."
  {
  }

  lemma SentenceSift4()
    ensures Sift(" 56" + ".", false, false) == " ."
  {
    SentencePiece7();
    SentencePiece8();
    SiftAppend(" 56", ".", false, false);
  }

  lemma SentenceSifted()
    ensures Sift(("In " + "123") + ("456" + "789") + ("0 l" + "ine") + (" 56" + "."), false, false) == "in " + "" + " line" + " ."
  {
    SentenceSift1();
    SentenceSift2();
    SentenceSift3();
    SentenceSift4();
    SiftAppend(("In " + "123"), ("456" + "789"), false, false);
    SiftAppend(("In " + "123") + ("456" + "789"), ("0 l" + "ine"), false, false);
    SiftAppend(("In " + "123") + ("456" + "789") + ("0 l" + "ine"), (" 56" + "."), false, false);
  }

  lemma SentenceCollapsed2()
    ensures Collapse("line .") == "line ."
  {
    CollapseSingleSpaced("line .");
  }

  lemma SentenceCollapsed1()
    ensures Collapse("in" + ("  " + "line .")) == "in line ."
  {
    CollapseStretch("in", "  ", "line .");
    SentenceCollapsed2();
  }

  lemma SentencePieces()
    ensures FilterText(("In " + "123") + ("456" + "789") + ("0 l" + "ine") + (" 56" + "."), false, false) == "in line ."
  {
    SentenceSifted();
    assert "in " + "" + " line" + " ." == "in" + ("  " + "line .");
    SentenceCollapsed1();
    FilterCollapsed(("In " + "123") + ("456" + "789") + ("0 l" + "ine") + (" 56" + "."), false, false, "in" + ("  " + "line ."), "in line .");
  }

  lemma SentenceText()
    ensures "In 1234567890 line 56." == ("In " + "123") + ("456" + "789") + ("0 l" + "ine") + (" 56" + ".")
  {
  }

  /** Numbers mode off, in a sentence: the gap left by the digits collapses (tests/test_filter.py:65). */
  lemma SentenceCase()
    ensures FilterText("In 1234567890 line 56.", false, false) == "in line ."
  {
    SentenceText();
    SentencePieces();
  }

}
