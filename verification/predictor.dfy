/** `Predictor`: batched grapheme-to-phoneme prediction around an opaque
    sequence model. The tokenizers, `model.generate`, `_get_len_util_stop`
    and the order in which Python lists a set are collaborators, given as
    function-valued fields with the minimal contracts the orchestration
    relies on. */
module Predictor {
  import opened Strings
  import opened Results
  import opened Batching
  import BracketCleanup

  type Lang = string

  /** The model input of one chunk: padded encodings, their true lengths and
      the start token of every row. */
  datatype Batch = Batch(text: seq<seq<int>>, textLen: seq<int>, startIndex: seq<int>)

  /** What `model.generate` returns: token rows and probability rows. */
  datatype Generated = Generated(tokens: seq<seq<int>>, probs: seq<seq<real>>)

  /** The tokens and probabilities kept for one word. */
  datatype Stored = Stored(tokens: seq<int>, probs: seq<real>)

  /** A result object; the confidence value is not part of this model. */
  datatype Prediction = Prediction(word: string, phonemes: string, phonemeTokens: seq<string>, tokenProbs: seq<real>)

  /** The lookup of a word that got no prediction raises a `KeyError`. */
  datatype CallError = MissingPrediction(word: string)

  /** Taking row 0 of an empty output raises an `IndexError`. */
  datatype WordError = NoOutputRow

  datatype Collaborators = Collaborators(
    encode: (string, Lang) -> seq<int>,              // text_tokenizer(word, lang)
    decodeText: seq<int> -> string,                  // text_tokenizer.decode, special tokens removed
    decodePhonemes: (seq<int>, bool) -> seq<string>, // phoneme_tokenizer.decode(tokens, remove_special_tokens)
    startIndex: Lang -> int,                         // phoneme_tokenizer._get_start_index
    endIndex: int,                                   // phoneme_tokenizer.end_index
    generate: Batch -> Generated,                    // model.generate
    lenUntilStop: (seq<int>, int) -> int,            // _get_len_util_stop
    listSet: set<string> -> seq<string>)             // list(s) for a set s

  /** The stop length lies within the row. */
  ghost predicate StopWithin(c: Collaborators) {
    forall row, e :: 0 <= c.lenUntilStop(row, e) <= |row|
  }

  /** Listing a set gives each of its members once. */
  ghost predicate ListsSet(c: Collaborators) {
    forall s :: NoDup(c.listSet(s)) && forall x :: x in c.listSet(s) <==> x in s
  }

  /** Python's `s[:n]`: a negative `n` counts from the end, and the cut never
      goes past either end. */
  function Cut<T>(s: seq<T>, n: int): (r: seq<T>)
    ensures r <= s
    ensures 0 <= n <= |s| ==> |r| == n
    ensures |s| <= n ==> r == s
  {
    if n >= 0 then s[..if n <= |s| then n else |s|]
    else s[..if |s| + n >= 0 then |s| + n else 0]
  }

  // ---------------------------------------------------------------------------
  // Words whose input decodes to nothing (predictor.py:49-60)

  predicate DecodesEmpty(c: Collaborators, lang: Lang, w: string) {
    |c.decodeText(c.encode(w, lang))| == 0
  }

  /** The screening loop: the empty entries it records and the texts it keeps for the model. */
  datatype Screened = Screened(empties: map<string, Stored>, valid: set<string>)

  function Screen(c: Collaborators, lang: Lang, words: seq<string>): (r: Screened)
    ensures forall w :: w in r.empties <==> w in words && DecodesEmpty(c, lang, w)
    ensures forall w :: w in r.empties ==> r.empties[w] == Stored([], [])
    ensures forall w :: w in r.valid <==> w in words && !DecodesEmpty(c, lang, w)
  {
    if |words| == 0 then Screened(map[], {})
    else
      var r := Screen(c, lang, words[..|words| - 1]);
      var w := words[|words| - 1];
      assert words == words[..|words| - 1] + [w];
      if DecodesEmpty(c, lang, w) then Screened(r.empties[w := Stored([], [])], r.valid)
      else Screened(r.empties, r.valid + {w})
  }

  /** `sorted(list(valid_texts), key=len)`. */
  function ModelTexts(c: Collaborators, valid: set<string>): (texts: seq<string>)
    ensures SortedByLen(texts)
    ensures multiset(texts) == multiset(c.listSet(valid))
    ensures ListsSet(c) ==> NoDup(texts) && forall x :: x in texts <==> x in valid
  {
    var texts := SortByLen(c.listSet(valid));
    SortedListing(c, valid, texts);
    texts
  }

  lemma SortedListing(c: Collaborators, valid: set<string>, texts: seq<string>)
    requires multiset(texts) == multiset(c.listSet(valid))
    ensures ListsSet(c) ==> NoDup(texts) && forall x :: x in texts <==> x in valid
  {
    if ListsSet(c) {
      NoDupPerm(c.listSet(valid), texts);
      assert forall x :: x in texts <==> x in multiset(c.listSet(valid));
    }
  }

  // ---------------------------------------------------------------------------
  // Building the model input of a chunk (predictor.py:95-110)

  /** Length of the longest row. */
  function MaxLen(rows: seq<seq<int>>): (m: nat)
    ensures forall i :: 0 <= i < |rows| ==> |rows[i]| <= m
    ensures |rows| > 0 ==> exists i :: 0 <= i < |rows| && |rows[i]| == m
    ensures |rows| == 0 ==> m == 0
  {
    if |rows| == 0 then 0
    else
      var m := MaxLen(rows[1..]);
      if |rows[0]| >= m then |rows[0]|
      else
        assert |rows| > 1;
        var i :| 0 <= i < |rows[1..]| && |rows[1..][i]| == m;
        assert rows[i + 1] == rows[1..][i];
        m
  }

  /** `pad_sequence(..., padding_value=0)` for one row. */
  function Pad(s: seq<int>, width: nat): (r: seq<int>)
    requires |s| <= width
    ensures |r| == width
  {
    s + seq(width - |s|, _ => 0)
  }

  /** The encodings of the texts, in order. */
  function Encodings(c: Collaborators, lang: Lang, texts: seq<string>): (rows: seq<seq<int>>)
    ensures |rows| == |texts|
    ensures forall i :: 0 <= i < |texts| ==> rows[i] == c.encode(texts[i], lang)
  {
    seq(|texts|, i requires 0 <= i < |texts| => c.encode(texts[i], lang))
  }

  /** The batch handed to `generate`: the encodings padded to a common width,
      their lengths, and the given start token on every row. */
  function MakeBatch(c: Collaborators, lang: Lang, texts: seq<string>, start: int): (b: Batch)
    ensures |b.text| == |texts| && |b.textLen| == |texts| && |b.startIndex| == |texts|
  {
    var rows := Encodings(c, lang, texts);
    var width := MaxLen(rows);
    Batch(seq(|texts|, i requires 0 <= i < |texts| => Pad(rows[i], width)),
          seq(|texts|, i requires 0 <= i < |texts| => |rows[i]|),
          seq(|texts|, _ => start))
  }

  /** Every encoding is right-padded with 0 to the longest one, its recorded
      length is its unpadded length, and every row carries the start token. */
  lemma MakeBatchShape(c: Collaborators, lang: Lang, texts: seq<string>, start: int)
    ensures var b := MakeBatch(c, lang, texts, start);
            && (forall i :: 0 <= i < |texts| ==>
                  b.textLen[i] == |c.encode(texts[i], lang)| <= |b.text[i]|
                  && b.text[i][..b.textLen[i]] == c.encode(texts[i], lang)
                  && (forall k :: b.textLen[i] <= k < |b.text[i]| ==> b.text[i][k] == 0)
                  && b.startIndex[i] == start)
            && (forall i, j :: 0 <= i < |texts| && 0 <= j < |texts| ==> |b.text[i]| == |b.text[j]|)
            && (|texts| > 0 ==> exists i :: 0 <= i < |texts| && |b.text[i]| == |c.encode(texts[i], lang)|)
  {
    var rows := Encodings(c, lang, texts);
    var width := MaxLen(rows);
    var b := MakeBatch(c, lang, texts, start);
    assert forall i :: 0 <= i < |texts| ==> b.text[i] == rows[i] + seq(width - |rows[i]|, _ => 0);
  }

  // ---------------------------------------------------------------------------
  // Storing the generated rows (predictor.py:111-116)

  /** What the model returns for a chunk of the batched path. */
  function Output(c: Collaborators, lang: Lang, chunk: seq<string>): Generated {
    c.generate(MakeBatch(c, lang, chunk, c.startIndex(lang)))
  }

  /** How many triples `zip(texts, tokens, probs)` yields. */
  function Paired(chunk: seq<string>, g: Generated): (n: nat)
    ensures n <= |chunk| && n <= |g.tokens| && n <= |g.probs|
    ensures n == |chunk| || n == |g.tokens| || n == |g.probs|
  {
    if |chunk| <= |g.tokens| && |chunk| <= |g.probs| then |chunk|
    else if |g.tokens| <= |g.probs| then |g.tokens|
    else |g.probs|
  }

  /** The entry stored for one generated row: both rows cut at the stop length. */
  function Keep(c: Collaborators, row: seq<int>, probs: seq<real>): Stored {
    var n := c.lenUntilStop(row, c.endIndex);
    Stored(Cut(row, n), Cut(probs, n))
  }

  /** With the stop length within the row and a probability per token, the
      stored tokens and probabilities are the first `n` of each, `n` the stop length. */
  lemma KeepPrefix(c: Collaborators, row: seq<int>, probs: seq<real>)
    requires StopWithin(c) && |row| <= |probs|
    ensures var n := c.lenUntilStop(row, c.endIndex);
            var s := Keep(c, row, probs);
            n <= |row| && |s.tokens| == n && |s.probs| == n
            && s.tokens == row[..n] && s.probs == probs[..n]
  {
  }

  /** The first `n` zipped rows stored under their texts; a later text of the
      same name overwrites an earlier one. */
  function StoreRows(c: Collaborators, chunk: seq<string>, g: Generated, n: nat): (m: map<string, Stored>)
    requires n <= Paired(chunk, g)
    ensures forall x :: x in m <==> exists k :: 0 <= k < n && chunk[k] == x
  {
    if n == 0 then map[]
    else StoreRows(c, chunk, g, n - 1)[chunk[n - 1] := Keep(c, g.tokens[n - 1], g.probs[n - 1])]
  }

  /** In a chunk without repeated texts, each stored text holds the cut rows of its position. */
  lemma {:induction false} StoreRowsValue(c: Collaborators, chunk: seq<string>, g: Generated, n: nat, k: nat)
    requires n <= Paired(chunk, g) && k < n
    requires NoDup(chunk)
    ensures StoreRows(c, chunk, g, n)[chunk[k]] == Keep(c, g.tokens[k], g.probs[k])
  {
    if k < n - 1 {
      StoreRowsValue(c, chunk, g, n - 1, k);
    }
  }

  /** Rows of the chunk that got an answer. */
  function Answered(c: Collaborators, lang: Lang, chunk: seq<string>): nat {
    Paired(chunk, Output(c, lang, chunk))
  }

  function RunChunk(c: Collaborators, lang: Lang, chunk: seq<string>): (m: map<string, Stored>)
    ensures forall x :: x in m ==> x in chunk
  {
    var g := Output(c, lang, chunk);
    StoreRows(c, chunk, g, Paired(chunk, g))
  }

  /** The chunks processed in order; a later chunk's entry overwrites an earlier one. */
  function PredictChunks(c: Collaborators, lang: Lang, chunks: seq<seq<string>>): (m: map<string, Stored>)
    ensures forall x :: x in m ==> x in Flatten(chunks)
  {
    if |chunks| == 0 then map[]
    else RunChunk(c, lang, chunks[0]) + PredictChunks(c, lang, chunks[1..])
  }

  /** `_predict_batch`. */
  function PredictBatch(c: Collaborators, lang: Lang, texts: seq<string>, batchSize: int): (m: map<string, Stored>)
    requires batchSize > 0
    ensures forall x :: x in m ==> x in texts
  {
    PredictChunks(c, lang, Batchify(texts, batchSize))
  }

  /** A text gets an entry exactly when its row in its chunk was answered. */
  lemma PredictChunksKeys(c: Collaborators, lang: Lang, chunks: seq<seq<string>>, x: string)
    ensures x in PredictChunks(c, lang, chunks) <==>
            exists j, k :: 0 <= j < |chunks| && 0 <= k < Answered(c, lang, chunks[j]) && chunks[j][k] == x
  {
    if x in PredictChunks(c, lang, chunks) {
      KeysAnswered(c, lang, chunks, x);
    } else {
      forall j, k | 0 <= j < |chunks| && 0 <= k < Answered(c, lang, chunks[j])
        ensures chunks[j][k] != x
      {
        AnsweredKey(c, lang, chunks, j, k);
      }
    }
  }

  lemma {:induction false} KeysAnswered(c: Collaborators, lang: Lang, chunks: seq<seq<string>>, x: string)
    requires x in PredictChunks(c, lang, chunks)
    ensures exists j, k :: 0 <= j < |chunks| && 0 <= k < Answered(c, lang, chunks[j]) && chunks[j][k] == x
  {
    if x in RunChunk(c, lang, chunks[0]) {
      var k :| 0 <= k < Answered(c, lang, chunks[0]) && chunks[0][k] == x;
    } else {
      var rest := chunks[1..];
      KeysAnswered(c, lang, rest, x);
      var j, k :| 0 <= j < |rest| && 0 <= k < Answered(c, lang, rest[j]) && rest[j][k] == x;
      assert chunks[j + 1] == rest[j];
    }
  }

  lemma {:induction false} AnsweredKey(c: Collaborators, lang: Lang, chunks: seq<seq<string>>, j: nat, k: nat)
    requires j < |chunks| && k < Answered(c, lang, chunks[j])
    ensures chunks[j][k] in PredictChunks(c, lang, chunks)
  {
    if j == 0 {
      var first := RunChunk(c, lang, chunks[0]);
      assert chunks[0][k] in first;
    } else {
      var rest := chunks[1..];
      assert rest[j - 1] == chunks[j];
      AnsweredKey(c, lang, rest, j - 1, k);
    }
  }

  /** With every text in one place only, an answered text holds the cut rows at its position. */
  lemma {:induction false} PredictChunksValue(c: Collaborators, lang: Lang, chunks: seq<seq<string>>, j: nat, k: nat)
    requires NoDup(Flatten(chunks))
    requires j < |chunks| && k < Answered(c, lang, chunks[j])
    ensures chunks[j][k] in PredictChunks(c, lang, chunks)
    ensures var g := Output(c, lang, chunks[j]);
            PredictChunks(c, lang, chunks)[chunks[j][k]] == Keep(c, g.tokens[k], g.probs[k])
  {
    NoDupSplit(chunks[0], Flatten(chunks[1..]));
    var rest := PredictChunks(c, lang, chunks[1..]);
    if j == 0 {
      assert chunks[0][k] in chunks[0];
      var g := Output(c, lang, chunks[0]);
      StoreRowsValue(c, chunks[0], g, Paired(chunks[0], g), k);
      PredictChunksKeys(c, lang, chunks, chunks[0][k]);
    } else {
      assert chunks[1..][j - 1] == chunks[j];
      PredictChunksValue(c, lang, chunks[1..], j - 1, k);
    }
  }

  // ---------------------------------------------------------------------------
  // `__call__` (predictor.py:33-80)

  function MakePrediction(c: Collaborators, w: string, s: Stored): Prediction {
    Prediction(w, Flatten(c.decodePhonemes(s.tokens, true)), c.decodePhonemes(s.tokens, false), s.probs)
  }

  /** The output loop: one prediction per word, read from the table by word. */
  function Assemble(c: Collaborators, words: seq<string>, preds: map<string, Stored>): (r: Result<seq<Prediction>, CallError>)
    ensures r.Success? <==> forall i :: 0 <= i < |words| ==> words[i] in preds
    ensures r.Success? ==> |r.value| == |words|
    ensures r.Success? ==> forall i :: 0 <= i < |words| ==> r.value[i] == MakePrediction(c, words[i], preds[words[i]])
    ensures r.Failure? ==> exists i :: 0 <= i < |words| && words[i] == r.error.word && words[i] !in preds
                                       && forall j :: 0 <= j < i ==> words[j] in preds
  {
    if |words| == 0 then Success([])
    else if words[0] !in preds then Failure(MissingPrediction(words[0]))
    else
      match Assemble(c, words[1..], preds)
      case Failure(e) =>
        var i :| 0 <= i < |words[1..]| && words[1..][i] == e.word && words[1..][i] !in preds
                 && forall j :: 0 <= j < i ==> words[1..][j] in preds;
        assert words[i + 1] == e.word;
        Failure(e)
      case Success(rest) =>
        Success([MakePrediction(c, words[0], preds[words[0]])] + rest)
  }

  /** The chunks of model texts handed to the model. */
  function Plan(c: Collaborators, lang: Lang, words: seq<string>, batchSize: int): seq<seq<string>>
    requires batchSize > 0
  {
    Batchify(ModelTexts(c, Screen(c, lang, words).valid), batchSize)
  }

  /** The word table: the empty entries updated with the model's entries. */
  function Table(c: Collaborators, lang: Lang, words: seq<string>, batchSize: int): map<string, Stored>
    requires batchSize > 0
  {
    Screen(c, lang, words).empties + PredictChunks(c, lang, Plan(c, lang, words, batchSize))
  }

  function Call(c: Collaborators, words: seq<string>, lang: Lang, batchSize: int): (r: Result<seq<Prediction>, CallError>)
    requires batchSize > 0
    ensures r.Success? ==> |r.value| == |words| && forall i :: 0 <= i < |words| ==> r.value[i].word == words[i]
    ensures r.Failure? ==> r.error.word in words && !DecodesEmpty(c, lang, r.error.word)
  {
    var r := Assemble(c, words, Table(c, lang, words, batchSize));
    if r.Failure? then
      var i :| 0 <= i < |words| && words[i] == r.error.word && words[i] !in Table(c, lang, words, batchSize);
      r
    else r
  }

  /** The texts sent to the model are the distinct words whose input decodes to
      something, shortest first. */
  lemma ModelTextsOfWords(c: Collaborators, lang: Lang, words: seq<string>)
    requires ListsSet(c)
    ensures var texts := ModelTexts(c, Screen(c, lang, words).valid);
            NoDup(texts) && SortedByLen(texts)
            && forall x :: x in texts <==> x in words && !DecodesEmpty(c, lang, x)
  {
  }

  /** Equal words get equal predictions. */
  lemma CallEqualWords(c: Collaborators, words: seq<string>, lang: Lang, batchSize: int, i: nat, j: nat)
    requires batchSize > 0
    requires i < |words| && j < |words| && words[i] == words[j]
    ensures Call(c, words, lang, batchSize).Success? ==>
              Call(c, words, lang, batchSize).value[i] == Call(c, words, lang, batchSize).value[j]
  {
  }

  /** A word whose input decodes to nothing is never sent to the model and gets
      no tokens and no probabilities. */
  lemma CallEmptyWord(c: Collaborators, words: seq<string>, lang: Lang, batchSize: int, i: nat)
    requires ListsSet(c) && batchSize > 0
    requires i < |words| && DecodesEmpty(c, lang, words[i])
    ensures words[i] !in Flatten(Plan(c, lang, words, batchSize))
    ensures Call(c, words, lang, batchSize).Success? ==>
              Call(c, words, lang, batchSize).value[i] == MakePrediction(c, words[i], Stored([], []))
  {
    var x := words[i];
    var chunks := Plan(c, lang, words, batchSize);
    ModelTextsOfWords(c, lang, words);
    FlattenMember(chunks, x);
    PredictChunksKeys(c, lang, chunks, x);
  }

  /** A word sent to the model is found at one position of one chunk, and its
      prediction is decoded from that row of the chunk's output, cut at the stop length. */
  lemma CallModelWord(c: Collaborators, words: seq<string>, lang: Lang, batchSize: int, i: nat)
    requires ListsSet(c) && batchSize > 0
    requires i < |words| && !DecodesEmpty(c, lang, words[i])
    ensures var chunks := Plan(c, lang, words, batchSize);
            Call(c, words, lang, batchSize).Success? ==>
            exists j, k :: 0 <= j < |chunks| && 0 <= k < Answered(c, lang, chunks[j]) && chunks[j][k] == words[i]
              && Call(c, words, lang, batchSize).value[i]
                 == MakePrediction(c, words[i], Keep(c, Output(c, lang, chunks[j]).tokens[k], Output(c, lang, chunks[j]).probs[k]))
  {
    if Call(c, words, lang, batchSize).Success? {
      ModelWordRow(c, words, lang, batchSize, i);
    }
  }

  /** `CallModelWord` for a call known to succeed. */
  lemma ModelWordRow(c: Collaborators, words: seq<string>, lang: Lang, batchSize: int, i: nat)
    requires ListsSet(c) && batchSize > 0
    requires i < |words| && !DecodesEmpty(c, lang, words[i])
    requires Call(c, words, lang, batchSize).Success?
    ensures var chunks := Plan(c, lang, words, batchSize);
            exists j, k :: 0 <= j < |chunks| && 0 <= k < Answered(c, lang, chunks[j]) && chunks[j][k] == words[i]
              && Call(c, words, lang, batchSize).value[i]
                 == MakePrediction(c, words[i], Keep(c, Output(c, lang, chunks[j]).tokens[k], Output(c, lang, chunks[j]).probs[k]))
  {
    var x := words[i];
    var chunks := Plan(c, lang, words, batchSize);
    ModelTextsOfWords(c, lang, words);
    assert x !in Screen(c, lang, words).empties;
    PredictChunksKeys(c, lang, chunks, x);
    var j, k :| 0 <= j < |chunks| && 0 <= k < Answered(c, lang, chunks[j]) && chunks[j][k] == x;
    PredictChunksValue(c, lang, chunks, j, k);
  }

  /** A chunk is served when `generate` returns a token row and a probability row for each of its texts. */
  predicate Served(c: Collaborators, lang: Lang, chunk: seq<string>) {
    Answered(c, lang, chunk) == |chunk|
  }

  /** The call fails exactly when some chunk gets fewer rows than it has texts:
      `zip` drops the missing rows and the lookup of such a word fails. */
  lemma CallSucceeds(c: Collaborators, words: seq<string>, lang: Lang, batchSize: int)
    requires ListsSet(c) && batchSize > 0
    ensures Call(c, words, lang, batchSize).Success? <==>
            forall j :: 0 <= j < |Plan(c, lang, words, batchSize)| ==> Served(c, lang, Plan(c, lang, words, batchSize)[j])
  {
    var chunks := Plan(c, lang, words, batchSize);
    var preds := Table(c, lang, words, batchSize);
    var empties := Screen(c, lang, words).empties;
    ModelTextsOfWords(c, lang, words);
    if forall j :: 0 <= j < |chunks| ==> Served(c, lang, chunks[j]) {
      forall i | 0 <= i < |words|
        ensures words[i] in preds
      {
        var x := words[i];
        if !DecodesEmpty(c, lang, x) {
          FlattenMember(chunks, x);
          PredictChunksKeys(c, lang, chunks, x);
        }
      }
    } else {
      var j :| 0 <= j < |chunks| && !Served(c, lang, chunks[j]);
      var k := Answered(c, lang, chunks[j]);
      var x := chunks[j][k];
      FlattenHas(chunks, j, k);
      forall j', k' | 0 <= j' < |chunks| && 0 <= k' < Answered(c, lang, chunks[j'])
        ensures chunks[j'][k'] != x
      {
        if chunks[j'][k'] == x {
          FlattenUniquePosition(chunks, j, k, j', k');
        }
      }
      PredictChunksKeys(c, lang, chunks, x);
      assert x !in preds;
      var i :| 0 <= i < |words| && words[i] == x;
    }
  }

  // ---------------------------------------------------------------------------
  // String output (predictor.py:121-199)

  /** Python's `p[1:-1]`: the first and last characters stripped. */
  function Unwrap(p: string): (q: string)
    ensures |p| >= 2 ==> |q| == |p| - 2 && p == [p[0]] + q + [p[|p| - 1]]
    ensures |p| < 2 ==> q == ""
  {
    if |p| < 2 then "" else p[1..|p| - 1]
  }

  lemma UnwrapWrap(p: string)
    ensures Unwrap(BracketCleanup.Wrap(p)) == p
  {
    var w := BracketCleanup.Wrap(p);
    assert w[1..|w| - 1] == p;
  }

  function UnwrapAll(ps: seq<string>): (r: seq<string>)
    ensures |r| == |ps|
    ensures forall i :: 0 <= i < |ps| ==> r[i] == Unwrap(ps[i])
  {
    if |ps| == 0 then [] else [Unwrap(ps[0])] + UnwrapAll(ps[1..])
  }

  /** Decoded phonemes stripped of their brackets and joined by single spaces. */
  function FormatPhonemes(ps: seq<string>): string {
    Join(UnwrapAll(ps), " ")
  }

  /** Bracketed phonemes format to the bare phonemes joined by single spaces. */
  lemma FormatWrapped(ps: seq<string>)
    ensures FormatPhonemes(BracketCleanup.WrapAll(ps)) == Join(ps, " ")
  {
    var u := UnwrapAll(BracketCleanup.WrapAll(ps));
    forall i | 0 <= i < |ps|
      ensures u[i] == ps[i]
    {
      UnwrapWrap(ps[i]);
    }
    assert u == ps;
  }

  /** For bracket-free phonemes the formatting of `predict_words` agrees with
      the bracket cleanup applied to the concatenated phoneme tokens. */
  lemma FormatAgreesWithCleanup(ps: seq<string>)
    requires forall i :: 0 <= i < |ps| ==> forall k :: 0 <= k < |ps[i]| ==> !BracketCleanup.IsBracket(ps[i][k])
    ensures FormatPhonemes(BracketCleanup.WrapAll(ps)) == BracketCleanup.Clean(Flatten(BracketCleanup.WrapAll(ps)))
  {
    FormatWrapped(ps);
    BracketCleanup.CleanWrapped(ps);
  }

  /** One output string of `predict_words`: the row cut at the stop length, decoded and formatted. */
  function FormatRow(c: Collaborators, row: seq<int>): string {
    FormatPhonemes(c.decodePhonemes(Cut(row, c.lenUntilStop(row, c.endIndex)), true))
  }

  /** A row whose cut decodes to bracketed phonemes gives those phonemes joined by spaces. */
  lemma FormatRowWrapped(c: Collaborators, row: seq<int>, ps: seq<string>)
    requires StopWithin(c)
    requires c.decodePhonemes(row[..c.lenUntilStop(row, c.endIndex)], true) == BracketCleanup.WrapAll(ps)
    ensures FormatRow(c, row) == Join(ps, " ")
  {
    FormatWrapped(ps);
  }

  function FormatRows(c: Collaborators, rows: seq<seq<int>>): (r: seq<string>)
    ensures |r| == |rows|
    ensures forall i :: 0 <= i < |rows| ==> r[i] == FormatRow(c, rows[i])
  {
    seq(|rows|, i requires 0 <= i < |rows| => FormatRow(c, rows[i]))
  }

  /** Number of token rows the model returns over the chunks. */
  function RowTotal(c: Collaborators, lang: Lang, chunks: seq<seq<string>>): nat {
    if |chunks| == 0 then 0 else |Output(c, lang, chunks[0]).tokens| + RowTotal(c, lang, chunks[1..])
  }

  function PredictWordsChunks(c: Collaborators, lang: Lang, chunks: seq<seq<string>>): (r: seq<string>)
    ensures |r| == RowTotal(c, lang, chunks)
  {
    if |chunks| == 0 then []
    else FormatRows(c, Output(c, lang, chunks[0]).tokens) + PredictWordsChunks(c, lang, chunks[1..])
  }

  /** `predict_words`: one string per generated token row, chunk by chunk. */
  function PredictWords(c: Collaborators, words: seq<string>, batchSize: int, lang: Lang): (r: seq<string>)
    requires batchSize > 0
    ensures |r| == RowTotal(c, lang, Batchify(words, batchSize))
  {
    PredictWordsChunks(c, lang, Batchify(words, batchSize))
  }

  /** When the model returns one row per text, there is one string per word. */
  lemma {:induction false} PredictWordsChunksCount(c: Collaborators, lang: Lang, chunks: seq<seq<string>>)
    requires forall j :: 0 <= j < |chunks| ==> |Output(c, lang, chunks[j]).tokens| == |chunks[j]|
    ensures |PredictWordsChunks(c, lang, chunks)| == |Flatten(chunks)|
  {
    if |chunks| > 0 {
      PredictWordsChunksCount(c, lang, chunks[1..]);
    }
  }

  /** With one row per text, the string at the position of item `k` of chunk
      `j` formats row `k` of that chunk's output. */
  lemma {:induction false} PredictWordsChunksAt(c: Collaborators, lang: Lang, chunks: seq<seq<string>>, j: nat, k: nat)
    requires forall j :: 0 <= j < |chunks| ==> |Output(c, lang, chunks[j]).tokens| == |chunks[j]|
    requires j < |chunks| && k < |chunks[j]|
    ensures TotalLen(chunks[..j]) + k < |PredictWordsChunks(c, lang, chunks)|
    ensures PredictWordsChunks(c, lang, chunks)[TotalLen(chunks[..j]) + k]
         == FormatRow(c, Output(c, lang, chunks[j]).tokens[k])
  {
    if j == 0 {
      assert chunks[..0] == [];
    } else {
      var rest := chunks[1..];
      assert forall j' :: 0 <= j' < |rest| ==> rest[j'] == chunks[j' + 1];
      PredictWordsChunksAt(c, lang, rest, j - 1, k);
      TotalLenPrefix(chunks, j);
    }
  }

  lemma PredictWordsCount(c: Collaborators, words: seq<string>, batchSize: int, lang: Lang)
    requires batchSize > 0
    requires forall j :: 0 <= j < |Batchify(words, batchSize)| ==>
               |Output(c, lang, Batchify(words, batchSize)[j]).tokens| == |Batchify(words, batchSize)[j]|
    ensures |PredictWords(c, words, batchSize, lang)| == |words|
  {
    PredictWordsChunksCount(c, lang, Batchify(words, batchSize));
  }

  /** When the model returns one row per text, string `i` of `predict_words`
      formats the row generated for word `i`: the row at its place in its chunk. */
  lemma PredictWordsRow(c: Collaborators, words: seq<string>, batchSize: int, lang: Lang, i: nat)
    requires batchSize > 0
    requires forall j :: 0 <= j < |Batchify(words, batchSize)| ==>
               |Output(c, lang, Batchify(words, batchSize)[j]).tokens| == |Batchify(words, batchSize)[j]|
    requires i < |words|
    ensures |PredictWords(c, words, batchSize, lang)| == |words|
    ensures var chunks := Batchify(words, batchSize);
            var (j, k) := Locate(chunks, i);
            chunks[j][k] == words[i]
            && PredictWords(c, words, batchSize, lang)[i] == FormatRow(c, Output(c, lang, chunks[j]).tokens[k])
  {
    var chunks := Batchify(words, batchSize);
    PredictWordsCount(c, words, batchSize, lang);
    var (j, k) := Locate(chunks, i);
    PredictWordsChunksAt(c, lang, chunks, j, k);
  }

  /** `predict_word`: a one-row batch with start token 1; row 0 of the output
      is decoded whole, without a cut at the stop token. */
  function PredictWord(c: Collaborators, word: string, lang: Lang): (r: Result<string, WordError>)
    ensures var enc := c.encode(word, lang);
            var g := c.generate(Batch([enc], [|enc|], [1]));
            && (r.Success? <==> |g.tokens| > 0)
            && (r.Success? ==> r.value == FormatPhonemes(c.decodePhonemes(g.tokens[0], true)))
  {
    var b := MakeBatch(c, lang, [word], 1);
    var enc := c.encode(word, lang);
    MakeBatchShape(c, lang, [word], 1);
    assert b.text[0] == enc;
    assert b == Batch([enc], [|enc|], [1]);
    var g := c.generate(b);
    if |g.tokens| == 0 then Failure(NoOutputRow)
    else Success(FormatPhonemes(c.decodePhonemes(g.tokens[0], true)))
  }

  /** For a language whose start token is 1 and a row the stop length does not
      cut, `predict_word` agrees with `predict_words` on the one-word list. */
  lemma PredictWordAgrees(c: Collaborators, word: string, lang: Lang, batchSize: int)
    requires batchSize > 0 && c.startIndex(lang) == 1
    requires |Output(c, lang, [word]).tokens| == 1
    requires var row := Output(c, lang, [word]).tokens[0]; c.lenUntilStop(row, c.endIndex) >= |row|
    ensures PredictWord(c, word, lang).Success?
    ensures PredictWords(c, [word], batchSize, lang) == [PredictWord(c, word, lang).value]
  {
    var chunks := Batchify([word], batchSize);
    SingleChunk(chunks, word);
    assert Batchify([word], batchSize)[1..] == [];
  }
}
