# Aquila Resolve core, modelled in Dafny

Aquila Resolve turns English words into ARPAbet phonemes. This project models
the sequential logic around its neural grapheme-to-phoneme model, and proves
properties of it:

- **`Predictor`** (`predictor.dfy`) is the batched prediction orchestration of
  `Predictor.__call__`, `_predict_batch`, `predict_words` and `predict_word`.
  - Words whose tokenize-then-decode is empty are short-circuited.
  - The remaining words are de-duplicated and sorted by length.
  - They are cut into chunks, padded with 0, and each chunk gets its true lengths and start tokens.
  - Each generated row is cut at the stop length.
  - The predictions are assembled in input order, keyed by word.
  - The phoneme strings are formatted.

  The text and phoneme tokenizers, `model.generate`, `_get_len_util_stop` and
  the order in which Python lists a set are fields of a `Collaborators` value.
  They are uninterpreted functions. `StopWithin` and `ListsSet` state the
  contracts some lemmas assume of them.
- **`Batching`** (`batching.dfy`) holds the chunking used by both batched paths
  (`Batchify`, for `u_batchify`). It also holds the stable sort by length of
  `sorted(..., key=len)` and the duplicate-free and flattening facts the
  predictor proofs use.
- **`BracketCleanup`** (`bracket_cleanup.dfy`) is the string rewrite in
  `Infer.__call__`. Every `][` becomes one space, and every `[` and `]` left
  over is deleted.
- **`TextFilter`** (`text_filter.dfy`) is the normaliser
  `filter_text(text, numbers_mode, preserve_case)`:
  - folds acute and grave vowels;
  - lower-cases letters unless case is preserved;
  - deletes every character outside ASCII letters, whitespace, `, . ? ! '`, `{ }` and, in numbers mode, digits;
  - collapses runs of whitespace to one space.

  `TextFilterCases` (`text_filter_cases.dfy`) proves every parametrised case of
  `tests/test_filter.py` of this model.
- **`DictReader`** (`dict_reader.dfy`) is the pronunciation lexicon, a fold over
  `WORD PH1 PH2 ...` lines into a map from a word to its ordered variants. A
  numbered variant `console(1)` is appended to the list of `console` and also
  keeps its own key. `DictReaderCases` (`dict_reader_cases.dfy`) proves the
  facts of `tests/test_dict_reader.py` on a sample lexicon holding the entries
  those tests query.
- `Strings` (`strings.dfy`) and `Results` (`results.dfy`) are shared helpers.
  `Strings` holds character classes, concatenation, joining, deletion by a
  predicate and whitespace splitting. `Results` holds `Option` and `Result`.

The sources of `filter_text` and `DictReader` are not part of this model. Their
behaviour is the one their tests fix, and the rows below cite those tests.

## Model

| member | source | states |
|---|---|---|
| Predictor.Cut | src/Aquila_Resolve/models/dp/model/predictor.py:116 | Python's `[:n]`. The result is a prefix of the row. It has length `n` when `0 <= n <= len`, and is the whole row when `n >= len`. |
| Predictor.Screen | src/Aquila_Resolve/models/dp/model/predictor.py:49-60 | A word is recorded with empty token and probability lists exactly when its encoding decodes to nothing. It is kept for the model exactly when it does not. |
| Predictor.ModelTexts | src/Aquila_Resolve/models/dp/model/predictor.py:62 | The texts are sorted by length and are a permutation of the listed set. When the listing gives each member once, they are duplicate-free and are exactly the set's members. |
| Predictor.ModelTextsOfWords | src/Aquila_Resolve/models/dp/model/predictor.py:50-62 | The texts sent to `_predict_batch` are exactly the distinct words whose input decodes to something. None is repeated, and their lengths never decrease. |
| Predictor.MaxLen | src/Aquila_Resolve/models/dp/model/predictor.py:101-102 | The padding width bounds every encoding and is reached by one of them. It is 0 for no rows. |
| Predictor.MakeBatch | src/Aquila_Resolve/models/dp/model/predictor.py:101-110 | The text, length and start-index columns have one entry per text. |
| Predictor.MakeBatchShape | src/Aquila_Resolve/models/dp/model/predictor.py:95-110 | Each row is its encoding right-padded with 0 to the longest encoding of the chunk. The recorded length is the unpadded length. Every start index is the one given, which is the language's start token in the batched paths. |
| Predictor.Paired | src/Aquila_Resolve/models/dp/model/predictor.py:114 | `zip` yields as many triples as its shortest argument has items. |
| Predictor.KeepPrefix | src/Aquila_Resolve/models/dp/model/predictor.py:115-116 | Given a probability per generated token, the stored tokens and probabilities are the first `n` of the generated row and of its probabilities, with `n` the stop length. They have equal length, no longer than the row. |
| Predictor.StoreRows | src/Aquila_Resolve/models/dp/model/predictor.py:114-116 | The texts that get an entry are exactly those among the first `n` zipped rows. |
| Predictor.StoreRowsValue | src/Aquila_Resolve/models/dp/model/predictor.py:114-116 | In a chunk without repeated texts, each text's entry is its own row, cut at the stop length. |
| Predictor.RunChunk | src/Aquila_Resolve/models/dp/model/predictor.py:94-116 | One chunk only adds entries for its own texts. |
| Predictor.PredictChunks | src/Aquila_Resolve/models/dp/model/predictor.py:92-118 | The chunks only add entries for their own texts. |
| Predictor.PredictBatch | src/Aquila_Resolve/models/dp/model/predictor.py:92-118 | `_predict_batch` only returns entries for texts it was given. |
| Predictor.PredictChunksKeys | src/Aquila_Resolve/models/dp/model/predictor.py:92-118 | A text gets an entry exactly when its position in its chunk is among the rows `zip` pairs up. |
| Predictor.PredictChunksValue | src/Aquila_Resolve/models/dp/model/predictor.py:92-118 | With no text in two places, an answered text's entry is the row at its position in its chunk's output, cut at the stop length. |
| Predictor.Assemble | src/Aquila_Resolve/models/dp/model/predictor.py:67-80 | Assembly succeeds exactly when every word has an entry. It then gives one prediction per word, in order, decoded from that word's entry. Otherwise it raises for the first word without one. |
| Predictor.Call | src/Aquila_Resolve/models/dp/model/predictor.py:33-80 | `__call__` returns one prediction per input word, in input order and with duplicates, each carrying its word. A failure names an input word whose input decodes to something. |
| Predictor.CallEqualWords | src/Aquila_Resolve/models/dp/model/predictor.py:65-69 | In a successful call, equal input words get identical predictions: tokens, probabilities and phonemes. |
| Predictor.CallEmptyWord | src/Aquila_Resolve/models/dp/model/predictor.py:53-58 | A word whose input decodes to nothing is in no chunk sent to the model. Its prediction is decoded from empty tokens with empty probabilities. |
| Predictor.CallModelWord | src/Aquila_Resolve/models/dp/model/predictor.py:63-78 | In a successful call, any other word sits at one answered position of one chunk. Its prediction is decoded from that chunk's generated row, cut at the stop length. |
| Predictor.CallSucceeds | src/Aquila_Resolve/models/dp/model/predictor.py:63-69 | The call succeeds exactly when `generate` returns a token row and a probability row for every text of every chunk. Otherwise `zip` drops a word and its lookup raises. |
| Predictor.Unwrap | src/Aquila_Resolve/models/dp/model/predictor.py:155 | `p[1:-1]` drops the first and last character. A string shorter than two becomes empty. |
| Predictor.UnwrapWrap | src/Aquila_Resolve/models/dp/model/predictor.py:155 | Stripping a bracketed phoneme gives the bare phoneme back. |
| Predictor.UnwrapAll | src/Aquila_Resolve/models/dp/model/predictor.py:155 | Every decoded phoneme is stripped, in order. |
| Predictor.FormatWrapped | src/Aquila_Resolve/models/dp/model/predictor.py:152-156 | Bracketed phonemes format to the bare phonemes joined by single spaces. |
| Predictor.FormatAgreesWithCleanup | src/Aquila_Resolve/models/dp/model/predictor.py:152-156 | For bracket-free phonemes, the formatting of `predict_words` equals the bracket cleanup of `Infer.__call__` applied to the concatenated bracketed tokens. |
| Predictor.FormatRowWrapped | src/Aquila_Resolve/models/dp/model/predictor.py:148-156 | Suppose a generated row, cut at its stop length, decodes to bracketed phonemes. Then its output string is those phonemes joined by spaces. |
| Predictor.PredictWordsChunks | src/Aquila_Resolve/models/dp/model/predictor.py:126-158 | One string per generated token row, over all chunks. |
| Predictor.PredictWords | src/Aquila_Resolve/models/dp/model/predictor.py:121-158 | `predict_words` returns as many strings as the model returns token rows. |
| Predictor.PredictWordsChunksCount | src/Aquila_Resolve/models/dp/model/predictor.py:148-156 | When every chunk gets one row per text, there is one string per text of the chunks. |
| Predictor.PredictWordsCount | src/Aquila_Resolve/models/dp/model/predictor.py:121-158 | When the model returns one row per text, `predict_words` returns one string per word. |
| Predictor.PredictWordsChunksAt | src/Aquila_Resolve/models/dp/model/predictor.py:148-156 | When every chunk gets one row per text, the string for item `k` of chunk `j` sits after the strings of all earlier chunks. It is the formatted row `k` generated for chunk `j`. |
| Predictor.PredictWordsRow | src/Aquila_Resolve/models/dp/model/predictor.py:121-158 | When the model returns one row per text, string `i` of `predict_words` is the formatted row generated for word `i`, at that word's place in its chunk. |
| Predictor.PredictWord | src/Aquila_Resolve/models/dp/model/predictor.py:160-199 | The model gets one row: the word's encoding, its length, and the fixed start index 1. The result exists exactly when the output has a row. Row 0 is decoded whole, without a cut at the stop token, and then formatted. |
| Predictor.PredictWordAgrees | src/Aquila_Resolve/models/dp/model/predictor.py:174-199 | Take a language whose start token is 1 and a row the stop length does not cut. Then `predict_word` agrees with `predict_words` on the one-word list. |
| Batching.Batchify | src/Aquila_Resolve/models/dp/model/predictor.py:93 | The chunks concatenate back to the input. Each chunk is non-empty and has at most `batch_size` items. |
| Batching.Locate | src/Aquila_Resolve/models/dp/model/predictor.py:93 | Item `i` of the concatenated chunks is item `k` of chunk `j`, and all items of the earlier chunks come before it. |
| Batching.SingleChunk | src/Aquila_Resolve/models/dp/model/predictor.py:93 | Non-empty chunks that concatenate to a single word are that one chunk. |
| Batching.SortByLen | src/Aquila_Resolve/models/dp/model/predictor.py:62 | The result is sorted by length and is a permutation of the input. |
| Batching.SortByLenStable | src/Aquila_Resolve/models/dp/model/predictor.py:62 | The sort is stable: texts of equal length keep their relative order. |
| Batching.NoDupPerm | src/Aquila_Resolve/models/dp/model/predictor.py:62 | Sorting a duplicate-free listing keeps it duplicate-free. |
| BracketCleanup.Clean | src/Aquila_Resolve/infer.py:28 | No `[` or `]` remains, and the string does not grow. |
| BracketCleanup.TwoPasses | src/Aquila_Resolve/infer.py:28 | Deleting `[` and then `]` equals deleting both in one pass. |
| BracketCleanup.Cleanup | src/Aquila_Resolve/infer.py:26-28 | One cleaned string per phonemizer output, in the same order. |
| BracketCleanup.CleanupAppend | src/Aquila_Resolve/infer.py:28 | Cleaning a list works element by element: it distributes over list concatenation. |
| BracketCleanup.ReplaceSeamsAppend | src/Aquila_Resolve/infer.py:28 | Replacing `][` distributes over a concatenation whose join does not itself form `][`. |
| BracketCleanup.Seam | src/Aquila_Resolve/infer.py:28 | Every occurrence of `][` becomes exactly one space between the cleaned text on either side. |
| BracketCleanup.ReplaceSeamsSkeleton | src/Aquila_Resolve/infer.py:28 | The replacement step changes nothing but brackets and spaces. |
| BracketCleanup.CleanSkeleton | src/Aquila_Resolve/infer.py:28 | Nothing else changes: deleting spaces and brackets from the input and from the output gives the same string. |
| BracketCleanup.CleanPlain | src/Aquila_Resolve/infer.py:28 | Bracket-free text is left unchanged. |
| BracketCleanup.CleanIdempotent | src/Aquila_Resolve/infer.py:28 | A second cleanup leaves the result unchanged. |
| BracketCleanup.CleanWrapped | src/Aquila_Resolve/infer.py:27-28 | Bracketed bare phonemes, concatenated, clean to the phonemes joined by single spaces. |
| BracketCleanup.CleanExample | src/Aquila_Resolve/infer.py:28 | `[K][AA1][N]` becomes `K AA1 N`. |
| TextFilter.ToLower | tests/test_filter.py:19-26 | A capital `A`-`Z` becomes its own small letter, at the same place in the alphabet. Every other character is kept as it is. |
| TextFilter.Sift | tests/test_filter.py:30-46 | Only allowed characters remain, and no upper-case letter unless case is preserved. The result is never longer than the input. |
| TextFilter.SiftNoGap | tests/test_filter.py:30-35 | Deleted characters leave no gap: the sifted text holds exactly the input's whitespace characters, in order. |
| TextFilter.FilterText | tests/test_filter.py:7-69 | The result is single-spaced and holds only allowed characters. It has no capitals unless case is preserved and no digits outside numbers mode. It is never longer than the input. |
| TextFilter.CollapseProperties | tests/test_filter.py:50-58 | Collapsing yields single-spaced text made of input characters and spaces. |
| TextFilter.CollapseSingleSpaced | tests/test_filter.py:53-54 | Already single-spaced text is unchanged by the collapse. |
| TextFilter.CollapseKeepsContent | tests/test_filter.py:50-58 | The collapse changes whitespace only. |
| TextFilter.CollapseRun | tests/test_filter.py:51-52 | A run of two or more whitespace characters becomes one space. |
| TextFilter.SiftAppend | tests/test_filter.py:30-35 | The character filter works character by character: it distributes over concatenation. |
| TextFilter.FilterTextIdempotent | tests/test_filter.py:7-69 | Filtering filtered text changes nothing. |
| TextFilter.FilterTextFixpoint | tests/test_filter.py:22 | Text that is already allowed, lower-case (unless case is preserved) and single-spaced is unchanged. |
| TextFilter.FilterTextContent | tests/test_filter.py:30-35 | Apart from whitespace, the output is the input with each character folded and disallowed ones deleted. No character is inserted. |
| TextFilter.FilterTextDigits | tests/test_filter.py:62-69 | In numbers mode the digits of the output are exactly those of the input, in order. Otherwise the output has none. |
| TextFilter.FilterTextAppend | tests/test_filter.py:7-69 | Filtering distributes over concatenation when the join is not inside a run of whitespace. |
| TextFilterCases.AcuteLowerCase | tests/test_filter.py:8 | `áéíóú` filters to `aeiou`. |
| TextFilterCases.AcuteUpperCase | tests/test_filter.py:9 | `ÁÉÍÓÚ` filters to `aeiou`. |
| TextFilterCases.GraveLowerCase | tests/test_filter.py:10 | `àèìòù` filters to `aeiou`. |
| TextFilterCases.GraveUpperCase | tests/test_filter.py:11 | `ÀÈÌÒÙ` filters to `aeiou`. |
| TextFilterCases.AllUpperCase | tests/test_filter.py:20 | `TESTCase` filters to `testcase`. |
| TextFilterCases.CamelCase | tests/test_filter.py:21 | `TestCase` filters to `testcase`. |
| TextFilterCases.AllLowerCase | tests/test_filter.py:22 | `testcase` is unchanged. |
| TextFilterCases.BracketsCase | tests/test_filter.py:31 | `w, case[s]?! 'Ts` filters to `w, cases?! 'ts`. |
| TextFilterCases.SymbolsCase | tests/test_filter.py:32 | Every listed symbol but the braces is deleted, giving `te {t} st`. |
| TextFilterCases.ShoutCase | tests/test_filter.py:41 | With case preserved, `TeST@` filters to `TeST`. |
| TextFilterCases.SymbolsCasedCase | tests/test_filter.py:42 | With case preserved, the symbol line filters to `Te {T} sT`. |
| TextFilterCases.RunsCase | tests/test_filter.py:51-52 | `In some  line   like    this.` filters to `in some line like this.`. |
| TextFilterCases.SingleSpacesCase | tests/test_filter.py:53-54 | `normal spaces.` is unchanged. |
| TextFilterCases.DigitsKeptCase | tests/test_filter.py:63 | In numbers mode `1234567890` is kept. |
| TextFilterCases.DigitsDroppedCase | tests/test_filter.py:64 | Outside numbers mode `1234567890` filters to the empty string. |
| TextFilterCases.SentenceCase | tests/test_filter.py:65 | `In 1234567890 line 56.` filters to `in line .`. |
| Strings.SplitJoin | tests/test_dict_reader.py:33-39 | Tokens written with single spaces split back into the same tokens. |
| DictReader.ParseLine | tests/test_dict_reader.py:33-42 | A line is an entry exactly when it is not a `;;;` comment and has a word and at least one phoneme. Both are whitespace-free tokens. |
| DictReader.ParseEntryLine | tests/test_dict_reader.py:33-39 | A line written from a word and its phonemes reads back as that entry, phonemes in order. |
| DictReader.VariantBase | tests/test_dict_reader.py:37-38 | A base word is found only for words of the form `base(digits)` with a non-empty base. |
| DictReader.VariantBaseOf | tests/test_dict_reader.py:37-38 | Every `base(digits)` word is recognised as a variant of `base`. |
| DictReader.Load | tests/test_dict_reader.py:13-16 | Every value is a non-empty list of variants, and every variant a non-empty list of phonemes. |
| DictReader.LoadVariants | tests/test_dict_reader.py:36-38 | A word is a key exactly when some entry line is that word or a numbered variant of it. Its list holds the phonemes of those lines, in lexicon order. |
| DictReader.LookupVariants | tests/test_dict_reader.py:40-42 | Variant `index` of a word is the phonemes of the `index`-th line feeding it. There is none past the last. |
| DictReaderCases.ParkCase | tests/test_dict_reader.py:12-16 | `park` has exactly one variant, `P AA1 R K`. |
| DictReaderCases.HashMarkCase | tests/test_dict_reader.py:34 | The key `#hash-mark` holds `HH AE1 M AA2 R K` at index 0. |
| DictReaderCases.ConsoleCase | tests/test_dict_reader.py:36-37 | `console` has variant 0 from its own line and variant 1 from the `console(1)` line, and no variant 2. |
| DictReaderCases.NumberedKeyCase | tests/test_dict_reader.py:37-38 | `console(1)` keeps its own key. Its variant 0 is the same pronunciation as variant 1 of `console`. |
| DictReaderCases.SampleKeys | tests/test_dict_reader.py:11 | The keys are exactly the words of the entry lines. A comment adds none, and the numbered variant counts as a key. |

## Left out

- Confidence: `u_product(probs)` is a floating-point product computed by an unseen helper. `Prediction` carries the probabilities through unchanged and has no confidence field.
- Tensors and devices: `torch.tensor`, `pad_sequence`, `torch.stack`, `.cpu()`, `torch.no_grad` and `@profile` are modelled as sequences of integers and reals, or dropped.
- Loading and I/O: checkpoint download and loading, `Infer.__init__`, `src/Aquila_Resolve/data/remote.py` and `src/Aquila_Resolve/data/__init__.py` are network and file plumbing.
- Collaborator internals: the tokenizers, `model.generate` and `_get_len_util_stop` are uninterpreted. Whether the stop length includes the end token is left open, since only `0 <= n <= len(row)` is assumed. Some lemmas also assume that `generate` returns at least as many probabilities in a row as tokens, as its same-shaped output tensors give.
- Set order: the order in which Python iterates a set is the `listSet` collaborator. The model fixes only that the listing holds each member once.
- Empty batches: the exception PyTorch raises when a batch is empty is not modelled.
- Error kinds: `predict_word` on an output with no row is a `NoOutputRow` failure rather than an `IndexError`. A missing key in `__call__` is a `MissingPrediction` failure rather than a `KeyError`.
- TextFilter.Allowed: letters are ASCII `a-z` and `A-Z` only. Other letters, such as `ñ`, `ü`, `ç` and `ß`, are deleted; only the acute and grave vowels are folded to ASCII first.
- DictReader.Add: the number `n` in a `base(n)` line is not used. Variants of a word are kept in the order of the lexicon lines, not ordered by `n`.
- Batching.Batchify: `u_batchify` is not part of this model. It is defined here as consecutive chunks of `batch_size` items, the last possibly shorter. The properties proved about the predictor use only that the chunks concatenate back to the input and hold between 1 and `batch_size` items.
- Predictor.Call: requires `batch_size > 0`, as do `Predictor.PredictBatch`, `Predictor.Plan`, `Predictor.Table` and `Predictor.PredictWords`. What `u_batchify` does with a non-positive size cannot be seen.
- Predictor.PredictWords: the result is not shown to be independent of the batch size, because the model's output for a word may depend on the other words of its chunk through padding.
- DictReader.Lookup: the index is a natural number; Python's negative indexes from the end are not modelled.
- DictReader: keys are stored as written, with no lower-casing or trimming, because the tests only query keys as they appear in the lexicon.
- DictReader: a repeated plain word appends a further variant, as a `base(n)` line does. The tests do not pin this.
- DictReaderCases: the sample lexicon holds only the lines the tests query, after one comment line. The test fixture's own file is not part of this model. So the key count of `tests/test_dict_reader.py:11`, the fixture's line count minus 5, is stated as one key per entry line.
- DictReader: a `word(n)` line is also a key of its own, as `tests/test_dict_reader.py:38` looks up `console(1)` directly.
- TextFilter.FoldAccent: only the acute and grave vowels of the tests are folded. Full Unicode decomposition is not modelled.
- TextFilter.FilterText: leading and trailing whitespace is kept, since no test trims. Whitespace is space, tab, line feed and carriage return.
- TextFilter.FilterText: case-preserving mode is off unless asked for, as in the calls at `tests/test_filter.py:14` and `tests/test_filter.py:25`.
