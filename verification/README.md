# Medical concept normalization: the sentence-vectorizer core

This project models, in Dafny, the vectorization layer of an experiment
pipeline that maps adverse-drug-reaction mentions to MedDRA codes, and the
driver that runs it over four benchmark corpora.

- `SentenceVectorizer.vectorize` dispatches on a strategy name to one of six
  backends. Every backend adds the column `term_vec` to the pandas frame it
  is given, in place.
  - FastText and Word2Vec: tokenize the term, look up token vectors (Word2Vec
    skips out-of-vocabulary tokens), then aggregate under `avg` or `max`.
    A term of at most one character is stored raw.
  - The BERT family (three checkpoints): a context longer than 512 characters
    is cut to a window of at most 256 characters around the first
    case-insensitive match of the span. It is the first 256 characters when
    the match starts before offset 255; otherwise it ends right after the
    match's first character. If nothing matches, the span itself is the
    context.
    The context tokens are zipped with the encoder's ids and hidden states;
    the hidden state at the same `zip` position as each context token that
    occurs among the span's tokens is kept, and the kept ones are averaged.
    Rows with nothing kept are dropped.
  - sent2vec, the trained encoder and TF-IDF.
- The strategy registry `__available_vectorizers`.
- `run.py`:
  - the label index, a dense id per distinct MedDRA code in first-appearance
    order;
  - the nested loops over the data directory that pair each allowed corpus
    with itself;
  - `run_pipe`: keep the first 150 rows, vectorize, `dropna()`, map codes to
    ids, log `accuracy_1..3`. An exception inside its `try` block marks the
    run `FAILED`. Reading the training file and opening the MLflow run
    happen before the `try`, so a failure there is not caught.

Modules:
- `Results`: Option and Result.
- `Text`: ASCII lower-casing, first-occurrence search, Python slicing,
  `' '.join`, `os.path.join`.
- `Tables`: cells, rows and frames as values. The class `Frame` is the frame
  that methods update in place.
- `Backends`: the loaded models and library calls, as function-valued
  parameters (`Env`).
- `SpanContext`: the window rule and the span-token selection loop.
- `WordVectors`: the FastText and Word2Vec per-cell work.
- `Vectorizer`: the registry, the dispatch and the backends.
- `Run`: the driver.

Each Python method that mutates the frame is a module-level Dafny method that
takes a `Frame` and changes it in place. It is proved equal to a pure
specification function, and the properties are proved about those functions.

Three behaviours of the source are kept as written:
- the one-character pass-through tests the term's length in characters,
  not tokens;
- the BERT aggregation is always the mean, whatever `agg_type` is;
- a search that raises also falls back to the span.

Conventions of the model:
- An exception is `Err(...)`. Each error says which Python exception it
  stands for (`KeyError` on a column or a label, a `TypeError` from `len()`
  on a non-string, `ValueError` from `max` of nothing). The project's word
  tokenizer is taken to raise on a non-string cell, so TF-IDF on such a
  cell is `NotText`; the word-vector backends fail earlier, at `len()`.
- NumPy's `nan` is the cell `Missing`.

## Model

| member | source | states |
|---|---|---|
| Text.Lower | src/data/sentence_vectorizer.py:128 | `str.lower()` keeps the length and lowers each character |
| Text.Find | src/data/sentence_vectorizer.py:128 | the leftmost match of the pattern: a match at the index returned and none before it; `None` exactly when there is no match anywhere |
| Text.Slice | src/data/sentence_vectorizer.py:134 | Python slicing with out-of-range bounds clamped: the characters from `lo` to the smaller of `hi` and the length |
| Text.JoinWords | src/data/sentence_vectorizer.py:186 | `' '.join` puts the words in order with one space between neighbours: its length is the words' total length plus one per gap, it starts with the first word, and a space follows it |
| Text.PathJoin | run.py:132 | `os.path.join` of a directory ending in `/` and a relative name is their concatenation |
| Tables.ColumnOf | run.py:61 | `data[name]` gives the column's cells in row order, or a `KeyError` exactly when the column is absent |
| Tables.WithColumn | src/data/sentence_vectorizer.py:91 | `data[name] = vals` keeps the frame well formed and its row count; it adds exactly that column, stores `vals[i]` in row `i` and leaves every other cell unchanged |
| Tables.CompleteRows | src/data/sentence_vectorizer.py:166 | `dropna()` keeps exactly the rows without a missing cell, never more rows, and all rows when none is incomplete |
| Tables.CompleteRowsAppend | src/data/sentence_vectorizer.py:166 | `dropna()` filters row by row, so the kept rows keep their relative order |
| Tables.CompleteRowsIdem | src/data/sentence_vectorizer.py:166 | a second `dropna()` keeps every row of the first |
| Tables.DropMissing | run.py:60 | the frame after `dropna()` has the same columns, and its rows are exactly the complete rows of the input |
| Tables.Prefix | run.py:52 | `iloc[:n]` is the first `min(n, rows)` rows, with the same columns |
| Tables.ApplyRows | src/data/sentence_vectorizer.py:161-165 | `apply` succeeds exactly when every row succeeds, and then yields each row's result in order |
| Tables.ApplyRowsFirstError | src/data/sentence_vectorizer.py:161-165 | the exception `apply` raises is that of the first failing row |
| Tables.ApplyRowsAllOk | src/data/sentence_vectorizer.py:161-165 | when every row succeeds, `apply` yields exactly the per-row results |
| Tables.Frame.constructor | run.py:52 | a frame read from a table holds that table |
| Tables.Frame.Get | run.py:61 | reading a column of the live frame agrees with `ColumnOf` on its value |
| Tables.Frame.Assign | src/data/sentence_vectorizer.py:91 | assigning a column in place turns the frame into `WithColumn` of its old value |
| Tables.Frame.DropNa | run.py:60 | `dropna()` returns a new frame holding `DropMissing` of the old one |
| Tables.Frame.Head | run.py:52 | `iloc[:n]` returns a new frame holding `Prefix` of the old one |
| SpanContext.SearchSpan | src/data/sentence_vectorizer.py:126-138 | finds the first case-insensitive occurrence of the span: found at `s` means an occurrence at `s` and none earlier, not found means none at all, and a pattern the regex engine rejects takes the `except` path |
| SpanContext.Context | src/data/sentence_vectorizer.py:125-138 | a context of at most 512 characters is used as is; if the span is not found (or the search raises), the span itself is used; if found at `s`, the context is a contiguous piece of the text of at most 256 characters that contains `s`. It is the first 256 characters when `s < 255`, and otherwise ends right after `s`, so the match's first character is its last |
| SpanContext.WindowAround | src/data/sentence_vectorizer.py:133-134 | the window of a long text holds the match start: it is the first 256 characters when the match starts before 255, and otherwise ends right after the match start |
| SpanContext.Selected | src/data/sentence_vectorizer.py:148-150 | at most one vector is kept per zipped position |
| SpanContext.KeptPositionsExact | src/data/sentence_vectorizer.py:148-150 | a position is kept exactly when its context token occurs among the span tokens; kept positions are in increasing order |
| SpanContext.SelectedAtKeptPositions | src/data/sentence_vectorizer.py:148-150 | the selected vectors are the hidden states at the kept positions, in context order |
| SpanContext.SelectedEmpty | src/data/sentence_vectorizer.py:148-151 | nothing is selected exactly when no zipped context token is a span token |
| SpanContext.SelectedAll | src/data/sentence_vectorizer.py:148-150 | when every context token is a span token, all zipped vectors are kept, in order |
| SpanContext.ZipLength | src/data/sentence_vectorizer.py:148 | `zip` stops at the shortest of tokens, ids and hidden states |
| SpanContext.SpanVectors | src/data/sentence_vectorizer.py:139-151 | no more vectors than `zip` pairs, that is, than the smallest of the context tokens, their ids and their hidden states |
| SpanContext.GetVectorsFromContext | src/data/sentence_vectorizer.py:124-151 | the method that rebinds `text` and loops over the zipped tokens returns exactly `SpanVectors` |
| SpanContext.AggregationType | src/data/sentence_vectorizer.py:153-158 | the mean is missing (`nan`) exactly when there are no vectors, and otherwise is the vector NumPy's `mean` gives for them |
| WordVectors.FastTextVectors | src/data/sentence_vectorizer.py:88 | FastText gives one vector per token: entry `i` is the model's vector for token `i` |
| WordVectors.InVocab | src/data/sentence_vectorizer.py:107 | out-of-vocabulary tokens are skipped: nothing is left exactly when every token is unknown, and when all are known, every token's vector is kept in order |
| WordVectors.InVocabAppend | src/data/sentence_vectorizer.py:107 | the filter distributes over concatenation, so known tokens keep their order |
| WordVectors.Aggregate | src/data/sentence_vectorizer.py:81-85 | `max` of no vectors raises; `avg` of some vectors is their `mean` and `max` of some vectors is their `max`; an unknown policy or the mean of nothing gives a missing value |
| WordVectors.WordCell | src/data/sentence_vectorizer.py:87-91 | a term of at most one character is stored raw; a non-string raises; a longer term is aggregated from the FastText vectors of all its tokens, or from the Word2Vec vectors of its in-vocabulary tokens; Word2Vec with every token unknown gives `nan` under `avg` and raises under `max`; a tokenized FastText term always gives a vector under `avg`/`max` |
| Vectorizer.AvailableVectorizers | src/data/sentence_vectorizer.py:38-46 | the registry as written has 8 distinct entries; "bertweet-base" and "word2vec" are fused into one; exactly the four `fasttext_*` sizes and the fused entry are names `vectorize` rejects |
| Vectorizer.IntendedVectorizers | src/data/sentence_vectorizer.py:38-46 | with the comma restored: 9 distinct entries, both names present, and only the four `fasttext_*` sizes rejected by `vectorize` |
| Vectorizer.RegistryJoinsTwoNames | src/data/sentence_vectorizer.py:44-45 | the two registries agree on the first seven entries, and the last written entry is the concatenation of the intended eighth and ninth |
| Vectorizer.Dispatch | src/data/sentence_vectorizer.py:191-210 | a name fails with `KeyError` exactly when it is none of the eight accepted names (the default "fasttext" included). Each accepted name selects its own branch: "fasttext_facebook" FastText, "bert-base-uncased", "bert-PubMed" and "bertweet-base" the span backend with their own checkpoint, and "sent2vec", "encoder", "tfidf" and "word2vec" their backends |
| Vectorizer.DefaultNameRejected | src/data/sentence_vectorizer.py:191-210 | `vectorize`'s default name "fasttext" is not accepted, so a call without a name raises `KeyError` |
| Vectorizer.DispatchInjective | src/data/sentence_vectorizer.py:193-208 | distinct accepted names select distinct backends |
| Vectorizer.EncoderCell | src/data/sentence_vectorizer.py:172-179 | a text gives the encoder's output for its index sequence padded or cut to length 10; anything else raises |
| Vectorizer.TfidfCell | src/data/sentence_vectorizer.py:185-187 | a text gives the TF-IDF row of its space-joined tokens; anything else raises |
| Vectorizer.DeriveColumn | src/data/sentence_vectorizer.py:91 | a cell-by-cell backend: `KeyError` without the feature column; it succeeds exactly when every cell succeeds, and then adds only `term_vec`, holding each row's result, with rows and other cells kept |
| Vectorizer.WordBackendPassThrough | src/data/sentence_vectorizer.py:91 | on FastText/Word2Vec, a term of at most one character ends up raw in `term_vec` |
| Vectorizer.Sent2VecColumn | src/data/sentence_vectorizer.py:53-58 | succeeds exactly when the feature column exists and sent2vec returns one vector per row; `term_vec` row `i` is vector `i`, and all other cells are kept |
| Vectorizer.SpanBertCell | src/data/sentence_vectorizer.py:160-165 | the context is `text` when the frame has it, the term otherwise. A row succeeds exactly when its context and term are both text, and then holds the mean of the vectors `get_vecors_from_context` selects. A missing context column raises `KeyError`. The result is never a string |
| Vectorizer.SpanBertSpec | src/data/sentence_vectorizer.py:119-166 | the apply succeeds exactly when every row's context and term are text. Row `i` of `term_vec` is then the mean of the vectors selected from row `i`'s context for its term, and is missing exactly when none is selected. The frame gains only `term_vec`, keeps its row count and its other cells. The returned frame is the mutated one after `dropna()` |
| Vectorizer.SpanBertIgnoresAggType | src/data/sentence_vectorizer.py:119-120 | the `agg_type` argument changes nothing |
| Vectorizer.BackendSpec | src/data/sentence_vectorizer.py:193-208 | each backend, called with `feat_col='term'`, adds only `term_vec`, keeps the row count and every other cell. On FastText, Word2Vec, the encoder and TF-IDF it succeeds exactly when every term succeeds, and row `i` of `term_vec` is row `i`'s term under that backend; on sent2vec row `i` is the `i`-th batch vector; the BERT backends are `vectorize_span_bert` with `text_col='text'` and `agg_type='mean'`. Only the BERT backends return a different frame: the mutated one after `dropna()` |
| Vectorizer.VectorizeSpec | src/data/sentence_vectorizer.py:191-211 | an unknown name fails before any backend runs. Otherwise the frame gains exactly `term_vec` with its row count and every other cell kept. Non-BERT backends return the mutated frame; the BERT backends return it after `dropna()` |
| Vectorizer.ApplyCellBackend | src/data/sentence_vectorizer.py:91 | the frame is updated in place to `DeriveColumn`, or left unchanged when an exception is raised |
| Vectorizer.VectorizeSentFt | src/data/sentence_vectorizer.py:75-92 | in place, as `DeriveColumn` with FastText cells |
| Vectorizer.VectorizeSentW2v | src/data/sentence_vectorizer.py:94-111 | in place, as `DeriveColumn` with Word2Vec cells |
| Vectorizer.VectorizeEncoder | src/data/sentence_vectorizer.py:168-180 | in place, as `DeriveColumn` with encoder cells |
| Vectorizer.VectorizeTfidf | src/data/sentence_vectorizer.py:182-188 | in place, as `DeriveColumn` with TF-IDF cells |
| Vectorizer.VectorizeSentSent2vec | src/data/sentence_vectorizer.py:53-58 | in place, as `Sent2VecColumn` |
| Vectorizer.SpanBertRow | src/data/sentence_vectorizer.py:161-165 | one row's result equals `SpanBertCell` |
| Vectorizer.VectorizeSpanBert | src/data/sentence_vectorizer.py:119-166 | the row loop writes `term_vec` in place as `SpanBertSpec` says, and returns a new, `dropna()`-ed frame; on an exception the frame is unchanged |
| Vectorizer.Vectorize | src/data/sentence_vectorizer.py:191-211 | the dispatch method agrees with `VectorizeSpec`; non-BERT backends return the frame they were given |
| Run.FirstIndex | run.py:111 | the position of the first occurrence of a code |
| Run.FirstIndexAppend | run.py:111 | appending codes never moves a first occurrence |
| Run.Unique | run.py:111 | `unique()` lists each code of the column exactly once |
| Run.UniqueInFirstAppearanceOrder | run.py:111 | `unique()` lists codes in the order of their first appearance |
| Run.EnumerateDistinct | run.py:111 | `{v: k for k, v in enumerate(u)}` over distinct codes maps each to its position |
| Run.LabelIndex | run.py:109-111 | the label index has exactly the codes of the column as keys, ids dense in `0..n-1` and distinct |
| Run.LabelIndexPosition | run.py:111 | a code's id is its position in `unique()` |
| Run.LabelIndexFirstCodeIsZero | run.py:111 | the first code gets id 0 |
| Run.LabelIndexFollowsFirstAppearance | run.py:111 | one code's id is smaller than another's exactly when it appears first earlier |
| Run.MapLabels | run.py:63 | mapping succeeds exactly when every code is a known string, then gives each row's id in order. Otherwise it raises on the first code that is not a known string |
| Run.PlannedRun | run.py:132-139 | the train and test paths are `data/interim/<name>/train.csv` and `.../test.csv` |
| Run.Plan | run.py:128-145 | every planned run is of an allowed listed corpus tested on itself, and every listed allowed corpus is planned |
| Run.PlanStep | run.py:128-145 | one more directory entry adds at most its own run, at the end |
| Run.PlanRunsEachCorpusOnce | run.py:128-145 | with distinct directory entries, no corpus is trained twice |
| Run.Vectorized | run.py:59-60 | the frame after `vectorize` and `dropna()` is exactly the complete rows of the vectorized frame, in order, whichever backend ran (for BERT the second `dropna()` changes nothing); it has `term_vec` and no more rows than the split |
| Run.Labelled | run.py:61-63 | `KeyError` without a `code` column. Otherwise it succeeds exactly when every code is a known label, and then row `i` of the sample is row `i`'s `term_vec` (never missing) and the id of its code |
| Run.Prepared | run.py:59-63 | a vectorizer error, an unknown name included, is the split's error. Without a `code` column after `dropna()` it raises `KeyError`. Otherwise it succeeds exactly when every kept code is a known label. Sample row `i` is then kept row `i`'s `term_vec` (never missing) and its code's id, with at most the split's rows |
| Run.PrepareSplit | run.py:52-63 | an unknown vectorizer fails, and a prepared split has at most 150 rows |
| Run.PrepareSplitReadsFirstRows | run.py:52 | a split is prepared from the first 150 rows of its file, or all of them when there are fewer |
| Run.PrepareSplitIgnoresLaterRows | run.py:52 | two files with the same columns and the same first 150 rows are prepared alike |
| Run.MetricName | run.py:92 | `f"accuracy_{k}"` for a one-digit `k` is `accuracy_` followed by the decimal digit of `k` |
| Run.Accuracies | run.py:89-92 | three metrics `accuracy_1..3`, at k = 1, 2, 3 |
| Run.RunPipeSpec | run.py:42-101 | a run finishes exactly when both splits can be prepared, and then logs `accuracy_1..3` scored from the model trained on the prepared train sample and measured on the prepared test sample; otherwise it is tagged "FAILED RUN" with status "FAILED", as it always is for an unknown vectorizer |
| Run.LogAccuracies | run.py:89-92 | the `for k in range(1, 4)` loop logs `accuracy_k` with the score at `k`, for k = 1, 2, 3 in order |
| Run.PrepareSample | run.py:59-63 | vectorizing, `dropna()` and label mapping on a live frame agree with `Prepared` |
| Run.PrepareCsv | run.py:52 | reading and truncating a split, then preparing it, agrees with `PrepareSplit` |
| Run.RunPipe | run.py:42-101 | the pipeline method's outcome equals `RunPipeSpec` |
| Run.OutcomesAppend | run.py:128-145 | the outcomes of a log extended by one run are the old outcomes followed by that run's |
| Run.RunCorpus | run.py:128-145 | one outer iteration runs an allowed corpus once against itself, with the outcome `RunPipeSpec` gives (`Outcomes` of that run), and does nothing for any other entry |
| Run.RunExperiment | run.py:104-147 | the nested loops make exactly the runs of `Plan`, in order, and their outcomes are `Outcomes` of those runs: entry `k` is what `RunPipeSpec` gives for run `k`'s files and the label index |

## Left out

- Model loading, tokenizers, transformer inference, sent2vec, the encoder,
  TF-IDF and NumPy's `mean`/`max` are parameters of `Env`. Their numbers are
  not modelled; vectors are sequences of reals.
- `SpanContext.SpanVectors`: BERT encoding and the hidden states are the
  abstract `Env.bertEncode` and `Env.bertHidden`, and vectors are paired with
  context tokens by `zip` position only. A real BERT tokenizer's `encode`
  prefixes a `[CLS]` id, so the vector kept for the token at position `i` is
  the hidden state of position `i - 1` (of `[CLS]` at `i = 0`); the model
  does not capture which token a kept vector belongs to.
- `re.search` is modelled as a literal search. A span with regex
  metacharacters matches as text, and `Env.regexRejects` decides which
  patterns raise `re.error`.
- `str.lower()` lowers ASCII letters only.
- `vectorize_sent_bert` (lines 113-117) indexes a list with a string. No
  strategy name reaches it.
- `pretrain_ft__model` (lines 60-73) trains FastText. No strategy name
  reaches it, and training is outside the model.
- Output, progress bars, MLflow calls, logging, argument parsing and the
  random configuration file are not modelled.
- `os.listdir`'s order is a parameter. The CSV reader is a function from
  path to table (`read`).
- `Trainer.train_model` and `Trainer.accuracy` are one parameter `accuracy`.
  An exception inside training is not modelled, so after both splits are
  prepared the run finishes.
- `pd.DataFrame([pd.Series(x) ...])` is not modelled: features stay cells.
- The encoder backend's first pass (the `tokenized` local, lines 172-173)
  is unused and not modelled.
- `Vectorizer.SpanBertSpec`: on a frame with no rows the model returns the
  frame with an empty `term_vec`. pandas' `apply(axis=1)` on an empty frame
  returns an empty frame, and assigning it to one column raises; that path
  is not modelled, so frames are taken to have at least one row.
- Reading the training file and opening the MLflow run (run.py:52-55) are
  outside `run_pipe`'s `try`. The model assumes neither fails: `read` is a
  total function.
- `SentenceVectorizer.__init__` and `n_jobs` hold no state the model needs.
  The tokenizer is `Env.wordTokenize`.

## Findings

| source | as written | input that shows it | evidently intended | confidence | as-written member | corrected member |
|---|---|---|---|---|---|---|
| src/data/sentence_vectorizer.py:44-45 | no comma after `"bertweet-base"`, so it is joined with `'word2vec'` | `get_availables_vectorizers()` lists `"bertweet-baseword2vec"` and neither `"bertweet-base"` nor `"word2vec"` | nine entries including both names | high, not executed | Vectorizer.AvailableVectorizers | Vectorizer.IntendedVectorizers |
