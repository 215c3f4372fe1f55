/** `SentenceVectorizer`: the strategy registry, the name-to-backend dispatch
    of `vectorize`, and the backends, each of which adds the column
    `feat_col + '_vec'` to the frame it is given. */
module Vectorizer {
  import opened Results
  import opened Text
  import opened Tables
  import opened Backends
  import opened SpanContext
  import opened WordVectors

  /** Default column names and the encoder's `max_seq_len`. */
  const FEAT_COL := "term"
  const TEXT_COL := "text"
  const MAX_SEQ_LEN: nat := 10

  /** The BERT checkpoints `vectorize` passes as `bert_type`. */
  const BERT_BASE := "bert-base-uncased"
  const BERT_PUBMED := "cambridgeltl/SapBERT-from-PubMedBERT-fulltext"
  const BERTWEET := "vinai/bertweet-base"

  /** The strategy names `vectorize` accepts. */
  const ACCEPTED: set<string> :=
    {"fasttext_facebook", "bert-base-uncased", "bert-PubMed", "bertweet-base",
     "sent2vec", "encoder", "tfidf", "word2vec"}

  /** `vectorize`'s default `vectorizer_name`. */
  const DEFAULT_NAME := "fasttext"

  function VecColumn(featCol: string): string
  {
    featCol + "_vec"
  }

  // ---------------------------------------------------------------- registry

  /** `__available_vectorizers` as written: the comma after "bertweet-base"
      is missing, so Python joins that literal with the next one. Of its eight
      entries, the four `fasttext_*` sizes and the joined one are names
      `vectorize` rejects. */
  function AvailableVectorizers(): (r: seq<string>)
    ensures |r| == 8 && Distinct(r)
    ensures "bertweet-baseword2vec" in r && "bertweet-base" !in r && "word2vec" !in r
    ensures forall i :: 0 <= i < |r| ==> (r[i] !in ACCEPTED <==> i < 4 || i == 7)
  {
    var r := ["fasttext_default_100", "fasttext_default_300",
              "fasttext_cadec_100", "fasttext_cadec_300",
              "fasttext_facebook",
              "bert-base-uncased",
              "bert-PubMed",
              "bertweet-base" + "word2vec"];
    assert r[7] == "bertweet-baseword2vec";
    r
  }

  /** The registry with the comma restored: nine distinct entries, of which
      only the four `fasttext_*` sizes are names `vectorize` rejects. */
  function IntendedVectorizers(): (r: seq<string>)
    ensures |r| == 9 && Distinct(r)
    ensures "bertweet-base" in r && "word2vec" in r
    ensures forall i :: 0 <= i < |r| ==> (r[i] !in ACCEPTED <==> i < 4)
  {
    ["fasttext_default_100", "fasttext_default_300",
     "fasttext_cadec_100", "fasttext_cadec_300",
     "fasttext_facebook",
     "bert-base-uncased",
     "bert-PubMed",
     "bertweet-base",
     "word2vec"]
  }

  /** The registry in the form the corrected list would take is what
      `get_availables_vectorizers` should return; as written it returns the
      joined entry instead of the two names. */
  lemma RegistryJoinsTwoNames()
    ensures AvailableVectorizers()[..7] == IntendedVectorizers()[..7]
    ensures AvailableVectorizers()[7] == IntendedVectorizers()[7] + IntendedVectorizers()[8]
  {
  }

  // ---------------------------------------------------------------- dispatch

  datatype Backend =
    | FastTextFacebook
    | SpanBert(modelId: string)
    | Sent2Vec
    | Encoder
    | Tfidf
    | Word2Vec

  /** The backend the if-chain of `vectorize` calls for a name. */
  function Dispatch(name: string): (r: Result<Backend, Error>)
    ensures r.Err? <==> name !in ACCEPTED
    ensures r.Err? ==> r.error == UnknownVectorizer
    ensures r.Ok? && r.value.SpanBert? <==> name == "bert-base-uncased" || name == "bert-PubMed" || name == "bertweet-base"
    ensures r.Ok? && r.value.SpanBert? ==> r.value.modelId in {BERT_BASE, BERT_PUBMED, BERTWEET}
    // the branch each accepted name takes
    ensures r == Ok(FastTextFacebook) <==> name == "fasttext_facebook"
    ensures r == Ok(SpanBert(BERT_BASE)) <==> name == "bert-base-uncased"
    ensures r == Ok(SpanBert(BERT_PUBMED)) <==> name == "bert-PubMed"
    ensures r == Ok(SpanBert(BERTWEET)) <==> name == "bertweet-base"
    ensures r == Ok(Sent2Vec) <==> name == "sent2vec"
    ensures r == Ok(Encoder) <==> name == "encoder"
    ensures r == Ok(Tfidf) <==> name == "tfidf"
    ensures r == Ok(Word2Vec) <==> name == "word2vec"
  {
    if name == "fasttext_facebook" then Ok(FastTextFacebook)
    else if name == "bert-base-uncased" then Ok(SpanBert(BERT_BASE))
    else if name == "bert-PubMed" then Ok(SpanBert(BERT_PUBMED))
    else if name == "bertweet-base" then Ok(SpanBert(BERTWEET))
    else if name == "sent2vec" then Ok(Sent2Vec)
    else if name == "encoder" then Ok(Encoder)
    else if name == "tfidf" then Ok(Tfidf)
    else if name == "word2vec" then Ok(Word2Vec)
    else Err(UnknownVectorizer)
  }

  /** Different accepted names reach different backends (the three BERT names
      differ in their model id). */
  lemma DispatchInjective(a: string, b: string)
    requires Dispatch(a).Ok? && Dispatch(a) == Dispatch(b)
    ensures a == b
  {
  }

  /** `vectorize(data)` with its default name "fasttext" raises `KeyError`:
      no branch of the if-chain accepts it. */
  lemma DefaultNameRejected()
    ensures DEFAULT_NAME !in ACCEPTED
    ensures Dispatch(DEFAULT_NAME) == Err(UnknownVectorizer)
  {
  }

  // ------------------------------------------------- cell-by-cell backends

  /** The backends that derive the new column from `data[feat_col]` cell by cell. */
  datatype CellBackend = FastTextCells | Word2VecCells | EncoderCells | TfidfCells

  /** `encoder.predict(pad_sequences(texts_to_sequences([x]), maxlen=10))[0]`. */
  function EncoderCell(env: Env, x: Cell): (r: Result<Cell, Error>)
    ensures r.Ok? <==> x.Str?
    ensures r.Ok? ==> r.value == Vec(env.encoderPredict(env.padSequence(env.textsToSequence(x.s), MAX_SEQ_LEN)))
  {
    match x
    case Str(s) => Ok(Vec(env.encoderPredict(env.padSequence(env.textsToSequence(s), MAX_SEQ_LEN))))
    case _ => Err(NotText)
  }

  /** One TF-IDF row for `' '.join(tokenize(x))`. */
  function TfidfCell(env: Env, x: Cell): (r: Result<Cell, Error>)
    ensures r.Ok? <==> x.Str?
    ensures r.Ok? ==> r.value == Vec(env.tfidf(JoinWords(env.wordTokenize(x.s))))
  {
    match x
    case Str(s) => Ok(Vec(env.tfidf(JoinWords(env.wordTokenize(s)))))
    case _ => Err(NotText)
  }

  function CellFor(env: Env, b: CellBackend, x: Cell): Result<Cell, Error>
  {
    match b
    case FastTextCells => WordCell(env, FastTextModel, x)
    case Word2VecCells => WordCell(env, Word2VecModel, x)
    case EncoderCells => EncoderCell(env, x)
    case TfidfCells => TfidfCell(env, x)
  }

  /** The per-cell function one backend applies, as a value. */
  function CellFn(env: Env, b: CellBackend): (f: Cell -> Result<Cell, Error>)
    ensures forall x :: f(x) == CellFor(env, b, x)
  {
    x => CellFor(env, b, x)
  }

  /** The frame after a cell-by-cell backend: only `feat_col + '_vec'` is
      written, row count and order are kept, and row `i` of the new column is
      the backend's value for row `i` of `feat_col`. */
  function DeriveColumn(env: Env, t: Table, b: CellBackend, featCol: string): (r: Result<Table, Error>)
    requires WellFormed(t)
    ensures featCol !in t.names ==> r == Err(MissingColumn(featCol))
    ensures r.Ok? <==> featCol in t.names && forall i :: 0 <= i < |t.rows| ==> CellFor(env, b, t.rows[i][featCol]).Ok?
    ensures r.Ok? ==> WellFormed(r.value) && |r.value.rows| == |t.rows|
    ensures r.Ok? ==> t.names <= r.value.names && Columns(r.value.names) == Columns(t.names) + {VecColumn(featCol)}
    ensures r.Ok? ==> forall i :: 0 <= i < |t.rows| ==>
      CellFor(env, b, t.rows[i][featCol]) == Ok(r.value.rows[i][VecColumn(featCol)])
    ensures r.Ok? ==> forall i, c :: 0 <= i < |t.rows| && c in t.rows[i] && c != VecColumn(featCol) ==>
      r.value.rows[i][c] == t.rows[i][c]
  {
    match ColumnOf(t, featCol)
    case Err(e) => Err(e)
    case Ok(col) =>
      match ApplyRows(col, CellFn(env, b))
      case Err(e) => Err(e)
      case Ok(cells) => Ok(WithColumn(t, VecColumn(featCol), cells))
  }

  /** On the word-vector backends a term of at most one character keeps its
      raw value in the new column. */
  lemma {:induction false} WordBackendPassThrough(env: Env, t: Table, b: CellBackend, featCol: string, i: nat)
    requires WellFormed(t) && (b == FastTextCells || b == Word2VecCells)
    requires DeriveColumn(env, t, b, featCol).Ok? && i < |t.rows|
    requires t.rows[i][featCol].Str? && |t.rows[i][featCol].s| <= 1
    ensures DeriveColumn(env, t, b, featCol).value.rows[i][VecColumn(featCol)] == t.rows[i][featCol]
  {
    var x := t.rows[i][featCol];
    var model := if b == FastTextCells then FastTextModel else Word2VecModel;
    assert CellFor(env, b, x) == WordCell(env, model, x) == Ok(x);
  }

  // ------------------------------------------------------------- sent2vec

  /** `vectorize_sent_sent2vec`: one vector per term from the sent2vec batch. */
  function Sent2VecColumn(env: Env, t: Table, featCol: string): (r: Result<Table, Error>)
    requires WellFormed(t)
    ensures r.Ok? <==> featCol in t.names && |env.sent2vec(ColumnOf(t, featCol).value)| == |t.rows|
    ensures r.Ok? ==> WellFormed(r.value) && |r.value.rows| == |t.rows|
    ensures r.Ok? ==> Columns(r.value.names) == Columns(t.names) + {VecColumn(featCol)}
    ensures r.Ok? ==> forall i :: 0 <= i < |t.rows| ==>
      r.value.rows[i][VecColumn(featCol)] == Vec(env.sent2vec(ColumnOf(t, featCol).value)[i])
    ensures r.Ok? ==> forall i, c :: 0 <= i < |t.rows| && c in t.rows[i] && c != VecColumn(featCol) ==>
      r.value.rows[i][c] == t.rows[i][c]
  {
    match ColumnOf(t, featCol)
    case Err(e) => Err(e)
    case Ok(col) =>
      var vectors := env.sent2vec(col);
      if |vectors| != |col| then Err(LengthMismatch)
      else Ok(WithColumn(t, VecColumn(featCol), seq(|vectors|, i requires 0 <= i < |vectors| => Vec(vectors[i]))))
  }

  // ------------------------------------------------------------ span BERT

  /** The row lambda of `vectorize_span_bert`: the context is `text_col` when
      the frame has it and the term itself otherwise. */
  function SpanBertCell(env: Env, bertType: string, row: Row, featCol: string, textCol: string, hasText: bool): (r: Result<Cell, Error>)
    ensures var ctx := if hasText then textCol else featCol;
      r.Ok? <==> ctx in row && featCol in row && row[ctx].Str? && row[featCol].Str?
    ensures var ctx := if hasText then textCol else featCol;
      r.Ok? ==> r.value == AggregationType(env, SpanVectors(env, bertType, row[ctx].s, row[featCol].s))
    ensures var ctx := if hasText then textCol else featCol;
      ctx !in row ==> r == Err(MissingColumn(ctx))
    ensures r.Ok? ==> !r.value.Str?
  {
    var contextCol := if hasText then textCol else featCol;
    if contextCol !in row then Err(MissingColumn(contextCol))
    else if featCol !in row then Err(MissingColumn(featCol))
    else if row[contextCol].Str? && row[featCol].Str? then
      Ok(AggregationType(env, SpanVectors(env, bertType, row[contextCol].s, row[featCol].s)))
    else Err(NotText)
  }

  function SpanBertFn(env: Env, bertType: string, featCol: string, textCol: string, hasText: bool): (f: Row -> Result<Cell, Error>)
    ensures forall row :: f(row) == SpanBertCell(env, bertType, row, featCol, textCol, hasText)
  {
    row => SpanBertCell(env, bertType, row, featCol, textCol, hasText)
  }

  /** The frame after the backend writes its column, and the frame it returns. */
  datatype Outcome = Outcome(mutated: Table, returned: Table)

  /** `vectorize_span_bert`; `aggType` is accepted and never read. */
  function SpanBertSpec(env: Env, t: Table, bertType: string, featCol: string, textCol: string, aggType: string): (r: Result<Outcome, Error>)
    requires WellFormed(t)
    ensures r.Ok? ==> WellFormed(r.value.mutated) && r.value.returned == DropMissing(r.value.mutated)
    ensures r.Ok? ==> |r.value.mutated.rows| == |t.rows|
    ensures r.Ok? ==> Columns(r.value.mutated.names) == Columns(t.names) + {VecColumn(featCol)}
    // the apply succeeds exactly when every row's context and term are text
    ensures var ctx := if textCol in t.names then textCol else featCol;
      r.Ok? <==> forall i :: 0 <= i < |t.rows| ==>
        ctx in t.rows[i] && featCol in t.rows[i] && t.rows[i][ctx].Str? && t.rows[i][featCol].Str?
    // row i holds the mean of the vectors selected from its context for its term
    ensures var ctx := if textCol in t.names then textCol else featCol;
      r.Ok? ==> forall i :: 0 <= i < |t.rows| ==>
        ctx in t.rows[i] && featCol in t.rows[i] && t.rows[i][ctx].Str? && t.rows[i][featCol].Str? &&
        r.value.mutated.rows[i][VecColumn(featCol)] ==
          AggregationType(env, SpanVectors(env, bertType, t.rows[i][ctx].s, t.rows[i][featCol].s))
    // a row's vector is missing exactly when no context token was selected
    ensures var ctx := if textCol in t.names then textCol else featCol;
      r.Ok? ==> forall i :: 0 <= i < |t.rows| ==>
        ctx in t.rows[i] && featCol in t.rows[i] && t.rows[i][ctx].Str? && t.rows[i][featCol].Str? &&
        (r.value.mutated.rows[i][VecColumn(featCol)] == Missing <==>
          SpanVectors(env, bertType, t.rows[i][ctx].s, t.rows[i][featCol].s) == [])
    ensures r.Ok? ==> forall i, c :: 0 <= i < |t.rows| && c in t.rows[i] && c != VecColumn(featCol) ==>
      r.value.mutated.rows[i][c] == t.rows[i][c]
  {
    var hasText := textCol in t.names;
    match ApplyRows(t.rows, SpanBertFn(env, bertType, featCol, textCol, hasText))
    case Err(e) => Err(e)
    case Ok(cells) =>
      var mutated := WithColumn(t, VecColumn(featCol), cells);
      Ok(Outcome(mutated, DropMissing(mutated)))
  }

  /** The aggregation policy argument changes nothing. */
  lemma SpanBertIgnoresAggType(env: Env, t: Table, bertType: string, featCol: string, textCol: string, a: string, b: string)
    requires WellFormed(t)
    ensures SpanBertSpec(env, t, bertType, featCol, textCol, a) == SpanBertSpec(env, t, bertType, featCol, textCol, b)
  {
  }

  // ------------------------------------------------------------- vectorize

  function InPlace(r: Result<Table, Error>): Result<Outcome, Error>
  {
    match r
    case Err(e) => Err(e)
    case Ok(t) => Ok(Outcome(t, t))
  }

  /** One backend called by `vectorize` with its default arguments
      `feat_col='term'`, `text_col='text'` and `agg_type='mean'`. */
  function BackendSpec(env: Env, t: Table, b: Backend): (r: Result<Outcome, Error>)
    requires WellFormed(t)
    ensures r.Ok? ==> WellFormed(r.value.mutated) && |r.value.mutated.rows| == |t.rows|
    ensures r.Ok? ==> Columns(r.value.mutated.names) == Columns(t.names) + {VecColumn(FEAT_COL)}
    ensures r.Ok? ==> forall i, c :: 0 <= i < |t.rows| && c in t.rows[i] && c != VecColumn(FEAT_COL) ==>
      r.value.mutated.rows[i][c] == t.rows[i][c]
    ensures r.Ok? && !b.SpanBert? ==> r.value.returned == r.value.mutated
    ensures r.Ok? && b.SpanBert? ==> r.value.returned == DropMissing(r.value.mutated)
    // the cell-by-cell backends: `term_vec` row i is the backend's value for row i's term
    ensures (b.FastTextFacebook? || b.Word2Vec? || b.Encoder? || b.Tfidf?) ==>
      var cb := if b.FastTextFacebook? then FastTextCells else if b.Word2Vec? then Word2VecCells
                else if b.Encoder? then EncoderCells else TfidfCells;
      && (r.Ok? <==> FEAT_COL in t.names && forall i :: 0 <= i < |t.rows| ==> CellFor(env, cb, t.rows[i][FEAT_COL]).Ok?)
      && (r.Ok? ==> forall i :: 0 <= i < |t.rows| ==>
            CellFor(env, cb, t.rows[i][FEAT_COL]) == Ok(r.value.mutated.rows[i][VecColumn(FEAT_COL)]))
    // sent2vec: row i gets vector i of the batch embedding of the terms
    ensures b.Sent2Vec? && r.Ok? ==> (FEAT_COL in t.names && |env.sent2vec(ColumnOf(t, FEAT_COL).value)| == |t.rows| &&
      forall i :: 0 <= i < |t.rows| ==>
        r.value.mutated.rows[i][VecColumn(FEAT_COL)] == Vec(env.sent2vec(ColumnOf(t, FEAT_COL).value)[i]))
    // the span backends run with the term column, the text column and the mean
    ensures b.SpanBert? ==> r == SpanBertSpec(env, t, b.modelId, FEAT_COL, TEXT_COL, "mean")
  {
    match b
    case FastTextFacebook => InPlace(DeriveColumn(env, t, FastTextCells, FEAT_COL))
    case SpanBert(id) => SpanBertSpec(env, t, id, FEAT_COL, TEXT_COL, "mean")
    case Sent2Vec => InPlace(Sent2VecColumn(env, t, FEAT_COL))
    case Encoder => InPlace(DeriveColumn(env, t, EncoderCells, FEAT_COL))
    case Tfidf => InPlace(DeriveColumn(env, t, TfidfCells, FEAT_COL))
    case Word2Vec => InPlace(DeriveColumn(env, t, Word2VecCells, FEAT_COL))
  }

  /** `vectorize(data, name)`: an unknown name fails before any backend runs;
      otherwise the frame gains exactly the column `term_vec` with its row
      count unchanged, and only the BERT backends drop rows from what they
      return, namely those with a missing value. */
  function VectorizeSpec(env: Env, t: Table, name: string): (r: Result<Outcome, Error>)
    requires WellFormed(t)
    ensures Dispatch(name).Err? ==> r == Err(UnknownVectorizer)
    ensures r.Ok? ==> name in ACCEPTED
    ensures r.Ok? ==> WellFormed(r.value.mutated) && WellFormed(r.value.returned)
    ensures r.Ok? ==> |r.value.mutated.rows| == |t.rows|
    ensures r.Ok? ==> Columns(r.value.mutated.names) == Columns(t.names) + {VecColumn(FEAT_COL)}
    ensures r.Ok? ==> r.value.returned.names == r.value.mutated.names
    ensures r.Ok? ==> forall row :: row in r.value.returned.rows ==> row in r.value.mutated.rows
    ensures r.Ok? ==> forall i, c :: 0 <= i < |t.rows| && c in t.rows[i] && c != VecColumn(FEAT_COL) ==>
      r.value.mutated.rows[i][c] == t.rows[i][c]
    ensures r.Ok? && !Dispatch(name).value.SpanBert? ==> r.value.returned == r.value.mutated
    ensures r.Ok? && Dispatch(name).value.SpanBert? ==> r.value.returned == DropMissing(r.value.mutated)
    ensures r.Ok? && Dispatch(name).value.SpanBert? ==>
      forall i :: 0 <= i < |r.value.returned.rows| ==> Complete(r.value.returned.rows[i])
  {
    match Dispatch(name)
    case Err(e) => Err(e)
    case Ok(b) => BackendSpec(env, t, b)
  }

  /** A cell-by-cell backend applied to `data` in place. */
  method ApplyCellBackend(env: Env, data: Frame, b: CellBackend, featCol: string) returns (r: Result<Frame, Error>)
    requires data.Valid()
    modifies data
    ensures var spec := DeriveColumn(env, old(data.Value()), b, featCol);
      && (spec.Err? ==> r == Err(spec.error) && unchanged(data))
      && (spec.Ok? ==> r == Ok(data) && data.Valid() && data.Value() == spec.value)
  {
    var col := data.Get(featCol);
    if col.Err? {
      return Err(col.error);
    }
    var cells := ApplyRows(col.value, CellFn(env, b));
    if cells.Err? {
      return Err(cells.error);
    }
    data.Assign(VecColumn(featCol), cells.value);
    return Ok(data);
  }

  /** `vectorize_sent_ft`. */
  method VectorizeSentFt(env: Env, data: Frame, featCol: string) returns (r: Result<Frame, Error>)
    requires data.Valid()
    modifies data
    ensures var spec := DeriveColumn(env, old(data.Value()), FastTextCells, featCol);
      && (spec.Err? ==> r == Err(spec.error) && unchanged(data))
      && (spec.Ok? ==> r == Ok(data) && data.Valid() && data.Value() == spec.value)
  {
    r := ApplyCellBackend(env, data, FastTextCells, featCol);
  }

  /** `vectorize_sent_w2v`. */
  method VectorizeSentW2v(env: Env, data: Frame, featCol: string) returns (r: Result<Frame, Error>)
    requires data.Valid()
    modifies data
    ensures var spec := DeriveColumn(env, old(data.Value()), Word2VecCells, featCol);
      && (spec.Err? ==> r == Err(spec.error) && unchanged(data))
      && (spec.Ok? ==> r == Ok(data) && data.Valid() && data.Value() == spec.value)
  {
    r := ApplyCellBackend(env, data, Word2VecCells, featCol);
  }

  /** `vectorize_encoder`. */
  method VectorizeEncoder(env: Env, data: Frame, featCol: string) returns (r: Result<Frame, Error>)
    requires data.Valid()
    modifies data
    ensures var spec := DeriveColumn(env, old(data.Value()), EncoderCells, featCol);
      && (spec.Err? ==> r == Err(spec.error) && unchanged(data))
      && (spec.Ok? ==> r == Ok(data) && data.Valid() && data.Value() == spec.value)
  {
    r := ApplyCellBackend(env, data, EncoderCells, featCol);
  }

  /** `vectorize_tfidf`. */
  method VectorizeTfidf(env: Env, data: Frame, featCol: string) returns (r: Result<Frame, Error>)
    requires data.Valid()
    modifies data
    ensures var spec := DeriveColumn(env, old(data.Value()), TfidfCells, featCol);
      && (spec.Err? ==> r == Err(spec.error) && unchanged(data))
      && (spec.Ok? ==> r == Ok(data) && data.Valid() && data.Value() == spec.value)
  {
    r := ApplyCellBackend(env, data, TfidfCells, featCol);
  }

  /** `vectorize_sent_sent2vec`. */
  method VectorizeSentSent2vec(env: Env, data: Frame, featCol: string) returns (r: Result<Frame, Error>)
    requires data.Valid()
    modifies data
    ensures var spec := Sent2VecColumn(env, old(data.Value()), featCol);
      && (spec.Err? ==> r == Err(spec.error) && unchanged(data))
      && (spec.Ok? ==> r == Ok(data) && data.Valid() && data.Value() == spec.value)
  {
    var col := data.Get(featCol);
    if col.Err? {
      return Err(col.error);
    }
    var vectors := env.sent2vec(col.value);
    if |vectors| != |col.value| {
      return Err(LengthMismatch);
    }
    data.Assign(VecColumn(featCol), seq(|vectors|, i requires 0 <= i < |vectors| => Vec(vectors[i])));
    return Ok(data);
  }

  /** The row lambda of `vectorize_span_bert`, calling `get_vecors_from_context`. */
  method SpanBertRow(env: Env, bertType: string, row: Row, featCol: string, textCol: string, hasText: bool)
    returns (c: Result<Cell, Error>)
    ensures c == SpanBertCell(env, bertType, row, featCol, textCol, hasText)
  {
    var contextCol := if hasText then textCol else featCol;
    if contextCol !in row {
      c := Err(MissingColumn(contextCol));
    } else if featCol !in row {
      c := Err(MissingColumn(featCol));
    } else if row[contextCol].Str? && row[featCol].Str? {
      var vecs := GetVectorsFromContext(env, bertType, row[contextCol].s, row[featCol].s);
      c := Ok(AggregationType(env, vecs));
    } else {
      c := Err(NotText);
    }
  }

  /** `vectorize_span_bert`: one aggregated vector per row, written to the
      frame in place; the frame returned is a new one without the rows that
      have a missing value. */
  method VectorizeSpanBert(env: Env, data: Frame, featCol: string, textCol: string, bertType: string, aggType: string)
    returns (r: Result<Frame, Error>)
    requires data.Valid()
    modifies data
    ensures var spec := SpanBertSpec(env, old(data.Value()), bertType, featCol, textCol, aggType);
      && (spec.Err? ==> r == Err(spec.error) && unchanged(data))
      && (spec.Ok? ==> r.Ok? && fresh(r.value) && r.value.Valid() && data.Valid()
                       && data.Value() == spec.value.mutated && r.value.Value() == spec.value.returned)
  {
    var hasText := textCol in data.names;
    var rows := data.rows;
    ghost var t0 := data.Value();
    ghost var f := SpanBertFn(env, bertType, featCol, textCol, hasText);
    var cells: seq<Cell> := [];
    var i := 0;
    while i < |rows|
      invariant 0 <= i <= |rows| && |cells| == i
      invariant forall j :: 0 <= j < i ==> f(rows[j]) == Ok(cells[j])
      invariant unchanged(data)
    {
      var c := SpanBertRow(env, bertType, rows[i], featCol, textCol, hasText);
      if c.Err? {
        ApplyRowsFirstError(rows, f, i);
        return Err(c.error);
      }
      cells := cells + [c.value];
      i := i + 1;
    }
    ApplyRowsAllOk(rows, f, cells);
    ghost var mutated := WithColumn(t0, VecColumn(featCol), cells);
    assert SpanBertSpec(env, t0, bertType, featCol, textCol, aggType) == Ok(Outcome(mutated, DropMissing(mutated)));
    data.Assign(VecColumn(featCol), cells);
    var kept := data.DropNa();
    return Ok(kept);
  }

  /** `vectorize`: the if-chain over strategy names. */
  method Vectorize(env: Env, data: Frame, name: string) returns (r: Result<Frame, Error>)
    requires data.Valid()
    modifies data
    ensures var spec := VectorizeSpec(env, old(data.Value()), name);
      && (spec.Err? ==> r == Err(spec.error) && unchanged(data))
      && (spec.Ok? ==> r.Ok? && r.value.Valid() && data.Valid()
                       && data.Value() == spec.value.mutated && r.value.Value() == spec.value.returned)
    ensures r.Ok? && !Dispatch(name).value.SpanBert? ==> r.value == data
  {
    if name == "fasttext_facebook" {
      r := VectorizeSentFt(env, data, FEAT_COL);
    } else if name == "bert-base-uncased" {
      r := VectorizeSpanBert(env, data, FEAT_COL, TEXT_COL, BERT_BASE, "mean");
    } else if name == "bert-PubMed" {
      r := VectorizeSpanBert(env, data, FEAT_COL, TEXT_COL, BERT_PUBMED, "mean");
    } else if name == "bertweet-base" {
      r := VectorizeSpanBert(env, data, FEAT_COL, TEXT_COL, BERTWEET, "mean");
    } else if name == "sent2vec" {
      r := VectorizeSentSent2vec(env, data, FEAT_COL);
    } else if name == "encoder" {
      r := VectorizeEncoder(env, data, FEAT_COL);
    } else if name == "tfidf" {
      r := VectorizeTfidf(env, data, FEAT_COL);
    } else if name == "word2vec" {
      r := VectorizeSentW2v(env, data, FEAT_COL);
    } else {
      r := Err(UnknownVectorizer);
    }
  }
}
