/** The FastText and Word2Vec backends' per-cell work: tokenize the term, look
    up one vector per token, aggregate them under the configured policy. */
module WordVectors {
  import opened Results
  import opened Tables
  import opened Backends

  datatype WordModel = FastTextModel | Word2VecModel

  /** `[model.wv[word] for word in sent]`: FastText has a vector for every token. */
  function FastTextVectors(env: Env, tokens: seq<string>): (r: seq<Vector>)
    ensures |r| == |tokens|
    ensures forall i :: 0 <= i < |tokens| ==> r[i] == env.fastText(tokens[i])
  {
    seq(|tokens|, i requires 0 <= i < |tokens| => env.fastText(tokens[i]))
  }

  /** `[model[word] for word in sent if word in model.vocab]`. */
  function InVocab(tokens: seq<string>, table: map<string, Vector>): (r: seq<Vector>)
    ensures |r| <= |tokens|
    ensures r == [] <==> forall i :: 0 <= i < |tokens| ==> tokens[i] !in table
    ensures (forall i :: 0 <= i < |tokens| ==> tokens[i] in table) ==>
      |r| == |tokens| && forall i :: 0 <= i < |r| ==> r[i] == table[tokens[i]]
  {
    if tokens == [] then []
    else (if tokens[0] in table then [table[tokens[0]]] else []) + InVocab(tokens[1..], table)
  }

  /** Out-of-vocabulary filtering is token by token: it distributes over
      concatenation, so the known tokens keep their order. */
  lemma {:induction false} InVocabAppend(a: seq<string>, b: seq<string>, table: map<string, Vector>)
    ensures InVocab(a + b, table) == InVocab(a, table) + InVocab(b, table)
  {
    if a == [] {
      assert a + b == b;
    } else {
      assert (a + b)[1..] == a[1..] + b;
      InVocabAppend(a[1..], b, table);
    }
  }

  function TokenVectors(env: Env, model: WordModel, tokens: seq<string>): seq<Vector>
  {
    match model
    case FastTextModel => FastTextVectors(env, tokens)
    case Word2VecModel => InVocab(tokens, env.word2vec)
  }

  /** `aggregate(np.array(vecs), AGG_TYPE)`: the mean of no vectors is NaN, the
      max of no vectors raises ValueError, an unknown policy returns None. */
  function Aggregate(env: Env, vecs: seq<Vector>): (r: Result<Cell, Error>)
    ensures r.Err? <==> env.aggType == "max" && vecs == []
    ensures r.Ok? && r.value.Vec? <==> vecs != [] && (env.aggType == "avg" || env.aggType == "max")
    ensures r.Ok? ==> !r.value.Str?
    // `avg` takes the element-wise mean, `max` the element-wise maximum
    ensures env.aggType == "avg" && vecs != [] ==> r == Ok(Vec(env.mean(vecs)))
    ensures env.aggType == "max" && vecs != [] ==> r == Ok(Vec(env.max(vecs)))
  {
    if env.aggType == "avg" then
      (if vecs == [] then Ok(Missing) else Ok(Vec(env.mean(vecs))))
    else if env.aggType == "max" then
      (if vecs == [] then Err(EmptyReduction) else Ok(Vec(env.max(vecs))))
    else Ok(Missing)
  }

  /** The lambda `sent2vec(x) if len(x) > 1 else x` applied to one term cell. */
  function WordCell(env: Env, model: WordModel, x: Cell): (r: Result<Cell, Error>)
    // terms of at most one character are stored raw
    ensures x.Str? && |x.s| <= 1 ==> r == Ok(x)
    // len() of a non-string raises
    ensures !x.Str? ==> r == Err(NotText)
    // only a term of two or more characters is ever turned into a vector
    ensures r.Ok? && r.value.Vec? ==> x.Str? && |x.s| > 1
    ensures r.Ok? && r.value.Str? ==> r == Ok(x)
    // Word2Vec: a term all of whose tokens are out of vocabulary has nothing to aggregate
    ensures (x.Str? && |x.s| > 1 && model == Word2VecModel
             && forall i :: 0 <= i < |env.wordTokenize(x.s)| ==> env.wordTokenize(x.s)[i] !in env.word2vec)
      ==> r == (if env.aggType == "max" then Err(EmptyReduction) else Ok(Missing))
    // a longer term aggregates the vectors of its tokens: all of them for
    // FastText, the in-vocabulary ones for Word2Vec
    ensures x.Str? && |x.s| > 1 && model == FastTextModel ==>
      r == Aggregate(env, FastTextVectors(env, env.wordTokenize(x.s)))
    ensures x.Str? && |x.s| > 1 && model == Word2VecModel ==>
      r == Aggregate(env, InVocab(env.wordTokenize(x.s), env.word2vec))
    // FastText: a tokenized term always aggregates to a vector under avg or max
    ensures (x.Str? && |x.s| > 1 && model == FastTextModel && |env.wordTokenize(x.s)| > 0
             && (env.aggType == "avg" || env.aggType == "max"))
      ==> r.Ok? && r.value.Vec?
  {
    match x
    case Str(s) =>
      if |s| > 1 then Aggregate(env, TokenVectors(env, model, env.wordTokenize(s))) else Ok(x)
    case _ => Err(NotText)
  }
}
