/** What each vectorize call loads from disk or the network, and the library
    code it calls, passed in as values: the model is deterministic given them. */
module Backends {
  import opened Tables

  datatype Env = Env(
    // Tokenizer(TOKENIZER_NAME).tokenize, the project's word tokenizer
    wordTokenize: string -> seq<string>,
    // PREPROCESSING['agg_type'], read once per process
    aggType: string,
    // FastText subword model: every token gets a vector
    fastText: string -> Vector,
    // Word2Vec table: its keys are `model.vocab`
    word2vec: map<string, Vector>,
    // element-wise mean and max over a non-empty list of vectors
    mean: seq<Vector> -> Vector,
    max: seq<Vector> -> Vector,
    // patterns on which `re.search` raises `re.error`
    regexRejects: string -> bool,
    // BertTokenizer.tokenize, encode and the TFBertModel last hidden state,
    // each keyed by the model identifier
    bertTokenize: (string, string) -> seq<string>,
    bertEncode: (string, seq<string>) -> seq<int>,
    bertHidden: (string, seq<int>) -> seq<Vector>,
    // sent2vec Vectorizer.bert over a whole column
    sent2vec: seq<Cell> -> seq<Vector>,
    // the pickled Keras tokenizer, pad_sequences and the encoder network
    textsToSequence: string -> seq<int>,
    padSequence: (seq<int>, nat) -> seq<int>,
    encoderPredict: seq<int> -> Vector,
    // the pickled TF-IDF vectorizer, one dense row per document
    tfidf: string -> Vector
  )
}
