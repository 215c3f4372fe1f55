/** The BERT-family span backend's per-row work: cut a long context down to a
    window around the span, then keep the hidden-state vectors of the context
    tokens that also occur among the span's tokens. */
module SpanContext {
  import opened Results
  import opened Text
  import opened Tables
  import opened Backends

  /** Contexts longer than this many characters are windowed. */
  const MAX_CONTEXT: nat := 512
  /** The window starts this many characters before the match ... */
  const WINDOW_BACK: nat := 255
  /** ... and is this many characters long. */
  const WINDOW_LEN: nat := 256

  /** How the search for the span inside the try block ends. */
  datatype Search = Found(start: nat) | NotFound | Raised

  /** `re.search(span.lower(), text.lower())`, the pattern read literally;
      `Raised` stands for the `re.error` the except clause catches. */
  function SearchSpan(env: Env, text: string, span: string): (r: Search)
    ensures r.Found? ==> OccursAt(Lower(span), Lower(text), r.start)
    ensures r.Found? ==> forall j: nat :: j < r.start ==> !OccursAt(Lower(span), Lower(text), j)
    ensures r.Found? && |text| > 0 ==> r.start < |text|
    ensures r.NotFound? <==> !env.regexRejects(Lower(span)) && forall j: nat :: !OccursAt(Lower(span), Lower(text), j)
    ensures r.Raised? <==> env.regexRejects(Lower(span))
  {
    var pat := Lower(span);
    if env.regexRejects(pat) then Raised
    else
      match Find(pat, Lower(text))
      case Some(k) => Found(k)
      case None => NotFound
  }

  /** `0 if start-255 < 0 else start-255`. */
  function WindowStart(s: nat): nat
  {
    if s < WINDOW_BACK then 0 else s - WINDOW_BACK
  }

  /** The window around a match at `s` in a long text. */
  lemma WindowAround(text: string, s: nat)
    requires |text| > MAX_CONTEXT && s < |text|
    ensures var a := WindowStart(s);
      var r := Slice(text, a, a + WINDOW_LEN);
      && |r| <= WINDOW_LEN
      && a <= s < a + |r|
      && (s < WINDOW_BACK ==> r == text[..WINDOW_LEN])
      && (s >= WINDOW_BACK ==> a + |r| == s + 1)
  {
  }

  /** The text `get_vecors_from_context` tokenizes for a row. */
  function Context(env: Env, text: string, span: string): (r: string)
    ensures |text| <= MAX_CONTEXT ==> r == text
    ensures |text| > MAX_CONTEXT && !SearchSpan(env, text, span).Found? ==> r == span
    ensures |text| > MAX_CONTEXT && SearchSpan(env, text, span).Found? ==>
      var s := SearchSpan(env, text, span).start;
      var a := WindowStart(s);
      && |r| <= WINDOW_LEN
      && a <= s < a + |r|
      && (forall i :: 0 <= i < |r| ==> r[i] == text[a + i])
      && (s < WINDOW_BACK ==> r == text[..WINDOW_LEN])
      && (s >= WINDOW_BACK ==> a + |r| == s + 1)
      && (|span| > 0 ==> LowerChar(r[s - a]) == LowerChar(span[0]))
  {
    if |text| <= MAX_CONTEXT then text
    else
      match SearchSpan(env, text, span)
      case Found(s) =>
        var a := WindowStart(s);
        var r := Slice(text, a, a + WINDOW_LEN);
        WindowAround(text, s);
        assert |span| > 0 ==> Lower(text)[s] == Lower(span)[0] by {
          if |span| > 0 {
            assert Lower(text)[s..s + |span|] == Lower(span);
          }
        }
        r
      case NotFound => span
      case Raised => span
  }

  /** Vectors paired by `zip` with the first `n` context tokens whose string
      is among the span's tokens, in context order. */
  function Selected(textTokens: seq<string>, vectors: seq<Vector>, spanTokens: seq<string>, n: nat): (r: seq<Vector>)
    requires n <= |textTokens| && n <= |vectors|
    ensures |r| <= n
  {
    if n == 0 then []
    else
      Selected(textTokens, vectors, spanTokens, n - 1)
        + (if textTokens[n - 1] in spanTokens then [vectors[n - 1]] else [])
  }

  /** The positions, among the first `n`, of context tokens that occur in the span. */
  function KeptPositions(textTokens: seq<string>, spanTokens: seq<string>, n: nat): seq<nat>
    requires n <= |textTokens|
  {
    if n == 0 then []
    else
      KeptPositions(textTokens, spanTokens, n - 1)
        + (if textTokens[n - 1] in spanTokens then [n - 1] else [])
  }

  /** The kept positions are exactly the matching ones, each once, ascending. */
  lemma {:induction false} KeptPositionsExact(textTokens: seq<string>, spanTokens: seq<string>, n: nat)
    requires n <= |textTokens|
    ensures forall i: nat :: i in KeptPositions(textTokens, spanTokens, n) <==> i < n && textTokens[i] in spanTokens
    ensures forall j :: 0 <= j < |KeptPositions(textTokens, spanTokens, n)| ==> KeptPositions(textTokens, spanTokens, n)[j] < n
    ensures forall a, b :: 0 <= a < b < |KeptPositions(textTokens, spanTokens, n)| ==>
      KeptPositions(textTokens, spanTokens, n)[a] < KeptPositions(textTokens, spanTokens, n)[b]
  {
    if n > 0 {
      KeptPositionsExact(textTokens, spanTokens, n - 1);
    }
  }

  /** The selection is the vectors at the kept positions, in that order. */
  lemma {:induction false} SelectedAtKeptPositions(textTokens: seq<string>, vectors: seq<Vector>, spanTokens: seq<string>, n: nat)
    requires n <= |textTokens| && n <= |vectors|
    ensures |Selected(textTokens, vectors, spanTokens, n)| == |KeptPositions(textTokens, spanTokens, n)|
    ensures forall j :: 0 <= j < |KeptPositions(textTokens, spanTokens, n)| ==>
      KeptPositions(textTokens, spanTokens, n)[j] < n
      && Selected(textTokens, vectors, spanTokens, n)[j] == vectors[KeptPositions(textTokens, spanTokens, n)[j]]
  {
    if n > 0 {
      SelectedAtKeptPositions(textTokens, vectors, spanTokens, n - 1);
    }
  }

  /** Nothing is selected exactly when no paired context token occurs in the span. */
  lemma {:induction false} SelectedEmpty(textTokens: seq<string>, vectors: seq<Vector>, spanTokens: seq<string>, n: nat)
    requires n <= |textTokens| && n <= |vectors|
    ensures Selected(textTokens, vectors, spanTokens, n) == [] <==> forall i :: 0 <= i < n ==> textTokens[i] !in spanTokens
  {
    if n > 0 {
      SelectedEmpty(textTokens, vectors, spanTokens, n - 1);
    }
  }

  /** When every paired context token occurs in the span, every paired vector is
      kept: order and duplicates are those of the context. */
  lemma {:induction false} SelectedAll(textTokens: seq<string>, vectors: seq<Vector>, spanTokens: seq<string>, n: nat)
    requires n <= |textTokens| && n <= |vectors|
    requires forall i :: 0 <= i < n ==> textTokens[i] in spanTokens
    ensures Selected(textTokens, vectors, spanTokens, n) == vectors[..n]
  {
    if n > 0 {
      SelectedAll(textTokens, vectors, spanTokens, n - 1);
      assert vectors[..n] == vectors[..n - 1] + [vectors[n - 1]];
    }
  }

  /** The length of `zip(text_tokens, word_ids, vectors)`. */
  function ZipLength(textTokens: seq<string>, ids: seq<int>, vectors: seq<Vector>): (n: nat)
    ensures n <= |textTokens| && n <= |ids| && n <= |vectors|
    ensures n == |textTokens| || n == |ids| || n == |vectors|
  {
    var m := if |textTokens| <= |ids| then |textTokens| else |ids|;
    if m <= |vectors| then m else |vectors|
  }

  /** What `get_vecors_from_context(text, span)` returns. */
  function SpanVectors(env: Env, bertType: string, text: string, span: string): (r: seq<Vector>)
    ensures var textTokens := env.bertTokenize(bertType, Context(env, text, span));
      var ids := env.bertEncode(bertType, textTokens);
      |r| <= ZipLength(textTokens, ids, env.bertHidden(bertType, ids))
    ensures |r| <= |env.bertTokenize(bertType, Context(env, text, span))|
  {
    var textTokens := env.bertTokenize(bertType, Context(env, text, span));
    var spanTokens := env.bertTokenize(bertType, span);
    var ids := env.bertEncode(bertType, textTokens);
    var vectors := env.bertHidden(bertType, ids);
    Selected(textTokens, vectors, spanTokens, ZipLength(textTokens, ids, vectors))
  }

  /** `get_vecors_from_context`: rebinds `text` to the window (or the span),
      then collects the selected vectors in a loop over the zipped tokens. */
  method GetVectorsFromContext(env: Env, bertType: string, text: string, span: string) returns (spanVecs: seq<Vector>)
    ensures spanVecs == SpanVectors(env, bertType, text, span)
  {
    var context := text;
    if |context| > MAX_CONTEXT {
      match SearchSpan(env, context, span) {
        case Found(s) =>
          var start := if s < WINDOW_BACK then 0 else s - WINDOW_BACK;
          context := Slice(context, start, start + WINDOW_LEN);
        case NotFound =>
          context := span;
        case Raised =>
          context := span;
      }
    }
    assert context == Context(env, text, span);
    spanVecs := [];
    var textTokens := env.bertTokenize(bertType, context);
    var spanTokens := env.bertTokenize(bertType, span);
    var wordIds := env.bertEncode(bertType, textTokens);
    var vectors := env.bertHidden(bertType, wordIds);
    var i := 0;
    while i < |textTokens| && i < |wordIds| && i < |vectors|
      invariant i <= ZipLength(textTokens, wordIds, vectors)
      invariant spanVecs == Selected(textTokens, vectors, spanTokens, i)
    {
      if textTokens[i] in spanTokens {
        spanVecs := spanVecs + [vectors[i]];
      }
      i := i + 1;
    }
  }

  /** `aggregation_type`: always the mean; NumPy's mean of nothing is NaN. */
  function AggregationType(env: Env, vecs: seq<Vector>): (c: Cell)
    ensures c.Missing? <==> vecs == []
    ensures vecs != [] ==> c == Vec(env.mean(vecs))
  {
    if vecs == [] then Missing else Vec(env.mean(vecs))
  }
}
