/** `run.py`: the label index built once per process, the (train, test)
    corpus pairs the nested loops of `main` run, and `run_pipe`, which
    truncates, vectorizes, drops incomplete rows and maps codes to ids. */
module Run {
  import opened Results
  import opened Text
  import opened Tables
  import opened Backends
  import opened Vectorizer

  // ------------------------------------------------------------ label index

  /** Where `c` first appears in `s`. */
  function FirstIndex(s: seq<string>, c: string): (k: nat)
    requires c in s
    ensures k < |s| && s[k] == c
    ensures forall j :: 0 <= j < k ==> s[j] != c
  {
    if s[0] == c then 0 else 1 + FirstIndex(s[1..], c)
  }

  /** Appending to a sequence does not move any first appearance. */
  lemma {:induction false} FirstIndexAppend(s: seq<string>, x: string, c: string)
    requires c in s
    ensures FirstIndex(s + [x], c) == FirstIndex(s, c)
  {
    if s[0] != c {
      assert (s + [x])[1..] == s[1..] + [x];
      FirstIndexAppend(s[1..], x, c);
    }
  }

  /** `labels.unique()`: each distinct code once. */
  function Unique(codes: seq<string>): (u: seq<string>)
    ensures Distinct(u)
    ensures forall c :: c in u <==> c in codes
  {
    if codes == [] then []
    else
      var u := Unique(codes[..|codes| - 1]);
      var last := codes[|codes| - 1];
      assert codes == codes[..|codes| - 1] + [last];
      if last in u then u else u + [last]
  }

  /** `unique()` lists the codes in the order of their first appearance. */
  lemma {:induction false} UniqueInFirstAppearanceOrder(codes: seq<string>)
    ensures forall i, j :: 0 <= i < j < |Unique(codes)| ==>
      FirstIndex(codes, Unique(codes)[i]) < FirstIndex(codes, Unique(codes)[j])
  {
    if codes != [] {
      var init := codes[..|codes| - 1];
      var last := codes[|codes| - 1];
      assert codes == init + [last];
      UniqueInFirstAppearanceOrder(init);
      var u := Unique(init);
      forall c | c in u
        ensures FirstIndex(codes, c) == FirstIndex(init, c) < |init|
      {
        FirstIndexAppend(init, last, c);
      }
      if last !in u {
        assert FirstIndex(codes, last) == |init|;
      }
    }
  }

  /** `{v: k for k, v in enumerate(u)}`. */
  function Enumerate(u: seq<string>): map<string, nat>
  {
    if u == [] then map[]
    else Enumerate(u[..|u| - 1])[u[|u| - 1] := |u| - 1]
  }

  /** Enumerating distinct codes gives each its position. */
  lemma {:induction false} EnumerateDistinct(u: seq<string>)
    requires Distinct(u)
    ensures Enumerate(u).Keys == Columns(u)
    ensures forall k :: 0 <= k < |u| ==> Enumerate(u)[u[k]] == k
  {
    if u != [] {
      var init := u[..|u| - 1];
      EnumerateDistinct(init);
      assert u == init + [u[|u| - 1]];
      assert Columns(u) == Columns(init) + {u[|u| - 1]};
    }
  }

  /** `meddra_labels`: a dense id for every distinct code. */
  function LabelIndex(codes: seq<string>): (m: map<string, nat>)
    ensures m.Keys == Columns(codes)
    ensures forall k :: 0 <= k < |Unique(codes)| ==> m[Unique(codes)[k]] == k
    ensures forall c :: c in m ==> m[c] < |Unique(codes)|
    ensures forall c, d :: c in m && d in m && c != d ==> m[c] != m[d]
  {
    var u := Unique(codes);
    EnumerateDistinct(u);
    var m := Enumerate(u);
    assert forall c :: c in m ==> exists k :: 0 <= k < |u| && u[k] == c;
    m
  }

  /** The id of a code is its position in `unique()`. */
  lemma LabelIndexPosition(codes: seq<string>, c: string) returns (k: nat)
    requires c in codes
    ensures k < |Unique(codes)| && Unique(codes)[k] == c && LabelIndex(codes)[c] == k
  {
    var u := Unique(codes);
    k :| 0 <= k < |u| && u[k] == c;
  }

  /** The first code of the column gets id 0. */
  lemma LabelIndexFirstCodeIsZero(codes: seq<string>)
    requires codes != []
    ensures LabelIndex(codes)[codes[0]] == 0
  {
    UniqueInFirstAppearanceOrder(codes);
    var k := LabelIndexPosition(codes, codes[0]);
  }

  /** A code that appears first earlier gets a smaller id, and conversely. */
  lemma LabelIndexFollowsFirstAppearance(codes: seq<string>, c: string, d: string)
    requires c in codes && d in codes
    ensures LabelIndex(codes)[c] < LabelIndex(codes)[d] <==> FirstIndex(codes, c) < FirstIndex(codes, d)
  {
    var u := Unique(codes);
    var kc := LabelIndexPosition(codes, c);
    var kd := LabelIndexPosition(codes, d);
    UniqueInFirstAppearanceOrder(codes);
    if kc < kd {
      assert FirstIndex(codes, u[kc]) < FirstIndex(codes, u[kd]);
    } else if kd < kc {
      assert FirstIndex(codes, u[kd]) < FirstIndex(codes, u[kc]);
    }
  }

  /** `y.apply(lambda x: int(meddra_labels[x]))`. */
  function MapLabels(index: map<string, nat>, codes: seq<Cell>): (r: Result<seq<nat>, Error>)
    ensures r.Ok? <==> forall i :: 0 <= i < |codes| ==> codes[i].Str? && codes[i].s in index
    ensures r.Ok? ==> |r.value| == |codes|
    ensures r.Ok? ==> forall i :: 0 <= i < |codes| ==> r.value[i] == index[codes[i].s]
    // `apply` raises on the first code that is not a known string
    ensures r.Err? ==> exists i :: (0 <= i < |codes| && r.error == UnknownCode(codes[i])
      && !(codes[i].Str? && codes[i].s in index)
      && forall j :: 0 <= j < i ==> codes[j].Str? && codes[j].s in index)
  {
    if codes == [] then Ok([])
    else if codes[0].Str? && codes[0].s in index then
      match MapLabels(index, codes[1..])
      case Err(e) =>
        assert exists i :: (1 <= i < |codes| && e == UnknownCode(codes[i])
          && !(codes[i].Str? && codes[i].s in index)
          && forall j :: 1 <= j < i ==> codes[j].Str? && codes[j].s in index)
        by {
          var k :| 0 <= k < |codes[1..]| && e == UnknownCode(codes[1..][k])
            && !(codes[1..][k].Str? && codes[1..][k].s in index)
            && forall j :: 0 <= j < k ==> codes[1..][j].Str? && codes[1..][j].s in index;
          assert forall j :: 1 <= j < k + 1 ==> codes[j] == codes[1..][j - 1];
        }
        Err(e)
      case Ok(ids) => Ok([index[codes[0].s]] + ids)
    else Err(UnknownCode(codes[0]))
  }

  // ------------------------------------------------------------ run plan

  const DATA_DIR := "data/interim/"
  const CORPORA: set<string> := {"smm4h17", "smm4h21", "psytar", "cadec"}

  /** The arguments of one `run_pipe` call. */
  datatype RunSpec = RunSpec(nameTrain: string, corpusTrain: string, nameTest: string, corpusTest: string)

  function PlannedRun(name: string): (r: RunSpec)
    ensures |name| > 0 && name[0] != '/' ==>
      r.corpusTrain == DATA_DIR + name + "/train.csv" && r.corpusTest == DATA_DIR + name + "/test.csv"
  {
    RunSpec(name, PathJoin(DATA_DIR, name) + "/train.csv", name, PathJoin(DATA_DIR, name) + "/test.csv")
  }

  /** The `run_pipe` calls `main` makes for a directory listing, in order:
      each listed allowed corpus is trained and tested on itself. */
  function Plan(listing: seq<string>): (runs: seq<RunSpec>)
    ensures |runs| <= |listing|
    ensures forall k :: 0 <= k < |runs| ==>
      runs[k].nameTrain in CORPORA && runs[k].nameTrain in listing
      && runs[k].nameTest == runs[k].nameTrain && runs[k] == PlannedRun(runs[k].nameTrain)
    ensures forall i :: 0 <= i < |listing| && listing[i] in CORPORA ==> PlannedRun(listing[i]) in runs
  {
    if listing == [] then []
    else
      var init := listing[..|listing| - 1];
      var last := listing[|listing| - 1];
      assert listing == init + [last];
      Plan(init) + (if last in CORPORA then [PlannedRun(last)] else [])
  }

  /** One more listing entry extends the plan by at most its own run. */
  lemma PlanStep(listing: seq<string>, i: nat)
    requires i < |listing|
    ensures Plan(listing[..i + 1]) == Plan(listing[..i]) + (if listing[i] in CORPORA then [PlannedRun(listing[i])] else [])
  {
    assert listing[..i + 1][..i] == listing[..i];
  }

  /** Directory entries are distinct, so no training corpus runs twice. */
  lemma {:induction false} PlanRunsEachCorpusOnce(listing: seq<string>)
    requires Distinct(listing)
    ensures forall a, b :: 0 <= a < b < |Plan(listing)| ==> Plan(listing)[a].nameTrain != Plan(listing)[b].nameTrain
  {
    if listing != [] {
      var init := listing[..|listing| - 1];
      var last := listing[|listing| - 1];
      assert listing == init + [last];
      PlanRunsEachCorpusOnce(init);
      assert last !in init;
    }
  }

  // ------------------------------------------------------------ run_pipe

  /** `iloc[:150]`. */
  const MAX_ROWS: nat := 150
  const FAILED_TAG := "FAILED RUN"
  const FAILED_STATUS := "FAILED"

  datatype Sample = Sample(features: seq<Cell>, labels: seq<nat>)

  datatype Metric = Metric(name: string, k: nat, score: real)

  /** How a run ends: its metrics, or tagged and ended as failed. */
  datatype RunOutcome = Finished(metrics: seq<Metric>) | Failed(tag: string, status: string)

  /** `f"accuracy_{k}"` for a one-digit `k`: the prefix, then `k` in decimal. */
  function MetricName(k: nat): (r: string)
    requires k < 10
    ensures |r| == 10 && r[..9] == "accuracy_"
    ensures '0' <= r[9] <= '9' && r[9] as int - '0' as int == k
  {
    "accuracy_" + [('0' as int + k) as char]
  }

  /** The frame `vectorize` returns for a split, after `dropna()`. */
  function Vectorized(env: Env, t: Table, name: string): (kept: Table)
    requires WellFormed(t) && VectorizeSpec(env, t, name).Ok?
    ensures WellFormed(kept) && VecColumn(FEAT_COL) in kept.names && |kept.rows| <= |t.rows|
    ensures forall i :: 0 <= i < |kept.rows| ==> Complete(kept.rows[i])
    ensures forall row :: row in kept.rows ==> row in VectorizeSpec(env, t, name).value.mutated.rows
    // whichever backend ran, these are exactly the complete rows of the vectorized frame, in order
    ensures kept == DropMissing(VectorizeSpec(env, t, name).value.mutated)
  {
    var out := VectorizeSpec(env, t, name).value;
    // on the span backends `returned` is already `DropMissing(mutated)`; dropping again keeps it
    CompleteRowsIdem(out.mutated.rows);
    assert Columns(out.returned.names) == Columns(t.names) + {VecColumn(FEAT_COL)};
    DropMissing(out.returned)
  }

  /** `X, y = data['term_vec'], data['code']` with the codes mapped to ids. */
  function Labelled(index: map<string, nat>, kept: Table): (r: Result<Sample, Error>)
    requires WellFormed(kept) && VecColumn(FEAT_COL) in kept.names
    requires forall i :: 0 <= i < |kept.rows| ==> Complete(kept.rows[i])
    ensures "code" !in kept.names ==> r == Err(MissingColumn("code"))
    ensures r.Ok? <==> ("code" in kept.names &&
      forall i :: 0 <= i < |kept.rows| ==> kept.rows[i]["code"].Str? && kept.rows[i]["code"].s in index)
    ensures r.Ok? ==> ("code" in kept.names && |r.value.features| == |r.value.labels| == |kept.rows| &&
      forall i :: 0 <= i < |kept.rows| ==>
        r.value.features[i] == kept.rows[i][VecColumn(FEAT_COL)] && r.value.features[i] != Missing &&
        kept.rows[i]["code"].Str? && r.value.labels[i] == index[kept.rows[i]["code"].s])
  {
    var x := ColumnOf(kept, VecColumn(FEAT_COL)).value;
    match ColumnOf(kept, "code")
    case Err(e) => Err(e)
    case Ok(codes) =>
      match MapLabels(index, codes)
      case Err(e) => Err(e)
      case Ok(y) =>
        forall i | 0 <= i < |x|
          ensures x[i] != Missing
        {
          assert Complete(kept.rows[i]) && x[i] in kept.rows[i].Values;
        }
        Ok(Sample(x, y))
  }

  /** A truncated split after `vectorize`, `dropna()` and the label mapping:
      row i of the sample is kept row i, its `term_vec` and its code's id. */
  function Prepared(env: Env, index: map<string, nat>, name: string, t: Table): (r: Result<Sample, Error>)
    requires WellFormed(t)
    ensures Dispatch(name).Err? ==> r == Err(UnknownVectorizer)
    ensures VectorizeSpec(env, t, name).Err? ==> r == Err(VectorizeSpec(env, t, name).error)
    ensures VectorizeSpec(env, t, name).Ok? && "code" !in Vectorized(env, t, name).names ==>
      r == Err(MissingColumn("code"))
    ensures r.Ok? <==> (VectorizeSpec(env, t, name).Ok? && "code" in Vectorized(env, t, name).names &&
      forall i :: 0 <= i < |Vectorized(env, t, name).rows| ==>
        Vectorized(env, t, name).rows[i]["code"].Str? && Vectorized(env, t, name).rows[i]["code"].s in index)
    ensures r.Ok? ==> |r.value.features| == |r.value.labels| == |Vectorized(env, t, name).rows| <= |t.rows|
    ensures r.Ok? ==> forall i :: 0 <= i < |r.value.features| ==>
      r.value.features[i] == Vectorized(env, t, name).rows[i][VecColumn(FEAT_COL)] && r.value.features[i] != Missing
    ensures r.Ok? ==> forall i :: 0 <= i < |r.value.labels| ==>
      Vectorized(env, t, name).rows[i]["code"].Str? &&
      r.value.labels[i] == index[Vectorized(env, t, name).rows[i]["code"].s] && r.value.labels[i] in index.Values
  {
    match VectorizeSpec(env, t, name)
    case Err(e) => Err(e)
    case Ok(_) => Labelled(index, Vectorized(env, t, name))
  }

  /** What the trainer sees of one split: at most 150 rows, none with a
      missing value, each labelled through the index. */
  function PrepareSplit(env: Env, index: map<string, nat>, name: string, csv: Table): (r: Result<Sample, Error>)
    requires WellFormed(csv)
    ensures Dispatch(name).Err? ==> r == Err(UnknownVectorizer)
    ensures r.Ok? ==> |r.value.features| == |r.value.labels| <= MAX_ROWS
  {
    Prepared(env, index, name, Prefix(csv, MAX_ROWS))
  }

  /** A split is prepared from the first 150 rows of its file only. */
  lemma PrepareSplitReadsFirstRows(env: Env, index: map<string, nat>, name: string, csv: Table)
    requires WellFormed(csv)
    ensures var n := if |csv.rows| <= MAX_ROWS then |csv.rows| else MAX_ROWS;
      PrepareSplit(env, index, name, csv) == Prepared(env, index, name, Table(csv.names, csv.rows[..n]))
  {
    assert csv.rows[..|csv.rows|] == csv.rows;
  }

  /** Two files that agree on their columns and their first 150 rows are
      prepared alike: rows after the 150th never reach the vectorizer. */
  lemma PrepareSplitIgnoresLaterRows(env: Env, index: map<string, nat>, name: string, a: Table, b: Table)
    requires WellFormed(a) && WellFormed(b) && a.names == b.names
    requires |a.rows| >= MAX_ROWS && |b.rows| >= MAX_ROWS && a.rows[..MAX_ROWS] == b.rows[..MAX_ROWS]
    ensures PrepareSplit(env, index, name, a) == PrepareSplit(env, index, name, b)
  {
    PrepareSplitReadsFirstRows(env, index, name, a);
    PrepareSplitReadsFirstRows(env, index, name, b);
  }

  /** Accuracy at k = 1, 2, 3, in that order. */
  function Accuracies(accuracy: (Sample, Sample, nat) -> real, train: Sample, test: Sample): (r: seq<Metric>)
    ensures |r| == 3
    ensures forall i :: 0 <= i < 3 ==> r[i] == Metric(MetricName(i + 1), i + 1, accuracy(train, test, i + 1))
  {
    [ Metric(MetricName(1), 1, accuracy(train, test, 1)),
      Metric(MetricName(2), 2, accuracy(train, test, 2)),
      Metric(MetricName(3), 3, accuracy(train, test, 3)) ]
  }

  /** `run_pipe`: any exception of the run body ends the run as failed and is
      not raised further. */
  function RunPipeSpec(env: Env, index: map<string, nat>, name: string, trainCsv: Table, testCsv: Table,
                       accuracy: (Sample, Sample, nat) -> real): (o: RunOutcome)
    requires WellFormed(trainCsv) && WellFormed(testCsv)
    ensures o.Failed? ==> o == Failed(FAILED_TAG, FAILED_STATUS)
    ensures o.Finished? <==> PrepareSplit(env, index, name, trainCsv).Ok? && PrepareSplit(env, index, name, testCsv).Ok?
    ensures o.Finished? ==> |o.metrics| == 3 && forall i :: 0 <= i < 3 ==> o.metrics[i].k == i + 1 && o.metrics[i].name == MetricName(i + 1)
    // the scores are those of the model trained on the train sample, measured on the test sample
    ensures o.Finished? ==> o.metrics == Accuracies(accuracy, PrepareSplit(env, index, name, trainCsv).value,
                                                    PrepareSplit(env, index, name, testCsv).value)
    ensures Dispatch(name).Err? ==> o == Failed(FAILED_TAG, FAILED_STATUS)
  {
    match PrepareSplit(env, index, name, trainCsv)
    case Err(_) => Failed(FAILED_TAG, FAILED_STATUS)
    case Ok(train) =>
      match PrepareSplit(env, index, name, testCsv)
      case Err(_) => Failed(FAILED_TAG, FAILED_STATUS)
      case Ok(test) => Finished(Accuracies(accuracy, train, test))
  }

  /** The loop `for k in range(1, 4)` logging `accuracy_k`. */
  method LogAccuracies(accuracy: (Sample, Sample, nat) -> real, train: Sample, test: Sample) returns (metrics: seq<Metric>)
    ensures |metrics| == 3
    ensures forall i :: 0 <= i < 3 ==> metrics[i] == Metric(MetricName(i + 1), i + 1, accuracy(train, test, i + 1))
  {
    metrics := [];
    for k := 1 to 4
      invariant |metrics| == k - 1
      invariant forall i :: 0 <= i < k - 1 ==> metrics[i] == Metric(MetricName(i + 1), i + 1, accuracy(train, test, i + 1))
    {
      metrics := metrics + [Metric(MetricName(k), k, accuracy(train, test, k))];
    }
  }

  /** Vectorize a truncated split, drop incomplete rows, map its codes. */
  method PrepareSample(env: Env, index: map<string, nat>, name: string, data: Frame) returns (r: Result<Sample, Error>)
    requires data.Valid()
    modifies data
    ensures r == Prepared(env, index, name, old(data.Value()))
  {
    var vectorized := Vectorize(env, data, name);
    if vectorized.Err? {
      return Err(vectorized.error);
    }
    var kept := vectorized.value.DropNa();
    var x := kept.Get(VecColumn(FEAT_COL));
    assert x.Ok?;
    var codes := kept.Get("code");
    if codes.Err? {
      return Err(codes.error);
    }
    var y := MapLabels(index, codes.value);
    if y.Err? {
      return Err(y.error);
    }
    return Ok(Sample(x.value, y.value));
  }

  /** `pd.read_csv(...).iloc[:150]` followed by the split's preparation. */
  method PrepareCsv(env: Env, index: map<string, nat>, name: string, csv: Table) returns (r: Result<Sample, Error>)
    requires WellFormed(csv)
    ensures r == PrepareSplit(env, index, name, csv)
  {
    var file := new Frame(csv);
    var head := file.Head(MAX_ROWS);
    r := PrepareSample(env, index, name, head);
  }

  /** `run_pipe`. */
  method RunPipe(env: Env, index: map<string, nat>, name: string, trainCsv: Table, testCsv: Table,
                 accuracy: (Sample, Sample, nat) -> real) returns (o: RunOutcome)
    requires WellFormed(trainCsv) && WellFormed(testCsv)
    ensures o == RunPipeSpec(env, index, name, trainCsv, testCsv, accuracy)
  {
    var train := PrepareCsv(env, index, name, trainCsv);
    if train.Err? {
      return Failed(FAILED_TAG, FAILED_STATUS);
    }
    var test := PrepareCsv(env, index, name, testCsv);
    if test.Err? {
      return Failed(FAILED_TAG, FAILED_STATUS);
    }
    var metrics := LogAccuracies(accuracy, train.value, test.value);
    assert metrics == Accuracies(accuracy, train.value, test.value);
    return Finished(metrics);
  }

  // ------------------------------------------------------------ main

  /** The outcome of each planned run, in order: entry k is what `run_pipe` gives for run k. */
  function Outcomes(env: Env, index: map<string, nat>, name: string, read: string -> Table,
                    accuracy: (Sample, Sample, nat) -> real, runs: seq<RunSpec>): (os: seq<RunOutcome>)
    requires forall p :: WellFormed(read(p))
    ensures |os| == |runs|
  {
    seq(|runs|, k requires 0 <= k < |runs| =>
      RunPipeSpec(env, index, name, read(runs[k].corpusTrain), read(runs[k].corpusTest), accuracy))
  }

  /** Running one more planned run appends its outcome. */
  lemma OutcomesAppend(env: Env, index: map<string, nat>, name: string, read: string -> Table,
                       accuracy: (Sample, Sample, nat) -> real, runs: seq<RunSpec>, more: seq<RunSpec>)
    requires forall p :: WellFormed(read(p))
    requires |more| <= 1
    ensures Outcomes(env, index, name, read, accuracy, runs + more)
      == Outcomes(env, index, name, read, accuracy, runs) + Outcomes(env, index, name, read, accuracy, more)
  {
    if more == [] {
      assert runs + more == runs;
    } else {
      assert (runs + more)[..|runs|] == runs;
      assert more[..0] == [];
    }
  }

  /** One iteration of `main`'s outer loop: an allowed training corpus is
      looked up again in the listing and run against itself. */
  method RunCorpus(env: Env, index: map<string, nat>, listing: seq<string>, i: nat, read: string -> Table,
                   name: string, accuracy: (Sample, Sample, nat) -> real)
    returns (runs: seq<RunSpec>, outcomes: seq<RunOutcome>)
    requires i < |listing|
    requires forall p :: WellFormed(read(p))
    ensures runs == (if listing[i] in CORPORA then [PlannedRun(listing[i])] else [])
    ensures outcomes == Outcomes(env, index, name, read, accuracy, runs)
  {
    runs, outcomes := [], [];
    var nameTrain := listing[i];
    if nameTrain !in CORPORA {
      return;
    }
    var folder := PathJoin(DATA_DIR, nameTrain);
    var corpusTrain := folder + "/train.csv";
    var j := 0;
    while j < |listing|
      invariant j <= i
      invariant runs == [] && outcomes == []
      decreases |listing| - j
    {
      var nameTest := listing[j];
      if nameTest !in CORPORA || nameTest != nameTrain {
        j := j + 1;
        continue;
      }
      folder := PathJoin(DATA_DIR, nameTest);
      var corpusTest := folder + "/test.csv";
      var o := RunPipe(env, index, name, read(corpusTrain), read(corpusTest), accuracy);
      runs := [RunSpec(nameTrain, corpusTrain, nameTest, corpusTest)];
      outcomes := [o];
      break;
    }
  }

  /** `main`: build the label index, then run every listed allowed corpus
      against itself, in listing order. */
  method RunExperiment(env: Env, labelCodes: seq<string>, listing: seq<string>, read: string -> Table,
                       name: string, accuracy: (Sample, Sample, nat) -> real)
    returns (runs: seq<RunSpec>, outcomes: seq<RunOutcome>)
    requires forall p :: WellFormed(read(p))
    ensures runs == Plan(listing)
    ensures outcomes == Outcomes(env, LabelIndex(labelCodes), name, read, accuracy, runs)
  {
    var index := LabelIndex(labelCodes);
    runs, outcomes := [], [];
    for i := 0 to |listing|
      invariant runs == Plan(listing[..i])
      invariant outcomes == Outcomes(env, index, name, read, accuracy, runs)
    {
      var planned, outs := RunCorpus(env, index, listing, i, read, name, accuracy);
      PlanStep(listing, i);
      OutcomesAppend(env, index, name, read, accuracy, runs, planned);
      runs, outcomes := runs + planned, outcomes + outs;
    }
    assert listing[..|listing|] == listing;
  }
}
