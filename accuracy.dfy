/**
 * `obter_acuracia`: the classifier's per-class accuracy over the stored
 * cases a filter selects. The fitted classifier and the fitted label
 * encoder are inputs: `predict` maps one row of features to an encoded
 * class, and `classes` is the encoder's sorted list of class names.
 */
module Accuracy {
  import opened Wrappers
  import opened Json
  import opened Aggregates
  import Query

  /** The columns the classifier reads, in the order of `X`. */
  datatype Features = Features(idade: Json, etnia: Json, localizacao: Json)

  /** One row of the data frame: the features and the true tipo_do_caso. */
  datatype Sample = Sample(x: Features, tipo: Json)

  /** The response body: the class names and one accuracy per class. */
  datatype Report = Report(classes: seq<string>, precisao: seq<real>)

  // ---------------------------------------------------------------------
  // Building the data frame

  /** A cell pandas treats as missing. */
  predicate Present(v: Option<Json>) {
    v.Some? && v.value != JNull
  }

  /**
   * The row of a document after `dropna()`: kept only when all four cells
   * are present and not None.
   */
  function CompleteSample(d: Doc): (s: Option<Sample>)
    ensures s.Some? <==> Present(VictimField(d, "idade")) && Present(VictimField(d, "etnia"))
                         && Present(Get(d, "localizacao")) && Present(Get(d, "tipo_do_caso"))
    ensures s.Some? ==> s.value.x.idade != JNull && s.value.x.etnia != JNull
                        && s.value.x.localizacao != JNull && s.value.tipo != JNull
  {
    var idade := VictimField(d, "idade");
    var etnia := VictimField(d, "etnia");
    var localizacao := Get(d, "localizacao");
    var tipo := Get(d, "tipo_do_caso");
    if Present(idade) && Present(etnia) && Present(localizacao) && Present(tipo)
    then Some(Sample(Features(idade.value, etnia.value, localizacao.value), tipo.value))
    else None
  }

  /**
   * The data frame of the selected documents: reading a victim that is not
   * a dict raises, otherwise the complete rows in collection order.
   */
  function Samples(dados: seq<Doc>): (r: Result<seq<Sample>, Fault>)
    ensures r.Err? <==> exists i :: 0 <= i < |dados| && BadVictim(dados[i])
    ensures r.Ok? ==> |r.value| <= |dados|
    ensures r.Ok? ==> r.value == FilterMap(dados, CompleteSample)
  {
    if exists i :: 0 <= i < |dados| && BadVictim(dados[i]) then Err(TypeFault)
    else Ok(FilterMap(dados, CompleteSample))
  }

  function Labels(samples: seq<Sample>): (ys: seq<Json>)
    ensures |ys| == |samples|
    ensures forall i :: 0 <= i < |samples| ==> ys[i] == samples[i].tipo
  {
    seq(|samples|, i requires 0 <= i < |samples| => samples[i].tipo)
  }

  function Rows(samples: seq<Sample>): (xs: seq<Features>)
    ensures |xs| == |samples|
    ensures forall i :: 0 <= i < |samples| ==> xs[i] == samples[i].x
  {
    seq(|samples|, i requires 0 <= i < |samples| => samples[i].x)
  }

  // ---------------------------------------------------------------------
  // The label encoder

  /** The class names are pairwise different, as a fitted encoder's are. */
  predicate Distinct(classes: seq<string>) {
    forall i, j :: 0 <= i < j < |classes| ==> classes[i] != classes[j]
  }

  function IndexOf(classes: seq<string>, c: string): (i: nat)
    requires c in classes
    ensures i < |classes| && classes[i] == c
    ensures forall j :: 0 <= j < i ==> classes[j] != c
  {
    if classes[0] == c then 0 else 1 + IndexOf(classes[1..], c)
  }

  /** `label_encoder.transform` of one label: its position, or an error for a label the encoder never saw. */
  function Encode(classes: seq<string>, y: Json): (r: Result<nat, Fault>)
    ensures r.Ok? <==> y.JStr? && y.s in classes
    ensures r.Ok? ==> r.value < |classes| && classes[r.value] == y.s
    ensures r.Err? ==> r.error == CodecError(y)
  {
    if y.JStr? && y.s in classes then Ok(IndexOf(classes, y.s)) else Err(CodecError(y))
  }

  /** Encoding is injective on known labels: the code of the i-th class is i. */
  lemma EncodeClass(classes: seq<string>, i: nat)
    requires Distinct(classes) && i < |classes|
    ensures Encode(classes, JStr(classes[i])) == Ok(i)
  {
    var k := IndexOf(classes, classes[i]);
    assert classes[k] == classes[i];
  }

  /** `label_encoder.transform(y)`: all labels encoded, or the error of the first unseen one. */
  function EncodeAll(classes: seq<string>, ys: seq<Json>): (r: Result<seq<nat>, Fault>)
    ensures r.Ok? <==> forall i :: 0 <= i < |ys| ==> ys[i].JStr? && ys[i].s in classes
    ensures r.Ok? ==> |r.value| == |ys|
    ensures r.Ok? ==> forall i :: 0 <= i < |ys| ==> r.value[i] < |classes| && classes[r.value[i]] == ys[i].s
    ensures r.Err? ==> exists i :: 0 <= i < |ys| && r.error == CodecError(ys[i]) && !(ys[i].JStr? && ys[i].s in classes)
                                   && forall j :: 0 <= j < i ==> ys[j].JStr? && ys[j].s in classes
  {
    if ys == [] then Ok([])
    else
      var init := EncodeAll(classes, ys[..|ys| - 1]);
      var last := Encode(classes, ys[|ys| - 1]);
      if init.Err? then Err(init.error)
      else if last.Err? then Err(last.error)
      else Ok(init.value + [last.value])
  }

  /** A data frame whose labels are all class names encodes without error, each label to its class. */
  lemma EncodeKnownLabels(classes: seq<string>, samples: seq<Sample>)
    requires Distinct(classes)
    requires forall s :: s in samples ==> s.tipo.JStr? && s.tipo.s in classes
    ensures EncodeAll(classes, Labels(samples)).Ok?
    ensures forall i :: 0 <= i < |samples| ==>
              EncodeAll(classes, Labels(samples)).value[i] == IndexOf(classes, samples[i].tipo.s)
  {
    var ys := Labels(samples);
    assert forall i :: 0 <= i < |ys| ==> ys[i].JStr? && ys[i].s in classes by {
      forall i | 0 <= i < |ys| ensures ys[i].JStr? && ys[i].s in classes {
        assert samples[i] in samples;
      }
    }
    var r := EncodeAll(classes, ys);
    forall i | 0 <= i < |samples| ensures r.value[i] == IndexOf(classes, samples[i].tipo.s) {
      var k := IndexOf(classes, samples[i].tipo.s);
      assert classes[r.value[i]] == classes[k];
    }
  }

  // ---------------------------------------------------------------------
  // Accuracy per class

  /** `sum(y_encoded == i)`: the number of rows whose true class is i. */
  function CountTrue(yTrue: seq<int>, i: int): nat {
    if yTrue == [] then 0 else (if yTrue[0] == i then 1 else 0) + CountTrue(yTrue[1..], i)
  }

  /** `sum((y_encoded == i) & (y_pred == i))`: the rows of class i predicted as i. */
  function CountCorrect(yTrue: seq<int>, yPred: seq<int>, i: int): nat
    requires |yTrue| == |yPred|
  {
    if yTrue == [] then 0
    else (if yTrue[0] == i && yPred[0] == i then 1 else 0) + CountCorrect(yTrue[1..], yPred[1..], i)
  }

  lemma {:induction false} CorrectAtMostTotal(yTrue: seq<int>, yPred: seq<int>, i: int)
    requires |yTrue| == |yPred|
    ensures CountCorrect(yTrue, yPred, i) <= CountTrue(yTrue, i)
  {
    if yTrue != [] {
      CorrectAtMostTotal(yTrue[1..], yPred[1..], i);
    }
  }

  /** A class is fully correct exactly when every row of that class is predicted as that class. */
  lemma {:induction false} AllCorrectIff(yTrue: seq<int>, yPred: seq<int>, i: int)
    requires |yTrue| == |yPred|
    ensures CountCorrect(yTrue, yPred, i) == CountTrue(yTrue, i)
            <==> forall j :: 0 <= j < |yTrue| && yTrue[j] == i ==> yPred[j] == i
  {
    if yTrue != [] {
      AllCorrectIff(yTrue[1..], yPred[1..], i);
      CorrectAtMostTotal(yTrue[1..], yPred[1..], i);
      if forall j :: 0 <= j < |yTrue| && yTrue[j] == i ==> yPred[j] == i {
        forall j | 0 <= j < |yTrue| - 1 && yTrue[1..][j] == i ensures yPred[1..][j] == i {
          assert yTrue[j + 1] == i;
        }
      } else {
        var j :| 0 <= j < |yTrue| && yTrue[j] == i && yPred[j] != i;
        if j > 0 {
          assert yTrue[1..][j - 1] == i && yPred[1..][j - 1] != i;
        }
      }
    }
  }

  /** `(corretos / total) * 100 if total else 0`, before rounding. */
  function ClassAccuracy(total: nat, correct: nat): (a: real)
    requires correct <= total
    ensures 0.0 <= a <= 100.0
    ensures total == 0 ==> a == 0.0
    ensures total > 0 ==> (a == 100.0 <==> correct == total)
    ensures total > 0 ==> (a == 0.0 <==> correct == 0)
  {
    if total == 0 then 0.0 else (correct as real / total as real) * 100.0
  }

  /** The accuracy of every class, indexed like the encoder's classes. */
  function Precisions(numClasses: nat, yTrue: seq<int>, yPred: seq<int>): (p: seq<real>)
    requires |yTrue| == |yPred|
    ensures |p| == numClasses
    ensures forall i :: 0 <= i < numClasses ==> 0.0 <= p[i] <= 100.0
  {
    seq(numClasses, i requires 0 <= i < numClasses =>
      CorrectAtMostTotal(yTrue, yPred, i);
      ClassAccuracy(CountTrue(yTrue, i), CountCorrect(yTrue, yPred, i)))
  }

  /** A class scores 100 exactly when it has rows and all of them are predicted right. */
  lemma PerfectClass(numClasses: nat, yTrue: seq<int>, yPred: seq<int>, i: nat)
    requires |yTrue| == |yPred| && i < numClasses
    ensures Precisions(numClasses, yTrue, yPred)[i] == 100.0
            <==> i in yTrue && forall j :: 0 <= j < |yTrue| && yTrue[j] == i ==> yPred[j] == i
  {
    AllCorrectIff(yTrue, yPred, i);
    CorrectAtMostTotal(yTrue, yPred, i);
    CountTruePositive(yTrue, i);
  }

  /** A class absent from the true labels scores 0; any other scores its share of correctly predicted rows, times 100. */
  lemma ClassPrecision(numClasses: nat, yTrue: seq<int>, yPred: seq<int>, i: nat)
    requires |yTrue| == |yPred| && i < numClasses
    ensures i !in yTrue ==> Precisions(numClasses, yTrue, yPred)[i] == 0.0
    ensures i in yTrue ==> CountTrue(yTrue, i) > 0
    ensures i in yTrue ==>
              Precisions(numClasses, yTrue, yPred)[i]
              == (CountCorrect(yTrue, yPred, i) as real / CountTrue(yTrue, i) as real) * 100.0
  {
    CorrectAtMostTotal(yTrue, yPred, i);
    CountTruePositive(yTrue, i);
  }

  lemma {:induction false} CountTruePositive(yTrue: seq<int>, i: int)
    ensures CountTrue(yTrue, i) > 0 <==> i in yTrue
  {
    if yTrue != [] {
      CountTruePositive(yTrue[1..], i);
      assert yTrue == [yTrue[0]] + yTrue[1..];
    }
  }

  /** The loop `for i, classe in enumerate(classes)` appending one accuracy per class. */
  method PerClassAccuracy(numClasses: nat, yTrue: seq<int>, yPred: seq<int>) returns (precisao: seq<real>)
    requires |yTrue| == |yPred|
    ensures precisao == Precisions(numClasses, yTrue, yPred)
  {
    precisao := [];
    for i := 0 to numClasses
      invariant |precisao| == i
      invariant forall k :: 0 <= k < i ==> precisao[k] == Precisions(numClasses, yTrue, yPred)[k]
    {
      var total := CountTrue(yTrue, i);
      var corretos := CountCorrect(yTrue, yPred, i);
      CorrectAtMostTotal(yTrue, yPred, i);
      var acuracia := if total > 0 then (corretos as real / total as real) * 100.0 else 0.0;
      precisao := precisao + [acuracia];
    }
  }

  // ---------------------------------------------------------------------
  // The endpoint

  function Predict(xs: seq<Features>, predict: Features -> int): (ys: seq<int>)
    ensures |ys| == |xs|
    ensures forall i :: 0 <= i < |xs| ==> ys[i] == predict(xs[i])
  {
    seq(|xs|, i requires 0 <= i < |xs| => predict(xs[i]))
  }

  /** The query of `obter_acuracia` is well formed and the store can encode it. */
  predicate QueryRuns(args: Query.Args) {
    Query.FilterQuery(args).Ok? && Query.StoreEncodes(Query.FilterQuery(args).value)
  }

  /** The cases `obter_acuracia` reads: those matching its query (none when the query does not run). */
  function Selection(args: Query.Args, docs: seq<Doc>): seq<Doc> {
    if QueryRuns(args) then Query.Find(Query.FilterQuery(args).value, docs) else []
  }

  /** The complete rows of the selected cases (none when building the frame fails). */
  function SelectedRows(args: Query.Args, docs: seq<Doc>): seq<Sample> {
    if Samples(Selection(args, docs)).Ok? then Samples(Selection(args, docs)).value else []
  }

  /**
   * The answer of `obter_acuracia` on the documents of the collection:
   * a malformed age bound, an age bound the store cannot encode, a victim
   * that is not a dict and a label the encoder does not know are errors; no selected document gives empty
   * lists; selected documents that all lose a cell leave the classifier no
   * row to predict, which raises; otherwise one accuracy per class.
   */
  function AccuracyReport(args: Query.Args, docs: seq<Doc>, classes: seq<string>, predict: Features -> int)
    : (r: Result<Report, Fault>)
    ensures Query.FilterQuery(args).Err? ==> r == Err(Query.FilterQuery(args).error)
    ensures r.Ok? ==> r.value.classes == [] || r.value.classes == classes
    ensures r.Ok? ==> |r.value.precisao| == |r.value.classes|
    ensures r.Ok? ==> forall i :: 0 <= i < |r.value.precisao| ==> 0.0 <= r.value.precisao[i] <= 100.0
    ensures Query.FilterQuery(args).Ok? && !QueryRuns(args) ==> r == Err(Overflow)
    ensures QueryRuns(args) && Selection(args, docs) == [] ==> r == Ok(Report([], []))
    ensures QueryRuns(args) && Selection(args, docs) != [] && Samples(Selection(args, docs)).Err? ==>
              r == Err(TypeFault)
    ensures QueryRuns(args) && Selection(args, docs) != [] && Samples(Selection(args, docs)) == Ok([]) ==>
              r == Err(NoSamples)
    ensures QueryRuns(args) && Selection(args, docs) != [] && SelectedRows(args, docs) != []
            && EncodeAll(classes, Labels(SelectedRows(args, docs))).Err? ==>
              r == Err(EncodeAll(classes, Labels(SelectedRows(args, docs))).error)
    ensures QueryRuns(args) && Selection(args, docs) != [] && SelectedRows(args, docs) != []
            && EncodeAll(classes, Labels(SelectedRows(args, docs))).Ok? ==>
              r == Ok(Report(classes, Precisions(|classes|, EncodeAll(classes, Labels(SelectedRows(args, docs))).value,
                                                 Predict(Rows(SelectedRows(args, docs)), predict))))
  {
    var q :- Query.FilterQuery(args);
    if !Query.StoreEncodes(q) then Err(Overflow)
    else
      var dados := Query.Find(q, docs);
      if dados == [] then Ok(Report([], []))
      else
        var samples :- Samples(dados);
        var yEncoded :- EncodeAll(classes, Labels(samples));
        if samples == [] then Err(NoSamples)
        else Ok(Report(classes, Precisions(|classes|, yEncoded, Predict(Rows(samples), predict))))
  }

  /** No stored case matching the filter gives the empty report, whatever the classifier. */
  lemma NothingSelected(args: Query.Args, docs: seq<Doc>, classes: seq<string>, predict: Features -> int)
    requires QueryRuns(args)
    requires forall d :: d in docs ==> !Query.Matches(Query.FilterQuery(args).value, d)
    ensures AccuracyReport(args, docs, classes, predict) == Ok(Report([], []))
  {
    Query.FindEmpty(Query.FilterQuery(args).value, docs);
  }

  /**
   * On samples whose labels are all known classes, a classifier that
   * reproduces every label scores 100 on every class that occurs.
   */
  lemma PerfectOnSamples(classes: seq<string>, samples: seq<Sample>, predict: Features -> int, c: nat)
    requires Distinct(classes) && c < |classes|
    requires forall s :: s in samples ==>
               s.tipo.JStr? && s.tipo.s in classes && predict(s.x) == IndexOf(classes, s.tipo.s)
    requires exists s :: s in samples && s.tipo == JStr(classes[c])
    ensures EncodeAll(classes, Labels(samples)).Ok?
    ensures Precisions(|classes|, EncodeAll(classes, Labels(samples)).value, Predict(Rows(samples), predict))[c] == 100.0
  {
    EncodeKnownLabels(classes, samples);
    var yTrue := EncodeAll(classes, Labels(samples)).value;
    var yPred := Predict(Rows(samples), predict);
    var k :| 0 <= k < |samples| && samples[k].tipo == JStr(classes[c]);
    EncodeClass(classes, c);
    assert yTrue[k] == c;
    forall j | 0 <= j < |yTrue| && yTrue[j] == c ensures yPred[j] == c {
      assert samples[j] in samples;
    }
    PerfectClass(|classes|, yTrue, yPred, c);
  }

  /**
   * When the classifier reproduces every known label of well-formed
   * documents, every class that occurs scores 100.
   */
  lemma PerfectClassifier(docs: seq<Doc>, classes: seq<string>, predict: Features -> int, c: nat)
    requires Distinct(classes) && c < |classes|
    requires forall d :: d in docs ==> !BadVictim(d)
    requires forall s :: s in FilterMap(docs, CompleteSample) ==>
               s.tipo.JStr? && s.tipo.s in classes && predict(s.x) == IndexOf(classes, s.tipo.s)
    requires exists s :: s in FilterMap(docs, CompleteSample) && s.tipo == JStr(classes[c])
    ensures AccuracyReport(map[], docs, classes, predict).Ok?
    ensures c < |AccuracyReport(map[], docs, classes, predict).value.precisao|
    ensures AccuracyReport(map[], docs, classes, predict).value.precisao[c] == 100.0
  {
    assert Query.NoGivenFilter(map[]);
    Query.FindAll(docs);
    var samples := FilterMap(docs, CompleteSample);
    assert Samples(docs) == Ok(samples);
    PerfectOnSamples(classes, samples, predict, c);
  }

  /** `obter_acuracia`: query, data frame, encoding, prediction and the per-class loop. */
  method Accuracy(args: Query.Args, docs: seq<Doc>, classes: seq<string>, predict: Features -> int)
    returns (r: Result<Report, Fault>)
    ensures r == AccuracyReport(args, docs, classes, predict)
  {
    var q := Query.BuildFilterQuery(args);
    if q.Err? {
      return Err(q.error);
    }
    if !Query.StoreEncodes(q.value) {
      return Err(Overflow);
    }
    var dados := Query.Find(q.value, docs);
    if dados == [] {
      return Ok(Report([], []));
    }
    var samples := Samples(dados);
    if samples.Err? {
      return Err(samples.error);
    }
    var yEncoded := EncodeAll(classes, Labels(samples.value));
    if yEncoded.Err? {
      return Err(yEncoded.error);
    }
    if samples.value == [] {
      return Err(NoSamples);
    }
    var yPred := Predict(Rows(samples.value), predict);
    var precisao := PerClassAccuracy(|classes|, yEncoded.value, yPred);
    return Ok(Report(classes, precisao));
  }
}
