/**
 * `distribuicao_tipo_caso`: how many of the selected cases there are of
 * each tipo_do_caso, counted by a loop over the documents.
 */
module TypeCount {
  import opened Wrappers
  import opened Json
  import opened Aggregates
  import Query

  /** The tipo a document contributes to the count: its tipo_do_caso when truthy. */
  function TruthyType(d: Doc): (t: Option<Json>)
    ensures t.Some? <==> "tipo_do_caso" in d && PyTruthy(d["tipo_do_caso"])
    ensures t.Some? ==> t.value == d["tipo_do_caso"]
  {
    if "tipo_do_caso" in d && PyTruthy(d["tipo_do_caso"]) then Some(d["tipo_do_caso"]) else None
  }

  /** A truthy tipo_do_caso that is a list or a dict cannot be a dict key: TypeError. */
  predicate BadTypeKey(d: Doc) {
    "tipo_do_caso" in d && PyTruthy(d["tipo_do_caso"]) && !Hashable(d["tipo_do_caso"])
  }

  /** The counts the loop builds: TypeError on an unhashable tipo, otherwise the tally of the truthy tipos. */
  function TypeCounts(docs: seq<Doc>): (r: Result<map<Json, nat>, Fault>)
    ensures r.Err? <==> exists i :: 0 <= i < |docs| && BadTypeKey(docs[i])
    ensures r.Ok? ==> forall t :: t in r.value ==> PyTruthy(t) && Hashable(t) && r.value[t] > 0
  {
    if exists i :: 0 <= i < |docs| && BadTypeKey(docs[i]) then Err(TypeFault)
    else
      var tipos := FilterMap(docs, TruthyType);
      FilterMapSound(docs, TruthyType);
      TallyCounts(tipos);
      assert forall t :: t in tipos ==> PyTruthy(t) && Hashable(t) by {
        forall t | t in tipos ensures PyTruthy(t) && Hashable(t) {
          var i :| 0 <= i < |docs| && TruthyType(docs[i]) == Some(t);
          assert !BadTypeKey(docs[i]);
        }
      }
      Ok(Tally(tipos))
  }

  /** The number of documents whose tipo_do_caso is t. */
  function CountOf(docs: seq<Doc>, t: Json): nat {
    if docs == [] then 0
    else CountOf(docs[..|docs| - 1], t) + (if Get(docs[|docs| - 1], "tipo_do_caso") == Some(t) then 1 else 0)
  }

  /**
   * The keys of the answer are exactly the truthy tipos that occur, each
   * counted as often as it occurs, and the counts add up to the number of
   * documents with a truthy tipo.
   */
  lemma {:induction false} TypeCountsMeaning(docs: seq<Doc>)
    requires TypeCounts(docs).Ok?
    ensures forall t :: t in TypeCounts(docs).value <==>
              PyTruthy(t) && exists i :: 0 <= i < |docs| && Get(docs[i], "tipo_do_caso") == Some(t)
    ensures forall t :: t in TypeCounts(docs).value ==> TypeCounts(docs).value[t] == CountOf(docs, t)
    ensures Total(TypeCounts(docs).value) == CountSome(docs, TruthyType)
  {
    var tipos := FilterMap(docs, TruthyType);
    var m := TypeCounts(docs).value;
    FilterMapSound(docs, TruthyType);
    TallyCounts(tipos);
    TallyTotal(tipos);
    FilterMapLength(docs, TruthyType);
    forall t | PyTruthy(t) && exists i :: 0 <= i < |docs| && Get(docs[i], "tipo_do_caso") == Some(t)
      ensures t in m
    {
      var i :| 0 <= i < |docs| && Get(docs[i], "tipo_do_caso") == Some(t);
      FilterMapComplete(docs, TruthyType, i);
    }
    forall t | t in m ensures m[t] == CountOf(docs, t) {
      TruthyCount(docs, t);
    }
  }

  /** For a truthy t, the occurrences of t among the kept tipos are the documents whose tipo is t. */
  lemma {:induction false} TruthyCount(docs: seq<Doc>, t: Json)
    requires PyTruthy(t)
    ensures multiset(FilterMap(docs, TruthyType))[t] == CountOf(docs, t)
  {
    if docs != [] {
      TruthyCount(docs[..|docs| - 1], t);
    }
  }

  /** The loop `for doc in dados`, incrementing `contagem[tipo]` for every truthy tipo. */
  method CountTypes(dados: seq<Doc>) returns (r: Result<map<Json, nat>, Fault>)
    ensures r == TypeCounts(dados)
  {
    var contagem: map<Json, nat> := map[];
    for i := 0 to |dados|
      invariant contagem == Tally(FilterMap(dados[..i], TruthyType))
      invariant forall j :: 0 <= j < i ==> !BadTypeKey(dados[j])
    {
      var tipo := Get(dados[i], "tipo_do_caso");
      FilterMapStep(dados, TruthyType, i);
      assert TruthyType(dados[i]) == if tipo.Some? && PyTruthy(tipo.value) then tipo else None;
      if tipo.Some? && PyTruthy(tipo.value) {
        if !Hashable(tipo.value) {
          return Err(TypeFault);
        }
        TallyStep(FilterMap(dados[..i], TruthyType), tipo.value);
        contagem := Bump(contagem, tipo.value);
      } else {
        assert FilterMap(dados[..i + 1], TruthyType) == FilterMap(dados[..i], TruthyType);
      }
    }
    assert dados[..|dados|] == dados;
    return Ok(contagem);
  }

  /**
   * The answer of `distribuicao_tipo_caso` on the collection: the query's
   * error, the OverflowError of a query the store cannot encode, or the
   * counts of the matching cases.
   */
  function TypeDistribution(args: Query.Args, docs: seq<Doc>): (r: Result<map<Json, nat>, Fault>)
    ensures Query.FilterQuery(args).Err? ==> r == Err(Query.FilterQuery(args).error)
    ensures Query.FilterQuery(args).Ok? && !Query.StoreEncodes(Query.FilterQuery(args).value) ==> r == Err(Overflow)
    ensures Query.FilterQuery(args).Ok? && Query.StoreEncodes(Query.FilterQuery(args).value) ==>
              r == TypeCounts(Query.Find(Query.FilterQuery(args).value, docs))
    ensures Query.NoGivenFilter(args) ==> r == TypeCounts(docs)
  {
    var q :- Query.FilterQuery(args);
    Query.FindAll(docs);
    if !Query.StoreEncodes(q) then Err(Overflow) else TypeCounts(Query.Find(q, docs))
  }

  /** `distribuicao_tipo_caso`: build the query, fetch the cases, count them. */
  method DistributeTypes(args: Query.Args, docs: seq<Doc>) returns (r: Result<map<Json, nat>, Fault>)
    ensures r == TypeDistribution(args, docs)
  {
    var q := Query.BuildFilterQuery(args);
    if q.Err? {
      return Err(q.error);
    }
    if !Query.StoreEncodes(q.value) {
      return Err(Overflow);
    }
    r := CountTypes(Query.Find(q.value, docs));
  }
}
