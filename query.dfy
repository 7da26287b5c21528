/**
 * The store query the case endpoints build from the request's optional
 * filter parameters (`sexo`, `etnia`, `idadeMin`, `idadeMax`, `dataInicio`,
 * `dataFim`), and the collection's matching semantics for it.
 *
 * Two builders exist: `listar_casos` applies a filter when its key is
 * PRESENT in the query string, while `obter_acuracia` and
 * `distribuicao_tipo_caso` (identical copies) apply it when its value is
 * TRUTHY, so an empty value means "no filter" there and an int() error in
 * the first.
 */
module Query {
  import opened Wrappers
  import opened Json
  import opened Text

  /** The query string: each parameter's (first) value. */
  type Args = map<string, string>

  /** An operator document `{"$gte": lo, "$lte": hi}`; an absent bound is an absent key. */
  datatype Bounds<T> = Bounds(gte: Option<T>, lte: Option<T>)

  /** The query dict: one optional entry per filtered field. */
  datatype Query = Query(
    sexo: Option<string>,           // "vitima.sexo": value
    etnia: Option<string>,          // "vitima.etnia": value
    idade: Option<Bounds<int>>,     // "vitima.idade": {...}
    data: Option<Bounds<string>>)   // "data_do_caso": {...}

  /** `{}`: the query that matches every document. */
  const MatchAll := Query(None, None, None, None)

  /** Every operator document of q holds at least one operator. */
  predicate WellFormed(q: Query) {
    && (q.idade.Some? ==> q.idade.value.gte.Some? || q.idade.value.lte.Some?)
    && (q.data.Some? ==> q.data.value.gte.Some? || q.data.value.lte.Some?)
  }

  /**
   * The store encodes the query before running it: an age bound outside the
   * 64-bit range raises OverflowError. Strings always encode.
   */
  predicate StoreEncodes(q: Query) {
    q.idade.Some? ==>
      && (q.idade.value.gte.Some? ==> FitsInt64(q.idade.value.gte.value))
      && (q.idade.value.lte.Some? ==> FitsInt64(q.idade.value.lte.value))
  }

  // ---------------------------------------------------------------------
  // Matching

  /**
   * The age condition. Range operators compare only within a type, so a
   * numeric bound matches numeric values only; an operator document without
   * operators is an equality test against `{}`.
   */
  predicate AgeMatches(v: Option<Json>, b: Bounds<int>) {
    if b.gte.None? && b.lte.None? then v == Some(JObj(map[]))
    else
      && v.Some? && v.value.JNum?
      && (b.gte.Some? ==> b.gte.value <= v.value.n)
      && (b.lte.Some? ==> v.value.n <= b.lte.value)
  }

  /** The date condition: a string range in binary string order. */
  predicate DateMatches(v: Option<Json>, b: Bounds<string>) {
    if b.gte.None? && b.lte.None? then v == Some(JObj(map[]))
    else
      && v.Some? && v.value.JStr?
      && (b.gte.Some? ==> LexLe(b.gte.value, v.value.s))
      && (b.lte.Some? ==> LexLe(v.value.s, b.lte.value))
  }

  /** Whether document d satisfies every entry of q (entries are conjoined). */
  predicate Matches(q: Query, d: Doc) {
    && (q.sexo.Some? ==> VictimField(d, "sexo") == Some(JStr(q.sexo.value)))
    && (q.etnia.Some? ==> VictimField(d, "etnia") == Some(JStr(q.etnia.value)))
    && (q.idade.Some? ==> AgeMatches(VictimField(d, "idade"), q.idade.value))
    && (q.data.Some? ==> DateMatches(Get(d, "data_do_caso"), q.data.value))
  }

  /** `colecao.find(q)`: the matching documents, in collection order. */
  function Find(q: Query, docs: seq<Doc>): (r: seq<Doc>)
    ensures |r| <= |docs|
    ensures forall d :: d in r <==> d in docs && Matches(q, d)
  {
    if docs == [] then []
    else
      var init := Find(q, docs[..|docs| - 1]);
      var d := docs[|docs| - 1];
      assert docs == docs[..|docs| - 1] + [d];
      if Matches(q, d) then init + [d] else init
  }

  /** The empty query returns the whole collection, unchanged and in order. */
  lemma {:induction false} FindAll(docs: seq<Doc>)
    ensures Find(MatchAll, docs) == docs
  {
    if docs != [] {
      FindAll(docs[..|docs| - 1]);
      assert docs == docs[..|docs| - 1] + [docs[|docs| - 1]];
    }
  }

  /** The query returns nothing exactly when no document of the collection matches it. */
  lemma {:induction false} FindEmpty(q: Query, docs: seq<Doc>)
    ensures Find(q, docs) == [] <==> forall d :: d in docs ==> !Matches(q, d)
  {
    if docs != [] {
      var init := docs[..|docs| - 1];
      FindEmpty(q, init);
      assert docs[|docs| - 1] in docs;
      assert forall d :: d in init ==> d in docs;
    }
  }

  /** Every document the query returns has an integer age within both bounds. */
  lemma FoundAgeInRange(q: Query, docs: seq<Doc>, lo: int, hi: int, d: Doc)
    requires q.idade == Some(Bounds(Some(lo), Some(hi)))
    requires d in Find(q, docs)
    ensures VictimField(d, "idade").Some? && VictimField(d, "idade").value.JNum?
    ensures lo <= VictimField(d, "idade").value.n <= hi
  {
  }

  // ---------------------------------------------------------------------
  // Building the query (listar_casos: presence of a key)

  /** The parameter is present and int() rejects its value. */
  predicate BadPresent(args: Args, key: string) {
    key in args && ParsePyInt(args[key]).None?
  }

  /** `int(args[key])` when key is present; an unparsable value is an InputError. */
  function PresentBound(args: Args, key: string): (r: Result<Option<int>, Fault>)
    ensures r.Err? <==> BadPresent(args, key)
    ensures r.Ok? ==> (r.value.Some? <==> key in args)
    ensures r.Ok? && r.value.Some? ==> r.value == ParsePyInt(args[key])
  {
    if key !in args then Ok(None)
    else match ParsePyInt(args[key])
      case Some(n) => Ok(Some(n))
      case None => Err(InputError(key))
  }

  /** No parameter filters anything: each is absent, or "todos" for sexo and etnia. */
  predicate NoListFilter(args: Args) {
    && ("sexo" !in args || args["sexo"] == "todos")
    && ("etnia" !in args || args["etnia"] == "todos")
    && "idadeMin" !in args && "idadeMax" !in args
    && "dataInicio" !in args && "dataFim" !in args
  }

  /** The `vitima.sexo` or `vitima.etnia` entry of `listar_casos`: the value when present and not "todos". */
  function PresentEquality(args: Args, key: string): (r: Option<string>)
    ensures r.Some? <==> key in args && args[key] != "todos"
    ensures r.Some? ==> r.value == args[key]
  {
    if key in args && args[key] != "todos" then Some(args[key]) else None
  }

  /** The `vitima.idade` entry of `listar_casos`, or the int() error it raises. */
  function PresentAgeBounds(args: Args): (r: Result<Option<Bounds<int>>, Fault>)
    ensures r.Err? <==> BadPresent(args, "idadeMin") || BadPresent(args, "idadeMax")
    ensures r.Ok? ==> (r.value.Some? <==> "idadeMin" in args || "idadeMax" in args)
    ensures r.Ok? && r.value.Some? ==>
              && (r.value.value.gte.Some? <==> "idadeMin" in args)
              && (r.value.value.lte.Some? <==> "idadeMax" in args)
              && ("idadeMin" in args ==> r.value.value.gte == ParsePyInt(args["idadeMin"]))
              && ("idadeMax" in args ==> r.value.value.lte == ParsePyInt(args["idadeMax"]))
  {
    var lo :- PresentBound(args, "idadeMin");
    var hi :- PresentBound(args, "idadeMax");
    Ok(if lo.Some? || hi.Some? then Some(Bounds(lo, hi)) else None)
  }

  /** The `data_do_caso` entry of `listar_casos`: a bound per present date parameter. */
  function PresentDateBounds(args: Args): (r: Option<Bounds<string>>)
    ensures r.Some? <==> "dataInicio" in args || "dataFim" in args
    ensures r.Some? ==> (r.value.gte.Some? <==> "dataInicio" in args) && (r.value.lte.Some? <==> "dataFim" in args)
  {
    if "dataInicio" in args || "dataFim" in args
    then Some(Bounds(Get(args, "dataInicio"), Get(args, "dataFim")))
    else None
  }

  /** The query `listar_casos` sends to the store, or the int() error it raises. */
  function ListQuery(args: Args): (r: Result<Query, Fault>)
    ensures r.Err? <==> BadPresent(args, "idadeMin") || BadPresent(args, "idadeMax")
    ensures NoListFilter(args) ==> r == Ok(MatchAll)
    ensures r.Ok? ==> WellFormed(r.value)
    ensures r.Ok? ==> (r.value.sexo.Some? <==> "sexo" in args && args["sexo"] != "todos")
    ensures r.Ok? && r.value.sexo.Some? ==> r.value.sexo.value == args["sexo"]
    ensures r.Ok? ==> (r.value.etnia.Some? <==> "etnia" in args && args["etnia"] != "todos")
    ensures r.Ok? && r.value.etnia.Some? ==> r.value.etnia.value == args["etnia"]
    ensures r.Ok? ==> (r.value.idade.Some? <==> "idadeMin" in args || "idadeMax" in args)
    ensures r.Ok? && r.value.idade.Some? ==>
              && (r.value.idade.value.gte.Some? <==> "idadeMin" in args)
              && (r.value.idade.value.lte.Some? <==> "idadeMax" in args)
              && ("idadeMin" in args ==> r.value.idade.value.gte == ParsePyInt(args["idadeMin"]))
              && ("idadeMax" in args ==> r.value.idade.value.lte == ParsePyInt(args["idadeMax"]))
    ensures r.Ok? ==> (r.value.data.Some? <==> "dataInicio" in args || "dataFim" in args)
    ensures r.Ok? && r.value.data.Some? ==>
              r.value.data.value == Bounds(Get(args, "dataInicio"), Get(args, "dataFim"))
  {
    var idade :- PresentAgeBounds(args);
    Ok(Query(PresentEquality(args, "sexo"), PresentEquality(args, "etnia"), idade, PresentDateBounds(args)))
  }

  /** The `idade_query` dict of `listar_casos`: `$gte`, then `$lte`, from the present bounds. */
  method BuildPresentAgeBounds(args: Args) returns (r: Result<Bounds<int>, Fault>)
    ensures r.Err? ==> PresentAgeBounds(args) == Err(r.error)
    ensures r.Ok? ==> PresentBound(args, "idadeMin") == Ok(r.value.gte) && PresentBound(args, "idadeMax") == Ok(r.value.lte)
  {
    var ageQuery := Bounds(None, None);
    if "idadeMin" in args {
      var n := ParsePyInt(args["idadeMin"]);
      if n.None? {
        return Err(InputError("idadeMin"));
      }
      ageQuery := ageQuery.(gte := n);
    }
    if "idadeMax" in args {
      var n := ParsePyInt(args["idadeMax"]);
      if n.None? {
        return Err(InputError("idadeMax"));
      }
      ageQuery := ageQuery.(lte := n);
    }
    return Ok(ageQuery);
  }

  /** `listar_casos` building its query dict entry by entry. */
  method BuildListQuery(args: Args) returns (r: Result<Query, Fault>)
    ensures r == ListQuery(args)
  {
    var q := MatchAll;
    if "sexo" in args && args["sexo"] != "todos" {
      q := q.(sexo := Some(args["sexo"]));
    }
    if "etnia" in args && args["etnia"] != "todos" {
      q := q.(etnia := Some(args["etnia"]));
    }
    assert q == Query(PresentEquality(args, "sexo"), PresentEquality(args, "etnia"), None, None);
    if "idadeMin" in args || "idadeMax" in args {
      var ageQuery := BuildPresentAgeBounds(args);
      if ageQuery.Err? {
        return Err(ageQuery.error);
      }
      q := q.(idade := Some(ageQuery.value));
    }
    assert PresentAgeBounds(args) == Ok(q.idade);
    if "dataInicio" in args || "dataFim" in args {
      var dateQuery := Bounds(None, None);
      if "dataInicio" in args {
        dateQuery := dateQuery.(gte := Some(args["dataInicio"]));
      }
      if "dataFim" in args {
        dateQuery := dateQuery.(lte := Some(args["dataFim"]));
      }
      q := q.(data := Some(dateQuery));
    }
    assert q.data == PresentDateBounds(args);
    return Ok(q);
  }

  // ---------------------------------------------------------------------
  // Building the query (obter_acuracia, distribuicao_tipo_caso: truthy value)

  /** `request.args.get(key)` is truthy: present and not the empty string. */
  predicate Given(args: Args, key: string) {
    key in args && args[key] != ""
  }

  /** The parameter is given (truthy) and int() rejects its value. */
  predicate BadGiven(args: Args, key: string) {
    Given(args, key) && ParsePyInt(args[key]).None?
  }

  /** `int(v)` when the value is truthy; an empty or absent value adds no bound. */
  function GivenBound(args: Args, key: string): (r: Result<Option<int>, Fault>)
    ensures r.Err? <==> BadGiven(args, key)
    ensures r.Ok? ==> (r.value.Some? <==> Given(args, key))
    ensures r.Ok? && r.value.Some? ==> r.value == ParsePyInt(args[key])
  {
    if !Given(args, key) then Ok(None)
    else match ParsePyInt(args[key])
      case Some(n) => Ok(Some(n))
      case None => Err(InputError(key))
  }

  /** `request.args.get(key)` when truthy, else None. */
  function GivenValue(args: Args, key: string): (r: Option<string>)
    ensures r.Some? <==> Given(args, key)
    ensures r.Some? ==> r.value == args[key]
  {
    if Given(args, key) then Some(args[key]) else None
  }

  /** No parameter filters anything: each is absent, empty, or "todos" for sexo and etnia. */
  predicate NoGivenFilter(args: Args) {
    && (!Given(args, "sexo") || args["sexo"] == "todos")
    && (!Given(args, "etnia") || args["etnia"] == "todos")
    && !Given(args, "idadeMin") && !Given(args, "idadeMax")
    && !Given(args, "dataInicio") && !Given(args, "dataFim")
  }

  /** The `vitima.sexo` or `vitima.etnia` entry of the two other endpoints: the value when truthy and not "todos". */
  function GivenEquality(args: Args, key: string): (r: Option<string>)
    ensures r.Some? <==> Given(args, key) && args[key] != "todos"
    ensures r.Some? ==> r.value == args[key]
  {
    if Given(args, key) && args[key] != "todos" then Some(args[key]) else None
  }

  /** The `vitima.idade` entry of the two other endpoints, or the int() error they raise. */
  function GivenAgeBounds(args: Args): (r: Result<Option<Bounds<int>>, Fault>)
    ensures r.Err? <==> BadGiven(args, "idadeMin") || BadGiven(args, "idadeMax")
    ensures r.Ok? ==> (r.value.Some? <==> Given(args, "idadeMin") || Given(args, "idadeMax"))
    ensures r.Ok? && r.value.Some? ==>
              && (r.value.value.gte.Some? <==> Given(args, "idadeMin"))
              && (r.value.value.lte.Some? <==> Given(args, "idadeMax"))
              && (Given(args, "idadeMin") ==> r.value.value.gte == ParsePyInt(args["idadeMin"]))
              && (Given(args, "idadeMax") ==> r.value.value.lte == ParsePyInt(args["idadeMax"]))
  {
    var lo :- GivenBound(args, "idadeMin");
    var hi :- GivenBound(args, "idadeMax");
    Ok(if lo.Some? || hi.Some? then Some(Bounds(lo, hi)) else None)
  }

  /** The `data_do_caso` entry of the two other endpoints: a bound per truthy date parameter. */
  function GivenDateBounds(args: Args): (r: Option<Bounds<string>>)
    ensures r.Some? <==> Given(args, "dataInicio") || Given(args, "dataFim")
    ensures r.Some? ==> (r.value.gte.Some? <==> Given(args, "dataInicio")) && (r.value.lte.Some? <==> Given(args, "dataFim"))
  {
    var from := GivenValue(args, "dataInicio");
    var to := GivenValue(args, "dataFim");
    if from.Some? || to.Some? then Some(Bounds(from, to)) else None
  }

  /** The query `obter_acuracia` and `distribuicao_tipo_caso` send, or the int() error they raise. */
  function FilterQuery(args: Args): (r: Result<Query, Fault>)
    ensures r.Err? <==> BadGiven(args, "idadeMin") || BadGiven(args, "idadeMax")
    ensures NoGivenFilter(args) ==> r == Ok(MatchAll)
    ensures r.Ok? ==> WellFormed(r.value)
    ensures r.Ok? ==> (r.value.sexo.Some? <==> Given(args, "sexo") && args["sexo"] != "todos")
    ensures r.Ok? && r.value.sexo.Some? ==> r.value.sexo.value == args["sexo"]
    ensures r.Ok? ==> (r.value.etnia.Some? <==> Given(args, "etnia") && args["etnia"] != "todos")
    ensures r.Ok? && r.value.etnia.Some? ==> r.value.etnia.value == args["etnia"]
    ensures r.Ok? ==> (r.value.idade.Some? <==> Given(args, "idadeMin") || Given(args, "idadeMax"))
    ensures r.Ok? && r.value.idade.Some? ==>
              && (r.value.idade.value.gte.Some? <==> Given(args, "idadeMin"))
              && (r.value.idade.value.lte.Some? <==> Given(args, "idadeMax"))
              && (Given(args, "idadeMin") ==> r.value.idade.value.gte == ParsePyInt(args["idadeMin"]))
              && (Given(args, "idadeMax") ==> r.value.idade.value.lte == ParsePyInt(args["idadeMax"]))
    ensures r.Ok? ==> (r.value.data.Some? <==> Given(args, "dataInicio") || Given(args, "dataFim"))
    ensures r.Ok? && r.value.data.Some? ==>
              r.value.data.value == Bounds(GivenValue(args, "dataInicio"), GivenValue(args, "dataFim"))
  {
    var idade :- GivenAgeBounds(args);
    Ok(Query(GivenEquality(args, "sexo"), GivenEquality(args, "etnia"), idade, GivenDateBounds(args)))
  }

  /** The `idade_query` dict of the two other endpoints: `$gte`, then `$lte`, from the truthy bounds. */
  method BuildGivenAgeBounds(args: Args) returns (r: Result<Bounds<int>, Fault>)
    ensures r.Err? ==> GivenAgeBounds(args) == Err(r.error)
    ensures r.Ok? ==> GivenBound(args, "idadeMin") == Ok(r.value.gte) && GivenBound(args, "idadeMax") == Ok(r.value.lte)
  {
    var ageQuery := Bounds(None, None);
    if Given(args, "idadeMin") {
      var n := ParsePyInt(args["idadeMin"]);
      if n.None? {
        return Err(InputError("idadeMin"));
      }
      ageQuery := ageQuery.(gte := n);
    }
    if Given(args, "idadeMax") {
      var n := ParsePyInt(args["idadeMax"]);
      if n.None? {
        return Err(InputError("idadeMax"));
      }
      ageQuery := ageQuery.(lte := n);
    }
    return Ok(ageQuery);
  }

  /** The shared query-building code of `obter_acuracia` and `distribuicao_tipo_caso`. */
  method BuildFilterQuery(args: Args) returns (r: Result<Query, Fault>)
    ensures r == FilterQuery(args)
  {
    var q := MatchAll;
    var sexo := Get(args, "sexo");
    if sexo.Some? && sexo.value != "" && sexo.value != "todos" {
      q := q.(sexo := sexo);
    }
    var etnia := Get(args, "etnia");
    if etnia.Some? && etnia.value != "" && etnia.value != "todos" {
      q := q.(etnia := etnia);
    }
    assert q == Query(GivenEquality(args, "sexo"), GivenEquality(args, "etnia"), None, None);
    var ageQuery := BuildGivenAgeBounds(args);
    if ageQuery.Err? {
      return Err(ageQuery.error);
    }
    if ageQuery.value.gte.Some? || ageQuery.value.lte.Some? {
      q := q.(idade := Some(ageQuery.value));
    }
    assert GivenAgeBounds(args) == Ok(q.idade);
    var dateQuery := Bounds(None, None);
    if Given(args, "dataInicio") {
      dateQuery := dateQuery.(gte := Some(args["dataInicio"]));
    }
    if Given(args, "dataFim") {
      dateQuery := dateQuery.(lte := Some(args["dataFim"]));
    }
    if dateQuery.gte.Some? || dateQuery.lte.Some? {
      q := q.(data := Some(dateQuery));
    }
    assert q.data == GivenDateBounds(args);
    return Ok(q);
  }

  /**
   * What a document returned under the truthy filters satisfies: the victim's
   * sexo and etnia equal the given values, and its age is a number within
   * `int(idadeMin)` and `int(idadeMax)`.
   */
  lemma FilteredMeetsArgs(args: Args, docs: seq<Doc>, d: Doc)
    requires FilterQuery(args).Ok? && d in Find(FilterQuery(args).value, docs)
    ensures Given(args, "sexo") && args["sexo"] != "todos" ==> VictimField(d, "sexo") == Some(JStr(args["sexo"]))
    ensures Given(args, "etnia") && args["etnia"] != "todos" ==> VictimField(d, "etnia") == Some(JStr(args["etnia"]))
    ensures Given(args, "idadeMin") || Given(args, "idadeMax") ==>
              VictimField(d, "idade").Some? && VictimField(d, "idade").value.JNum?
    ensures Given(args, "idadeMin") ==>
              ParsePyInt(args["idadeMin"]).Some? && ParsePyInt(args["idadeMin"]).value <= VictimField(d, "idade").value.n
    ensures Given(args, "idadeMax") ==>
              ParsePyInt(args["idadeMax"]).Some? && VictimField(d, "idade").value.n <= ParsePyInt(args["idadeMax"]).value
  {
  }

  /** The same for `listar_casos`, where a filter applies as soon as its key is present. */
  lemma ListedMeetsArgs(args: Args, docs: seq<Doc>, d: Doc)
    requires ListQuery(args).Ok? && d in Find(ListQuery(args).value, docs)
    ensures "sexo" in args && args["sexo"] != "todos" ==> VictimField(d, "sexo") == Some(JStr(args["sexo"]))
    ensures "etnia" in args && args["etnia"] != "todos" ==> VictimField(d, "etnia") == Some(JStr(args["etnia"]))
    ensures "idadeMin" in args || "idadeMax" in args ==>
              VictimField(d, "idade").Some? && VictimField(d, "idade").value.JNum?
    ensures "idadeMin" in args ==>
              ParsePyInt(args["idadeMin"]).Some? && ParsePyInt(args["idadeMin"]).value <= VictimField(d, "idade").value.n
    ensures "idadeMax" in args ==>
              ParsePyInt(args["idadeMax"]).Some? && VictimField(d, "idade").value.n <= ParsePyInt(args["idadeMax"]).value
  {
  }

  // ---------------------------------------------------------------------
  // How the two builders differ

  /** An empty age bound is an int() error for `listar_casos` and no filter for the other two. */
  lemma EmptyAgeBound(args: Args, key: string)
    requires key in {"idadeMin", "idadeMax"} && key in args && args[key] == ""
    ensures ListQuery(args).Err?
    ensures !BadGiven(args, key)
    ensures FilterQuery(args).Err? ==> BadGiven(args, if key == "idadeMin" then "idadeMax" else "idadeMin")
  {
    assert Strip("") == "";
  }

  /** A non-empty age bound without any digit is an int() error for both builders. */
  lemma NonNumericAgeBound(args: Args, key: string)
    requires key in {"idadeMin", "idadeMax"} && key in args && args[key] != ""
    requires forall i :: 0 <= i < |args[key]| ==> !IsDigit(args[key][i])
    ensures ListQuery(args).Err? && FilterQuery(args).Err?
  {
    NoDigitNoInt(args[key]);
  }

  /** `/api/casos?...`: the documents `listar_casos` returns, or its error. */
  function ListCases(args: Args, docs: seq<Doc>): (r: Result<seq<Doc>, Fault>)
    ensures ListQuery(args).Err? ==> r == Err(ListQuery(args).error)
    ensures ListQuery(args).Ok? ==> (r == Err(Overflow) <==> !StoreEncodes(ListQuery(args).value))
    ensures r.Ok? ==> forall d :: d in r.value <==> d in docs && Matches(ListQuery(args).value, d)
    ensures r.Ok? ==> r.value == Find(ListQuery(args).value, docs)
    ensures NoListFilter(args) ==> r == Ok(docs)
  {
    var q :- ListQuery(args);
    FindAll(docs);
    if !StoreEncodes(q) then Err(Overflow) else Ok(Find(q, docs))
  }

  /**
   * An age bound that int() accepts but that lies outside 64 bits makes
   * `listar_casos` fail when the store encodes the query, whatever it holds.
   */
  lemma OversizedAgeBound(args: Args, docs: seq<Doc>, key: string)
    requires key in {"idadeMin", "idadeMax"} && key in args
    requires ParsePyInt(args[key]).Some? && !FitsInt64(ParsePyInt(args[key]).value)
    ensures ListCases(args, docs).Err?
    ensures ListQuery(args).Ok? ==> ListCases(args, docs) == Err(Overflow)
  {
  }
}
