/**
 * The statistics endpoints that reshape stored documents into lists:
 * coordinate points per neighbourhood (`distribuicao_localizacoes`), the list
 * of victim ages (`distribuicao_idades`) and the (sexo, idade, tipo_do_caso)
 * records for the box plot (`boxplot_sexo`).
 */
module Projections {
  import opened Wrappers
  import opened Json
  import opened Aggregates

  // ---------------------------------------------------------------------
  // distribuicao_localizacoes

  datatype Point = Point(bairro: string, lat: real, lon: real)

  /** `bairro_coords`: latitude and longitude of each known neighbourhood. */
  const BairroCoords: map<string, (real, real)> := map[
    "Centro" := (-23.5505, -46.6333),
    "Bairro A" := (-23.55, -46.65),
    "Bairro B" := (-23.52, -46.66),
    "Zona Rural" := (-23.6, -46.7)
  ]

  /** `bairro_coords.get(bairro)` raises TypeError when localizacao is a list or a dict. */
  predicate BadLocation(d: Doc) {
    "localizacao" in d && !Hashable(d["localizacao"])
  }

  /** The point a document contributes: only a localizacao naming a known neighbourhood gives one. */
  function KnownPoint(d: Doc): (p: Option<Point>)
    ensures p.Some? <==> "localizacao" in d && d["localizacao"].JStr? && d["localizacao"].s in BairroCoords
    ensures p.Some? ==> p.value.bairro == d["localizacao"].s
    ensures p.Some? ==> BairroCoords[p.value.bairro] == (p.value.lat, p.value.lon)
  {
    if "localizacao" in d && d["localizacao"].JStr? && d["localizacao"].s in BairroCoords then
      var b := d["localizacao"].s;
      Some(Point(b, BairroCoords[b].0, BairroCoords[b].1))
    else None
  }

  /**
   * The answer of `distribuicao_localizacoes`: a TypeError if any document
   * has an unhashable localizacao, otherwise one point per document with a
   * known neighbourhood, in collection order, with the table's coordinates.
   */
  function LocationPoints(docs: seq<Doc>): (r: Result<seq<Point>, Fault>)
    ensures r.Err? <==> exists i :: 0 <= i < |docs| && BadLocation(docs[i])
    ensures r.Err? ==> r.error == TypeFault
    ensures r.Ok? ==> r.value == FilterMap(docs, KnownPoint)
    ensures r.Ok? ==> |r.value| <= |docs|
    ensures r.Ok? ==> forall p :: p in r.value ==>
              p.bairro in BairroCoords && BairroCoords[p.bairro] == (p.lat, p.lon)
    ensures r.Ok? ==> forall i :: 0 <= i < |docs| && KnownPoint(docs[i]).Some? ==>
              KnownPoint(docs[i]).value in r.value
  {
    if exists i :: 0 <= i < |docs| && BadLocation(docs[i]) then Err(TypeFault)
    else
      var points := FilterMap(docs, KnownPoint);
      FilterMapSound(docs, KnownPoint);
      assert forall i :: 0 <= i < |docs| && KnownPoint(docs[i]).Some? ==> KnownPoint(docs[i]).value in points by {
        forall i | 0 <= i < |docs| && KnownPoint(docs[i]).Some? ensures KnownPoint(docs[i]).value in points {
          FilterMapComplete(docs, KnownPoint, i);
        }
      }
      Ok(points)
  }

  /** The loop of `distribuicao_localizacoes`, appending one point per known neighbourhood. */
  method CollectLocationPoints(docs: seq<Doc>) returns (r: Result<seq<Point>, Fault>)
    ensures r == LocationPoints(docs)
  {
    var pontos: seq<Point> := [];
    for i := 0 to |docs|
      invariant pontos == FilterMap(docs[..i], KnownPoint)
      invariant forall j :: 0 <= j < i ==> !BadLocation(docs[j])
    {
      var doc := docs[i];
      var bairro := Get(doc, "localizacao");
      if bairro.Some? && !Hashable(bairro.value) {
        return Err(TypeFault);
      }
      FilterMapStep(docs, KnownPoint, i);
      if bairro.Some? && bairro.value.JStr? && bairro.value.s in BairroCoords {
        var coords := BairroCoords[bairro.value.s];
        pontos := pontos + [Point(bairro.value.s, coords.0, coords.1)];
      } else {
        assert FilterMap(docs[..i + 1], KnownPoint) == FilterMap(docs[..i], KnownPoint);
      }
    }
    assert docs[..|docs|] == docs;
    return Ok(pontos);
  }

  // ---------------------------------------------------------------------
  // distribuicao_idades

  /** One element of a victim array under the projection: documents keep only idade, other values are dropped. */
  function ProjectAgeElement(v: Json): Option<Json> {
    match v
    case JObj(m) => Some(JObj(if "idade" in m then map["idade" := m["idade"]] else map[]))
    case _ => None
  }

  /**
   * The store's inclusion projection `{"vitima.idade": 1}` of a document:
   * an embedded victim keeps only its idade, a victim array keeps its
   * projected documents, and a scalar victim is dropped.
   */
  function ProjectVictimAge(d: Doc): Doc {
    if "vitima" !in d then map[]
    else match d["vitima"]
      case JObj(m) => map["vitima" := JObj(if "idade" in m then map["idade" := m["idade"]] else map[])]
      case JArr(xs) => map["vitima" := JArr(FilterMap(xs, ProjectAgeElement))]
      case _ => map[]
  }

  /** Python's `sub in s` for strings. */
  predicate Contains(s: string, sub: string) {
    |sub| <= |s| && (s[..|sub|] == sub || Contains(s[1..], sub))
  }

  /**
   * One step of `[doc['vitima']['idade'] for doc in dados if 'vitima' in doc
   * and 'idade' in doc['vitima']]`. The `in` test is key membership on a
   * dict, substring on a str and element membership on a list, and raises
   * on other values; subscripting a str or a list with 'idade' raises.
   */
  function AgeItem(d: Doc): Result<Option<Json>, Fault> {
    if "vitima" !in d then Ok(None)
    else match d["vitima"]
      case JObj(m) => Ok(Get(m, "idade"))
      case JStr(s) => if Contains(s, "idade") then Err(TypeFault) else Ok(None)
      case JArr(xs) => if JStr("idade") in xs then Err(TypeFault) else Ok(None)
      case _ => Err(TypeFault)
  }

  /** The comprehension over the documents the store returns, stopping at the first exception. */
  function AgeList(ps: seq<Doc>): Result<seq<Json>, Fault> {
    if ps == [] then Ok([])
    else
      var init :- AgeList(ps[..|ps| - 1]);
      var item :- AgeItem(ps[|ps| - 1]);
      Ok(if item.Some? then init + [item.value] else init)
  }

  function ProjectAll(docs: seq<Doc>): (ps: seq<Doc>)
    ensures |ps| == |docs|
    ensures forall i :: 0 <= i < |docs| ==> ps[i] == ProjectVictimAge(docs[i])
  {
    seq(|docs|, i requires 0 <= i < |docs| => ProjectVictimAge(docs[i]))
  }

  /**
   * `distribuicao_idades`: the comprehension over the projected documents. It
   * never raises, and lists the idade of every embedded victim holding one.
   */
  function Ages(docs: seq<Doc>): (r: Result<seq<Json>, Fault>)
    ensures r == Ok(FilterMap(docs, VictimAge))
  {
    AgesNeverFail(docs);
    AgeList(ProjectAll(docs))
  }

  function VictimAge(d: Doc): Option<Json> {
    VictimField(d, "idade")
  }

  /**
   * The projection removes every value the comprehension could trip over,
   * so `distribuicao_idades` never raises: it lists, in collection order,
   * the idade of every document whose victim is an embedded document
   * holding one.
   */
  lemma {:induction false} AgesNeverFail(docs: seq<Doc>)
    ensures AgeList(ProjectAll(docs)) == Ok(FilterMap(docs, VictimAge))
  {
    if docs != [] {
      var init := docs[..|docs| - 1];
      AgesNeverFail(init);
      assert ProjectAll(docs)[..|docs| - 1] == ProjectAll(init);
      var d := docs[|docs| - 1];
      var p := ProjectVictimAge(d);
      if "vitima" in d && d["vitima"].JArr? {
        var xs := FilterMap(d["vitima"].items, ProjectAgeElement);
        assert p["vitima"] == JArr(xs);
        FilterMapSound(d["vitima"].items, ProjectAgeElement);
        assert JStr("idade") !in xs;
      }
    }
  }

  // ---------------------------------------------------------------------
  // boxplot_sexo

  datatype SexAgeType = SexAgeType(sexo: Json, idade: Json, tipo: Json)

  /**
   * The record a document contributes: kept when sexo is truthy, idade is
   * anything but None (so an age of 0 is kept) and tipo_do_caso is truthy.
   */
  function KeptRecord(d: Doc): (t: Option<SexAgeType>)
    ensures t.Some? <==> && VictimField(d, "sexo").Some? && PyTruthy(VictimField(d, "sexo").value)
                         && VictimField(d, "idade").Some? && VictimField(d, "idade").value != JNull
                         && Get(d, "tipo_do_caso").Some? && PyTruthy(Get(d, "tipo_do_caso").value)
    ensures t.Some? ==> && VictimField(d, "sexo") == Some(t.value.sexo) && PyTruthy(t.value.sexo)
                        && VictimField(d, "idade") == Some(t.value.idade) && t.value.idade != JNull
                        && Get(d, "tipo_do_caso") == Some(t.value.tipo) && PyTruthy(t.value.tipo)
    ensures VictimField(d, "idade") == Some(JNum(0)) && t.None? ==>
              VictimField(d, "sexo").None? || !PyTruthy(VictimField(d, "sexo").value)
              || Get(d, "tipo_do_caso").None? || !PyTruthy(Get(d, "tipo_do_caso").value)
  {
    var sexo := VictimField(d, "sexo");
    var idade := VictimField(d, "idade");
    var tipo := Get(d, "tipo_do_caso");
    if sexo.Some? && PyTruthy(sexo.value) && idade.Some? && idade.value != JNull
       && tipo.Some? && PyTruthy(tipo.value)
    then Some(SexAgeType(sexo.value, idade.value, tipo.value))
    else None
  }

  /**
   * The answer of `boxplot_sexo`: an AttributeError if any victim is not a
   * dict, otherwise the kept records in collection order.
   */
  function SexAgeTypeRecords(docs: seq<Doc>): (r: Result<seq<SexAgeType>, Fault>)
    ensures r.Err? <==> exists i :: 0 <= i < |docs| && BadVictim(docs[i])
    ensures r.Err? ==> r.error == TypeFault
    ensures r.Ok? ==> r.value == FilterMap(docs, KeptRecord)
    ensures r.Ok? ==> |r.value| <= |docs|
    ensures r.Ok? ==> forall t :: t in r.value ==> PyTruthy(t.sexo) && t.idade != JNull && PyTruthy(t.tipo)
  {
    if exists i :: 0 <= i < |docs| && BadVictim(docs[i]) then Err(TypeFault)
    else
      FilterMapSound(docs, KeptRecord);
      Ok(FilterMap(docs, KeptRecord))
  }

  /**
   * Without a faulty victim, the records are exactly those of the qualifying
   * documents, one per such document.
   */
  lemma SexAgeTypeRecordsMeaning(docs: seq<Doc>)
    requires forall i :: 0 <= i < |docs| ==> !BadVictim(docs[i])
    ensures SexAgeTypeRecords(docs).Ok?
    ensures forall t :: t in SexAgeTypeRecords(docs).value <==> exists i :: 0 <= i < |docs| && KeptRecord(docs[i]) == Some(t)
    ensures |SexAgeTypeRecords(docs).value| == CountSome(docs, KeptRecord)
  {
    var records := FilterMap(docs, KeptRecord);
    FilterMapSound(docs, KeptRecord);
    forall t | exists i :: 0 <= i < |docs| && KeptRecord(docs[i]) == Some(t) ensures t in records {
      var i :| 0 <= i < |docs| && KeptRecord(docs[i]) == Some(t);
      FilterMapComplete(docs, KeptRecord, i);
    }
    FilterMapLength(docs, KeptRecord);
  }

  /** The loop of `boxplot_sexo`, appending one record per qualifying document. */
  method CollectSexAgeType(docs: seq<Doc>) returns (r: Result<seq<SexAgeType>, Fault>)
    ensures r == SexAgeTypeRecords(docs)
  {
    var registros: seq<SexAgeType> := [];
    for i := 0 to |docs|
      invariant registros == FilterMap(docs[..i], KeptRecord)
      invariant forall j :: 0 <= j < i ==> !BadVictim(docs[j])
    {
      var d := docs[i];
      var sexo := VictimGet(d, "sexo");
      if sexo.Err? {
        return Err(sexo.error);
      }
      var idade := VictimGet(d, "idade");
      var tipo := Get(d, "tipo_do_caso");
      assert sexo.value == VictimField(d, "sexo") && idade.value == VictimField(d, "idade");
      FilterMapStep(docs, KeptRecord, i);
      if sexo.value.Some? && PyTruthy(sexo.value.value)
         && idade.value.Some? && idade.value.value != JNull
         && tipo.Some? && PyTruthy(tipo.value) {
        assert KeptRecord(d) == Some(SexAgeType(sexo.value.value, idade.value.value, tipo.value));
        registros := registros + [SexAgeType(sexo.value.value, idade.value.value, tipo.value)];
      } else {
        assert KeptRecord(d).None?;
      }
    }
    assert docs[..|docs|] == docs;
    return Ok(registros);
  }
}
