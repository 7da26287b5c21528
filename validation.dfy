/**
 * `validar_caso_json` and the two handlers of `/api/casos` that touch the
 * collection: POST inserts a body only when it validates, GET lists the
 * documents the query string selects.
 */
module CaseValidation {
  import opened Wrappers
  import opened Json
  import opened Text
  import Query

  /** The exception that ends the validator's `try` block. */
  datatype Raised =
    | KeyMissing(key: string)   // KeyError
    | NotSubscriptable          // TypeError: a list, string, number, bool or None indexed by a str
    | AssertionFailed           // a failed `assert`
    | NotIsoDate                // fromisoformat raising ValueError or TypeError

  /** `data[key]` on a JSON value: a dict looks the key up, every other value raises. */
  function Subscript(data: Json, key: string): (r: Result<Json, Raised>)
    ensures r.Ok? <==> data.JObj? && key in data.fields
    ensures r.Ok? ==> r.value == data.fields[key]
  {
    match data
    case JObj(m) => if key in m then Ok(m[key]) else Err(KeyMissing(key))
    case _ => Err(NotSubscriptable)
  }

  /** The body of the `try` block, statement by statement, stopping at the first exception. */
  function CheckCase(data: Json): (r: Result<(), Raised>)
    ensures r.Ok? <==> IsCaseShaped(data)
    ensures !data.JObj? ==> r == Err(NotSubscriptable)
    ensures data.JObj? && "vitima" !in data.fields ==> r == Err(KeyMissing("vitima"))
  {
    var vitima :- Subscript(data, "vitima");
    if !vitima.JObj? then Err(AssertionFailed)
    else if !("etnia" in vitima.fields && "idade" in vitima.fields && "sexo" in vitima.fields)
    then Err(AssertionFailed)
    else
      var date :- Subscript(data, "data_do_caso");
      if !(date.JStr? && IsIsoDateTime(date.s)) then Err(NotIsoDate)
      else
        var tipo :- Subscript(data, "tipo_do_caso");
        if !tipo.JStr? then Err(AssertionFailed)
        else
          var localizacao :- Subscript(data, "localizacao");
          if !localizacao.JStr? then Err(AssertionFailed)
          else Ok(())
  }

  /** The shape a case body must have, stated field by field. */
  predicate IsCaseShaped(data: Json) {
    && data.JObj?
    && "vitima" in data.fields && data.fields["vitima"].JObj?
    && "etnia" in data.fields["vitima"].fields
    && "idade" in data.fields["vitima"].fields
    && "sexo" in data.fields["vitima"].fields
    && "data_do_caso" in data.fields && data.fields["data_do_caso"].JStr?
    && IsIsoDateTime(data.fields["data_do_caso"].s)
    && "tipo_do_caso" in data.fields && data.fields["tipo_do_caso"].JStr?
    && "localizacao" in data.fields && data.fields["localizacao"].JStr?
  }

  /**
   * `validar_caso_json(data)`: true exactly for case-shaped bodies. Every
   * failure, a missing key included, is caught and yields false, and a
   * valid body is never falsy.
   */
  function ValidateCase(data: Json): (ok: bool)
    ensures ok <==> IsCaseShaped(data)
    ensures ok ==> PyTruthy(data)
  {
    CheckCase(data).Ok?
  }

  /** The case collection, as the handlers of `/api/casos` see it. */
  class Collection {
    var docs: seq<Doc>

    constructor (initial: seq<Doc>)
      ensures docs == initial
    {
      docs := initial;
    }

    /**
     * `criar_caso`: POST /api/casos. A missing or falsy body, or one that
     * does not validate, is answered 400 and nothing is inserted; a valid
     * body holding an integer the store cannot encode makes `insert_one`
     * raise, answered 500 with nothing inserted; any other valid body is
     * appended and answered 201.
     */
    method CreateCase(body: Option<Json>) returns (status: int)
      modifies this
      ensures status == 201 || status == 400 || status == 500
      ensures status == 400 <==> body.None? || !ValidateCase(body.value)
      ensures status == 500 <==> body.Some? && ValidateCase(body.value) && !Encodable(body.value)
      ensures status != 201 ==> docs == old(docs)
      ensures status == 201 ==> docs == old(docs) + [body.value.fields]
    {
      if body.None? || !PyTruthy(body.value) || !ValidateCase(body.value) {
        return 400;
      }
      if !Encodable(body.value) {
        return 500;
      }
      docs := docs + [body.value.fields];
      return 201;
    }

    /** `listar_casos`: GET /api/casos with a query string. */
    method ListCases(args: Query.Args) returns (r: Result<seq<Doc>, Fault>)
      ensures r == Query.ListCases(args, docs)
    {
      var q := Query.BuildListQuery(args);
      if q.Err? {
        return Err(q.error);
      }
      if !Query.StoreEncodes(q.value) {
        return Err(Overflow);
      }
      return Ok(Query.Find(q.value, docs));
    }
  }

  /**
   * A body inserted through POST is returned by GET with `sexo` set to its
   * victim's sex and by no GET asking for a different sex; a body the store
   * cannot encode is not inserted, so no GET returns it.
   */
  method InsertThenList(body: Json, other: string) returns (found: Result<seq<Doc>, Fault>, none: Result<seq<Doc>, Fault>)
    requires ValidateCase(body)
    requires body.fields["vitima"].fields["sexo"].JStr?
    requires other != body.fields["vitima"].fields["sexo"].s && other != "todos"
    ensures Encodable(body) && body.fields["vitima"].fields["sexo"].s != "todos" ==> found == Ok([body.fields])
    ensures !Encodable(body) ==> found == Ok([])
    ensures none == Ok([])
  {
    var sexo := body.fields["vitima"].fields["sexo"].s;
    var c := new Collection([]);
    var status := c.CreateCase(Some(body));
    assert c.docs == if Encodable(body) then [body.fields] else [];
    found := c.ListCases(map["sexo" := sexo]);
    none := c.ListCases(map["sexo" := other]);
  }
}
