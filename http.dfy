/**
 * What a request handler answers: a status, the `Content-Type` it writes,
 * and what goes in the body. The request side is reduced to what the
 * handlers read: the method, the URL's pathname and its query pairs.
 */
module Http {
  import opened Wrappers
  import opened Json

  datatype Body =
    | NoBody
    /** A fixed text such as `Forbidden`. */
    | PlainText(text: string)
    /** `JSON.stringify(value)`, or the framework's `c.json(value)`. */
    | JsonText(value: Json)
    /** A file's contents as read, passed on unchanged. */
    | RawText(text: string)
    /** The file at `path`, streamed. */
    | FileStream(path: string)
    /** An event stream that stays open. */
    | EventStream

  datatype Response = Response(status: nat, contentType: Option<string>, body: Body)

  const JsonType: string := "application/json"

  /** A JSON answer with the given status. */
  function JsonResponse(status: nat, value: Json): (r: Response)
    ensures r.status == status && r.contentType == Some(JsonType) && r.body == JsonText(value)
  {
    Response(status, Some(JsonType), JsonText(value))
  }

  /** `{ error: message }`. */
  function ErrorJson(message: string): Json {
    JObject([("error", JString(message))])
  }

  /** The name/value pairs of a URL's query, in the order they appear. */
  type Query = seq<(string, string)>

  /** `searchParams.get(name)` (and `c.req.query(name)`): the first pair's value, `None` for `null`. */
  function QueryGet(q: Query, name: string): (r: Option<string>)
    ensures r.None? <==> forall i :: 0 <= i < |q| ==> q[i].0 != name
    ensures r.Some? ==> exists i :: 0 <= i < |q| && q[i] == (name, r.value) && forall j :: 0 <= j < i ==> q[j].0 != name
    decreases |q|
  {
    if |q| == 0 then None
    else if q[0].0 == name then Some(q[0].1)
    else
      var r := QueryGet(q[1..], name);
      QueryGetTail(q, name, r);
      r
  }

  lemma QueryGetTail(q: Query, name: string, r: Option<string>)
    requires |q| > 0 && q[0].0 != name
    requires r.None? <==> forall i :: 0 <= i < |q[1..]| ==> q[1..][i].0 != name
    requires r.Some? ==> exists i :: 0 <= i < |q[1..]| && q[1..][i] == (name, r.value) && forall j :: 0 <= j < i ==> q[1..][j].0 != name
    ensures r.None? <==> forall i :: 0 <= i < |q| ==> q[i].0 != name
    ensures r.Some? ==> exists i :: 0 <= i < |q| && q[i] == (name, r.value) && forall j :: 0 <= j < i ==> q[j].0 != name
  {
    assert forall i :: 1 <= i < |q| ==> q[i] == q[1..][i - 1];
    if r.Some? {
      var i :| 0 <= i < |q[1..]| && q[1..][i] == (name, r.value) && forall j :: 0 <= j < i ==> q[1..][j].0 != name;
      assert q[i + 1] == (name, r.value) && forall j :: 0 <= j < i + 1 ==> q[j].0 != name;
    }
  }

  /** `get(name) || fallback`: a missing or empty value gives the fallback. */
  function ParamOr(q: Query, name: string, fallback: string): (v: string)
    ensures QueryGet(q, name).Some? && QueryGet(q, name).value != "" ==> v == QueryGet(q, name).value
    ensures QueryGet(q, name).None? || QueryGet(q, name).value == "" ==> v == fallback
  {
    match QueryGet(q, name)
    case Some(s) => if s != "" then s else fallback
    case None => fallback
  }
}
