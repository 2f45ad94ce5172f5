/**
 * Request descriptors: what the front-end hands to the HTTP client. The
 * transport itself (sending, responses, observables) is not modelled; a
 * request is the verb, the URL, the headers, the body and the query
 * parameters it is issued with.
 */
module Http {
  import opened Wrappers
  import Text

  datatype Verb = GET | POST | PUT | DELETE | PATCH

  type Header = (string, string)

  const ContentType: Header := ("Content-Type", "application/json")

  /** Query parameters, in the order they were set. */
  type Params = seq<(string, string)>

  /** A scalar field of a loosely typed record returned by the backend. */
  datatype Value = Null | Bool(b: bool) | Num(n: int) | Str(s: string)

  /** A loosely typed record: a table row, or a JSON request body. */
  type Row = map<string, Value>

  /** A browser `File`, reduced to what the front-end looks at. */
  datatype File = File(name: string, mime: string)

  datatype FormValue = FieldText(text: string) | FieldFile(file: File)

  datatype FormEntry = FormEntry(key: string, value: FormValue)

  /** A multipart `FormData`: its entries in insertion order. */
  type FormData = seq<FormEntry>

  datatype Body = NoBody | JsonBody(record: Row) | FormBody(form: FormData)

  datatype Request = Request(
    verb: Verb,
    url: string,
    headers: seq<Header>,
    body: Body,
    params: Option<Params>)

  /** The identifier `delete` accepts: `string | number`. */
  datatype Id = NumId(n: int) | StrId(s: string)

  /** `${id}` inside a template literal. */
  function IdText(id: Id): (s: string)
    ensures id.StrId? ==> s == id.s
    ensures id.NumId? ==> Text.ParseInt(s) == Some(id.n) && '/' !in s
  {
    match id
    case NumId(n) => Text.DecimalTextRoundTrip(n); Text.DecimalText(n)
    case StrId(s) => s
  }

  /** `${v}` for a field value; None is `undefined`. */
  function TemplateText(v: Option<Value>): (s: string)
    ensures v.None? ==> s == "undefined"
    ensures v == Some(Null) ==> s == "null"
    ensures v.Some? && v.value.Num? ==> Text.ParseInt(s) == Some(v.value.n)
    ensures v.Some? && v.value.Str? ==> s == v.value.s
  {
    match v
    case None => "undefined"
    case Some(Null) => "null"
    case Some(Bool(b)) => if b then "true" else "false"
    case Some(Num(n)) => Text.DecimalTextRoundTrip(n); Text.DecimalText(n)
    case Some(Str(s)) => s
  }

  /** The keys of a form, in insertion order. */
  function FormKeys(form: FormData): (keys: seq<string>)
    ensures |keys| == |form|
    ensures forall i :: 0 <= i < |form| ==> keys[i] == form[i].key
  {
    seq(|form|, i requires 0 <= i < |form| => form[i].key)
  }

  /** `FormData.get(key)`: the first value stored under `key`. */
  function FormGet(form: FormData, key: string): (r: Option<FormValue>)
    ensures r.None? <==> key !in FormKeys(form)
    ensures r.Some? ==> exists i :: 0 <= i < |form| && form[i] == FormEntry(key, r.value)
  {
    if form == [] then None
    else if form[0].key == key then Some(form[0].value)
    else FormGet(form[1..], key)
  }

  /** Of several entries under one key, `get` returns the earliest. */
  lemma {:induction false} FormGetFirst(form: FormData, key: string, i: nat)
    requires i < |form| && form[i].key == key
    requires forall j :: 0 <= j < i ==> form[j].key != key
    ensures FormGet(form, key) == Some(form[i].value)
    decreases i
  {
    if i > 0 {
      FormGetFirst(form[1..], key, i - 1);
    }
  }
}
