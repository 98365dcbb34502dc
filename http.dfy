/** JSON values and the two ways the controllers turn a service outcome into an HTTP response. */
module Http {
  import opened Wrappers

  /** A JSON value as parsed by the body parser; numbers are integers in this model. */
  datatype Json =
    | JNull
    | JBool(b: bool)
    | JNum(n: int)
    | JString(s: string)
    | JArray(items: seq<Json>)
    | JObject(fields: map<string, Json>)

  /** A parsed request body: the fields of the JSON object the client sent. */
  type Body = map<string, Json>

  /** Destructuring one field out of the request body: an absent key yields `undefined`. */
  function Field(body: Body, key: string): (v: Option<Json>)
    ensures v.Some? <==> key in body
    ensures v.Some? ==> v.value == body[key]
  {
    if key in body then Some(body[key]) else None
  }

  /** What `res.json(..)` sends: either the service's value or the fixed `{ error: ... }` object. */
  datatype Payload<+T> = Value(value: T) | ErrorObject(error: string)

  datatype Response<+T> = Response(status: int, payload: Payload<T>)

  /** The try/catch of every `criar` controller: 201 with the created value, or 400 with a fixed message. */
  function Created<T, E>(outcome: Result<T, E>, failText: string): (r: Response<T>)
    ensures r.status == 201 <==> outcome.Ok?
    ensures r.status == 400 <==> outcome.Err?
    ensures outcome.Ok? ==> r.payload == Value(outcome.value)
    ensures outcome.Err? ==> r.payload == ErrorObject(failText)
  {
    match outcome
    case Ok(v) => Response(201, Value(v))
    case Err(_) => Response(400, ErrorObject(failText))
  }

  /**
   * The `listar` controllers answer 200 with the service's result as it is.
   * They have no try/catch, so a failed service writes no response at all (None).
   */
  function Listed<T, E>(outcome: Result<T, E>): (r: Option<Response<T>>)
    ensures r.Some? <==> outcome.Ok?
    ensures outcome.Ok? ==> r.value.status == 200 && r.value.payload == Value(outcome.value)
  {
    match outcome
    case Ok(v) => Some(Response(200, Value(v)))
    case Err(_) => None
  }

  /** The 400 answer does not depend on why the service failed. */
  lemma CreatedHidesCause<T, E>(e1: E, e2: E, failText: string)
    ensures Created<T, E>(Err(e1), failText) == Created<T, E>(Err(e2), failText)
  {
  }
}
