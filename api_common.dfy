/**
 * What the endpoints of app/api/customers.py and app/api/orders.py share: the
 * exceptions raised inside their `try` blocks, the `except` clauses that turn
 * them into the HTTP error the client sees, and the `success` test applied to
 * every CRM reply.
 */
module ApiCommon {
  import opened Base
  import opened Json
  import opened Gateway

  /** The `detail` of an error response. */
  datatype Detail =
    | Text(text: string)                     // a literal message
    | Message(msg: Value)                    // `result.get("errorMsg", default)`
    | WithErrors(msg: Value, errors: Value)  // `f"{error_msg}. Errors: {errors}"`
    | StatusText(code: int)                  // `str(e)` of an upstream HTTPStatusError
    | Internal(cause: Raised)                // `f"Internal server error: {str(e)}"`
    | Unprocessable                          // the framework's 422 for a bad query or body

  /** An exception raised inside an endpoint's `try` block. */
  datatype Raised =
    | Upstream(error: GatewayError)          // from the CRM client
    | HttpFault(status: int, detail: Detail) // the endpoint's own HTTPException
    | BadData                                // KeyError, TypeError, AttributeError or a validation error on the reply

  /** What an endpoint answers: its result, or an error status with a detail. */
  datatype Response<T> = Ok(value: T) | Error(status: int, detail: Detail)

  /**
   * The `except` clauses: an upstream status error keeps its status; the
   * endpoint's own HTTPException is re-raised as is only where there is an
   * `except HTTPException: raise` clause; everything else becomes a 500.
   */
  function Escalate<T>(e: Raised, passThrough: bool): (r: Response<T>)
    ensures r.Error?
    ensures e.Upstream? && e.error.StatusError? ==> r == Error(e.error.code, StatusText(e.error.code))
    ensures e.HttpFault? && passThrough ==> r == Error(e.status, e.detail)
    ensures r.status != 500 ==> (e.Upstream? && e.error.StatusError?) || (e.HttpFault? && passThrough)
  {
    match e
    case Upstream(StatusError(code)) => Error(code, StatusText(code))
    case HttpFault(status, detail) =>
      if passThrough then Error(status, detail) else Error(500, Internal(e))
    case _ => Error(500, Internal(e))
  }

  /** How the CRM answered, once `result.get("success")` has been looked at. */
  datatype Verdict =
    | Accepted(body: map<string, Value>)   // success is truthy
    | Rejected(body: map<string, Value>)   // success is missing or falsy
    | Broken(e: Raised)                    // the call raised, or the reply is not a dict

  function Inspect(r: CrmResult): (v: Verdict)
    ensures v.Accepted? <==> r.Done? && r.json.Object? && Truthy(Lookup(r.json.fields, "success"))
    ensures v.Rejected? <==> r.Done? && r.json.Object? && !Truthy(Lookup(r.json.fields, "success"))
    ensures v.Accepted? || v.Rejected? ==> v.body == r.json.fields
    ensures r.Failed? ==> v == Broken(Upstream(r.error))
  {
    match r
    case Failed(e) => Broken(Upstream(e))
    case Done(json) =>
      match json
      case Object(m) => if Truthy(Lookup(m, "success")) then Accepted(m) else Rejected(m)
      case _ => Broken(BadData)
  }

  /** The `{success: True, id, message}` answer of the create endpoints. */
  function Confirmation(id: Value, message: string): Value {
    Object(map["success" := Bool(true), "id" := id, "message" := Str(message)])
  }

  /** `result.get(key, default)` on the reply dict. */
  function GetOr(m: map<string, Value>, key: string, default: Value): Value {
    if key in m then m[key] else default
  }

  /**
   * The elements `for x in v` visits, for the JSON shapes a reply can hold;
   * None where iteration raises.  A non-empty dict would yield its keys, and
   * every endpoint fails on a string element, so that case is None as well.
   */
  function Elements(v: Value): Option<seq<Value>> {
    match v
    case Array(xs) => Some(xs)
    case Str(s) => Some(seq(|s|, i requires 0 <= i < |s| => Str([s[i]])))
    case Object(m) => if m == map[] then Some([]) else None
    case _ => None
  }
}
