/**
 * Decoded VIPS response bodies and the functions of vips_api.py that classify them:
 * the flags of `get` and `create`, `status_get`, `has_been_paid` and
 * `is_last_name_match`. A Python `KeyError` or `TypeError` is an `Err` result.
 */
module Responses {
  import opened Wrappers
  import Surnames

  /** `data.status`: only the fields the core reads. */
  datatype Status = Status(surnameNm: Option<string>, reviewCreatedYn: Option<string>)

  /** `data`; `transactionInfo` is only tested for presence, so its JSON text is kept opaque. */
  datatype Data = Data(status: Option<Status>, transactionInfo: Option<string>)

  datatype ErrorBody = ErrorBody(message: Option<string>)

  /** A decoded response body; `None` is an absent key. */
  datatype Response = Response(resp: Option<string>, error: Option<ErrorBody>, data: Option<Data>)

  /** What the HTTP call produced: a decoded body, or the `AssertionError` branch. */
  datatype Fetch = Received(body: Response) | NoResponse

  /** The second component `get` and `create` return: the body, or the caught error object. */
  datatype Reply = Body(response: Response) | TransportError

  /** The Python exceptions the core can raise on a body it did not expect. */
  datatype Error = KeyError(key: string) | TypeError

  function ReplyOf(fetch: Fetch): (reply: Reply)
    ensures reply.Body? <==> fetch.Received?
    ensures fetch.Received? ==> reply.response == fetch.body
  {
    match fetch
    case Received(body) => Body(body)
    case NoResponse => TransportError
  }

  /** `get` (vips_api.py:117-128): success iff a body came back holding the key `resp`. */
  function Get(fetch: Fetch): (result: (bool, Reply))
    ensures result.0 <==> fetch.Received? && fetch.body.resp.Some?
    ensures result.1 == ReplyOf(fetch)
  {
    match fetch
    case Received(body) => (body.resp.Some?, Body(body))
    case NoResponse => (false, TransportError)
  }

  /** `create` (vips_api.py:131-142): success iff any body came back. */
  function Create(fetch: Fetch): (result: (bool, Reply))
    ensures result.0 <==> fetch.Received?
    ensures result.1 == ReplyOf(fetch)
  {
    match fetch
    case Received(body) => (true, Body(body))
    case NoResponse => (false, TransportError)
  }

  /** `'resp' in data and data['resp'] == 'success'`. */
  predicate IsSuccess(r: Response) {
    r.resp == Some("success")
  }

  /** `'error' in data and data['error']['message'] == 'Record not found'`. */
  function IsNotFound(r: Response): (found: Result<bool, Error>)
    ensures found.Err? <==> r.error.Some? && r.error.value.message.None?
    ensures found.Err? ==> found.error == KeyError("message")
    ensures found.Ok? ==> (found.value <==> r.error.Some? && r.error.value.message == Some("Record not found"))
  {
    match r.error
    case None => Ok(false)
    case Some(e) =>
      match e.message
      case None => Err(KeyError("message"))
      case Some(m) => Ok(m == "Record not found")
  }

  /**
   * `status_get`'s classification (vips_api.py:49-52). The flag of `get` is not used;
   * on the `AssertionError` branch `'resp' in data` is applied to the error object.
   */
  function StatusGet(fetch: Fetch): (result: Result<(bool, Response), Error>)
    ensures fetch.NoResponse? ==> result == Err(TypeError)
    ensures fetch.Received? ==>
      (result.Err? <==> fetch.body.error.Some? && fetch.body.error.value.message.None?)
    ensures fetch.Received? && result.Err? ==> result.error == KeyError("message")
    ensures result.Ok? ==> fetch.Received? && result.value.1 == fetch.body
    ensures result.Ok? ==>
      (result.value.0 <==>
        (fetch.body.resp == Some("success")
         || (fetch.body.error.Some? && fetch.body.error.value.message == Some("Record not found"))))
  {
    match fetch
    case NoResponse => Err(TypeError)
    case Received(data) =>
      var isSuccess := IsSuccess(data);
      var isNotFound :- IsNotFound(data);
      Ok((isSuccess || isNotFound, data))
  }

  /** `has_been_paid` (vips_api.py:159-162): (a `resp` key is present, `data.transactionInfo` is present). */
  function HasBeenPaid(r: Response): (result: (bool, bool))
    ensures result.0 <==> r.resp.Some?
    ensures result.1 <==> r.data.Some? && r.data.value.transactionInfo.Some?
  {
    (r.resp.Some?, r.data.Some? && r.data.value.transactionInfo.Some?)
  }

  /**
   * `is_last_name_match` (vips_api.py:151-156): false without `data`; otherwise the
   * accent-stripped, upper-cased names are compared, and a missing `status` or
   * `surnameNm` under `data` raises.
   */
  function IsLastNameMatch(r: Response, lastName: string, decompose: Surnames.Decomposition): (result: Result<bool, Error>)
    ensures r.data.None? ==> result == Ok(false)
    ensures r.data.Some? && r.data.value.status.None? ==> result == Err(KeyError("status"))
    ensures r.data.Some? && r.data.value.status.Some? && r.data.value.status.value.surnameNm.None? ==>
      result == Err(KeyError("surnameNm"))
    ensures r.data.Some? && r.data.value.status.Some? && r.data.value.status.value.surnameNm.Some? ==>
      result == Ok(Surnames.NamesMatch(decompose, r.data.value.status.value.surnameNm.value, lastName))
  {
    match r.data
    case None => Ok(false)
    case Some(data) =>
      match data.status
      case None => Err(KeyError("status"))
      case Some(status) =>
        match status.surnameNm
        case None => Err(KeyError("surnameNm"))
        case Some(surname) => Ok(Surnames.NamesMatch(decompose, surname, lastName))
  }

  // ----- properties -----

  /** The response shapes VIPS returns: success, not found and a failed payment body. */
  lemma StatusGetShapes(data: Data)
    ensures StatusGet(Received(Response(Some("success"), None, Some(data)))) == Ok((true, Response(Some("success"), None, Some(data))))
    ensures StatusGet(Received(Response(None, Some(ErrorBody(Some("Record not found"))), None))).value.0
    ensures !StatusGet(Received(Response(Some("fail"), None, None))).value.0
  {
  }

  /** The value of `resp` is irrelevant to `get`: a payment answer of `fail` still counts as success. */
  lemma GetIgnoresRespValue(r: Response, v: string)
    requires r.resp.Some?
    ensures Get(Received(r)).0 == Get(Received(r.(resp := Some(v)))).0 == true
  {
  }

  /** Neither flag of `has_been_paid` depends on the field the other one reads. */
  lemma HasBeenPaidIndependent(r: Response, resp: Option<string>, data: Option<Data>)
    ensures HasBeenPaid(r.(data := data)).0 == HasBeenPaid(r).0
    ensures HasBeenPaid(r.(resp := resp)).1 == HasBeenPaid(r).1
  {
  }

  /** A response with no `data` never matches, whatever name is given. */
  lemma NoDataNeverMatches(r: Response, lastName: string, decompose: Surnames.Decomposition)
    requires r.data.None?
    ensures IsLastNameMatch(r, lastName, decompose) == Ok(false)
  {
  }

  /** The name check is case-insensitive on ASCII names: `Jones` on record matches `JONES` entered. */
  lemma LastNameMatchIgnoresCase(decompose: Surnames.Decomposition, status: Status, transactionInfo: Option<string>)
    requires Surnames.FixesAscii(decompose)
    requires status.surnameNm == Some("Jones")
    ensures IsLastNameMatch(Response(None, None, Some(Data(Some(status), transactionInfo))), "JONES", decompose) == Ok(true)
  {
    Surnames.JonesExamples(decompose);
  }
}
