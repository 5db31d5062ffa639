/**
 * The decision of `is_application_ready_for_payment` (vips_api.py:32-44), with the
 * two HTTP answers it may receive as parameters. The correlation id, generated by
 * the source with `uuid4`, is a parameter too.
 */
module PaymentReadiness {
  import opened Wrappers
  import opened Responses
  import opened Requests
  import Surnames

  /** The requests issued, in order, and what the call returns or raises. */
  datatype Readiness = Readiness(requests: seq<Request>, answer: Result<(bool, bool), Error>)

  /** `vips_status['data']['status']['reviewCreatedYn'] == 'Y'` (vips_api.py:41). */
  function IsFormSubmitted(r: Response): (result: Result<bool, Error>)
    ensures result.Ok? <==> r.data.Some? && r.data.value.status.Some? && r.data.value.status.value.reviewCreatedYn.Some?
    ensures result.Ok? ==> (result.value <==> r.data.value.status.value.reviewCreatedYn == Some("Y"))
    ensures r.data.None? ==> result == Err(KeyError("data"))
    ensures r.data.Some? && r.data.value.status.None? ==> result == Err(KeyError("status"))
    ensures r.data.Some? && r.data.value.status.Some? && r.data.value.status.value.reviewCreatedYn.None? ==>
      result == Err(KeyError("reviewCreatedYn"))
  {
    match r.data
    case None => Err(KeyError("data"))
    case Some(data) =>
      match data.status
      case None => Err(KeyError("status"))
      case Some(status) =>
        match status.reviewCreatedYn
        case None => Err(KeyError("reviewCreatedYn"))
        case Some(flag) => Ok(flag == "Y")
  }

  /**
   * `vips_payment['resp'] == 'fail'` (vips_api.py:42). Subscripting the error object of
   * a failed transport raises `TypeError`; in the decision `json.dumps(vips_payment)`
   * at line 40 raises that first.
   */
  function IsNotPaid(reply: Reply): (result: Result<bool, Error>)
    ensures result.Ok? <==> reply.Body? && reply.response.resp.Some?
    ensures result.Ok? ==> (result.value <==> reply.response.resp == Some("fail"))
    ensures reply.TransportError? ==> result == Err(TypeError)
    ensures reply.Body? && reply.response.resp.None? ==> result == Err(KeyError("resp"))
  {
    match reply
    case TransportError => Err(TypeError)
    case Body(r) =>
      match r.resp
      case None => Err(KeyError("resp"))
      case Some(resp) => Ok(resp == "fail")
  }

  function IsApplicationReadyForPayment(
    config: Config, prohibitionNumber: string, lastName: string, correlationId: string,
    decompose: Surnames.Decomposition, statusFetch: Fetch, paymentFetch: Fetch): (result: Readiness)
    // the status lookup always comes first; the payment lookup happens only on a name match
    ensures 1 <= |result.requests| <= 2
    ensures result.requests[0] == StatusRequest(config, prohibitionNumber, correlationId)
    ensures |result.requests| == 2 <==>
      StatusGet(statusFetch).Ok? && IsLastNameMatch(StatusGet(statusFetch).value.1, lastName, decompose) == Ok(true)
    ensures |result.requests| == 2 ==> result.requests[1] == PaymentRequest(config, prohibitionNumber, correlationId)
    // a failed status lookup or a failed name check is raised
    ensures StatusGet(statusFetch).Err? ==> result.answer == Err(StatusGet(statusFetch).error)
    ensures StatusGet(statusFetch).Ok? && IsLastNameMatch(StatusGet(statusFetch).value.1, lastName, decompose).Err? ==>
      result.answer == Err(IsLastNameMatch(StatusGet(statusFetch).value.1, lastName, decompose).error)
    // on a name mismatch: (status flag, False)
    ensures StatusGet(statusFetch).Ok? && IsLastNameMatch(StatusGet(statusFetch).value.1, lastName, decompose) == Ok(false) ==>
      result.answer == Ok((StatusGet(statusFetch).value.0, false))
    // on a name match, what is raised, in the order of lines 40, 41 and 42
    ensures |result.requests| == 2 && paymentFetch.NoResponse? ==> result.answer == Err(TypeError)
    ensures |result.requests| == 2 && paymentFetch.Received? && IsFormSubmitted(StatusGet(statusFetch).value.1).Err? ==>
      result.answer == Err(IsFormSubmitted(StatusGet(statusFetch).value.1).error)
    ensures |result.requests| == 2 && paymentFetch.Received? && IsFormSubmitted(StatusGet(statusFetch).value.1).Ok?
            && paymentFetch.body.resp.None? ==>
      result.answer == Err(KeyError("resp"))
    // on a name match: (both lookups succeeded, form submitted and not paid)
    ensures |result.requests| == 2 ==>
      var status := StatusGet(statusFetch).value;
      var payment := Get(paymentFetch);
      result.answer.Ok? <==> (payment.1.Body? && payment.1.response.resp.Some? && IsFormSubmitted(status.1).Ok?)
    ensures |result.requests| == 2 && result.answer.Ok? ==>
      var status := StatusGet(statusFetch).value;
      var payment := Get(paymentFetch);
      result.answer.value.0 == (status.0 && payment.0)
      && (result.answer.value.1 <==>
            status.1.data.value.status.value.reviewCreatedYn == Some("Y") && payment.1.response.resp == Some("fail"))
  {
    var statusRequest := StatusRequest(config, prohibitionNumber, correlationId);
    match StatusGet(statusFetch)
    case Err(e) => Readiness([statusRequest], Err(e))
    case Ok((isStatusSuccess, vipsStatus)) =>
      match IsLastNameMatch(vipsStatus, lastName, decompose)
      case Err(e) => Readiness([statusRequest], Err(e))
      case Ok(matched) =>
        if !matched then Readiness([statusRequest], Ok((isStatusSuccess, false)))
        else
          var requests := [statusRequest, PaymentRequest(config, prohibitionNumber, correlationId)];
          var (isPaymentSuccess, vipsPayment) := Get(paymentFetch);
          var answer :=
            if vipsPayment.TransportError? then Err(TypeError)  // `json.dumps(vips_payment)`, line 40
            else
              match IsFormSubmitted(vipsStatus)  // line 41
              case Err(e) => Err(e)
              case Ok(isFormSubmitted) =>
                match IsNotPaid(vipsPayment)  // line 42
                case Err(e) => Err(e)
                case Ok(isNotPaid) => Ok((isStatusSuccess && isPaymentSuccess, isFormSubmitted && isNotPaid));
          Readiness(requests, answer)
  }

  // ----- properties -----

  /** What the decision returns on a name mismatch does not depend on any payment answer. */
  lemma MismatchIgnoresPayment(
    config: Config, prohibitionNumber: string, lastName: string, correlationId: string,
    decompose: Surnames.Decomposition, statusFetch: Fetch, payment1: Fetch, payment2: Fetch)
    requires StatusGet(statusFetch).Ok?
    requires IsLastNameMatch(StatusGet(statusFetch).value.1, lastName, decompose) == Ok(false)
    ensures IsApplicationReadyForPayment(config, prohibitionNumber, lastName, correlationId, decompose, statusFetch, payment1)
         == IsApplicationReadyForPayment(config, prohibitionNumber, lastName, correlationId, decompose, statusFetch, payment2)
  {
  }

  /**
   * A found record, a matching name, a submitted review and a payment answer of `fail`:
   * both lookups count as successful and the application is ready for payment.
   */
  lemma ReadyForPaymentExample(config: Config, prohibitionNumber: string, correlationId: string, decompose: Surnames.Decomposition)
    requires Surnames.FixesAscii(decompose)
    ensures var status := Response(Some("success"), None, Some(Data(Some(Status(Some("Jones"), Some("Y"))), None)));
      var payment := Response(Some("fail"), None, None);
      IsApplicationReadyForPayment(config, prohibitionNumber, "JONES", correlationId, decompose, Received(status), Received(payment))
        == Readiness([StatusRequest(config, prohibitionNumber, correlationId), PaymentRequest(config, prohibitionNumber, correlationId)],
                     Ok((true, true)))
  {
    Surnames.JonesExamples(decompose);
  }

  /**
   * The review flag is read before the payment answer: a record without
   * `reviewCreatedYn` raises `KeyError('reviewCreatedYn')` even when the payment
   * body lacks `resp` too.
   */
  lemma ReviewFlagReadBeforePayment(config: Config, prohibitionNumber: string, correlationId: string,
                                    decompose: Surnames.Decomposition)
    requires Surnames.FixesAscii(decompose)
    ensures var status := Response(Some("success"), None, Some(Data(Some(Status(Some("Jones"), None)), None)));
      var payment := Response(None, None, None);
      IsApplicationReadyForPayment(config, prohibitionNumber, "JONES", correlationId, decompose, Received(status), Received(payment)).answer
        == Err(KeyError("reviewCreatedYn"))
  {
    Surnames.JonesExamples(decompose);
  }

  /** A not-found answer has no `data`, so the name cannot match: (True, False) after one lookup. */
  lemma NotFoundExample(config: Config, prohibitionNumber: string, lastName: string, correlationId: string,
                        decompose: Surnames.Decomposition, paymentFetch: Fetch)
    ensures var notFound := Response(None, Some(ErrorBody(Some("Record not found"))), None);
      IsApplicationReadyForPayment(config, prohibitionNumber, lastName, correlationId, decompose, Received(notFound), paymentFetch)
        == Readiness([StatusRequest(config, prohibitionNumber, correlationId)], Ok((true, false)))
  {
  }
}
