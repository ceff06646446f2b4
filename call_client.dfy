/** The call-initiation client (`src/services/api/callService.ts`): checks
    that the stored telephony credentials are complete, builds the request
    for the call API, and turns its answer or its error into a result or a
    user-facing message. The HTTP exchange is an oracle: its outcome is a
    parameter. */
module CallClient {
  import opened Js
  import Settings

  datatype InitiateParams = InitiateParams(phoneNumber: string, patientName: string, patientDOB: string, memberId: string)

  /** The JSON body posted to `${apiBase}/api/initiate-call`. */
  datatype RequestData = RequestData(
    to: string,
    from: string,
    twilioAccountSid: string,
    twilioAuthToken: string,
    voiceUrl: string,
    patientName: string,
    patientDOB: string,
    memberId: string)

  /** The fields of a successful answer the client reads; `callSidSnake` is
      the `call_sid` field. */
  datatype ApiData = ApiData(callSid: Option<string>, callSidSnake: Option<string>, message: Option<string>)

  /** `error.response.data` of a failed request, when there is one. */
  datatype ErrorData = ErrorData(error: Option<string>, message: Option<string>)

  /** How the request ended: answered, failed inside axios (with its error
      code, the answer's data if any, and the error's message), or failed
      with some other thrown value. A timeout is an axios failure with code
      `ECONNABORTED`. */
  datatype HttpOutcome =
    | Answered(data: ApiData)
    | AxiosFailure(code: Option<string>, errorData: Option<ErrorData>, message: string)
    | NonAxiosFailure

  datatype CallResponse = CallResponse(success: bool, callSid: Option<string>, message: string)

  /** The request that was sent, if any, and what the caller receives. */
  datatype ClientStep = ClientStep(sent: Option<RequestData>, result: Result<CallResponse, string>)

  // The two long messages are written as two literals each: the verifier
  // reads the characters of a short literal, and these proofs need the
  // first character of each message.
  const NotConfiguredMessage :=
    "Twilio is not configured." + " Please go to Settings to configure your Twilio credentials."
  const GenericFailure := "Failed to initiate call. Please try again."
  const ConnectionRefused :=
    "Cannot connect to call service." + " Please check if the API server is running."
  const FailurePrefix := "Failed to initiate call: "

  function BuildRequest(params: InitiateParams, t: Settings.TwilioSettings, apiBase: string): (r: RequestData)
    ensures r.to == params.phoneNumber && r.from == t.phoneNumber
    ensures r.twilioAccountSid == t.accountSid && r.twilioAuthToken == t.authToken
    ensures t.voiceUrl != "" ==> r.voiceUrl == t.voiceUrl
    ensures t.voiceUrl == "" ==> r.voiceUrl == apiBase + "/incoming"
    ensures r.patientName == params.patientName && r.patientDOB == params.patientDOB && r.memberId == params.memberId
  {
    RequestData(params.phoneNumber, t.phoneNumber, t.accountSid, t.authToken,
                OrElse(Some(t.voiceUrl), apiBase + "/incoming"),
                params.patientName, params.patientDOB, params.memberId)
  }

  /** The text after the prefix: `response.data.error`, else
      `response.data.message`, else the error's own message. */
  function FailureDetail(data: Option<ErrorData>, message: string): string
  {
    match data
    case None => message
    case Some(d) => OrElse(Or(d.error, d.message), message)
  }

  /** The `catch` block: the message of the error the caller receives. */
  function ErrorMessage(failure: HttpOutcome): (m: string)
    requires !failure.Answered?
  {
    match failure
    case NonAxiosFailure => GenericFailure
    case AxiosFailure(code, errData, message) =>
      if code == Some("ECONNREFUSED") then ConnectionRefused else FailurePrefix + FailureDetail(errData, message)
  }

  /** An axios error reports a refused connection exactly when its code is
      `ECONNREFUSED`; otherwise it reports the first non-empty of the
      answer's `error`, the answer's `message` and the error's message. */
  lemma ErrorMessageClassification(failure: HttpOutcome)
    requires failure.AxiosFailure?
    ensures ErrorMessage(failure) == ConnectionRefused <==> failure.code == Some("ECONNREFUSED")
    ensures failure.code != Some("ECONNREFUSED") ==>
              && ErrorMessage(failure)[..|FailurePrefix|] == FailurePrefix
              && var detail := ErrorMessage(failure)[|FailurePrefix|..];
                 && (failure.errorData.Some? && Truthy(failure.errorData.value.error) ==> detail == failure.errorData.value.error.value)
                 && (failure.errorData.Some? && !Truthy(failure.errorData.value.error) && Truthy(failure.errorData.value.message) ==>
                       detail == failure.errorData.value.message.value)
                 && (failure.errorData.None? || (!Truthy(failure.errorData.value.error) && !Truthy(failure.errorData.value.message)) ==>
                       detail == failure.message)
  {
    if failure.code != Some("ECONNREFUSED") {
      var detail := FailureDetail(failure.errorData, failure.message);
      assert ErrorMessage(failure) == FailurePrefix + detail;
      assert (FailurePrefix + detail)[0] == 'F';
      assert ConnectionRefused[0] == 'C';
    }
  }

  /** The result of an answered request. */
  function Accepted(d: ApiData): (r: CallResponse)
    ensures r.success
    ensures Truthy(d.callSid) ==> r.callSid == d.callSid
    ensures !Truthy(d.callSid) ==> r.callSid == d.callSidSnake
    ensures Truthy(d.message) ==> r.message == d.message.value
    ensures !Truthy(d.message) ==> r.message == "Call initiated successfully"
  {
    CallResponse(true, Or(d.callSid, d.callSidSnake), OrElse(d.message, "Call initiated successfully"))
  }

  /** `callService.initiateCall(params)`, as written, with the settings slot
      it reads and the outcome of the HTTP request. The configuration
      guard's own error is thrown inside the `try` block and is not an axios
      error, so it reaches the caller as the generic message. */
  function InitiateCall(params: InitiateParams, slot: Option<Settings.Stored>, apiBase: string, http: HttpOutcome)
    : (r: ClientStep)
  {
    var t := Settings.TwilioOf(Settings.Load(slot)["twilio"]);
    if !Settings.Configured(t) then ClientStep(None, Failure(ErrorMessage(NonAxiosFailure)))
    else
      var request := BuildRequest(params, t, apiBase);
      match http
      case Answered(d) => ClientStep(Some(request), Success(Accepted(d)))
      case _ => ClientStep(Some(request), Failure(ErrorMessage(http)))
  }

  /** Without complete credentials nothing is sent, and the caller sees
      the generic failure, never the configuration message. With complete
      credentials the request built from the stored settings is sent, and
      a failed request reaches the caller as its `catch` message. */
  lemma InitiateCallOutcome(params: InitiateParams, slot: Option<Settings.Stored>, apiBase: string, http: HttpOutcome)
    ensures var t := Settings.TwilioOf(Settings.Load(slot)["twilio"]);
            var r := InitiateCall(params, slot, apiBase, http);
            && (!Settings.Configured(t) ==> r.sent.None? && r.result == Failure(GenericFailure))
            && (Settings.Configured(t) ==> r.sent == Some(BuildRequest(params, t, apiBase)))
            && (Settings.Configured(t) && http.Answered? ==> r.result == Success(Accepted(http.data)))
            && (Settings.Configured(t) && !http.Answered? ==> r.result == Failure(ErrorMessage(http)))
            && (Settings.Configured(t) && http.NonAxiosFailure? ==> r.result == Failure(GenericFailure))
            && r.result != Failure(NotConfiguredMessage)
  {
    var r := InitiateCall(params, slot, apiBase, http);
    if r.result.Failure? {
      var m := r.result.error;
      assert NotConfiguredMessage[0] == 'T';
      if http.AxiosFailure? && http.code != Some("ECONNREFUSED") {
        var detail := FailureDetail(http.errorData, http.message);
        assert (FailurePrefix + detail)[0] == 'F';
      } else {
        assert GenericFailure[0] == 'F' && ConnectionRefused[0] == 'C';
      }
    }
  }

  /** The behaviour the guard was written for: without complete
      credentials, nothing is sent and the caller sees the configuration
      message; otherwise the same as `InitiateCall`. */
  function InitiateCallIntended(params: InitiateParams, slot: Option<Settings.Stored>, apiBase: string, http: HttpOutcome)
    : (r: ClientStep)
  {
    var t := Settings.TwilioOf(Settings.Load(slot)["twilio"]);
    if !Settings.Configured(t) then ClientStep(None, Failure(NotConfiguredMessage))
    else InitiateCall(params, slot, apiBase, http)
  }

  lemma InitiateCallIntendedOutcome(params: InitiateParams, slot: Option<Settings.Stored>, apiBase: string, http: HttpOutcome)
    ensures var t := Settings.TwilioOf(Settings.Load(slot)["twilio"]);
            var r := InitiateCallIntended(params, slot, apiBase, http);
            && (!Settings.Configured(t) <==> r.result == Failure(NotConfiguredMessage))
            && (!Settings.Configured(t) ==> r.sent.None?)
            && (Settings.Configured(t) ==> r == InitiateCall(params, slot, apiBase, http))
  {
    InitiateCallOutcome(params, slot, apiBase, http);
  }

  /** The counterexample: with nothing stored, the as-written client reports
      the generic failure where the configuration message was meant. */
  lemma NotConfiguredMessageSwallowed(params: InitiateParams, apiBase: string, http: HttpOutcome)
    ensures InitiateCall(params, None, apiBase, http).result == Failure(GenericFailure)
    ensures InitiateCallIntended(params, None, apiBase, http).result == Failure(NotConfiguredMessage)
  {
    Settings.DefaultsNotConfigured(None);
  }
}
