/** Creating a GPT: four required fields posted under the backend's names. */
module CreateGpt {
  import opened Net

  datatype GptForm = GptForm(name: string, apiKey: string, model: string, systemMessage: string)

  /** The posted body `{name, api_key, model, system_message}`. */
  datatype CreatePayload = CreatePayload(name: string, api_key: string, model: string, system_message: string)

  /** What `handleCreateGPT` does besides posting: whether the caller's
      refresh callback runs, and whether the screen goes back. */
  datatype CreateOutcome = CreateOutcome(request: Request<CreatePayload>, refreshed: bool, wentBack: bool)

  predicate Complete(f: GptForm) {
    f.name != "" && f.apiKey != "" && f.model != "" && f.systemMessage != ""
  }

  /** HTTP statuses the client library resolves with; any other status is
      rejected and lands in the error branch. */
  predicate IsSuccessStatus(status: int) {
    200 <= status < 300
  }

  /** `handleCreateGPT`: `reply` is the status the backend answered with
      (or a transport failure); `hasCallback` says whether `onGPTCreated`
      was passed. Only a 201 refreshes and goes back. */
  function HandleCreateGpt(f: GptForm, reply: Reply<int>, hasCallback: bool): (r: CreateOutcome)
    ensures r.request.NoRequest? <==> !Complete(f)
    ensures r.request.Send? ==> && r.request.payload.name == f.name
                                && r.request.payload.api_key == f.apiKey
                                && r.request.payload.model == f.model
                                && r.request.payload.system_message == f.systemMessage
    ensures r.wentBack <==> Complete(f) && reply == Ok(201)
    ensures r.refreshed <==> r.wentBack && hasCallback
  {
    if !Complete(f) then CreateOutcome(NoRequest, false, false)
    else
      var request := Send(CreatePayload(f.name, f.apiKey, f.model, f.systemMessage));
      match reply
      case Ok(status) =>
        if !IsSuccessStatus(status) then CreateOutcome(request, false, false)
        else if status == 201 then CreateOutcome(request, hasCallback, true)
        else CreateOutcome(request, false, false)
      case Failed => CreateOutcome(request, false, false)
  }

  /** The payload carries the form's four fields and nothing else: the form
      can be read back from it. */
  function FormOf(p: CreatePayload): GptForm {
    GptForm(p.name, p.api_key, p.model, p.system_message)
  }

  lemma PayloadRoundTrip(f: GptForm, reply: Reply<int>, hasCallback: bool)
    requires Complete(f)
    ensures FormOf(HandleCreateGpt(f, reply, hasCallback).request.payload) == f
  {
  }

  /** A 200 is a success for the client library but not for this screen:
      nothing follows it. */
  lemma OkStatusIsIgnored(f: GptForm, hasCallback: bool)
    requires Complete(f)
    ensures var r := HandleCreateGpt(f, Ok(200), hasCallback);
            r.request.Send? && !r.refreshed && !r.wentBack
  {
  }
}
