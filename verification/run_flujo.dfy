/** Running a flow in one conversation: the history shown is loaded once,
    and each run replaces it with the per-step results of that run. */
module RunFlujo {
  import opened Wrappers
  import opened Net
  import Text

  /** One step's output as rendered: `{position, agent_name, response}`. */
  datatype StepResult = StepResult(position: int, agentName: string, response: string)

  datatype RunState = RunState(historial: seq<StepResult>, loading: bool, prompt: string)

  const InitialRun := RunState([], false, "")

  /** A history reply: its body `response.data`, `None` when falsy. */
  type ResultsReply = Reply<Option<seq<StepResult>>>

  /** The body of a run reply, `{resultados}`, with `None` for an absent or
      falsy `resultados`. */
  datatype RunBody = RunBody(resultados: Option<seq<StepResult>>)

  /** A run reply: `None` when `response.data` itself is null, so that
      reading `.resultados` throws into the error branch. */
  type RunReply = Reply<Option<RunBody>>

  /** The history-shaped view of a run reply: the error branch for a null
      body, otherwise `resultados`. */
  function ResultadosOf(reply: RunReply): (r: ResultsReply)
    ensures r.Failed? <==> reply.Failed? || reply.body.None?
    ensures r.Ok? ==> r.body == reply.body.value.resultados
  {
    match reply
    case Ok(Some(body)) => Ok(body.resultados)
    case _ => Failed
  }

  /** The list shown after a settled request: `body || []` on success, the
      previous list on failure. */
  function Settle(shown: seq<StepResult>, reply: ResultsReply): (r: seq<StepResult>)
    ensures reply.Failed? ==> r == shown
    ensures reply.Ok? && reply.body.Some? ==> r == reply.body.value
    ensures reply.Ok? && reply.body.None? ==> r == []
  {
    match reply
    case Ok(body) => body.GetOr([])
    case Failed => shown
  }

  /** `loadHistorial` up to its `await`: loading starts. */
  function StartLoad(s: RunState): (r: RunState)
    ensures r.loading && r.historial == s.historial && r.prompt == s.prompt
  {
    s.(loading := true)
  }

  /** `loadHistorial` after its `await`: the history is `response.data || []`,
      or unchanged on error; `finally` ends loading. */
  function FinishLoad(s: RunState, reply: ResultsReply): (r: RunState)
    ensures !r.loading && r.prompt == s.prompt
    ensures reply.Failed? ==> r.historial == s.historial
    ensures reply.Ok? ==> r.historial == reply.body.GetOr([])
  {
    s.(historial := Settle(s.historial, reply), loading := false)
  }

  /** `fetchHistorial` up to its `await`: an empty prompt alerts and sends
      nothing; any other prompt, white space included, is posted as is and
      loading starts. */
  function StartRun(s: RunState): (r: Handled<RunState, string>)
    ensures r.request.NoRequest? <==> s.prompt == ""
    ensures r.request.NoRequest? ==> r.next == s
    ensures r.request.Send? ==> r.request.payload == s.prompt && r.next.loading
                                && r.next.historial == s.historial && r.next.prompt == s.prompt
  {
    if s.prompt == "" then Handled(s, NoRequest)
    else Handled(s.(loading := true), Send(s.prompt))
  }

  /** `fetchHistorial` after its `await`: the shown list becomes
      `response.data.resultados || []` (replaced, not appended to), or stays
      on error; `finally` ends loading. */
  function FinishRun(s: RunState, reply: RunReply): (r: RunState)
    ensures !r.loading && r.prompt == s.prompt
    ensures reply.Failed? || reply.body.None? ==> r.historial == s.historial
    ensures reply.Ok? && reply.body.Some? ==> r.historial == reply.body.value.resultados.GetOr([])
  {
    s.(historial := Settle(s.historial, ResultadosOf(reply)), loading := false)
  }

  /** A press on the run button, which is disabled while loading. */
  function PressRun(s: RunState): (r: Handled<RunState, string>)
    ensures s.loading ==> r.next == s && r.request.NoRequest?
    ensures !s.loading ==> r == StartRun(s)
  {
    if s.loading then Handled(s, NoRequest) else StartRun(s)
  }

  /** A whole run round trip, the backend's answer given as `reply`. */
  function RunRoundTrip(s: RunState, reply: RunReply): (r: Handled<RunState, string>)
    ensures s.prompt == "" ==> r.request.NoRequest? && r.next == s
    ensures s.prompt != "" ==> r.request == Send(s.prompt) && !r.next.loading && r.next.prompt == s.prompt
    ensures s.prompt != "" && reply.Ok? && reply.body.Some? ==>
              r.next.historial == reply.body.value.resultados.GetOr([])
    ensures reply.Failed? || reply.body.None? ==> r.next.historial == s.historial
  {
    var started := StartRun(s);
    if started.request.NoRequest? then started
    else Handled(FinishRun(started.next, reply), started.request)
  }

  /** While the history loads, the run button does nothing. */
  lemma NoRunDuringLoad(s: RunState)
    ensures PressRun(StartLoad(s)).request.NoRequest?
    ensures PressRun(StartLoad(s)).next == StartLoad(s)
  {
  }

  /** Once a run has been sent, a second press does nothing until it settles. */
  lemma NoSecondRunInFlight(s: RunState)
    requires PressRun(s).request.Send?
    ensures PressRun(PressRun(s).next).request.NoRequest?
  {
  }

  /** A successful run's list does not depend on what was shown before. */
  lemma RunReplacesHistory(s1: RunState, s2: RunState, reply: RunReply)
    requires s1.prompt == s2.prompt && s1.prompt != "" && reply.Ok? && reply.body.Some?
    ensures RunRoundTrip(s1, reply).next == RunRoundTrip(s2, reply).next
  {
  }

  /** A non-empty prompt of blanks is not rejected, although it trims to
      nothing: it is sent unchanged, whatever the backend answers. */
  lemma BlankPromptIsSent(s: RunState, reply: RunReply)
    requires s.prompt != "" && Text.AllSpace(s.prompt)
    ensures Text.Trim(s.prompt) == ""
    ensures RunRoundTrip(s, reply).request == Send(s.prompt)
  {
    Text.TrimEmptyIffBlank(s.prompt);
  }

  /** Opening the screen: the history request starts from an empty list, so
      a failed load leaves nothing shown and a successful one shows
      `response.data || []`; the run button is enabled again afterwards. */
  lemma OpeningScreen(reply: ResultsReply)
    ensures StartLoad(InitialRun).loading
    ensures PressRun(StartLoad(InitialRun)).request.NoRequest?
    ensures reply.Failed? ==> FinishLoad(StartLoad(InitialRun), reply).historial == []
    ensures reply.Ok? ==> FinishLoad(StartLoad(InitialRun), reply).historial == reply.body.GetOr([])
    ensures !FinishLoad(StartLoad(InitialRun), reply).loading
  {
  }

  /** A run answered with one step by "Alpha" shows exactly that one entry,
      whatever was shown before. */
  lemma SingleStepRun(s: RunState)
    requires s.prompt == "x"
    ensures RunRoundTrip(s, Ok(Some(RunBody(Some([StepResult(1, "Alpha", "hi")]))))).next.historial
            == [StepResult(1, "Alpha", "hi")]
  {
  }
}
