/** The flow list screen: the fetched flows and a case-insensitive search
    on their names. */
module Flujos {
  import opened Entities
  import opened Net
  import Text
  import Filtering

  datatype FlujosState = FlujosState(flujos: seq<Flujo>, filtered: seq<Flujo>,
                                     loading: bool, searchText: string)

  const InitialFlujos := FlujosState([], [], true, "")

  /** `fetchFlujos`: on success both lists become the response as received;
      on failure both stay; loading ends either way. */
  function FetchFlujos(s: FlujosState, reply: Reply<seq<Flujo>>): (r: FlujosState)
    ensures reply.Ok? ==> r.flujos == reply.body && r.filtered == reply.body
    ensures reply.Failed? ==> r.flujos == s.flujos && r.filtered == s.filtered
    ensures !r.loading && r.searchText == s.searchText
  {
    match reply
    case Ok(data) => s.(flujos := data, filtered := data, loading := false)
    case Failed => s.(loading := false)
  }

  predicate NombreMatches(f: Flujo, query: string) {
    Text.MatchesIgnoringCase(f.nombre, query)
  }

  /** `handleSearch`: the shown flows are those, in list order, whose
      lower-cased name contains the lower-cased query. */
  function HandleSearch(s: FlujosState, text: string): (r: FlujosState)
    ensures r.searchText == text
    ensures Filtering.IsSubsequence(r.filtered, s.flujos)
    ensures forall i | 0 <= i < |r.filtered| :: NombreMatches(r.filtered[i], text)
    ensures forall i | 0 <= i < |s.flujos| :: NombreMatches(s.flujos[i], text) ==> s.flujos[i] in r.filtered
    ensures r.flujos == s.flujos && r.loading == s.loading
  {
    s.(searchText := text, filtered := Filtering.Filter(s.flujos, f => NombreMatches(f, text)))
  }

  /** The empty query shows every flow. */
  lemma SearchEmptyShowsAll(s: FlujosState)
    ensures HandleSearch(s, "").filtered == s.flujos
  {
    forall i | 0 <= i < |s.flujos|
      ensures NombreMatches(s.flujos[i], "")
    {
      Text.ContainsEmpty(Text.ToLower(s.flujos[i].nombre));
    }
    Filtering.FilterKeepsAll(s.flujos, f => NombreMatches(f, ""));
  }

  /** Each search filters the full list, never the previous result. */
  lemma SearchForgetsPreviousQuery(s: FlujosState, q1: string, q2: string)
    ensures HandleSearch(HandleSearch(s, q1), q2) == HandleSearch(s, q2)
  {
  }

  /** The search does not see case: an upper-case query finds a lower-case name. */
  lemma SearchIgnoresCase(s: FlujosState, q1: string, q2: string)
    requires Text.ToLower(q1) == Text.ToLower(q2)
    ensures HandleSearch(s, q1).filtered == HandleSearch(s, q2).filtered
  {
    Filtering.FilterCongruent(s.flujos, f => NombreMatches(f, q1), f => NombreMatches(f, q2));
  }

  /** What can happen on the screen: a fetch settles or the user searches. */
  datatype FlujosEvent = Fetched(reply: Reply<seq<Flujo>>) | Searched(text: string)

  function ApplyFlujos(s: FlujosState, e: FlujosEvent): FlujosState {
    match e
    case Fetched(reply) => FetchFlujos(s, reply)
    case Searched(text) => HandleSearch(s, text)
  }

  function RunFlujos(s: FlujosState, es: seq<FlujosEvent>): FlujosState
    decreases |es|
  {
    if |es| == 0 then s else RunFlujos(ApplyFlujos(s, es[0]), es[1..])
  }

  /** From the screen's initial state, whatever happens, the shown flows are
      drawn from the fetched list in its order. */
  lemma {:induction false} RunFlujosKeepsSubsequence(s: FlujosState, es: seq<FlujosEvent>)
    requires Filtering.IsSubsequence(s.filtered, s.flujos)
    ensures Filtering.IsSubsequence(RunFlujos(s, es).filtered, RunFlujos(s, es).flujos)
    decreases |es|
  {
    if |es| > 0 {
      var next := ApplyFlujos(s, es[0]);
      if es[0].Fetched? && es[0].reply.Ok? {
        Filtering.SubsequenceReflexive(next.flujos);
      }
      RunFlujosKeepsSubsequence(next, es[1..]);
    }
  }

  lemma FlujosShownAreFetched(es: seq<FlujosEvent>)
    ensures Filtering.IsSubsequence(RunFlujos(InitialFlujos, es).filtered, RunFlujos(InitialFlujos, es).flujos)
  {
    RunFlujosKeepsSubsequence(InitialFlujos, es);
  }
}
