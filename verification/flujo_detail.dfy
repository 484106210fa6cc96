/** The conversations of one flow, searchable by the decimal text of their ids. */
module FlujoDetail {
  import opened Entities
  import opened Net
  import Text
  import Filtering

  datatype DetailState = DetailState(conversaciones: seq<Conversation>,
                                     filtered: seq<Conversation>,
                                     loading: bool, searchText: string)

  const InitialDetail := DetailState([], [], true, "")

  /** `fetchConversaciones`: on success both lists become the response; on
      failure both stay; loading ends either way. */
  function FetchConversaciones(s: DetailState, reply: Reply<seq<Conversation>>): (r: DetailState)
    ensures reply.Ok? ==> r.conversaciones == reply.body && r.filtered == reply.body
    ensures reply.Failed? ==> r.conversaciones == s.conversaciones && r.filtered == s.filtered
    ensures !r.loading && r.searchText == s.searchText
  {
    match reply
    case Ok(data) => s.(conversaciones := data, filtered := data, loading := false)
    case Failed => s.(loading := false)
  }

  /** `conv.id.toString().includes(text)`: case-sensitive, no lower-casing. */
  predicate IdMatches(c: Conversation, query: string) {
    Text.Contains(Text.IntToDecimal(c.id), query)
  }

  /** `handleSearch`: the shown conversations are those, in list order,
      whose decimal id contains the query. */
  function HandleSearch(s: DetailState, text: string): (r: DetailState)
    ensures r.searchText == text
    ensures Filtering.IsSubsequence(r.filtered, s.conversaciones)
    ensures forall i | 0 <= i < |r.filtered| :: IdMatches(r.filtered[i], text)
    ensures forall i | 0 <= i < |s.conversaciones| ::
              IdMatches(s.conversaciones[i], text) ==> s.conversaciones[i] in r.filtered
    ensures r.conversaciones == s.conversaciones && r.loading == s.loading
  {
    s.(searchText := text, filtered := Filtering.Filter(s.conversaciones, c => IdMatches(c, text)))
  }

  /** The empty query shows every conversation. */
  lemma SearchEmptyShowsAll(s: DetailState)
    ensures HandleSearch(s, "").filtered == s.conversaciones
  {
    forall i | 0 <= i < |s.conversaciones|
      ensures IdMatches(s.conversaciones[i], "")
    {
      Text.ContainsEmpty(Text.IntToDecimal(s.conversaciones[i].id));
    }
    Filtering.FilterKeepsAll(s.conversaciones, c => IdMatches(c, ""));
  }

  /** Each search filters the full list, never the previous result. */
  lemma SearchForgetsPreviousQuery(s: DetailState, q1: string, q2: string)
    ensures HandleSearch(HandleSearch(s, q1), q2) == HandleSearch(s, q2)
  {
  }

  lemma DecimalsOfSmallIds()
    ensures Text.IntToDecimal(1) == "1" && Text.IntToDecimal(2) == "2"
    ensures Text.IntToDecimal(10) == "10" && Text.IntToDecimal(21) == "21"
  {
    assert Text.NatToDecimal(1) == "1";
    assert Text.NatToDecimal(2) == "2";
    assert Text.NatToDecimal(10) == Text.NatToDecimal(1) + [Text.DigitChar(0)];
    assert Text.NatToDecimal(21) == Text.NatToDecimal(2) + [Text.DigitChar(1)];
  }

  lemma OneMatchesSmallIds()
    ensures IdMatches(Conversation(1), "1") && !IdMatches(Conversation(2), "1")
    ensures IdMatches(Conversation(10), "1") && IdMatches(Conversation(21), "1")
  {
    DecimalsOfSmallIds();
    assert Text.OccursAt("1", "1", 0);
    assert Text.OccursAt("10", "1", 0);
    assert Text.OccursAt("21", "1", 1);
    assert !Text.StartsWith("2", "1");
    assert !Text.Contains("", "1");
  }

  /** The query "1" over ids 1, 2, 10, 21 keeps 1, 10 and 21, in that order:
      the match is on the decimal text, not on the number. */
  lemma SearchOneMatchesSubstrings(s: DetailState)
    requires s.conversaciones == [Conversation(1), Conversation(2), Conversation(10), Conversation(21)]
    ensures HandleSearch(s, "1").filtered == [Conversation(1), Conversation(10), Conversation(21)]
  {
    OneMatchesSmallIds();
    var keep := c => IdMatches(c, "1");
    var xs := s.conversaciones;
    assert xs[1..] == [Conversation(2), Conversation(10), Conversation(21)];
    assert xs[2..] == [Conversation(10), Conversation(21)];
    assert xs[3..] == [Conversation(21)];
    assert Filtering.Filter(xs[3..], keep) == [Conversation(21)];
    assert Filtering.Filter(xs[2..], keep) == [Conversation(10), Conversation(21)];
    assert Filtering.Filter(xs[1..], keep) == [Conversation(10), Conversation(21)];
  }

  /** What can happen on the screen: a fetch settles or the user searches. */
  datatype DetailEvent = Fetched(reply: Reply<seq<Conversation>>) | Searched(text: string)

  function ApplyDetail(s: DetailState, e: DetailEvent): DetailState {
    match e
    case Fetched(reply) => FetchConversaciones(s, reply)
    case Searched(text) => HandleSearch(s, text)
  }

  function RunDetail(s: DetailState, es: seq<DetailEvent>): DetailState
    decreases |es|
  {
    if |es| == 0 then s else RunDetail(ApplyDetail(s, es[0]), es[1..])
  }

  /** From the screen's initial state, whatever happens, the shown
      conversations are drawn from the fetched list in its order. */
  lemma {:induction false} RunDetailKeepsSubsequence(s: DetailState, es: seq<DetailEvent>)
    requires Filtering.IsSubsequence(s.filtered, s.conversaciones)
    ensures Filtering.IsSubsequence(RunDetail(s, es).filtered, RunDetail(s, es).conversaciones)
    decreases |es|
  {
    if |es| > 0 {
      var next := ApplyDetail(s, es[0]);
      if es[0].Fetched? && es[0].reply.Ok? {
        Filtering.SubsequenceReflexive(next.conversaciones);
      }
      RunDetailKeepsSubsequence(next, es[1..]);
    }
  }

  lemma ConversacionesShownAreFetched(es: seq<DetailEvent>)
    ensures Filtering.IsSubsequence(RunDetail(InitialDetail, es).filtered,
                                    RunDetail(InitialDetail, es).conversaciones)
  {
    RunDetailKeepsSubsequence(InitialDetail, es);
  }
}
