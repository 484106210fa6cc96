/** The GPT list screen: the fetched list sorted by name, a case-insensitive
    name search over it, a multi-select and a bulk delete. */
module Home {
  import opened Entities
  import opened Net
  import Text
  import Filtering
  import Selection
  import Sorting

  datatype HomeState = HomeState(gpts: seq<Gpt>, filtered: seq<Gpt>, loading: bool,
                                 searchText: string, selected: seq<int>)

  const InitialHome := HomeState([], [], true, "", [])

  /** The order the list is sorted by: names compared by code point, in
      place of `localeCompare`. */
  function NameLeq(x: Gpt, y: Gpt): bool {
    Text.LexLeq(x.name, y.name)
  }

  lemma NameOrderIsTotalPreorder()
    ensures Sorting.TotalPreorder(NameLeq)
  {
    forall x: Gpt, y: Gpt
      ensures NameLeq(x, y) || NameLeq(y, x)
    {
      Text.LexLeqTotal(x.name, y.name);
    }
    forall x: Gpt, y: Gpt, z: Gpt | NameLeq(x, y) && NameLeq(y, z)
      ensures NameLeq(x, z)
    {
      Text.LexLeqTransitive(x.name, y.name, z.name);
    }
  }

  /** `fetchGpts`: on success both the list and the shown list become the
      response sorted by name; on failure both stay; loading ends either way. */
  function FetchGpts(s: HomeState, reply: Reply<seq<Gpt>>): (r: HomeState)
    ensures reply.Ok? ==> && r.gpts == r.filtered
                          && multiset(r.gpts) == multiset(reply.body)
                          && Sorting.SortedBy(NameLeq, r.gpts)
    ensures reply.Failed? ==> r.gpts == s.gpts && r.filtered == s.filtered
    ensures !r.loading
    ensures r.searchText == s.searchText && r.selected == s.selected
  {
    match reply
    case Ok(data) =>
      NameOrderIsTotalPreorder();
      Sorting.SortSorted(data, NameLeq);
      var sorted := Sorting.Sort(data, NameLeq);
      s.(gpts := sorted, filtered := sorted, loading := false)
    case Failed => s.(loading := false)
  }

  predicate NameMatches(g: Gpt, query: string) {
    Text.MatchesIgnoringCase(g.name, query)
  }

  /** `handleSearch`: the shown list becomes the GPTs, in list order, whose
      lower-cased name contains the lower-cased query. */
  function HandleSearch(s: HomeState, text: string): (r: HomeState)
    ensures r.searchText == text
    ensures Filtering.IsSubsequence(r.filtered, s.gpts)
    ensures forall i | 0 <= i < |r.filtered| :: NameMatches(r.filtered[i], text)
    ensures forall i | 0 <= i < |s.gpts| :: NameMatches(s.gpts[i], text) ==> s.gpts[i] in r.filtered
    ensures r.gpts == s.gpts && r.loading == s.loading && r.selected == s.selected
  {
    s.(searchText := text, filtered := Filtering.Filter(s.gpts, g => NameMatches(g, text)))
  }

  /** The empty query shows the whole list. */
  lemma SearchEmptyShowsAll(s: HomeState)
    ensures HandleSearch(s, "").filtered == s.gpts
  {
    forall i | 0 <= i < |s.gpts|
      ensures NameMatches(s.gpts[i], "")
    {
      Text.ContainsEmpty(Text.ToLower(s.gpts[i].name));
    }
    Filtering.FilterKeepsAll(s.gpts, g => NameMatches(g, ""));
  }

  /** Each search filters the full list, never the previous result. */
  lemma SearchForgetsPreviousQuery(s: HomeState, q1: string, q2: string)
    ensures HandleSearch(HandleSearch(s, q1), q2) == HandleSearch(s, q2)
  {
  }

  /** `toggleSelectGpt`: a selected id is unselected, an unselected one is
      added at the end; no id is ever selected twice. */
  function ToggleSelectGpt(s: HomeState, id: int): (r: HomeState)
    ensures id in r.selected <==> id !in s.selected
    ensures forall other | other != id :: other in r.selected <==> other in s.selected
    ensures id !in s.selected ==> r.selected == s.selected + [id]
    ensures id in s.selected ==> Filtering.IsSubsequence(r.selected, s.selected)
                                 && r.selected == Selection.Remove(s.selected, id)
    ensures Selection.NoDuplicates(s.selected) ==> Selection.NoDuplicates(r.selected)
    ensures r.gpts == s.gpts && r.filtered == s.filtered
    ensures r.loading == s.loading && r.searchText == s.searchText
  {
    s.(selected := Selection.Toggle(s.selected, id))
  }

  /** The outcome of `deleteSelectedGpts`: the ids a delete request went out
      for, the state after the batch settled, and whether the list is fetched again. */
  datatype BulkDelete = BulkDelete(deleted: seq<int>, next: HomeState, refetch: bool)

  /** `deleteSelectedGpts`: one delete per selected id, all awaited
      together; `failed` is the set of ids whose request is rejected. The
      selection is cleared only if no request failed. */
  function DeleteSelectedGpts(s: HomeState, failed: set<int>): (r: BulkDelete)
    ensures r.deleted == s.selected
    ensures (forall k | 0 <= k < |s.selected| :: s.selected[k] !in failed) ==>
              r.next == s.(selected := []) && r.refetch
    ensures (exists k | 0 <= k < |s.selected| :: s.selected[k] in failed) ==>
              r.next == s && !r.refetch
  {
    if exists k | 0 <= k < |s.selected| :: s.selected[k] in failed then BulkDelete(s.selected, s, false)
    else BulkDelete(s.selected, s.(selected := []), true)
  }

  /** Deleting ids 1, 2 and 3 where only the request for 2 fails reports a
      failure for the whole batch and keeps the selection. */
  lemma PartialFailureKeepsSelection(s: HomeState)
    requires s.selected == [1, 2, 3]
    ensures DeleteSelectedGpts(s, {2}).next.selected == [1, 2, 3]
    ensures !DeleteSelectedGpts(s, {2}).refetch
  {
    assert s.selected[1] in {2};
  }

  /** After a failed batch the selection is intact, so the next batch sends
      every id again, including those the backend already deleted. */
  lemma FailedBatchIsResent(s: HomeState, failed: set<int>, next: set<int>)
    requires exists k | 0 <= k < |s.selected| :: s.selected[k] in failed
    ensures DeleteSelectedGpts(DeleteSelectedGpts(s, failed).next, next).deleted == s.selected
  {
  }

  // ---------------------------------------------------------------------------
  // The screen as an event-driven state machine
  // ---------------------------------------------------------------------------

  /** What can happen on the screen: a fetch settles, the user searches,
      ticks a checkbox, or confirms the bulk delete. */
  datatype HomeEvent =
    | Fetched(reply: Reply<seq<Gpt>>)
    | Searched(text: string)
    | Ticked(id: int)
    | BulkDeleted(failed: set<int>)

  function ApplyHome(s: HomeState, e: HomeEvent): HomeState {
    match e
    case Fetched(reply) => FetchGpts(s, reply)
    case Searched(text) => HandleSearch(s, text)
    case Ticked(id) => ToggleSelectGpt(s, id)
    case BulkDeleted(failed) => DeleteSelectedGpts(s, failed).next
  }

  function RunHome(s: HomeState, es: seq<HomeEvent>): HomeState
    decreases |es|
  {
    if |es| == 0 then s else RunHome(ApplyHome(s, es[0]), es[1..])
  }

  /** The shown list is drawn from the full list in its order, and no GPT is
      selected twice. */
  ghost predicate Consistent(s: HomeState) {
    Filtering.IsSubsequence(s.filtered, s.gpts) && Selection.NoDuplicates(s.selected)
  }

  lemma ApplyHomeKeepsConsistent(s: HomeState, e: HomeEvent)
    requires Consistent(s)
    ensures Consistent(ApplyHome(s, e))
  {
    if e.Fetched? && e.reply.Ok? {
      Filtering.SubsequenceReflexive(ApplyHome(s, e).gpts);
    }
  }

  /** From the screen's initial state, whatever happens, the shown list is a
      subsequence of the full list and the selection has no duplicates. */
  lemma {:induction false} RunHomeKeepsConsistent(s: HomeState, es: seq<HomeEvent>)
    requires Consistent(s)
    ensures Consistent(RunHome(s, es))
    decreases |es|
  {
    if |es| > 0 {
      ApplyHomeKeepsConsistent(s, es[0]);
      RunHomeKeepsConsistent(ApplyHome(s, es[0]), es[1..]);
    }
  }

  lemma HomeAlwaysConsistent(es: seq<HomeEvent>)
    ensures Consistent(RunHome(InitialHome, es))
  {
    RunHomeKeepsConsistent(InitialHome, es);
  }
}
