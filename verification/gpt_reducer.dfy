/** The records the screens receive from the backend, reduced to the
    fields the client logic reads. */
module Entities {

  /** A configured chat agent as listed by the backend. */
  datatype Gpt = Gpt(id: int, name: string, model: string, systemMessage: string)

  /** A multi-agent flow as listed by the backend. */
  datatype Flujo = Flujo(id: int, nombre: string)

  /** A conversation of a flow; the search reads only its id. */
  datatype Conversation = Conversation(id: int)
}

/** The Redux slice holding the list of GPTs: append on `CREATE_GPT`,
    replace-by-id on `EDIT_GPT`, identity on every other action. */
module GptReducer {
  import opened Entities
  import opened Wrappers

  /** The slice only ever holds `gpts`: it starts as `{gpts: []}` and every
      case spreads the previous state. */
  datatype GptState = GptState(gpts: seq<Gpt>)

  /** An action type the reducer does not handle. */
  type OtherType = k: string | k != "CREATE_GPT" && k != "EDIT_GPT" witness ""

  /** `CREATE_GPT` and `EDIT_GPT` carry a GPT; `Unrelated` is an action of
      any other type. */
  datatype Action = CreateGpt(payload: Gpt) | EditGpt(payload: Gpt) | Unrelated(kind: OtherType)

  const InitialState := GptState([])

  /** `gpts.map(g => g.id === p.id ? p : g)`. */
  function ReplaceById(gpts: seq<Gpt>, p: Gpt): (r: seq<Gpt>)
    ensures |r| == |gpts|
    ensures forall i | 0 <= i < |r| :: r[i] == if gpts[i].id == p.id then p else gpts[i]
  {
    if |gpts| == 0 then []
    else [if gpts[0].id == p.id then p else gpts[0]] + ReplaceById(gpts[1..], p)
  }

  /** The reducer proper, on a defined state. */
  function Reduce(state: GptState, action: Action): (r: GptState)
    ensures action.CreateGpt? ==>
              |r.gpts| == |state.gpts| + 1
              && r.gpts[..|state.gpts|] == state.gpts
              && r.gpts[|state.gpts|] == action.payload
    ensures action.EditGpt? ==>
              && |r.gpts| == |state.gpts|
              && (forall i | 0 <= i < |r.gpts| && state.gpts[i].id == action.payload.id ::
                    r.gpts[i] == action.payload)
              && (forall i | 0 <= i < |r.gpts| && state.gpts[i].id != action.payload.id ::
                    r.gpts[i] == state.gpts[i])
    ensures action.Unrelated? ==> r == state
  {
    match action
    case CreateGpt(p) => state.(gpts := state.gpts + [p])
    case EditGpt(p) => state.(gpts := ReplaceById(state.gpts, p))
    case Unrelated(_) => state
  }

  /** Redux calls the reducer with `undefined` first; the default parameter
      then supplies the initial state. */
  function Reducer(state: Option<GptState>, action: Action): (r: GptState)
    ensures state.None? ==> r == Reduce(GptState([]), action)
    ensures state.Some? ==> r == Reduce(state.value, action)
  {
    Reduce(state.GetOr(InitialState), action)
  }

  predicate HasId(gpts: seq<Gpt>, id: int) {
    exists i | 0 <= i < |gpts| :: gpts[i].id == id
  }

  /** Editing a GPT that is not in the list changes nothing. */
  lemma EditAbsentIsIdentity(state: GptState, p: Gpt)
    requires !HasId(state.gpts, p.id)
    ensures Reduce(state, EditGpt(p)) == state
  {
    var r := Reduce(state, EditGpt(p));
    assert forall i | 0 <= i < |r.gpts| :: r.gpts[i] == state.gpts[i];
  }

  /** Dispatching the same edit twice is the same as dispatching it once. */
  lemma EditIdempotent(state: GptState, p: Gpt)
    ensures Reduce(Reduce(state, EditGpt(p)), EditGpt(p)) == Reduce(state, EditGpt(p))
  {
    var once := Reduce(state, EditGpt(p));
    var twice := Reduce(once, EditGpt(p));
    assert forall i | 0 <= i < |twice.gpts| :: twice.gpts[i] == once.gpts[i];
  }

  /** An edit never changes which ids the list holds, position by position. */
  lemma EditKeepsIds(state: GptState, p: Gpt)
    ensures var r := Reduce(state, EditGpt(p));
            forall i | 0 <= i < |r.gpts| :: r.gpts[i].id == state.gpts[i].id
  {
  }

  /** Creating a GPT with a fresh id and then editing it is the same as
      creating the edited version directly. */
  lemma CreateThenEdit(state: GptState, g: Gpt, p: Gpt)
    requires !HasId(state.gpts, g.id) && p.id == g.id
    ensures Reduce(Reduce(state, CreateGpt(g)), EditGpt(p)) == Reduce(state, CreateGpt(p))
  {
    var lhs := Reduce(Reduce(state, CreateGpt(g)), EditGpt(p));
    var rhs := Reduce(state, CreateGpt(p));
    assert |lhs.gpts| == |rhs.gpts|;
    forall i | 0 <= i < |lhs.gpts|
      ensures lhs.gpts[i] == rhs.gpts[i]
    {
      if i < |state.gpts| {
        assert state.gpts[i].id != p.id;
      }
    }
  }
}
