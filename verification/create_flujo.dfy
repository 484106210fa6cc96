/** The flow builder screen: an append-only list of agent steps, each with
    an order number and back-references to earlier steps, assembled through
    a small form and submitted as `{nombre, agentes}`. */
module CreateFlujo {
  import opened Wrappers
  import opened Net
  import Selection

  /** The form's `gpt_id`: `''` until a GPT is picked from the menu, then
      that GPT's numeric id. */
  datatype GptRef = Unset | Picked(id: int)

  /** JavaScript truthiness of `gpt_id`: both `''` and the number `0` are falsy. */
  predicate Chosen(g: GptRef) {
    g.Picked? && g.id != 0
  }

  /** The prompt-type values the client gives a meaning to; the menu may
      offer others, which behave like a direct prompt. */
  const RespuestaAnterior := "respuesta_anterior"
  const Combinado := "combinado"
  const PromptDirecto := "prompt_directo"

  /** The `nuevoGpt` form. Its `referencias_respuestas` field is always `[]`
      in the form and is overwritten when a step is built, so it is not kept. */
  datatype Form = Form(gptId: GptRef, promptEntrada: string, tipoPrompt: string)

  const EmptyForm := Form(Unset, "", "")

  /** One appended step: the form's fields plus `orden` and `referencias_respuestas`. */
  datatype Step = Step(gptId: GptRef, promptEntrada: string, tipoPrompt: string,
                       orden: int, referencias: seq<int>)

  /** The screen's state: flow name, steps so far, the form, and the orders
      picked for a combined prompt. */
  datatype Builder = Builder(nombre: string, agentes: seq<Step>, form: Form, selected: seq<int>)

  const Initial := Builder("", [], EmptyForm, [])

  /** Why `agregarAgente` alerts and returns without changing anything. */
  datatype AddError = MissingField | NoPriorStep | EmptySelection

  /** `agregarAgente`: validate the form, number the new step
      `|agentes| + 1`, resolve its references by prompt type, append it and
      reset the form and the selection. */
  function AgregarAgente(b: Builder): (r: Result<Builder, AddError>)
    ensures r == Failure(MissingField) <==> !Chosen(b.form.gptId) || b.form.tipoPrompt == ""
    ensures r == Failure(NoPriorStep) <==>
              Chosen(b.form.gptId) && b.form.tipoPrompt == RespuestaAnterior && |b.agentes| == 0
    ensures r == Failure(EmptySelection) <==>
              Chosen(b.form.gptId) && b.form.tipoPrompt == Combinado && |b.selected| == 0
    ensures r.Success? ==>
              var n := |b.agentes|;
              var a := r.value.agentes;
              && |a| == n + 1
              && a[..n] == b.agentes
              && a[n].orden == n + 1
              && a[n].gptId == b.form.gptId
              && a[n].promptEntrada == b.form.promptEntrada
              && a[n].tipoPrompt == b.form.tipoPrompt
              && r.value.form == EmptyForm
              && r.value.selected == []
              && r.value.nombre == b.nombre
    ensures r.Success? && b.form.tipoPrompt == RespuestaAnterior ==>
              r.value.agentes[|b.agentes|].referencias == [b.agentes[|b.agentes| - 1].orden]
    ensures r.Success? && b.form.tipoPrompt == Combinado ==>
              r.value.agentes[|b.agentes|].referencias == b.selected
    ensures r.Success? && b.form.tipoPrompt != RespuestaAnterior && b.form.tipoPrompt != Combinado ==>
              r.value.agentes[|b.agentes|].referencias == []
  {
    var f := b.form;
    if !Chosen(f.gptId) || f.tipoPrompt == "" then Failure(MissingField)
    else
      var nuevoOrden := |b.agentes| + 1;
      if f.tipoPrompt == RespuestaAnterior && |b.agentes| == 0 then Failure(NoPriorStep)
      else
        var referencias := if f.tipoPrompt == RespuestaAnterior then [b.agentes[|b.agentes| - 1].orden] else [];
        if f.tipoPrompt == Combinado && |b.selected| == 0 then Failure(EmptySelection)
        else
          var step := Step(f.gptId, f.promptEntrada, f.tipoPrompt, nuevoOrden,
                           if f.tipoPrompt == Combinado then b.selected else referencias);
          assert (b.agentes + [step])[..|b.agentes|] == b.agentes;
          Success(Builder(b.nombre, b.agentes + [step], EmptyForm, []))
  }

  /** The `{nombre, agentes}` body posted to create the flow. */
  datatype FlowPayload = FlowPayload(nombre: string, agentes: seq<Step>)

  /** What `crearFlujo` does: the request it sends, and whether the screen
      closes afterwards. The builder itself is never changed. */
  datatype Submission = Submission(request: Request<FlowPayload>, closes: bool)

  /** `crearFlujo`: nothing is sent unless the flow has a name and at least
      one step; on a successful post the screen goes back. */
  function CrearFlujo(b: Builder, reply: Reply<()>): (r: Submission)
    ensures r.request.NoRequest? <==> b.nombre == "" || |b.agentes| == 0
    ensures r.request.Send? ==> r.request.payload.nombre == b.nombre
                                && r.request.payload.agentes == b.agentes
    ensures r.closes <==> r.request.Send? && reply.Ok?
  {
    if b.nombre == "" || |b.agentes| == 0 then Submission(NoRequest, false)
    else Submission(Send(FlowPayload(b.nombre, b.agentes)), reply.Ok?)
  }

  // ---------------------------------------------------------------------------
  // The screen as an event-driven state machine
  // ---------------------------------------------------------------------------

  /** The user's actions on the screen. `ToggleAgent(i)` is a press on the
      menu item of the i-th existing step in the combined-prompt picker. */
  datatype Event =
    | TypeName(text: string)
    | PickGpt(id: int)
    | PickTipo(value: string)
    | TypePrompt(text: string)
    | ToggleAgent(index: nat)
    | AddAgent

  /** The effect of one event. The prompt field is rendered only for a
      direct prompt and the step picker only for a combined prompt (and
      lists only existing steps); events on controls that are not shown
      cannot happen and leave the state alone. A rejected add leaves the
      state alone too. */
  function Apply(b: Builder, e: Event): (r: Builder)
    ensures e.TypeName? ==> r == b.(nombre := e.text)
    ensures e.PickGpt? ==> r == b.(form := b.form.(gptId := Picked(e.id)))
    ensures e.PickTipo? ==> r == b.(form := b.form.(tipoPrompt := e.value))
    ensures e.TypePrompt? && b.form.tipoPrompt != PromptDirecto ==> r == b
    ensures e.TypePrompt? && b.form.tipoPrompt == PromptDirecto ==>
              r == b.(form := b.form.(promptEntrada := e.text))
    ensures e.ToggleAgent? && (b.form.tipoPrompt != Combinado || e.index >= |b.agentes|) ==> r == b
    ensures e.ToggleAgent? && b.form.tipoPrompt == Combinado && e.index < |b.agentes| ==>
              && r.selected == Selection.Toggle(b.selected, b.agentes[e.index].orden)
              && r.agentes == b.agentes && r.form == b.form && r.nombre == b.nombre
    ensures e.AddAgent? && AgregarAgente(b).Failure? ==> r == b
    ensures e.AddAgent? && AgregarAgente(b).Success? ==> r == AgregarAgente(b).value
    ensures !e.AddAgent? ==> r.agentes == b.agentes
  {
    match e
    case TypeName(text) => b.(nombre := text)
    case PickGpt(id) => b.(form := b.form.(gptId := Picked(id)))
    case PickTipo(value) => b.(form := b.form.(tipoPrompt := value))
    case TypePrompt(text) =>
      if b.form.tipoPrompt == PromptDirecto then b.(form := b.form.(promptEntrada := text)) else b
    case ToggleAgent(i) =>
      if b.form.tipoPrompt == Combinado && i < |b.agentes| then
        b.(selected := Selection.Toggle(b.selected, b.agentes[i].orden))
      else b
    case AddAgent =>
      match AgregarAgente(b)
      case Success(next) => next
      case Failure(_) => b
  }

  /** The builder after the user's events, in order. Each event adds at
      most one step. */
  function Run(b: Builder, es: seq<Event>): (r: Builder)
    ensures |b.agentes| <= |r.agentes| <= |b.agentes| + |es|
    decreases |es|
  {
    if |es| == 0 then b else Run(Apply(b, es[0]), es[1..])
  }

  /** Orders run 1..n, every reference points strictly backwards to an
      existing step, and the picked orders are distinct existing orders. */
  ghost predicate WellFormed(b: Builder) {
    && (forall i | 0 <= i < |b.agentes| :: b.agentes[i].orden == i + 1)
    && (forall i, k | 0 <= i < |b.agentes| && 0 <= k < |b.agentes[i].referencias| ::
          1 <= b.agentes[i].referencias[k] < b.agentes[i].orden)
    && (forall k | 0 <= k < |b.selected| :: 1 <= b.selected[k] <= |b.agentes|)
    && Selection.NoDuplicates(b.selected)
  }

  lemma InitialWellFormed()
    ensures WellFormed(Initial)
  {
  }

  /** A successful add keeps the builder well formed: the new step's
      references are earlier orders. */
  lemma AddPreservesWellFormed(b: Builder)
    requires WellFormed(b)
    requires AgregarAgente(b).Success?
    ensures WellFormed(AgregarAgente(b).value)
    ensures forall k | 0 <= k < |AgregarAgente(b).value.agentes[|b.agentes|].referencias| ::
              AgregarAgente(b).value.agentes[|b.agentes|].referencias[k] <= |b.agentes|
  {
    var next := AgregarAgente(b).value;
    var n := |b.agentes|;
    forall i | 0 <= i < n
      ensures next.agentes[i] == b.agentes[i]
    {
      assert next.agentes[..n][i] == b.agentes[i];
    }
  }

  /** A toggle in the step picker keeps the selection to distinct existing orders. */
  lemma TogglePreservesWellFormed(b: Builder, i: nat)
    requires WellFormed(b)
    ensures WellFormed(Apply(b, ToggleAgent(i)))
  {
    if b.form.tipoPrompt == Combinado && i < |b.agentes| {
      var x := b.agentes[i].orden;
      var r := Selection.Toggle(b.selected, x);
      forall k | 0 <= k < |r|
        ensures 1 <= r[k] <= |b.agentes|
      {
        if r[k] != x {
          assert r[k] in b.selected;
        }
      }
    }
  }

  lemma ApplyPreservesWellFormed(b: Builder, e: Event)
    requires WellFormed(b)
    ensures WellFormed(Apply(b, e))
  {
    match e
    case ToggleAgent(i) => TogglePreservesWellFormed(b, i);
    case AddAgent =>
      if AgregarAgente(b).Success? {
        AddPreservesWellFormed(b);
      }
    case _ =>
  }

  /** Whatever the user does, the builder stays well formed. */
  lemma {:induction false} RunPreservesWellFormed(b: Builder, es: seq<Event>)
    requires WellFormed(b)
    ensures WellFormed(Run(b, es))
    decreases |es|
  {
    if |es| > 0 {
      ApplyPreservesWellFormed(b, es[0]);
      RunPreservesWellFormed(Apply(b, es[0]), es[1..]);
    }
  }

  /** Steps are never changed or removed once appended. */
  lemma {:induction false} RunIsAppendOnly(b: Builder, es: seq<Event>)
    ensures |b.agentes| <= |Run(b, es).agentes|
    ensures Run(b, es).agentes[..|b.agentes|] == b.agentes
    decreases |es|
  {
    if |es| > 0 {
      var next := Apply(b, es[0]);
      assert |b.agentes| <= |next.agentes| && next.agentes[..|b.agentes|] == b.agentes;
      RunIsAppendOnly(next, es[1..]);
      var final := Run(next, es[1..]);
      assert final.agentes[..|b.agentes|] == final.agentes[..|next.agentes|][..|b.agentes|];
    }
  }

  /** From a fresh screen, the n steps built so far carry orders exactly 1..n
      and reference only earlier steps. */
  lemma OrdersFromFreshScreen(es: seq<Event>)
    ensures var b := Run(Initial, es);
            && (forall i | 0 <= i < |b.agentes| :: b.agentes[i].orden == i + 1)
            && (forall i, k | 0 <= i < |b.agentes| && 0 <= k < |b.agentes[i].referencias| ::
                  1 <= b.agentes[i].referencias[k] <= i)
  {
    InitialWellFormed();
    RunPreservesWellFormed(Initial, es);
  }

  /** Whatever the user did, a flow that is posted has at least one step,
      its steps are numbered 1..n in order, and every reference points to
      an earlier step of the same flow. */
  lemma PostedFlowIsWellFormed(es: seq<Event>, reply: Reply<()>)
    requires CrearFlujo(Run(Initial, es), reply).request.Send?
    ensures var p := CrearFlujo(Run(Initial, es), reply).request.payload;
            && p.nombre != ""
            && |p.agentes| > 0
            && (forall i | 0 <= i < |p.agentes| :: p.agentes[i].orden == i + 1)
            && (forall i, k | 0 <= i < |p.agentes| && 0 <= k < |p.agentes[i].referencias| ::
                  1 <= p.agentes[i].referencias[k] < p.agentes[i].orden)
  {
    OrdersFromFreshScreen(es);
  }

  /** Running two event lists one after the other is running their concatenation. */
  lemma {:induction false} RunConcat(b: Builder, es: seq<Event>, fs: seq<Event>)
    ensures Run(b, es + fs) == Run(Run(b, es), fs)
    decreases |es|
  {
    if |es| == 0 {
      assert es + fs == fs;
    } else {
      assert (es + fs)[0] == es[0] && (es + fs)[1..] == es[1..] + fs;
      RunConcat(Apply(b, es[0]), es[1..], fs);
    }
  }

  lemma RunOne(b: Builder, e: Event)
    ensures Run(b, [e]) == Apply(b, e)
  {
    assert [e][1..] == [];
  }

  /** Picking a GPT and a type and typing a prompt fill the form. */
  lemma FillForm(b: Builder, id: int, tipo: string, text: string)
    requires tipo == PromptDirecto
    ensures Run(b, [PickGpt(id), PickTipo(tipo), TypePrompt(text)])
            == b.(form := Form(Picked(id), text, tipo))
  {
    var es := [PickGpt(id), PickTipo(tipo), TypePrompt(text)];
    assert es[1..] == [PickTipo(tipo), TypePrompt(text)];
    assert es[1..][1..] == [TypePrompt(text)];
    RunOne(Apply(Apply(b, PickGpt(id)), PickTipo(tipo)), TypePrompt(text));
  }

  lemma PickBoth(b: Builder, id: int, tipo: string)
    ensures Run(b, [PickGpt(id), PickTipo(tipo)]) == b.(form := b.form.(gptId := Picked(id), tipoPrompt := tipo))
  {
    var es := [PickGpt(id), PickTipo(tipo)];
    assert es[1..] == [PickTipo(tipo)];
    RunOne(Apply(b, PickGpt(id)), PickTipo(tipo));
  }

  /** The first step of the scenario: a direct prompt "Hello" gets order 1 and no references. */
  lemma FirstStepOfScenario(alpha: int)
    requires alpha != 0
    ensures Run(Initial, [PickGpt(alpha), PickTipo(PromptDirecto), TypePrompt("Hello"), AddAgent])
            == Builder("", [Step(Picked(alpha), "Hello", PromptDirecto, 1, [])], EmptyForm, [])
  {
    var fill := [PickGpt(alpha), PickTipo(PromptDirecto), TypePrompt("Hello")];
    assert [PickGpt(alpha), PickTipo(PromptDirecto), TypePrompt("Hello"), AddAgent] == fill + [AddAgent];
    RunConcat(Initial, fill, [AddAgent]);
    FillForm(Initial, alpha, PromptDirecto, "Hello");
    RunOne(Run(Initial, fill), AddAgent);
  }

  /** The second step of the scenario: a step on the previous answer gets
      order 2 and references step 1. */
  lemma SecondStepOfScenario(b: Builder, beta: int)
    requires beta != 0 && |b.agentes| == 1 && b.agentes[0].orden == 1 && b.form == EmptyForm
    ensures Run(b, [PickGpt(beta), PickTipo(RespuestaAnterior), AddAgent]).agentes
            == b.agentes + [Step(Picked(beta), "", RespuestaAnterior, 2, [1])]
  {
    var pick := [PickGpt(beta), PickTipo(RespuestaAnterior)];
    assert [PickGpt(beta), PickTipo(RespuestaAnterior), AddAgent] == pick + [AddAgent];
    RunConcat(b, pick, [AddAgent]);
    PickBoth(b, beta, RespuestaAnterior);
    RunOne(Run(b, pick), AddAgent);
  }

  /** A direct step "Hello", then a step on the previous answer, submitted
      as "MyFlow": orders 1 and 2, references [] and [1]. */
  lemma TwoStepScenario(alpha: int, beta: int)
    requires alpha != 0 && beta != 0
    ensures var b := Run(Initial, [PickGpt(alpha), PickTipo(PromptDirecto), TypePrompt("Hello"), AddAgent,
                                   PickGpt(beta), PickTipo(RespuestaAnterior), AddAgent,
                                   TypeName("MyFlow")]);
            CrearFlujo(b, Ok(())).request
            == Send(FlowPayload("MyFlow",
                                [Step(Picked(alpha), "Hello", PromptDirecto, 1, []),
                                 Step(Picked(beta), "", RespuestaAnterior, 2, [1])]))
  {
    var first := [PickGpt(alpha), PickTipo(PromptDirecto), TypePrompt("Hello"), AddAgent];
    var second := [PickGpt(beta), PickTipo(RespuestaAnterior), AddAgent];
    var es := first + second + [TypeName("MyFlow")];
    assert es == [PickGpt(alpha), PickTipo(PromptDirecto), TypePrompt("Hello"), AddAgent,
                  PickGpt(beta), PickTipo(RespuestaAnterior), AddAgent, TypeName("MyFlow")];
    RunConcat(Initial, first + second, [TypeName("MyFlow")]);
    RunConcat(Initial, first, second);
    FirstStepOfScenario(alpha);
    var b2 := Run(Initial, first);
    SecondStepOfScenario(b2, beta);
    var b4 := Run(b2, second);
    RunOne(b4, TypeName("MyFlow"));
    var b5 := Run(Initial, es);
    assert b5 == b4.(nombre := "MyFlow");
    assert b5.agentes == [Step(Picked(alpha), "Hello", PromptDirecto, 1, []),
                          Step(Picked(beta), "", RespuestaAnterior, 2, [1])];
  }

  /** A combined step over steps 1 and 2 after three steps references exactly [1, 2]. */
  lemma CombinedScenario(b: Builder)
    requires WellFormed(b) && |b.agentes| == 3
    requires Chosen(b.form.gptId) && b.form.tipoPrompt == Combinado && b.selected == []
    ensures var c := Apply(Apply(Apply(b, ToggleAgent(0)), ToggleAgent(1)), AddAgent);
            c.agentes[3].referencias == [1, 2] && c.agentes[3].orden == 4
  {
    assert b.agentes[0].orden == 1 && b.agentes[1].orden == 2;
    var b1 := Apply(b, ToggleAgent(0));
    assert 1 !in b.selected;
    assert b1.selected == [1];
    var b2 := Apply(b1, ToggleAgent(1));
    assert 2 !in b1.selected;
    assert b2.selected == [1, 2];
  }
}
