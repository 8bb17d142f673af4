/**
 * The edit screen (frontend/src/pages/EditQuiz.jsx): the quiz is loaded into a form, every
 * input edits one field of one question, and Save sends the whole form back.
 */
module EditQuiz {
  import opened Wrappers
  import opened ClientData

  const LoadFailed := "Failed to load quiz."
  const SaveFailed := "Failed to update quiz."

  /** The editable part of the screen's state; it is also the body Save sends. */
  datatype Form = Form(title: string, mc: seq<McQuestion>, tf: seq<TfQuestion>)

  /** The two entries of the true/false select. */
  datatype TfChoice = ChooseTrue | ChooseFalse

  function ChoiceValue(c: TfChoice): string {
    match c
    case ChooseTrue => "True"
    case ChooseFalse => "False"
  }

  /** One change made through an input of the form. */
  datatype Edit =
    | EditTitle(text: string)
    | EditMcQuestion(i: nat, text: string)
    | EditMcOption(i: nat, idx: nat, text: string)
    | EditMcAnswer(i: nat, text: string)
    | EditTfStatement(i: nat, text: string)
    | EditTfAnswer(i: nat, choice: TfChoice)

  /** An input exists for the edit: the question (and option) it names is on the screen. */
  predicate Applicable(f: Form, e: Edit) {
    match e
    case EditTitle(_) => true
    case EditMcQuestion(i, _) => i < |f.mc|
    case EditMcOption(i, idx, _) => i < |f.mc| && idx < |f.mc[i].options|
    case EditMcAnswer(i, _) => i < |f.mc|
    case EditTfStatement(i, _) => i < |f.tf|
    case EditTfAnswer(i, _) => i < |f.tf|
  }

  /** The form after one edit: that one field of that one question takes the new value. */
  function Apply(f: Form, e: Edit): (g: Form)
    requires Applicable(f, e)
    ensures |g.mc| == |f.mc| && |g.tf| == |f.tf|
    ensures e.EditTitle? ==> g == f.(title := e.text)
    ensures !e.EditTitle? ==> g.title == f.title
    ensures e.EditMcQuestion? ==> g.tf == f.tf && g.mc[e.i] == f.mc[e.i].(question := e.text)
    ensures e.EditMcAnswer? ==> g.tf == f.tf && g.mc[e.i] == f.mc[e.i].(answer := e.text)
    ensures e.EditMcOption? ==>
      && g.tf == f.tf
      && g.mc[e.i].question == f.mc[e.i].question && g.mc[e.i].answer == f.mc[e.i].answer
      && |g.mc[e.i].options| == |f.mc[e.i].options|
      && g.mc[e.i].options[e.idx] == e.text
      && (forall k :: 0 <= k < |f.mc[e.i].options| && k != e.idx ==> g.mc[e.i].options[k] == f.mc[e.i].options[k])
    ensures e.EditTfStatement? ==> g.mc == f.mc && g.tf[e.i] == f.tf[e.i].(statement := e.text)
    ensures e.EditTfAnswer? ==> g.mc == f.mc && g.tf[e.i] == f.tf[e.i].(answer := ChoiceValue(e.choice))
    ensures e.EditMcQuestion? || e.EditMcAnswer? || e.EditMcOption? ==>
      forall j :: 0 <= j < |f.mc| && j != e.i ==> g.mc[j] == f.mc[j]
    ensures e.EditTfStatement? || e.EditTfAnswer? ==>
      forall j :: 0 <= j < |f.tf| && j != e.i ==> g.tf[j] == f.tf[j]
  {
    match e
    case EditTitle(t) => f.(title := t)
    case EditMcQuestion(i, t) => f.(mc := f.mc[i := f.mc[i].(question := t)])
    case EditMcOption(i, idx, t) =>
      f.(mc := f.mc[i := f.mc[i].(options := f.mc[i].options[idx := t])])
    case EditMcAnswer(i, t) => f.(mc := f.mc[i := f.mc[i].(answer := t)])
    case EditTfStatement(i, t) => f.(tf := f.tf[i := f.tf[i].(statement := t)])
    case EditTfAnswer(i, c) => f.(tf := f.tf[i := f.tf[i].(answer := ChoiceValue(c))])
  }

  /** The shape of a form: how many questions of each kind and how many options each has. */
  predicate SameShape(f: Form, g: Form) {
    && |f.mc| == |g.mc| && |f.tf| == |g.tf|
    && forall j :: 0 <= j < |f.mc| ==> |f.mc[j].options| == |g.mc[j].options|
  }

  /** Edits never add or remove a question or an option, so an input stays valid after any edit. */
  lemma EditKeepsShape(f: Form, e: Edit, e2: Edit)
    requires Applicable(f, e)
    ensures SameShape(f, Apply(f, e))
    ensures Applicable(f, e2) <==> Applicable(Apply(f, e), e2)
  {
  }

  /** Applies a run of edits, each made through an input that exists at that moment. */
  function ApplyAll(f: Form, es: seq<Edit>): Option<Form>
    decreases |es|
  {
    if es == [] then Some(f)
    else if Applicable(f, es[0]) then ApplyAll(Apply(f, es[0]), es[1..])
    else None
  }

  /** A run of edits made through the inputs of the loaded form all go through and keep its shape. */
  lemma {:induction false} EditsKeepShape(f: Form, es: seq<Edit>)
    requires forall k :: 0 <= k < |es| ==> Applicable(f, es[k])
    ensures ApplyAll(f, es).Some?
    ensures SameShape(f, ApplyAll(f, es).value)
    decreases |es|
  {
    if es != [] {
      var g := Apply(f, es[0]);
      forall k | 0 <= k < |es[1..]|
        ensures Applicable(g, es[1..][k])
      {
        EditKeepsShape(f, es[0], es[k + 1]);
      }
      EditsKeepShape(g, es[1..]);
    }
  }

  /** What an edit writes to: the title, or one entry of one of the two lists. */
  datatype Target = TitleField | McEntry(i: nat) | TfEntry(i: nat)

  function TargetOf(e: Edit): Target {
    match e
    case EditTitle(_) => TitleField
    case EditMcQuestion(i, _) => McEntry(i)
    case EditMcOption(i, _, _) => McEntry(i)
    case EditMcAnswer(i, _) => McEntry(i)
    case EditTfStatement(i, _) => TfEntry(i)
    case EditTfAnswer(i, _) => TfEntry(i)
  }

  /** Two edits that write to different entries give the same form in either order. */
  lemma EditsOfDifferentTargetsCommute(f: Form, a: Edit, b: Edit)
    requires Applicable(f, a) && Applicable(f, b)
    requires TargetOf(a) != TargetOf(b)
    ensures Applicable(Apply(f, a), b) && Applicable(Apply(f, b), a)
    ensures Apply(Apply(f, a), b) == Apply(Apply(f, b), a)
  {
    EditKeepsShape(f, a, b);
    EditKeepsShape(f, b, a);
  }

  /** A later edit of the same field overwrites an earlier one. */
  lemma LastTitleWins(f: Form, s: string, t: string)
    ensures Apply(Apply(f, EditTitle(s)), EditTitle(t)) == Apply(f, EditTitle(t))
  {
  }

  /** The form the load effect puts on screen: missing lists become empty ones. */
  function Loaded(q: Quiz): (f: Form)
    ensures f.title == q.title
    ensures q.mcQuestions.Some? ==> f.mc == q.mcQuestions.value
    ensures q.mcQuestions.None? ==> f.mc == []
    ensures q.tfQuestions.Some? ==> f.tf == q.tfQuestions.value
    ensures q.tfQuestions.None? ==> f.tf == []
  {
    Form(q.title, q.mcQuestions.GetOr([]), q.tfQuestions.GetOr([]))
  }

  class EditQuizView {
    var title: string
    var mcQuestions: seq<McQuestion>
    var tfQuestions: seq<TfQuestion>
    var loading: bool
    var errorMsg: string

    constructor ()
      ensures FormOf() == Form("", [], []) && loading && errorMsg == ""
    {
      title := "";
      mcQuestions := [];
      tfQuestions := [];
      loading := true;
      errorMsg := "";
    }

    function FormOf(): Form
      reads this
    {
      Form(title, mcQuestions, tfQuestions)
    }

    /** The load effect; it runs without looking at the token, and loading ends either way. */
    method FetchQuiz(outcome: Response<Quiz>)
      modifies this
      ensures !loading
      ensures outcome.Success? ==> FormOf() == Loaded(outcome.data) && errorMsg == old(errorMsg)
      ensures outcome.Failure? ==> FormOf() == old(FormOf()) && errorMsg == LoadFailed
    {
      match outcome {
        case Success(q) =>
          title := q.title;
          mcQuestions := q.mcQuestions.GetOr([]);
          tfQuestions := q.tfQuestions.GetOr([]);
        case Failure(_) =>
          errorMsg := LoadFailed;
      }
      loading := false;
    }

    /** One change through an input on screen. */
    method Change(e: Edit)
      requires Applicable(FormOf(), e)
      modifies this
      ensures FormOf() == Apply(old(FormOf()), e)
      ensures loading == old(loading) && errorMsg == old(errorMsg)
    {
      var g := Apply(FormOf(), e);
      title := g.title;
      mcQuestions := g.mc;
      tfQuestions := g.tf;
    }

    /** Save: the request body is the whole form; success goes home, failure raises the alert. */
    method HandleSave(outcome: Response<()>) returns (body: Form, nav: Option<Route>, alert: Option<string>)
      ensures body == FormOf()
      ensures outcome.Success? ==> nav == Some(Home) && alert.None?
      ensures outcome.Failure? ==> nav.None? && alert == Some(SaveFailed)
    {
      body := FormOf();
      if outcome.Success? {
        nav := Some(Home);
        alert := None;
      } else {
        nav := None;
        alert := Some(SaveFailed);
      }
    }
  }

  /** Load a quiz, make edits through its inputs, and save: the body carries the edited form. */
  lemma LoadEditSave(q: Quiz, es: seq<Edit>)
    requires forall k :: 0 <= k < |es| ==> Applicable(Loaded(q), es[k])
    ensures ApplyAll(Loaded(q), es).Some?
    ensures |ApplyAll(Loaded(q), es).value.mc| == |q.mcQuestions.GetOr([])|
    ensures |ApplyAll(Loaded(q), es).value.tf| == |q.tfQuestions.GetOr([])|
  {
    EditsKeepShape(Loaded(q), es);
  }
}
