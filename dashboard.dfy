/**
 * The dashboard (frontend/src/pages/Dashboard.jsx): the user's quizzes, fetched when a token
 * is present, shown with loading and error states, and removed one by one by Delete.
 */
module Dashboard {
  import opened Wrappers
  import opened ClientData

  const LoadFailed := "Failed to load quizzes."
  const DeleteFailed := "Failed to delete quiz."

  /** `prev.filter((quiz) => quiz.id !== id)` */
  function RemoveById(qs: seq<Quiz>, id: int): (r: seq<Quiz>)
    ensures |r| <= |qs|
    ensures forall q :: q in r <==> q in qs && q.id != id
  {
    if qs == [] then []
    else if qs[0].id != id then [qs[0]] + RemoveById(qs[1..], id)
    else RemoveById(qs[1..], id)
  }

  /** Filtering a concatenation filters each part. */
  lemma {:induction false} RemoveDistributes(a: seq<Quiz>, b: seq<Quiz>, id: int)
    ensures RemoveById(a + b, id) == RemoveById(a, id) + RemoveById(b, id)
  {
    if a == [] {
      assert a + b == b;
    } else {
      assert (a + b)[0] == a[0];
      assert (a + b)[1..] == a[1..] + b;
      RemoveDistributes(a[1..], b, id);
    }
  }

  /** A single quiz is kept exactly when its id differs; with distribution this fixes the order of what is kept. */
  lemma RemoveSingle(q: Quiz, id: int)
    ensures RemoveById([q], id) == if q.id == id then [] else [q]
  {
    assert [q][1..] == [];
  }

  /** Deleting an id no quiz has leaves the list exactly as it was. */
  lemma {:induction false} RemoveAbsent(qs: seq<Quiz>, id: int)
    requires forall q :: q in qs ==> q.id != id
    ensures RemoveById(qs, id) == qs
  {
    if qs != [] {
      assert qs == [qs[0]] + qs[1..];
      RemoveAbsent(qs[1..], id);
    }
  }

  /** Deleting the same quiz twice is the same as deleting it once. */
  lemma RemoveIdempotent(qs: seq<Quiz>, id: int)
    ensures RemoveById(RemoveById(qs, id), id) == RemoveById(qs, id)
  {
    RemoveAbsent(RemoveById(qs, id), id);
  }

  /** Two deletions give the same list in either order. */
  lemma {:induction false} RemoveCommutes(qs: seq<Quiz>, a: int, b: int)
    ensures RemoveById(RemoveById(qs, a), b) == RemoveById(RemoveById(qs, b), a)
  {
    if qs != [] {
      RemoveCommutes(qs[1..], a, b);
    }
  }

  /** What the list area shows. */
  datatype Display = LoadingView | ErrorView(message: string) | EmptyView | ListView(quizzes: seq<Quiz>)

  /** Loading first, then the error, then the empty message, then the cards. */
  function Screen(loading: bool, errorMsg: string, quizzes: seq<Quiz>): (d: Display)
    ensures d.LoadingView? <==> loading
    ensures d.ErrorView? <==> !loading && errorMsg != ""
    ensures d.ErrorView? ==> d.message == errorMsg
    ensures d.EmptyView? <==> !loading && errorMsg == "" && quizzes == []
    ensures d.ListView? ==> d.quizzes == quizzes && |quizzes| > 0
  {
    if loading then LoadingView
    else if errorMsg != "" then ErrorView(errorMsg)
    else if |quizzes| == 0 then EmptyView
    else ListView(quizzes)
  }

  /** `Welcome, {user?.username || "User"}` */
  function Greeting(user: Option<Profile>): (g: string)
    ensures user.Some? && user.value.username != "" ==> g == "Welcome, " + user.value.username
    ensures user.None? || user.value.username == "" ==> g == "Welcome, User"
  {
    "Welcome, " + (if user.Some? && user.value.username != "" then user.value.username else "User")
  }

  class DashboardView {
    var quizzes: seq<Quiz>
    var loading: bool
    var errorMsg: string

    constructor ()
      ensures quizzes == [] && loading && errorMsg == ""
    {
      quizzes := [];
      loading := true;
      errorMsg := "";
    }

    /**
     * The fetch effect. Without a truthy token nothing is requested and the screen stays
     * on "Loading quizzes..."; otherwise loading ends either way.
     */
    method FetchQuizzes(token: Option<string>, outcome: Response<seq<Quiz>>) returns (requested: bool)
      modifies this
      ensures requested == Truthy(token)
      ensures !requested ==> quizzes == old(quizzes) && loading == old(loading) && errorMsg == old(errorMsg)
      ensures requested ==> !loading
      ensures requested && outcome.Success? ==> quizzes == outcome.data && errorMsg == old(errorMsg)
      ensures requested && outcome.Failure? ==> quizzes == old(quizzes) && errorMsg == LoadFailed
    {
      requested := Truthy(token);
      if requested {
        match outcome {
          case Success(qs) => quizzes := qs;
          case Failure(_) => errorMsg := LoadFailed;
        }
        loading := false;
      }
    }

    /**
     * Delete: nothing happens unless the user confirms; a successful request drops every
     * quiz with that id, a failed one raises the alert and keeps the list.
     */
    method HandleDelete(id: int, confirmed: bool, outcome: Response<()>) returns (requested: bool, alert: Option<string>)
      modifies this
      ensures requested == confirmed
      ensures loading == old(loading) && errorMsg == old(errorMsg)
      ensures !confirmed ==> quizzes == old(quizzes) && alert.None?
      ensures confirmed && outcome.Success? ==> quizzes == RemoveById(old(quizzes), id) && alert.None?
      ensures confirmed && outcome.Failure? ==> quizzes == old(quizzes) && alert == Some(DeleteFailed)
    {
      requested := confirmed;
      alert := None;
      if confirmed {
        if outcome.Success? {
          quizzes := RemoveById(quizzes, id);
        } else {
          alert := Some(DeleteFailed);
        }
      }
    }
  }
}
