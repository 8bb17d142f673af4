/**
 * The flashcard screen (frontend/src/pages/QuizDetail.jsx): a quiz fetched when a token is
 * present, the concatenated list of its questions, an index moved by Next and Back, and a
 * flip flag toggled by a click on the card.
 */
module QuizDetail {
  import opened Wrappers
  import opened ClientData

  /** One card of the concatenated list. */
  datatype Card = McCard(mc: McQuestion) | TfCard(tf: TfQuestion)

  const LoadFailed := "Failed to load quiz."

  /** `allQuestions`: the multiple-choice questions, then the true/false ones; none while there is no quiz. */
  function AllQuestions(quiz: Option<Quiz>): (cards: seq<Card>)
    ensures quiz.None? ==> cards == []
    ensures quiz.Some? ==>
      var mcs := quiz.value.mcQuestions.GetOr([]);
      var tfs := quiz.value.tfQuestions.GetOr([]);
      && |cards| == |mcs| + |tfs|
      && (forall i :: 0 <= i < |mcs| ==> cards[i] == McCard(mcs[i]))
      && (forall i :: 0 <= i < |tfs| ==> cards[|mcs| + i] == TfCard(tfs[i]))
  {
    match quiz
    case None => []
    case Some(q) =>
      var mcs := q.mcQuestions.GetOr([]);
      var tfs := q.tfQuestions.GetOr([]);
      seq(|mcs|, i requires 0 <= i < |mcs| => McCard(mcs[i]))
        + seq(|tfs|, i requires 0 <= i < |tfs| => TfCard(tfs[i]))
  }

  /** `Math.min(prev + 1, allQuestions.length - 1)` */
  function NextIndex(i: int, len: nat): int {
    if i + 1 < len - 1 then i + 1 else len - 1
  }

  /** `Math.max(prev - 1, 0)` */
  function BackIndex(i: int): int {
    if i - 1 > 0 then i - 1 else 0
  }

  /** `isMCQ`: there is a card at the index and it has options. */
  predicate IsMcq(cards: seq<Card>, i: int)
    ensures IsMcq(cards, i) ==> 0 <= i < |cards|
  {
    0 <= i < |cards| && cards[i].McCard?
  }

  predicate BackDisabled(i: int) {
    i == 0
  }

  predicate NextDisabled(i: int, len: nat) {
    i == len - 1
  }

  datatype Move = Next | Back | Flip

  /** The index and flip flag after a run of button presses and card clicks. */
  function Navigate(i: int, flipped: bool, len: nat, moves: seq<Move>): (int, bool)
    decreases |moves|
  {
    if moves == [] then (i, flipped)
    else
      match moves[0]
      case Next => Navigate(NextIndex(i, len), false, len, moves[1..])
      case Back => Navigate(BackIndex(i), false, len, moves[1..])
      case Flip => Navigate(i, !flipped, len, moves[1..])
  }

  /** From an index in range, any run of moves keeps the index in range. */
  lemma {:induction false} NavigationStaysInRange(i: int, flipped: bool, len: nat, moves: seq<Move>)
    requires len >= 1 && 0 <= i <= len - 1
    ensures 0 <= Navigate(i, flipped, len, moves).0 <= len - 1
    decreases |moves|
  {
    if moves != [] {
      match moves[0]
      case Next => NavigationStaysInRange(NextIndex(i, len), false, len, moves[1..]);
      case Back => NavigationStaysInRange(BackIndex(i), false, len, moves[1..]);
      case Flip => NavigationStaysInRange(i, !flipped, len, moves[1..]);
    }
  }

  /** A run of moves that ends with Next or Back always shows the card unflipped. */
  lemma {:induction false} MoveUnflips(i: int, flipped: bool, len: nat, moves: seq<Move>)
    requires |moves| >= 1 && moves[|moves| - 1] != Flip
    ensures !Navigate(i, flipped, len, moves).1
    decreases |moves|
  {
    if |moves| > 1 {
      var rest := moves[1..];
      assert rest[|rest| - 1] == moves[|moves| - 1];
      match moves[0]
      case Next => MoveUnflips(NextIndex(i, len), false, len, rest);
      case Back => MoveUnflips(BackIndex(i), false, len, rest);
      case Flip => MoveUnflips(i, !flipped, len, rest);
    }
  }

  function Repeat(m: Move, k: nat): (ms: seq<Move>)
    ensures |ms| == k && forall j :: 0 <= j < k ==> ms[j] == m
  {
    seq(k, _ => m)
  }

  /** Pressing Next often enough reaches the last card and stays there. */
  lemma {:induction false} NextSaturates(i: int, flipped: bool, len: nat, k: nat)
    requires len >= 1 && 0 <= i <= len - 1 && k >= len - 1 - i
    ensures Navigate(i, flipped, len, Repeat(Next, k)).0 == len - 1
    decreases k
  {
    if k > 0 {
      assert Repeat(Next, k)[1..] == Repeat(Next, k - 1);
      NextSaturates(NextIndex(i, len), false, len, k - 1);
    }
  }

  /** Pressing Back often enough reaches the first card and stays there. */
  lemma {:induction false} BackSaturates(i: int, flipped: bool, len: nat, k: nat)
    requires 0 <= i && k >= i
    ensures Navigate(i, flipped, len, Repeat(Back, k)).0 == 0
    decreases k
  {
    if k > 0 {
      assert Repeat(Back, k)[1..] == Repeat(Back, k - 1);
      BackSaturates(BackIndex(i), false, len, k - 1);
    }
  }

  /** Without cards, Next takes the index to -1. */
  lemma NextWithoutCards(i: int)
    requires i >= -2
    ensures NextIndex(i, 0) == -1
  {
  }

  /** At either end the button that would leave the range is disabled, and pressing it anyway changes nothing. */
  lemma EndsAreDisabled(len: nat)
    requires len >= 1
    ensures BackDisabled(0) && BackIndex(0) == 0
    ensures NextDisabled(len - 1, len) && NextIndex(len - 1, len) == len - 1
  {
  }

  /** The current card counts as multiple-choice exactly when it came from `mc_questions`. */
  lemma McqExactlyForFirstPart(quiz: Quiz, i: int)
    ensures IsMcq(AllQuestions(Some(quiz)), i) <==> 0 <= i < |quiz.mcQuestions.GetOr([])|
  {
    var mcs := quiz.mcQuestions.GetOr([]);
    var cards := AllQuestions(Some(quiz));
    if |mcs| <= i < |cards| {
      assert cards[|mcs| + (i - |mcs|)].TfCard?;
    }
  }

  class QuizDetailView {
    var quiz: Option<Quiz>
    var errorMsg: string
    var currentIndex: int
    var flipped: bool

    constructor ()
      ensures quiz.None? && errorMsg == "" && currentIndex == 0 && !flipped
    {
      quiz := None;
      errorMsg := "";
      currentIndex := 0;
      flipped := false;
    }

    function Cards(): seq<Card>
      reads this
    {
      AllQuestions(quiz)
    }

    /** The fetch effect: only with a truthy token; a failure leaves `quiz` as it was. */
    method FetchQuiz(token: Option<string>, outcome: Response<Quiz>) returns (requested: bool)
      modifies this
      ensures requested == Truthy(token)
      ensures currentIndex == old(currentIndex) && flipped == old(flipped)
      ensures !requested ==> quiz == old(quiz) && errorMsg == old(errorMsg)
      ensures requested && outcome.Success? ==> quiz == Some(outcome.data) && errorMsg == old(errorMsg)
      ensures requested && outcome.Failure? ==> quiz == old(quiz) && errorMsg == LoadFailed
    {
      requested := Truthy(token);
      if requested {
        match outcome {
          case Success(q) => quiz := Some(q);
          case Failure(_) => errorMsg := LoadFailed;
        }
      }
    }

    method HandleNext()
      modifies this
      ensures currentIndex == NextIndex(old(currentIndex), |Cards()|) && !flipped
      ensures quiz == old(quiz) && errorMsg == old(errorMsg)
    {
      flipped := false;
      currentIndex := NextIndex(currentIndex, |Cards()|);
    }

    method HandleBack()
      modifies this
      ensures currentIndex == BackIndex(old(currentIndex)) && !flipped
      ensures quiz == old(quiz) && errorMsg == old(errorMsg)
    {
      flipped := false;
      currentIndex := BackIndex(currentIndex);
    }

    /** A click on the card turns it over and keeps the index. */
    method ToggleFlip()
      modifies this
      ensures flipped == !old(flipped)
      ensures currentIndex == old(currentIndex) && quiz == old(quiz) && errorMsg == old(errorMsg)
    {
      flipped := !flipped;
    }
  }
}
