/**
 * Values the browser client receives and shows: quizzes as the API returns them, the result
 * of one HTTP request, and the two JavaScript truthiness tests the screens use.
 */
module ClientData {
  import opened Wrappers

  datatype McQuestion = McQuestion(question: string, options: seq<string>, answer: string)
  datatype TfQuestion = TfQuestion(statement: string, answer: string)

  /** A quiz; either question list may be missing (null or undefined) in the JSON. */
  datatype Quiz = Quiz(
    id: int,
    title: string,
    createdAt: string,
    mcQuestions: Option<seq<McQuestion>>,
    tfQuestions: Option<seq<TfQuestion>>)

  /** The profile `/me` returns. */
  datatype Profile = Profile(userId: int, username: string, email: string)

  /** How one request ends: its response body, or an error with the server's `detail`, if any. */
  datatype Response<T> = Success(data: T) | Failure(detail: Option<string>)

  /** The client-side routes the screens navigate to. */
  datatype Route = Home | LoginPage | UploadPage | QuizPage(quizId: int) | EditPage(quizId: int)

  /** A JavaScript truthy string-or-null: present and not empty. */
  predicate Truthy(s: Option<string>) {
    s.Some? && s.value != ""
  }

  /** `err.response?.data?.detail || fallback`. */
  function ErrorMessage(detail: Option<string>, fallback: string): (m: string)
    ensures Truthy(detail) ==> m == detail.value
    ensures !Truthy(detail) ==> m == fallback
  {
    if Truthy(detail) then detail.value else fallback
  }
}
