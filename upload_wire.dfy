/**
 * How an upload from the upload screen (frontend/src/pages/UploadQuiz.jsx) reaches the
 * handler of backend/routes/quiz_routes.py. The screen puts `num_mcq` and `num_tf` in the
 * multipart body, while the handler declares them as query parameters that default to 0.
 */
module UploadWire {
  import opened Wrappers
  import opened UploadRules
  import opened UploadQuiz

  /** The query string of a request: each count may be absent. */
  datatype QueryString = QueryString(numMcq: Option<int>, numTf: Option<int>)

  /** The query string the screen sends: the counts travel in the body, so there are none. */
  function QuerySentAsWritten(form: UploadForm): QueryString {
    QueryString(None, None)
  }

  /** `Query(0, ...)`: an absent parameter takes its default of 0. */
  function ReadCount(q: Option<int>): int {
    q.GetOr(0)
  }

  /** The file as the handler sees it. */
  function UploadOf(f: PickedFile): Upload {
    Upload(f.contentType, f.size)
  }

  /** What the handler's checks answer for the uploaded file with the counts read from `q`. */
  function Checked(form: UploadForm, q: QueryString): Option<ApiError> {
    Validate(UploadOf(form.file), ReadCount(q.numMcq), ReadCount(q.numTf))
  }

  /**
   * As written, any upload from the screen with a PDF under the size limit is refused with
   * "You must request at least one question.", whatever counts the user entered.
   */
  lemma AsWrittenEveryUploadRefused(form: UploadForm)
    requires form.file.contentType == "application/pdf" && form.file.size <= MaxPdfSize
    ensures Checked(form, QuerySentAsWritten(form)) == Some(NoQuestions)
    ensures form.numMcq == DefaultCount && form.numTf == DefaultCount ==>
      Validate(UploadOf(form.file), form.numMcq, form.numTf) == None
  {
  }

  /** The intended request: the counts the user entered reach the handler. */
  function QueryIntended(form: UploadForm): (q: QueryString)
    ensures ReadCount(q.numMcq) == form.numMcq && ReadCount(q.numTf) == form.numTf
  {
    QueryString(Some(form.numMcq), Some(form.numTf))
  }

  /** With the intended request the handler checks the user's counts; the screen's defaults pass. */
  lemma IntendedCountsChecked(form: UploadForm)
    ensures Checked(form, QueryIntended(form)) == Validate(UploadOf(form.file), form.numMcq, form.numTf)
    ensures (form.file.contentType == "application/pdf" && form.file.size <= MaxPdfSize
             && form.numMcq == DefaultCount && form.numTf == DefaultCount) ==>
      Checked(form, QueryIntended(form)) == None
  {
  }
}
