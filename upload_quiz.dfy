/**
 * The upload screen (frontend/src/pages/UploadQuiz.jsx): a file, a title and two counts
 * sent as a multipart form to `/generate-questions`, with a loading flag around the request.
 */
module UploadQuiz {
  import opened Wrappers
  import opened ClientData

  const DefaultCount := 5
  const NoFile := "Please upload a PDF file."
  const GenerateFailed := "Failed to generate quiz."

  /** The file picked in the file input. */
  datatype PickedFile = PickedFile(name: string, contentType: string, size: nat)

  /** The multipart body: `file`, `title`, `num_mcq`, `num_tf`, in that order. */
  datatype UploadForm = UploadForm(file: PickedFile, title: string, numMcq: int, numTf: int)

  class UploadQuizView {
    var file: Option<PickedFile>
    var title: string
    var numMcq: int
    var numTf: int
    var loading: bool
    var errorMsg: string

    constructor ()
      ensures file.None? && title == "" && numMcq == DefaultCount && numTf == DefaultCount
      ensures !loading && errorMsg == ""
    {
      file := None;
      title := "";
      numMcq := DefaultCount;
      numTf := DefaultCount;
      loading := false;
      errorMsg := "";
    }

    /**
     * The synchronous part of a submit: the old error is cleared; without a file the error
     * says so and nothing is sent; otherwise the form is built and loading starts.
     */
    method BeginSubmit() returns (request: Option<UploadForm>)
      modifies this
      ensures file == old(file) && title == old(title) && numMcq == old(numMcq) && numTf == old(numTf)
      ensures old(file).None? ==> request.None? && errorMsg == NoFile && loading == old(loading)
      ensures old(file).Some? ==> request == Some(UploadForm(old(file).value, title, numMcq, numTf))
      ensures old(file).Some? ==> errorMsg == "" && loading
    {
      errorMsg := "";
      if file.None? {
        errorMsg := NoFile;
        request := None;
        return;
      }
      request := Some(UploadForm(file.value, title, numMcq, numTf));
      loading := true;
    }

    /** The end of the request: home on success, the server's detail (or a fallback) on failure; loading ends. */
    method FinishSubmit(outcome: Response<()>) returns (nav: Option<Route>)
      requires loading
      modifies this
      ensures !loading
      ensures file == old(file) && title == old(title) && numMcq == old(numMcq) && numTf == old(numTf)
      ensures outcome.Success? ==> nav == Some(Home) && errorMsg == old(errorMsg)
      ensures outcome.Failure? ==> nav.None? && errorMsg == ErrorMessage(outcome.detail, GenerateFailed)
    {
      if outcome.Success? {
        nav := Some(Home);
      } else {
        nav := None;
        errorMsg := ErrorMessage(outcome.detail, GenerateFailed);
      }
      loading := false;
    }

    /**
     * A whole submit, the request ending with `outcome`: without a file only the error is
     * set; with one the form is sent and, once the request ends, loading is off and the
     * screen shows either nothing (and goes home) or the server's detail or the fallback.
     */
    method HandleSubmit(outcome: Response<()>) returns (request: Option<UploadForm>, nav: Option<Route>)
      modifies this
      ensures file == old(file) && title == old(title) && numMcq == old(numMcq) && numTf == old(numTf)
      ensures old(file).None? ==>
        && request.None? && nav.None? && errorMsg == NoFile && loading == old(loading)
      ensures old(file).Some? ==>
        && request == Some(UploadForm(old(file).value, title, numMcq, numTf))
        && !loading
        && (outcome.Success? ==> nav == Some(Home) && errorMsg == "")
        && (outcome.Failure? ==> nav.None? && errorMsg == ErrorMessage(outcome.detail, GenerateFailed))
    {
      request := BeginSubmit();
      nav := None;
      if request.Some? {
        nav := FinishSubmit(outcome);
      }
    }
  }
}
