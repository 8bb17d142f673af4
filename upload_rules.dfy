/**
 * The request checks at the start of `generate_questions`, identical in both copies of
 * quiz_routes.py, including the query bounds FastAPI enforces before the handler runs.
 */
module UploadRules {
  import opened Wrappers

  const MaxPdfSize := 10 * 1024 * 1024
  const MaxTotalQuestions := 20
  /** The `le=20` bound on each of the two query parameters. */
  const MaxPerKind := 20

  /** An error response: an HTTPException, or FastAPI's 422 for a query outside its bounds. */
  datatype ApiError =
    | HttpError(status: nat, detail: string)
    | QueryOutOfRange

  /** What the handler needs of the uploaded file: its declared content type and its byte count. */
  datatype Upload = Upload(contentType: string, size: nat)

  /** What PyMuPDF makes of the bytes: the text of every page in order, or the reason it failed. */
  datatype PdfText = Extracted(text: string) | Unreadable(reason: string)

  const NotPdf := HttpError(400, "File must be a PDF.")
  const TooLarge := HttpError(400, "PDF is too large. Maximum allowed size is 10MB.")
  const NoQuestions := HttpError(400, "You must request at least one question.")
  const TooManyQuestions := HttpError(400, "Total number of questions must not exceed 20.")

  /** The first check that fails, in the order the handler makes them, or None when all pass. */
  function Validate(upload: Upload, numMcq: int, numTf: int): (r: Option<ApiError>)
    ensures r == None <==>
      && 0 <= numMcq <= MaxPerKind && 0 <= numTf <= MaxPerKind
      && upload.contentType == "application/pdf"
      && upload.size <= MaxPdfSize
      && 1 <= numMcq + numTf <= MaxTotalQuestions
    ensures !(0 <= numMcq <= MaxPerKind && 0 <= numTf <= MaxPerKind) ==> r == Some(QueryOutOfRange)
    ensures r.Some? && r.value.HttpError? ==> r.value.status == 400
  {
    if !(0 <= numMcq <= MaxPerKind && 0 <= numTf <= MaxPerKind) then Some(QueryOutOfRange)
    else if upload.contentType != "application/pdf" then Some(NotPdf)
    else if upload.size > MaxPdfSize then Some(TooLarge)
    else if numMcq + numTf == 0 then Some(NoQuestions)
    else if numMcq + numTf > MaxTotalQuestions then Some(TooManyQuestions)
    else None
  }

  /**
   * The order of the checks: each error is reported only when every earlier check passed,
   * whatever the later ones would say.
   */
  lemma ValidationOrder(upload: Upload, numMcq: int, numTf: int)
    requires 0 <= numMcq <= MaxPerKind && 0 <= numTf <= MaxPerKind
    ensures upload.contentType != "application/pdf" ==> Validate(upload, numMcq, numTf) == Some(NotPdf)
    ensures upload.contentType == "application/pdf" && upload.size > MaxPdfSize ==>
      Validate(upload, numMcq, numTf) == Some(TooLarge)
    ensures upload.contentType == "application/pdf" && upload.size <= MaxPdfSize && numMcq + numTf == 0 ==>
      Validate(upload, numMcq, numTf) == Some(NoQuestions)
    ensures upload.contentType == "application/pdf" && upload.size <= MaxPdfSize && numMcq + numTf > MaxTotalQuestions ==>
      Validate(upload, numMcq, numTf) == Some(TooManyQuestions)
  {
  }

  /** A file of exactly 10 MiB passes the size check; one byte more does not. */
  lemma SizeBoundary(numMcq: int, numTf: int)
    requires 0 <= numMcq <= MaxPerKind && 0 <= numTf <= MaxPerKind && 1 <= numMcq + numTf <= MaxTotalQuestions
    ensures Validate(Upload("application/pdf", 10485760), numMcq, numTf) == None
    ensures Validate(Upload("application/pdf", 10485761), numMcq, numTf) == Some(TooLarge)
  {
  }
}
