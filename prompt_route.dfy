/**
 * `generate_questions` of routes/quiz_routes.py: the same checks as the backend copy, then
 * one prompt built from all chunks, returned as `{"prompt": prompt}`.
 */
module PromptRoute {
  import opened Wrappers
  import opened Text
  import opened Chunker
  import opened UploadRules
  import opened Prompts

  /** The response body; its only key is `prompt`. */
  datatype PromptResponse = PromptResponse(prompt: Prompt)

  /**
   * The handler: a prompt exactly when the checks pass and the PDF is readable; a failed
   * check is returned as is, and an unreadable PDF is a 400 naming the reason.
   */
  function GenerateQuestions(upload: Upload, numMcq: int, numTf: int, pdf: PdfText): (r: Result<PromptResponse, ApiError>)
    ensures r.Ok? <==> Validate(upload, numMcq, numTf) == None && pdf.Extracted?
    ensures Validate(upload, numMcq, numTf).Some? ==> r == Err(Validate(upload, numMcq, numTf).value)
    ensures Validate(upload, numMcq, numTf) == None && pdf.Unreadable? ==>
      r == Err(HttpError(400, "Failed to read PDF: " + pdf.reason))
  {
    match Validate(upload, numMcq, numTf)
    case Some(e) => Err(e)
    case None =>
      match pdf
      case Unreadable(reason) => Err(HttpError(400, "Failed to read PDF: " + reason))
      case Extracted(text) => Ok(PromptResponse(BuildPrompt(Chunks(text, DefaultMaxChunkSize), numMcq, numTf)))
  }

  /**
   * A prompt is built once, from the `"\n\n"`-join of all chunks, with both counts passed
   * through unchanged.
   */
  lemma PromptOutcome(upload: Upload, numMcq: int, numTf: int, pdf: PdfText)
    ensures GenerateQuestions(upload, numMcq, numTf, pdf).Ok? ==>
      GenerateQuestions(upload, numMcq, numTf, pdf).value.prompt ==
        Prompt(Join(Chunks(pdf.text, DefaultMaxChunkSize), "\n\n"), numMcq, numTf)
  {
  }

  /** A text shorter than the chunk limit reaches the prompt whole, only stripped. */
  lemma ShortTextPrompt(upload: Upload, numMcq: int, numTf: int, text: string)
    requires Validate(upload, numMcq, numTf) == None
    requires |text| < DefaultMaxChunkSize
    ensures GenerateQuestions(upload, numMcq, numTf, Extracted(text)) ==
      Ok(PromptResponse(Prompt(Strip(text + "\n"), numMcq, numTf)))
  {
    ShortTextOneChunk(text, DefaultMaxChunkSize);
  }
}
