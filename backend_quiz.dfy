/**
 * `generate_questions` of backend/routes/quiz_routes.py: validate the request, chunk the
 * extracted text, ask the model once per chunk for an equal share of the questions, and
 * merge the per-chunk answers in chunk order. The model call and the JSON decoding of its
 * answer are an oracle: a function from what is sent to what comes back.
 */
module BackendQuiz {
  import opened Wrappers
  import opened Text
  import opened Chunker
  import opened UploadRules
  import opened Prompts

  /** One chunk's outcome: the decoded JSON object's two lists (each key may be missing), or a failure. */
  datatype ModelReply<T> =
    | Parsed(multipleChoice: Option<seq<T>>, trueFalse: Option<seq<T>>)
    | InvalidJson
    | Raised(message: string)

  /** The response body: `{"multiple_choice": ..., "true_false": ...}`. */
  datatype Generated<T> = Generated(multipleChoice: seq<T>, trueFalse: seq<T>)

  const CallFailedPrefix := "Failed to call GPT-4: "

  /**
   * The 500 that ends the request when a chunk fails. The inner "not valid JSON" HTTPException
   * is caught by the outer `except Exception` and rendered as "500: <detail>".
   */
  function FailureFor<T>(reply: ModelReply<T>): (e: ApiError)
    requires !reply.Parsed?
    ensures e.HttpError? && e.status == 500
    ensures reply.InvalidJson? ==> e.detail == CallFailedPrefix + "500: Model output was not valid JSON."
    ensures reply.Raised? ==> e.detail == CallFailedPrefix + reply.message
    ensures |e.detail| >= |CallFailedPrefix| && e.detail[..|CallFailedPrefix|] == CallFailedPrefix
  {
    match reply
    case InvalidJson => HttpError(500, CallFailedPrefix + "500: Model output was not valid JSON.")
    case Raised(m) => HttpError(500, CallFailedPrefix + m)
  }

  /** `max(1, num_mcq // total_chunks)`. */
  function McqPerChunk(numMcq: nat, totalChunks: nat): (r: nat)
    requires totalChunks >= 1
    ensures r >= 1
    ensures numMcq < totalChunks ==> r == 1
    ensures numMcq >= totalChunks ==> r * totalChunks <= numMcq < (r + 1) * totalChunks
  {
    var q := numMcq / totalChunks;
    if q > 1 then q else 1
  }

  /** `max(0, num_tf // total_chunks)`: the chunks together never ask for more than `num_tf`. */
  function TfPerChunk(numTf: nat, totalChunks: nat): (r: nat)
    requires totalChunks >= 1
    ensures r * totalChunks <= numTf < (r + 1) * totalChunks
  {
    numTf / totalChunks
  }

  /**
   * What the model says for each chunk, in chunk order. The notes it is sent are those
   * line 161 builds, with `"\n\n"` between the chunk's characters (`MergedAsWritten`).
   */
  function Replies<T>(chunks: seq<string>, mcqPerChunk: nat, tfPerChunk: nat,
                      model: (string, nat, nat) -> ModelReply<T>): (rs: seq<ModelReply<T>>)
    ensures |rs| == |chunks|
    ensures forall i :: 0 <= i < |chunks| ==> rs[i] == model(MergedAsWritten(chunks[i]), mcqPerChunk, tfPerChunk)
  {
    seq(|chunks|, i requires 0 <= i < |chunks| => model(MergedAsWritten(chunks[i]), mcqPerChunk, tfPerChunk))
  }

  /** One iteration of the merge loop: `extend` both lists, or fail. */
  function Extend<T>(g: Generated<T>, reply: ModelReply<T>): Result<Generated<T>, ApiError> {
    if reply.Parsed? then
      Ok(Generated(g.multipleChoice + reply.multipleChoice.GetOr([]),
                   g.trueFalse + reply.trueFalse.GetOr([])))
    else Err(FailureFor(reply))
  }

  /** The merge loop's result over a list of replies: stop at the first failure, else extend. */
  function Combine<T>(rs: seq<ModelReply<T>>): Result<Generated<T>, ApiError>
    decreases |rs|
  {
    if rs == [] then Ok(Generated([], []))
    else
      var prev := Combine(rs[..|rs| - 1]);
      if prev.Err? then prev else Extend(prev.value, rs[|rs| - 1])
  }

  /** The merge over the chunks of an accepted request. */
  function CombineChunks<T>(chunks: seq<string>, numMcq: nat, numTf: nat,
                            model: (string, nat, nat) -> ModelReply<T>): Result<Generated<T>, ApiError>
    requires |chunks| >= 1
  {
    Combine(Replies(chunks, McqPerChunk(numMcq, |chunks|), TfPerChunk(numTf, |chunks|), model))
  }

  /** The whole request, as a function of its inputs. */
  function Generation<T>(upload: Upload, numMcq: int, numTf: int, pdf: PdfText,
                         model: (string, nat, nat) -> ModelReply<T>): Result<Generated<T>, ApiError>
  {
    match Validate(upload, numMcq, numTf)
    case Some(e) => Err(e)
    case None =>
      match pdf
      case Unreadable(reason) => Err(HttpError(400, "Failed to read PDF: " + reason))
      case Extracted(text) =>
        ChunksShape(text, DefaultMaxChunkSize);
        CombineChunks(Chunks(text, DefaultMaxChunkSize), numMcq, numTf, model)
  }

  method GenerateQuestions<T>(upload: Upload, numMcq: int, numTf: int, pdf: PdfText,
                              model: (string, nat, nat) -> ModelReply<T>)
    returns (r: Result<Generated<T>, ApiError>)
    ensures r == Generation(upload, numMcq, numTf, pdf, model)
  {
    var invalid := Validate(upload, numMcq, numTf);
    if invalid.Some? {
      return Err(invalid.value);
    }
    if pdf.Unreadable? {
      return Err(HttpError(400, "Failed to read PDF: " + pdf.reason));
    }
    var textChunks := SplitTextIntoChunks(pdf.text, DefaultMaxChunkSize);
    r := MergeChunks(textChunks, numMcq, numTf, model);
  }

  /** The loop of `generate_questions` over the chunks, with its per-chunk counts. */
  method MergeChunks<T>(textChunks: seq<string>, numMcq: nat, numTf: nat,
                        model: (string, nat, nat) -> ModelReply<T>)
    returns (r: Result<Generated<T>, ApiError>)
    requires |textChunks| >= 1
    ensures r == CombineChunks(textChunks, numMcq, numTf, model)
  {
    var totalChunks := |textChunks|;
    var mcqPerChunk := McqPerChunk(numMcq, totalChunks);
    var tfPerChunk := TfPerChunk(numTf, totalChunks);
    ghost var rs := Replies(textChunks, mcqPerChunk, tfPerChunk, model);
    var combinedMcq := [];
    var combinedTf := [];
    for i := 0 to |textChunks|
      invariant Combine(rs[..i]) == Ok(Generated(combinedMcq, combinedTf))
    {
      var reply := model(MergedAsWritten(textChunks[i]), mcqPerChunk, tfPerChunk);
      assert rs[i] == reply;
      if !reply.Parsed? {
        CombineStopsAt(rs, i);
        return Err(FailureFor(reply));
      }
      CombineStep(rs, i);
      combinedMcq := combinedMcq + reply.multipleChoice.GetOr([]);
      combinedTf := combinedTf + reply.trueFalse.GetOr([]);
    }
    assert rs[..|textChunks|] == rs;
    r := Ok(Generated(combinedMcq, combinedTf));
  }

  /** One more reply extends the merge of the replies before it. */
  lemma CombineStep<T>(rs: seq<ModelReply<T>>, i: nat)
    requires i < |rs| && Combine(rs[..i]).Ok?
    ensures Combine(rs[..i + 1]) == Extend(Combine(rs[..i]).value, rs[i])
  {
    assert rs[..i + 1][..i] == rs[..i];
  }

  /** A failing reply after a successful prefix decides the whole merge. */
  lemma CombineStopsAt<T>(rs: seq<ModelReply<T>>, i: nat)
    requires i < |rs| && Combine(rs[..i]).Ok? && !rs[i].Parsed?
    ensures Combine(rs) == Err(FailureFor(rs[i]))
  {
    CombineStep(rs, i);
    CombineErrSticky(rs[..i + 1], rs[i + 1..]);
    assert rs[..i + 1] + rs[i + 1..] == rs;
  }

  /** Once a reply has failed, later replies change nothing: no partial result escapes. */
  lemma {:induction false} CombineErrSticky<T>(a: seq<ModelReply<T>>, b: seq<ModelReply<T>>)
    requires Combine(a).Err?
    ensures Combine(a + b) == Combine(a)
    decreases |b|
  {
    if b == [] {
      assert a + b == a;
    } else {
      assert (a + b)[..|a + b| - 1] == a + b[..|b| - 1];
      CombineErrSticky(a, b[..|b| - 1]);
    }
  }

  /** The merge succeeds exactly when every chunk's reply was a decoded object. */
  lemma {:induction false} CombineOkIff<T>(rs: seq<ModelReply<T>>)
    ensures Combine(rs).Ok? <==> forall i :: 0 <= i < |rs| ==> rs[i].Parsed?
    decreases |rs|
  {
    if rs != [] {
      var init := rs[..|rs| - 1];
      CombineOkIff(init);
      assert forall i :: 0 <= i < |init| ==> init[i] == rs[i];
    }
  }

  /** The first failing chunk decides the error, whatever comes after it. */
  lemma {:induction false} CombineFirstFailure<T>(rs: seq<ModelReply<T>>, i: nat)
    requires i < |rs| && !rs[i].Parsed?
    requires forall j :: 0 <= j < i ==> rs[j].Parsed?
    ensures Combine(rs) == Err(FailureFor(rs[i]))
  {
    var pre := rs[..i];
    var upto := rs[..i + 1];
    assert Combine(pre).Ok? by {
      assert forall j :: 0 <= j < |pre| ==> pre[j].Parsed?;
      CombineOkIff(pre);
    }
    assert upto[..i] == pre && upto[i] == rs[i];
    assert Combine(upto) == Err(FailureFor(rs[i]));
    CombineErrSticky(upto, rs[i + 1..]);
    assert upto + rs[i + 1..] == rs;
  }

  /** Merging is in order: the lists of a + b are those of a followed by those of b. */
  lemma {:induction false} CombineAppend<T>(a: seq<ModelReply<T>>, b: seq<ModelReply<T>>)
    requires Combine(a).Ok? && Combine(b).Ok?
    ensures Combine(a + b) == Ok(Generated(
      Combine(a).value.multipleChoice + Combine(b).value.multipleChoice,
      Combine(a).value.trueFalse + Combine(b).value.trueFalse))
    decreases |b|
  {
    if b == [] {
      assert a + b == a;
      var ga := Combine(a).value;
      assert ga.multipleChoice + [] == ga.multipleChoice && ga.trueFalse + [] == ga.trueFalse;
    } else {
      var init := b[..|b| - 1];
      var last := b[|b| - 1];
      assert (a + b)[..|a + b| - 1] == a + init;
      assert (a + b)[|a + b| - 1] == last;
      assert Combine(init).Ok?;
      CombineAppend(a, init);
      var ga, gi := Combine(a).value, Combine(init).value;
      assert last.Parsed?;
      var m, t := last.multipleChoice.GetOr([]), last.trueFalse.GetOr([]);
      assert Combine(b).value == Generated(gi.multipleChoice + m, gi.trueFalse + t);
      assert (ga.multipleChoice + gi.multipleChoice) + m == ga.multipleChoice + (gi.multipleChoice + m);
      assert (ga.trueFalse + gi.trueFalse) + t == ga.trueFalse + (gi.trueFalse + t);
    }
  }

  /** A single decoded reply contributes its lists, a missing key contributing nothing. */
  lemma CombineOne<T>(r: ModelReply<T>)
    ensures Combine([r]) == if r.Parsed?
      then Ok(Generated(r.multipleChoice.GetOr([]), r.trueFalse.GetOr([])))
      else Err(FailureFor(r))
  {
    assert [r][..0] == [];
    assert Combine<T>([]) == Ok(Generated([], []));
    if r.Parsed? {
      var m, t := r.multipleChoice.GetOr([]), r.trueFalse.GetOr([]);
      assert [] + m == m && [] + t == t;
    }
  }

  /** Every error the merge produces is a chunk's 500 "Failed to call GPT-4: ...". */
  lemma {:induction false} CombineErrIsCallFailure<T>(rs: seq<ModelReply<T>>)
    requires Combine(rs).Err?
    ensures exists i :: 0 <= i < |rs| && !rs[i].Parsed? && Combine(rs).error == FailureFor(rs[i])
    decreases |rs|
  {
    var init := rs[..|rs| - 1];
    if Combine(init).Err? {
      CombineErrIsCallFailure(init);
      var i :| 0 <= i < |init| && !init[i].Parsed? && Combine(init).error == FailureFor(init[i]);
      assert rs[i] == init[i];
    } else {
      assert !rs[|rs| - 1].Parsed?;
    }
  }

  /**
   * Any chunk failure makes the whole request a 500 "Failed to call GPT-4: ..." and
   * no list is returned.
   */
  lemma AnyFailureIsFatal<T>(chunks: seq<string>, numMcq: nat, numTf: nat,
                             model: (string, nat, nat) -> ModelReply<T>, i: nat)
    requires i < |chunks|
    requires !model(MergedAsWritten(chunks[i]), McqPerChunk(numMcq, |chunks|), TfPerChunk(numTf, |chunks|)).Parsed?
    ensures var r := CombineChunks(chunks, numMcq, numTf, model);
      && r.Err? && r.error.HttpError? && r.error.status == 500
      && |r.error.detail| >= |CallFailedPrefix|
      && r.error.detail[..|CallFailedPrefix|] == CallFailedPrefix
  {
    var rs := Replies(chunks, McqPerChunk(numMcq, |chunks|), TfPerChunk(numTf, |chunks|), model);
    assert !rs[i].Parsed?;
    CombineOkIff(rs);
    CombineErrIsCallFailure(rs);
  }

  /** An accepted request with readable text is answered by the merge over its chunks. */
  lemma AcceptedRequest<T>(upload: Upload, numMcq: int, numTf: int, text: string,
                           model: (string, nat, nat) -> ModelReply<T>)
    requires Validate(upload, numMcq, numTf) == None
    ensures 0 <= numMcq <= 20 && 0 <= numTf <= 20 && 1 <= numMcq + numTf <= 20
    ensures |Chunks(text, DefaultMaxChunkSize)| >= 1
    ensures Generation(upload, numMcq, numTf, Extracted(text), model)
         == CombineChunks(Chunks(text, DefaultMaxChunkSize), numMcq, numTf, model)
  {
    ChunksShape(text, DefaultMaxChunkSize);
  }
}
