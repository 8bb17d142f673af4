/**
 * The part of `build_prompt` that depends on its arguments: the lecture notes, which are
 * the `"\n\n"`-join of the chunks it is given, and the two question counts. The fixed
 * wording of the prompt template is not modelled.
 */
module Prompts {
  import opened Text

  datatype Prompt = Prompt(notes: string, numMcq: int, numTf: int)

  /** `"\n\n".join(text_chunks)`. */
  function MergedText(chunks: seq<string>): (notes: string)
    ensures chunks == [] ==> notes == ""
    ensures |chunks| == 1 ==> notes == chunks[0]
  {
    Join(chunks, "\n\n")
  }

  /** The prompt's variable parts: both counts are passed as given, the notes are the merged chunks. */
  function BuildPrompt(chunks: seq<string>, numMcq: int, numTf: int): (p: Prompt)
    ensures p.numMcq == numMcq && p.numTf == numTf
    ensures |chunks| == 1 ==> p.notes == chunks[0]
  {
    Prompt(MergedText(chunks), numMcq, numTf)
  }

  /** The merged notes of several chunks are the merged notes of each part, in order. */
  lemma MergedInOrder(a: seq<string>, b: seq<string>)
    requires |a| >= 1 && |b| >= 1
    ensures MergedText(a + b) == MergedText(a) + "\n\n" + MergedText(b)
  {
    JoinAppend(a, b, "\n\n");
  }

  /** What iterating over a Python `str` yields: its characters, one string each. */
  function Characters(s: string): (cs: seq<string>)
    ensures |cs| == |s|
    ensures forall i :: 0 <= i < |s| ==> cs[i] == [s[i]]
  {
    seq(|s|, i requires 0 <= i < |s| => [s[i]])
  }

  /**
   * The notes backend/routes/quiz_routes.py:161 actually produces: it passes one chunk
   * (a `str`) as `text_chunks`, so the join puts `"\n\n"` between its characters.
   */
  function MergedAsWritten(chunk: string): (notes: string)
    ensures |chunk| <= 1 ==> notes == chunk
    ensures |chunk| >= 2 ==> notes == [chunk[0], '\n', '\n'] + MergedAsWritten(chunk[1..])
    decreases |chunk|
  {
    var cs := Characters(chunk);
    if |chunk| >= 2 then
      assert cs[1..] == Characters(chunk[1..]);
      MergedText(cs)
    else if |chunk| == 1 then
      assert chunk == [chunk[0]];
      assert cs == [chunk];
      MergedText(cs)
    else
      MergedText(cs)
  }

  /** The as-written merge spreads a two-letter chunk out into three lines. */
  lemma AsWrittenSpreadsCharacters()
    ensures MergedAsWritten("ab") == "a\n\nb"
    ensures MergedAsWritten("ab") != "ab"
  {
    assert Characters("ab") == ["a", "b"];
    assert ["a", "b"][1..] == ["b"];
  }

  /** Every chunk longer than one character reaches the model altered: 3n - 2 characters instead of n. */
  lemma {:induction false} AsWrittenLength(chunk: string)
    requires |chunk| >= 1
    ensures |MergedAsWritten(chunk)| == 3 * |chunk| - 2
    ensures |chunk| >= 2 ==> MergedAsWritten(chunk) != chunk
    decreases |chunk|
  {
    var cs := Characters(chunk);
    if |chunk| >= 2 {
      assert cs[1..] == Characters(chunk[1..]);
      AsWrittenLength(chunk[1..]);
      assert Join(cs, "\n\n") == cs[0] + "\n\n" + Join(cs[1..], "\n\n");
    }
  }

  /** The evidently intended notes for one chunk: the chunk as one list element, i.e. the chunk itself. */
  function ChunkNotes(chunk: string): (notes: string)
    ensures notes == chunk
  {
    MergedText([chunk])
  }
}
