/**
 * `split_text_into_chunks`: greedy packing of the newline-separated paragraphs of a
 * text into chunks below a length limit, each chunk stripped of surrounding whitespace.
 * The function exists in two textually identical copies (backend/routes/quiz_routes.py
 * and routes/quiz_routes.py); this module models both.
 */
module Chunker {
  import opened Text

  /** The default `max_chunk_size`; both callers rely on it. */
  const DefaultMaxChunkSize := 3500

  /** The loop state before stripping: pieces already flushed and the chunk being filled. */
  datatype Packing = Packing(flushed: seq<string>, current: string)

  /** One iteration of the loop over paragraphs. */
  function Step(st: Packing, para: string, maxChunkSize: int): Packing {
    if |st.current| + |para| < maxChunkSize then
      Packing(st.flushed, st.current + para + "\n")
    else
      Packing(st.flushed + [st.current], para + "\n")
  }

  /** The loop state after the given paragraphs, starting from no pieces and "". */
  function Pack(paras: seq<string>, maxChunkSize: int): Packing
    decreases |paras|
  {
    if paras == [] then Packing([], "")
    else Step(Pack(paras[..|paras| - 1], maxChunkSize), paras[|paras| - 1], maxChunkSize)
  }

  /** The chunk texts before `strip()`: every flushed piece, then the last one if non-empty. */
  function Pieces(text: string, maxChunkSize: int): seq<string> {
    var p := Pack(Split(text, '\n'), maxChunkSize);
    if p.current != "" then p.flushed + [p.current] else p.flushed
  }

  function StripAll(ss: seq<string>): (r: seq<string>)
    ensures |r| == |ss|
    ensures forall i :: 0 <= i < |ss| ==> r[i] == Strip(ss[i])
  {
    seq(|ss|, i requires 0 <= i < |ss| => Strip(ss[i]))
  }

  /** Stripping one more piece appends its stripped form. */
  lemma StripAllSnoc(ss: seq<string>, x: string)
    ensures StripAll(ss + [x]) == StripAll(ss) + [Strip(x)]
  {
    assert forall i :: 0 <= i < |ss| ==> (ss + [x])[i] == ss[i];
  }

  /** The list `split_text_into_chunks(text, maxChunkSize)` returns. */
  function Chunks(text: string, maxChunkSize: int): seq<string> {
    StripAll(Pieces(text, maxChunkSize))
  }

  /** Every paragraph followed by the newline the loop appends to it. */
  function Terminated(paras: seq<string>): (r: seq<string>)
    ensures |r| == |paras|
    ensures forall i :: 0 <= i < |paras| ==> r[i] == paras[i] + "\n"
  {
    seq(|paras|, i requires 0 <= i < |paras| => paras[i] + "\n")
  }

  method SplitTextIntoChunks(text: string, maxChunkSize: int) returns (chunks: seq<string>)
    ensures chunks == Chunks(text, maxChunkSize)
    ensures |chunks| >= 1
    ensures forall i :: 0 <= i < |chunks| ==> IsStripped(chunks[i])
  {
    var paragraphs := Split(text, '\n');
    chunks := [];
    var currentChunk := "";
    ghost var raw: seq<string> := [];
    for i := 0 to |paragraphs|
      invariant Pack(paragraphs[..i], maxChunkSize) == Packing(raw, currentChunk)
      invariant chunks == StripAll(raw)
    {
      var para := paragraphs[i];
      assert paragraphs[..i + 1][..i] == paragraphs[..i];
      if |currentChunk| + |para| < maxChunkSize {
        currentChunk := currentChunk + para + "\n";
      } else {
        assert (raw + [currentChunk])[..|raw|] == raw;
        StripAllSnoc(raw, currentChunk);
        chunks := chunks + [Strip(currentChunk)];
        raw := raw + [currentChunk];
        currentChunk := para + "\n";
      }
    }
    assert paragraphs[..|paragraphs|] == paragraphs;
    if currentChunk != "" {
      assert (raw + [currentChunk])[..|raw|] == raw;
      StripAllSnoc(raw, currentChunk);
      chunks := chunks + [Strip(currentChunk)];
      raw := raw + [currentChunk];
    }
    assert raw == Pieces(text, maxChunkSize);
    ChunksShape(text, maxChunkSize);
  }

  /** The returned list is non-empty and every chunk in it is stripped. */
  lemma ChunksShape(text: string, maxChunkSize: int)
    ensures |Chunks(text, maxChunkSize)| >= 1
    ensures forall i :: 0 <= i < |Chunks(text, maxChunkSize)| ==> IsStripped(Chunks(text, maxChunkSize)[i])
  {
    PiecesNonEmpty(text, maxChunkSize);
  }

  /** After at least one paragraph the chunk being filled ends with the newline: never empty. */
  lemma PackCurrent(paras: seq<string>, maxChunkSize: int)
    requires |paras| >= 1
    ensures var c := Pack(paras, maxChunkSize).current; |c| >= 1 && c[|c| - 1] == '\n'
  {
  }

  /** `split_text_into_chunks` never returns an empty list, and its last chunk is the final flush. */
  lemma PiecesNonEmpty(text: string, maxChunkSize: int)
    ensures var p := Pack(Split(text, '\n'), maxChunkSize);
      Pieces(text, maxChunkSize) == p.flushed + [p.current]
    ensures |Chunks(text, maxChunkSize)| >= 1
  {
    PackCurrent(Split(text, '\n'), maxChunkSize);
  }

  /** What the loop has flushed plus what it is filling is every paragraph so far, each with its newline. */
  lemma {:induction false} PackConcat(paras: seq<string>, maxChunkSize: int)
    ensures var p := Pack(paras, maxChunkSize); Concat(p.flushed) + p.current == Concat(Terminated(paras))
    decreases |paras|
  {
    if paras != [] {
      var init := paras[..|paras| - 1];
      PackConcat(init, maxChunkSize);
      assert Terminated(paras)[..|paras| - 1] == Terminated(init);
      var p := Pack(init, maxChunkSize);
      assert Concat(p.flushed + [p.current]) == Concat(p.flushed) + p.current by {
        assert (p.flushed + [p.current])[..|p.flushed|] == p.flushed;
      }
    }
  }

  lemma {:induction false} TerminatedJoin(paras: seq<string>)
    requires |paras| >= 1
    ensures Concat(Terminated(paras)) == Join(paras, "\n") + "\n"
    decreases |paras|
  {
    assert Terminated(paras) == [paras[0] + "\n"] + Terminated(paras[1..]);
    ConcatAppend([paras[0] + "\n"], Terminated(paras[1..]));
    assert Concat([paras[0] + "\n"]) == paras[0] + "\n" by {
      assert [paras[0] + "\n"][..0] == [];
    }
    if |paras| == 1 {
      assert Terminated(paras[1..]) == [];
    } else {
      TerminatedJoin(paras[1..]);
    }
  }

  /** Before stripping, the chunks concatenate in order to the text followed by one newline. */
  lemma PiecesConcat(text: string, maxChunkSize: int)
    ensures Concat(Pieces(text, maxChunkSize)) == text + "\n"
  {
    var paras := Split(text, '\n');
    var p := Pack(paras, maxChunkSize);
    PiecesNonEmpty(text, maxChunkSize);
    assert (p.flushed + [p.current])[..|p.flushed|] == p.flushed;
    PackConcat(paras, maxChunkSize);
    TerminatedJoin(paras);
    JoinSplit(text, '\n');
  }

  /** A piece holding two or more paragraphs (two or more newlines) respects the limit. */
  predicate WithinLimit(piece: string, maxChunkSize: int) {
    Count(piece, '\n') >= 2 ==> |piece| <= maxChunkSize
  }

  lemma {:induction false} PackBound(paras: seq<string>, maxChunkSize: int)
    requires forall i :: 0 <= i < |paras| ==> '\n' !in paras[i]
    ensures var p := Pack(paras, maxChunkSize);
      && (forall j :: 0 <= j < |p.flushed| ==> WithinLimit(p.flushed[j], maxChunkSize))
      && WithinLimit(p.current, maxChunkSize)
    decreases |paras|
  {
    if paras != [] {
      var init := paras[..|paras| - 1];
      var para := paras[|paras| - 1];
      PackBound(init, maxChunkSize);
      var p := Pack(init, maxChunkSize);
      if |p.current| + |para| >= maxChunkSize {
        CountAppend(para, "\n", '\n');
        CountAbsent(para, '\n');
        assert Count("\n", '\n') == 1;
      }
    }
  }

  /** Only a chunk made of a single paragraph can exceed `max_chunk_size` before stripping. */
  lemma PiecesBound(text: string, maxChunkSize: int)
    ensures forall j :: 0 <= j < |Pieces(text, maxChunkSize)| ==>
      WithinLimit(Pieces(text, maxChunkSize)[j], maxChunkSize)
  {
    PackBound(Split(text, '\n'), maxChunkSize);
  }

  lemma {:induction false} PackFirst(paras: seq<string>, maxChunkSize: int)
    requires |paras| >= 1
    ensures var p := Pack(paras, maxChunkSize);
      && (|paras[0]| < maxChunkSize ==> forall j :: 0 <= j < |p.flushed| ==> p.flushed[j] != "")
      && (|paras[0]| >= maxChunkSize ==> |p.flushed| >= 1 && p.flushed[0] == "")
    decreases |paras|
  {
    var init := paras[..|paras| - 1];
    if |paras| == 1 {
      assert init == [];
    } else {
      assert init[0] == paras[0];
      PackFirst(init, maxChunkSize);
      PackCurrent(init, maxChunkSize);
    }
  }

  /**
   * The first piece is the empty leading flush exactly when the first paragraph is at or
   * over the limit.
   */
  lemma LeadingEmptyFlush(text: string, maxChunkSize: int)
    ensures Pieces(text, maxChunkSize)[0] == "" <==> |Split(text, '\n')[0]| >= maxChunkSize
  {
    var paras := Split(text, '\n');
    PiecesNonEmpty(text, maxChunkSize);
    PackFirst(paras, maxChunkSize);
    PackCurrent(paras, maxChunkSize);
  }

  /** While the paragraphs so far fit, nothing is flushed and they all sit in the current chunk. */
  lemma {:induction false} PackSmall(paras: seq<string>, maxChunkSize: int)
    requires |Concat(Terminated(paras))| <= maxChunkSize
    ensures Pack(paras, maxChunkSize) == Packing([], Concat(Terminated(paras)))
    decreases |paras|
  {
    if paras != [] {
      var init := paras[..|paras| - 1];
      var para := paras[|paras| - 1];
      assert Terminated(paras)[..|paras| - 1] == Terminated(init);
      assert Concat(Terminated(paras)) == Concat(Terminated(init)) + (para + "\n");
      PackSmall(init, maxChunkSize);
      assert Concat(Terminated(init)) + para + "\n" == Concat(Terminated(init)) + (para + "\n");
    }
  }

  /** A text shorter than the limit becomes a single chunk: the stripped text. */
  lemma ShortTextOneChunk(text: string, maxChunkSize: int)
    requires |text| < maxChunkSize
    ensures Pieces(text, maxChunkSize) == [text + "\n"]
    ensures Chunks(text, maxChunkSize) == [Strip(text + "\n")]
  {
    var paras := Split(text, '\n');
    TerminatedJoin(paras);
    JoinSplit(text, '\n');
    PackSmall(paras, maxChunkSize);
    assert [text + "\n"][..0] == [];
  }
}
