/** The minutes text as Notion blocks: one paragraph per line of the text,
    whitespace-only lines as empty paragraphs, sent to Notion in chunks of
    at most 100 blocks. The pipeline and the Notion service each implement
    the chunking; both are modelled here and shown to agree. */
module Blocks {
  import opened Text
  import opened Chunking

  /** One `rich_text` element: its text and whether it is bold. */
  datatype RichText = RichText(content: string, bold: bool)

  /** The two block types the application writes. */
  datatype Block = Paragraph(richText: seq<RichText>) | Divider

  /** The largest number of children Notion accepts per append call. */
  const ChunkSize: nat := 100

  /** The paragraph for one line: the line verbatim, or no text at all
      when the line is empty or whitespace. */
  function LineBlock(line: string): (b: Block)
    ensures b.Paragraph?
    ensures IsBlank(line) <==> b.richText == []
    ensures !IsBlank(line) ==> b.richText == [RichText(line, false)]
  {
    if Strip(line) != "" then Paragraph([RichText(line, false)]) else Paragraph([])
  }

  /** One block per line of `content.split("\n")`, in line order. */
  function BodyToBlocks(content: string): (bs: seq<Block>)
    ensures |bs| == Count(content, '\n') + 1
  {
    var lines := Split(content, '\n');
    seq(|lines|, i requires 0 <= i < |lines| => LineBlock(lines[i]))
  }

  /** The text a block shows. */
  function BlockText(b: Block): string {
    match b
    case Paragraph(rts) => RichTextsText(rts)
    case Divider => ""
  }

  function RichTextsText(rts: seq<RichText>): string {
    if |rts| == 0 then "" else rts[0].content + RichTextsText(rts[1..])
  }

  function Texts(bs: seq<Block>): (r: seq<string>)
    ensures |r| == |bs|
  {
    seq(|bs|, i requires 0 <= i < |bs| => BlockText(bs[i]))
  }

  /** Every line keeps its text unless it is whitespace only. */
  predicate NoBlankFilledLine(content: string) {
    var lines := Split(content, '\n');
    forall i :: 0 <= i < |lines| ==> lines[i] == "" || !IsBlank(lines[i])
  }

  /** The text of each block is its line, or empty for a whitespace line. */
  lemma BlockTexts(content: string)
    ensures var lines := Split(content, '\n');
      Texts(BodyToBlocks(content))
        == seq(|lines|, i requires 0 <= i < |lines| => if IsBlank(lines[i]) then "" else lines[i])
  {
    var lines := Split(content, '\n');
    var bs := BodyToBlocks(content);
    forall i | 0 <= i < |lines|
      ensures BlockText(bs[i]) == if IsBlank(lines[i]) then "" else lines[i]
    {
      assert bs[i] == LineBlock(lines[i]);
      if !IsBlank(lines[i]) {
        var rts := [RichText(lines[i], false)];
        assert rts[1..] == [];
        assert RichTextsText(rts) == lines[i] + RichTextsText([]);
      }
    }
  }

  /** Reading the block texts back, one per line, gives the minutes text
      exactly when no line is made of whitespace alone: no line is dropped
      and only such lines lose their text. */
  lemma BodyRecovered(content: string)
    ensures Join(Texts(BodyToBlocks(content)), "\n") == content <==> NoBlankFilledLine(content)
  {
    if NoBlankFilledLine(content) {
      BodyKept(content);
    } else {
      BodyShortened(content);
    }
  }

  /** With no whitespace-only line, the block texts are the lines. */
  lemma BodyKept(content: string)
    requires NoBlankFilledLine(content)
    ensures Join(Texts(BodyToBlocks(content)), "\n") == content
  {
    var lines := Split(content, '\n');
    var texts := Texts(BodyToBlocks(content));
    BlockTexts(content);
    assert texts == lines by {
      forall i | 0 <= i < |lines|
        ensures texts[i] == lines[i]
      {
        assert texts[i] == if IsBlank(lines[i]) then "" else lines[i];
      }
    }
    JoinSplit(content, '\n');
  }

  /** A whitespace-only line loses its text, so the joined texts are
      shorter than the minutes. */
  lemma BodyShortened(content: string)
    requires !NoBlankFilledLine(content)
    ensures |Join(Texts(BodyToBlocks(content)), "\n")| < |content|
  {
    var lines := Split(content, '\n');
    var texts := Texts(BodyToBlocks(content));
    BlockTexts(content);
    var j :| 0 <= j < |lines| && lines[j] != "" && IsBlank(lines[j]);
    assert texts[j] == "";
    assert forall i :: 0 <= i < |texts| ==> |texts[i]| <= |lines[i]| by {
      forall i | 0 <= i < |texts|
        ensures |texts[i]| <= |lines[i]|
      {
        assert texts[i] == if IsBlank(lines[i]) then "" else lines[i];
      }
    }
    JoinShorter(texts, lines, "\n");
    JoinSplit(content, '\n');
  }

  /** Joining pieces no longer than the originals gives a text no longer,
      and strictly shorter when some piece is shorter. */
  lemma {:induction false} JoinShorter(a: seq<string>, b: seq<string>, sep: string)
    requires |a| == |b|
    requires forall i :: 0 <= i < |a| ==> |a[i]| <= |b[i]|
    ensures |Join(a, sep)| <= |Join(b, sep)|
    ensures (exists j :: 0 <= j < |a| && |a[j]| < |b[j]|) ==> |Join(a, sep)| < |Join(b, sep)|
  {
    if |a| > 1 {
      JoinShorter(a[1..], b[1..], sep);
      if exists j :: 0 <= j < |a| && |a[j]| < |b[j]| {
        var j :| 0 <= j < |a| && |a[j]| < |b[j]|;
        if j > 0 {
          assert |a[1..][j - 1]| < |b[1..][j - 1]|;
        }
      }
    }
  }

  /** The chunks the Notion service appends, `blocks[i:i + 100]` for `i`
      in `range(0, len(blocks), 100)`. */
  function ServiceChunks(bs: seq<Block>): (cs: seq<seq<Block>>)
    ensures |cs| == NumSlices(|bs|, ChunkSize)
    ensures |cs| == 0 || ChunkSize * (|cs| - 1) < |bs|
  {
    NumSlicesCeil(|bs|, ChunkSize);
    Slices(bs, ChunkSize)
  }

  /** The service's chunks have the Notion shape, follow the block order,
      and together hold exactly the blocks. */
  lemma ServiceChunksShape(bs: seq<Block>)
    ensures var cs := ServiceChunks(bs);
      && WellChunked(cs, ChunkSize)
      && Flatten(cs) == bs
      && (|bs| == 0 <==> |cs| == 0)
      && forall k :: 0 <= k < |cs| ==> cs[k] == bs[ChunkSize * k .. Min(ChunkSize * k + ChunkSize, |bs|)]
  {
    SlicesWellChunked(bs, ChunkSize);
    FlattenSlices(bs, ChunkSize);
    forall k | 0 <= k < |ServiceChunks(bs)|
      ensures ServiceChunks(bs)[k] == bs[ChunkSize * k .. Min(ChunkSize * k + ChunkSize, |bs|)]
    {
      SliceAt(bs, ChunkSize, k);
    }
  }

  /** The pipeline's loop: each line's block joins the current chunk, a
      chunk of 100 is closed, and a non-empty remainder is closed at the
      end. It cuts exactly the chunks the Notion service cuts. */
  method WebhookChunks(content: string) returns (chunks: seq<seq<Block>>)
    ensures chunks == ServiceChunks(BodyToBlocks(content))
  {
    var lines := Split(content, '\n');
    ghost var bs := BodyToBlocks(content);
    chunks := [];
    var current: seq<Block> := [];
    var i := 0;
    while i < |lines|
      invariant 0 <= i <= |lines| == |bs|
      invariant FullChunks(chunks, current, bs[..i])
    {
      var block := LineBlock(lines[i]);
      assert bs[..i + 1] == bs[..i] + [block] by {
        assert bs[i] == block;
        TakeNext(bs, i);
      }
      FillChunk(chunks, current, bs[..i], block);
      current := current + [block];
      if |current| >= ChunkSize {
        chunks := chunks + [current];
        current := [];
      }
      i := i + 1;
    }
    assert bs[..i] == bs;
    CloseChunks(chunks, current, bs);
    if |current| > 0 {
      chunks := chunks + [current];
    }
  }

  /** The loop's state: closed chunks of exactly 100 blocks, then an open
      chunk of fewer, together holding the blocks seen so far. */
  predicate FullChunks(chunks: seq<seq<Block>>, current: seq<Block>, seen: seq<Block>) {
    && Flatten(chunks) + current == seen
    && (forall k :: 0 <= k < |chunks| ==> |chunks[k]| == ChunkSize)
    && |current| < ChunkSize
  }

  /** One more block keeps the loop's state. */
  lemma FillChunk(chunks: seq<seq<Block>>, current: seq<Block>, seen: seq<Block>, block: Block)
    requires FullChunks(chunks, current, seen)
    ensures var c := current + [block];
      if |c| >= ChunkSize then FullChunks(chunks + [c], [], seen + [block])
      else FullChunks(chunks, c, seen + [block])
  {
    var c := current + [block];
    if |c| >= ChunkSize {
      FlattenAppend(chunks, c);
    }
  }

  /** Closing the open chunk, when it holds anything, gives the service's chunks. */
  lemma CloseChunks(chunks: seq<seq<Block>>, current: seq<Block>, bs: seq<Block>)
    requires FullChunks(chunks, current, bs)
    ensures (if |current| > 0 then chunks + [current] else chunks) == ServiceChunks(bs)
  {
    var cs := if |current| > 0 then chunks + [current] else chunks;
    if |current| > 0 {
      FlattenAppend(chunks, current);
    } else {
      assert Flatten(chunks) == bs;
    }
    assert WellChunked(cs, ChunkSize);
    SlicesUnique(cs, bs, ChunkSize);
  }
}
