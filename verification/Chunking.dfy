/**
 Splitting a long post into messages (backend/discord_notifier.py, _chunk_content).
 */
module Chunking {

  /** text.rfind("\n", 0, bound): the last newline before `bound`, or -1. */
  function LastNewline(text: string, bound: nat): (k: int)
    requires bound <= |text|
    ensures -1 <= k < bound
  {
    if bound == 0 then -1
    else if text[bound - 1] == '\n' then bound - 1
    else LastNewline(text, bound - 1)
  }

  /** text.lstrip("\n") */
  function StripNewlines(text: string): (rest: string)
    ensures |rest| <= |text|
  {
    if text != [] && text[0] == '\n' then StripNewlines(text[1..]) else text
  }

  /** Where a message ends: at the last newline that leaves it non-empty, else at its full size. */
  function CutAt(text: string, size: nat): (cut: nat)
    requires 1 <= size < |text|
    ensures 1 <= cut <= size
  {
    var k := LastNewline(text, size);
    if k <= 0 then size else k
  }

  function Chunks(text: string, size: nat): seq<string>
    requires size >= 1
    decreases |text|
  {
    if |text| > size then
      var cut := CutAt(text, size);
      [text[..cut]] + Chunks(StripNewlines(text[cut..]), size)
    else if text != [] then [text]
    else []
  }

  /** _chunk_content. A size of 0 would never advance. */
  method ChunkContent(text: string, size: nat) returns (chunks: seq<string>)
    requires size >= 1
    ensures chunks == Chunks(text, size)
  {
    chunks := [];
    var remaining := text;
    while |remaining| > size
      invariant chunks + Chunks(remaining, size) == Chunks(text, size)
      decreases |remaining|
    {
      var cut := LastNewline(remaining, size);
      if cut <= 0 {
        cut := size;
      }
      assert Chunks(remaining, size) == [remaining[..cut]] + Chunks(StripNewlines(remaining[cut..]), size);
      ghost var sent, rest := chunks, StripNewlines(remaining[cut..]);
      assert sent + ([remaining[..cut]] + Chunks(rest, size)) == (sent + [remaining[..cut]]) + Chunks(rest, size);
      chunks := chunks + [remaining[..cut]];
      remaining := StripNewlines(remaining[cut..]);
    }
    if remaining != "" {
      chunks := chunks + [remaining];
    }
  }

  // ---------------------------------------------------------------- properties

  lemma {:induction false} LastNewlineIsLast(text: string, bound: nat)
    requires bound <= |text|
    ensures var k := LastNewline(text, bound);
            (k >= 0 ==> text[k] == '\n') && forall q :: k < q < bound ==> text[q] != '\n'
  {
    if bound > 0 && text[bound - 1] != '\n' {
      LastNewlineIsLast(text, bound - 1);
    }
  }

  /** A cut short of the full size is at a newline, and a later newline would have been taken. */
  lemma {:induction false} CutsAtLastNewline(text: string, size: nat)
    requires 1 <= size < |text|
    ensures var cut := CutAt(text, size);
            if cut == size then forall q :: 0 < q < size ==> text[q] != '\n'
            else text[cut] == '\n' && forall q :: cut < q < size ==> text[q] != '\n'
  {
    LastNewlineIsLast(text, size);
  }

  /** Every message fits and none is empty. */
  lemma {:induction false} ChunksFit(text: string, size: nat)
    requires size >= 1
    ensures forall c :: c in Chunks(text, size) ==> 1 <= |c| <= size
    decreases |text|
  {
    if |text| > size {
      ChunksFit(StripNewlines(text[CutAt(text, size)..]), size);
    }
  }

  predicate OnlyNewlines(s: string) {
    forall i :: 0 <= i < |s| ==> s[i] == '\n'
  }

  /** Each piece followed by its separator. */
  function Woven(chunks: seq<string>, separators: seq<string>): string
    requires |chunks| == |separators|
  {
    if chunks == [] then "" else chunks[0] + separators[0] + Woven(chunks[1..], separators[1..])
  }

  lemma {:induction false} StrippedAreNewlines(text: string) returns (gap: string)
    ensures OnlyNewlines(gap) && gap + StripNewlines(text) == text
  {
    if text != [] && text[0] == '\n' {
      var rest := StrippedAreNewlines(text[1..]);
      gap := ['\n'] + rest;
    } else {
      gap := "";
    }
  }

  lemma {:induction false} WovenFirst(chunk: string, gap: string, chunks: seq<string>, gaps: seq<string>)
    requires |chunks| == |gaps|
    ensures Woven([chunk] + chunks, [gap] + gaps) == chunk + (gap + Woven(chunks, gaps))
  {
    assert ([chunk] + chunks)[1..] == chunks && ([gap] + gaps)[1..] == gaps;
    assert chunk + gap + Woven(chunks, gaps) == chunk + (gap + Woven(chunks, gaps));
  }

  /** Nothing but newlines at the breaks is lost: the text is the messages with newline-only gaps between them. */
  lemma {:induction false} TextIsChunksAndNewlines(text: string, size: nat) returns (gaps: seq<string>)
    requires size >= 1
    ensures |gaps| == |Chunks(text, size)|
    ensures forall g :: g in gaps ==> OnlyNewlines(g)
    ensures Woven(Chunks(text, size), gaps) == text
    decreases |text|
  {
    if |text| > size {
      var cut := CutAt(text, size);
      var gap := StrippedAreNewlines(text[cut..]);
      var rest := StripNewlines(text[cut..]);
      var tail := TextIsChunksAndNewlines(rest, size);
      gaps := [gap] + tail;
      WovenFirst(text[..cut], gap, Chunks(rest, size), tail);
      assert text[..cut] + text[cut..] == text;
    } else if text != [] {
      gaps := [""];
      WovenFirst(text, "", [], []);
      assert [text] + [] == [text] && [""] + [] == [""];
    } else {
      gaps := [];
    }
  }

  function Ink(s: string): string {
    if s == [] then "" else (if s[0] == '\n' then "" else [s[0]]) + Ink(s[1..])
  }

  function Glued(chunks: seq<string>): string {
    if chunks == [] then "" else chunks[0] + Glued(chunks[1..])
  }

  lemma {:induction false} InkOfConcat(a: string, b: string)
    ensures Ink(a + b) == Ink(a) + Ink(b)
  {
    if a == [] {
      assert a + b == b;
    } else {
      assert (a + b)[1..] == a[1..] + b;
      InkOfConcat(a[1..], b);
    }
  }

  lemma {:induction false} NewlinesHaveNoInk(s: string)
    requires OnlyNewlines(s)
    ensures Ink(s) == ""
  {
    if s != [] {
      NewlinesHaveNoInk(s[1..]);
    }
  }

  lemma {:induction false} InkAtCut(text: string, cut: nat)
    requires cut <= |text|
    ensures Ink(text) == Ink(text[..cut]) + Ink(StripNewlines(text[cut..]))
  {
    var gap := StrippedAreNewlines(text[cut..]);
    var rest := StripNewlines(text[cut..]);
    assert text[..cut] + text[cut..] == text;
    InkOfConcat(text[..cut], text[cut..]);
    InkOfConcat(gap, rest);
    NewlinesHaveNoInk(gap);
  }

  /** Every other character is sent once, in order. */
  lemma {:induction false} InkIsKept(text: string, size: nat)
    requires size >= 1
    ensures Ink(Glued(Chunks(text, size))) == Ink(text)
    decreases |text|
  {
    if |text| > size {
      var cut := CutAt(text, size);
      var rest := Chunks(StripNewlines(text[cut..]), size);
      InkIsKept(StripNewlines(text[cut..]), size);
      InkAtCut(text, cut);
      InkOfConcat(text[..cut], Glued(rest));
      assert ([text[..cut]] + rest)[1..] == rest;
    } else if text != [] {
      assert [text][1..] == [];
      assert text + "" == text;
    }
  }

  lemma {:induction false} StrippedStart(text: string)
    ensures StripNewlines(text) != "" ==> StripNewlines(text)[0] != '\n'
  {
    if text != [] && text[0] == '\n' {
      StrippedStart(text[1..]);
    }
  }

  lemma {:induction false} FirstChunkStart(text: string, size: nat)
    requires size >= 1
    ensures Chunks(text, size) == [] <==> text == ""
    ensures text != "" ==> Chunks(text, size)[0] != "" && Chunks(text, size)[0][0] == text[0]
  {
  }

  /** No message but the first starts with a newline. */
  lemma {:induction false} ChunksStartWithText(text: string, size: nat, i: nat)
    requires size >= 1 && 0 < i < |Chunks(text, size)|
    ensures Chunks(text, size)[i] != "" && Chunks(text, size)[i][0] != '\n'
    decreases |text|
  {
    var rest := StripNewlines(text[CutAt(text, size)..]);
    StrippedStart(text[CutAt(text, size)..]);
    FirstChunkStart(rest, size);
    if i > 1 {
      ChunksStartWithText(rest, size, i - 1);
    }
  }

  /** Splitting the messages again changes nothing. */
  lemma {:induction false} ChunksAreStable(text: string, size: nat, i: nat)
    requires size >= 1 && i < |Chunks(text, size)|
    ensures Chunks(Chunks(text, size)[i], size) == [Chunks(text, size)[i]]
  {
    ChunksFit(text, size);
    assert Chunks(text, size)[i] in Chunks(text, size);
  }
}
