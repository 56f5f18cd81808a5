/** Cutting a text into overlapping chunks, by size or along segment borders. A text is a sequence of runes. */
module Chunker {

  function Min(a: int, b: int): int {
    if a < b then a else b
  }

  function Max(a: int, b: int): int {
    if a < b then b else a
  }

  /** The later chunks without the `overlap` runes that each repeats of the chunk before it, fewer if it is shorter. */
  function Tails(chunks: seq<string>, overlap: nat): string {
    if chunks == [] then "" else chunks[0][Min(overlap, |chunks[0]|)..] + Tails(chunks[1..], overlap)
  }

  function Rebuild(chunks: seq<string>, overlap: nat): string {
    if chunks == [] then "" else chunks[0] + Tails(chunks[1..], overlap)
  }

  // ---------- Fixed size ----------

  function Size(size: int): int {
    if size <= 0 then 512 else size
  }

  /** The overlap in use: one that is not smaller than the size is cut to a quarter of it. */
  function Overlap(size: int, overlap: int): int {
    if overlap >= Size(size) then Size(size) / 4 else overlap
  }

  function Fixed(runes: string, size: int, overlap: int, start: nat): seq<string>
    requires size > overlap && size > 0
    decreases |runes| - start
  {
    if start >= |runes| then []
    else [runes[start..Min(start + size, |runes|)]] + Fixed(runes, size, overlap, start + (size - overlap))
  }

  lemma FixedUnfold(front: seq<string>, runes: string, size: int, overlap: int, start: nat)
    requires size > overlap && size > 0 && start < |runes|
    ensures front + Fixed(runes, size, overlap, start)
         == front + [runes[start..Min(start + size, |runes|)]] + Fixed(runes, size, overlap, start + (size - overlap))
  {
  }

  method ChunkFixed(runes: string, size0: int, overlap0: int) returns (chunks: seq<string>)
    ensures chunks == Fixed(runes, Size(size0), Overlap(size0, overlap0), 0)
  {
    var size, overlap := size0, overlap0;
    if size <= 0 {
      size := 512;
    }
    if overlap >= size {
      overlap := size / 4;
    }
    chunks := [];
    var start := 0;
    while start < |runes|
      invariant 0 <= start
      invariant chunks + Fixed(runes, size, overlap, start) == Fixed(runes, size, overlap, 0)
      decreases |runes| - start
    {
      FixedUnfold(chunks, runes, size, overlap, start);
      var end := start + size;
      if end > |runes| {
        end := |runes|;
      }
      ghost var before := chunks;
      chunks := chunks + [runes[start..end]];
      assert chunks + Fixed(runes, size, overlap, start + (size - overlap))
          == before + Fixed(runes, size, overlap, start);
      start := start + (size - overlap);
      if start >= |runes| {
        break;
      }
    }
  }

  lemma {:induction false} FixedTails(runes: string, size: int, overlap: nat, start: nat)
    requires size > overlap && start <= |runes| + size - overlap
    ensures Tails(Fixed(runes, size, overlap, start), overlap) == runes[Min(start + overlap, |runes|)..]
    decreases |runes| - start
  {
    if start < |runes| {
      var stop := Min(start + size, |runes|);
      var chunk := runes[start..stop];
      FixedTails(runes, size, overlap, start + (size - overlap));
      var cs := Fixed(runes, size, overlap, start);
      assert cs[1..] == Fixed(runes, size, overlap, start + (size - overlap));
      assert chunk[Min(overlap, |chunk|)..] == runes[Min(start + overlap, |runes|)..stop];
    }
  }

  lemma {:induction false} FixedShape(runes: string, size: int, overlap: int, start: nat)
    requires size > overlap && size > 0
    ensures forall c | c in Fixed(runes, size, overlap, start) :: 0 < |c| <= size
    ensures overlap < 0 ==> |Tails(Fixed(runes, size, overlap, start), 0)| <= Max(0, |runes| - start)
    decreases |runes| - start
  {
    if start < |runes| {
      FixedShape(runes, size, overlap, start + (size - overlap));
      var cs := Fixed(runes, size, overlap, start);
      assert cs[1..] == Fixed(runes, size, overlap, start + (size - overlap));
    }
  }

  lemma FixedFirst(runes: string, size: int, overlap: int)
    requires size > overlap && size > 0 && runes != ""
    ensures var chunks := Fixed(runes, size, overlap, 0);
            && chunks != [] && chunks[0] == runes[..Min(size, |runes|)]
            && chunks[1..] == Fixed(runes, size, overlap, size - overlap)
  {
  }

  lemma FixedCovers(runes: string, size: int, overlap: nat)
    requires size > overlap
    ensures Rebuild(Fixed(runes, size, overlap, 0), overlap) == runes
  {
    if runes != "" {
      FixedFirst(runes, size, overlap);
      FixedTails(runes, size, overlap, size - overlap);
      assert runes == runes[..Min(size, |runes|)] + runes[Min(size, |runes|)..];
    }
  }

  lemma FixedSkips(runes: string, size: int, overlap: int)
    requires size > 0 > overlap
    ensures Rebuild(Fixed(runes, size, overlap, 0), 0) == runes <==> |runes| <= size
  {
    if runes != "" {
      FixedFirst(runes, size, overlap);
      FixedShape(runes, size, overlap, size - overlap);
      if |runes| <= size {
        assert runes[..|runes|] == runes;
      }
    }
  }

  /** Every chunk is non-empty and within the size, and dropping the overlaps gives the text back, exactly when the
      configured overlap is not negative or the text fits one chunk: a negative overlap skips runes between chunks. */
  lemma FixedLosesNothing(runes: string, size0: int, overlap0: int)
    ensures var size, overlap := Size(size0), Overlap(size0, overlap0);
            var chunks := Fixed(runes, size, overlap, 0);
            && (forall c | c in chunks :: 0 < |c| <= size)
            && (Rebuild(chunks, Max(overlap, 0)) == runes <==> overlap0 >= 0 || |runes| <= size)
  {
    var size, overlap := Size(size0), Overlap(size0, overlap0);
    FixedShape(runes, size, overlap, 0);
    if overlap >= 0 {
      FixedCovers(runes, size, overlap);
    } else {
      FixedSkips(runes, size, overlap);
    }
  }

  /** The chunk that starts at `from`, the last one when no other would start. */
  predicate IsWindow(runes: string, size: int, step: int, from: int, chunk: string, last: bool)
    requires size > 0
  {
    && 0 <= from < |runes|
    && chunk == runes[from..if from + size < |runes| then from + size else |runes|]
    && (last <==> from + step >= |runes|)
  }

  lemma {:induction false} FixedAt(runes: string, size: int, overlap: int, start: nat, k: nat)
    requires size > overlap && size > 0 && k < |Fixed(runes, size, overlap, start)|
    ensures var chunks := Fixed(runes, size, overlap, start);
            IsWindow(runes, size, size - overlap, start + k * (size - overlap), chunks[k], k == |chunks| - 1)
    decreases k
  {
    var rest := Fixed(runes, size, overlap, start + (size - overlap));
    FixedUnfold([], runes, size, overlap, start);
    if k == 0 {
      assert rest == [] <==> start + (size - overlap) >= |runes|;
    } else {
      FixedAt(runes, size, overlap, start + (size - overlap), k - 1);
      assert start + (size - overlap) + (k - 1) * (size - overlap) == start + k * (size - overlap);
    }
  }

  /** The chunks of a text in terms of what is configured: each starts a size without the overlap after the one before
      it, 512 being the size for none and a quarter the overlap for one too large, and is a size long but for the end of
      the text; the last one is where no other would start. */
  lemma WindowsOfTheText(runes: string, size0: int, overlap0: int, size: int, overlap: int)
    requires size == if size0 <= 0 then 512 else size0
    requires overlap == if overlap0 < size then overlap0 else size / 4
    ensures var chunks := Fixed(runes, Size(size0), Overlap(size0, overlap0), 0);
            && (chunks == [] <==> runes == "")
            && forall k | 0 <= k < |chunks| ::
                 IsWindow(runes, size, size - overlap, k * (size - overlap), chunks[k], k == |chunks| - 1)
  {
    var chunks := Fixed(runes, size, overlap, 0);
    forall k | 0 <= k < |chunks|
      ensures IsWindow(runes, size, size - overlap, k * (size - overlap), chunks[k], k == |chunks| - 1)
    {
      FixedAt(runes, size, overlap, 0, k);
    }
  }

  // ---------- Segments ----------

  function Concat(parts: seq<string>): string {
    if parts == [] then "" else Concat(parts[..|parts| - 1]) + parts[|parts| - 1]
  }

  /** What a new chunk repeats of the one before it. */
  function Repeat(previous: string, overlap: int): string {
    if overlap > 0 then previous[Max(0, |previous| - overlap)..] else ""
  }

  /** The chunks without their repeated beginnings; a repetition is the whole previous chunk if that is shorter. */
  function RebuildMerged(chunks: seq<string>, overlap: int): string {
    if chunks == [] then ""
    else if |chunks| == 1 then chunks[0]
    else
      var n := |chunks| - 1;
      RebuildMerged(chunks[..n], overlap)
      + chunks[n][Min(|Repeat(chunks[n - 1], overlap)|, |chunks[n]|)..]
  }

  /** The chunks closed so far and the one being filled. */
  datatype Merge = Merge(chunks: seq<string>, current: string)

  function MergeStep(m: Merge, seg: string, size: int, overlap: int): Merge {
    if m.current != "" && |m.current| + |seg| > size
    then Merge(m.chunks + [m.current], Repeat(m.current, overlap) + seg)
    else Merge(m.chunks, m.current + seg)
  }

  function MergeAll(segments: seq<string>, size: int, overlap: int): Merge {
    if segments == [] then Merge([], "")
    else MergeStep(MergeAll(segments[..|segments| - 1], size, overlap), segments[|segments| - 1], size, overlap)
  }

  function Merged(segments: seq<string>, size: int, overlap: int): seq<string> {
    var m := MergeAll(segments, size, overlap);
    if m.current != "" then m.chunks + [m.current] else m.chunks
  }

  lemma MergeSnoc(segments: seq<string>, i: nat, size: int, overlap: int)
    requires i < |segments|
    ensures MergeAll(segments[..i + 1], size, overlap)
         == MergeStep(MergeAll(segments[..i], size, overlap), segments[i], size, overlap)
  {
    assert segments[..i + 1][..i] == segments[..i];
  }

  /** The body of the loop over the segments. */
  method AddSegment(chunks0: seq<string>, current0: string, seg: string, size: int, overlap: int)
    returns (chunks: seq<string>, current: string)
    ensures Merge(chunks, current) == MergeStep(Merge(chunks0, current0), seg, size, overlap)
  {
    chunks, current := chunks0, current0;
    if |current| > 0 && |current| + |seg| > size {
      chunks := chunks + [current];
      current := "";
      if overlap > 0 && |chunks| > 0 {
        var prev := chunks[|chunks| - 1];
        var overlapStart := |prev| - overlap;
        if overlapStart < 0 {
          overlapStart := 0;
        }
        current := current + prev[overlapStart..];
        assert current == Repeat(current0, overlap);
      }
    }
    current := current + seg;
  }

  method MergeChunks(segments: seq<string>, size: int, overlap: int) returns (chunks: seq<string>)
    ensures chunks == Merged(segments, size, overlap)
  {
    chunks := [];
    if |segments| == 0 {
      return;
    }
    var current := "";
    for i := 0 to |segments|
      invariant Merge(chunks, current) == MergeAll(segments[..i], size, overlap)
    {
      MergeSnoc(segments, i, size, overlap);
      chunks, current := AddSegment(chunks, current, segments[i], size, overlap);
    }
    assert segments[..|segments|] == segments;
    if |current| > 0 {
      chunks := chunks + [current];
    }
  }

  /** The chunk being filled starts with what it repeats, and everything so far can be put together again. */
  predicate Whole(m: Merge, text: string, overlap: int) {
    if m.chunks == [] then m.current == text
    else
      var head := Repeat(m.chunks[|m.chunks| - 1], overlap);
      head <= m.current && RebuildMerged(m.chunks, overlap) + m.current[|head|..] == text
  }

  lemma WholeGrows(chunks: seq<string>, current: string, text: string, seg: string, overlap: int)
    requires Whole(Merge(chunks, current), text, overlap)
    ensures Whole(Merge(chunks, current + seg), text + seg, overlap)
  {
    if chunks != [] {
      var head := Repeat(chunks[|chunks| - 1], overlap);
      var done := RebuildMerged(chunks, overlap);
      assert (current + seg)[|head|..] == current[|head|..] + seg;
      assert done + (current[|head|..] + seg) == (done + current[|head|..]) + seg;
    }
  }

  lemma WholeCloses(chunks: seq<string>, current: string, text: string, seg: string, overlap: int)
    requires Whole(Merge(chunks, current), text, overlap)
    ensures Whole(Merge(chunks + [current], Repeat(current, overlap) + seg), text + seg, overlap)
  {
    var all, head := chunks + [current], Repeat(current, overlap);
    assert all[..|chunks|] == chunks && (head + seg)[|head|..] == seg;
    assert RebuildMerged(all, overlap) == text;
  }

  lemma WholeStep(m: Merge, text: string, seg: string, size: int, overlap: int)
    requires Whole(m, text, overlap)
    ensures Whole(MergeStep(m, seg, size, overlap), text + seg, overlap)
  {
    WholeGrows(m.chunks, m.current, text, seg, overlap);
    WholeCloses(m.chunks, m.current, text, seg, overlap);
  }

  lemma {:induction false} MergeIsWhole(segments: seq<string>, size: int, overlap: int)
    ensures Whole(MergeAll(segments, size, overlap), Concat(segments), overlap)
  {
    if segments != [] {
      var n := |segments| - 1;
      MergeIsWhole(segments[..n], size, overlap);
      WholeStep(MergeAll(segments[..n], size, overlap), Concat(segments[..n]), segments[n], size, overlap);
    }
  }

  /** Dropping the repetitions gives the segments back in order, for every size and overlap. */
  lemma MergeLosesNothing(segments: seq<string>, size: int, overlap: int)
    ensures RebuildMerged(Merged(segments, size, overlap), overlap) == Concat(segments)
  {
    var m := MergeAll(segments, size, overlap);
    MergeIsWhole(segments, size, overlap);
    if m.current != "" {
      assert (m.chunks + [m.current])[..|m.chunks|] == m.chunks;
    } else if m.chunks != [] {
      assert m.current[0..] == "";
    }
  }

  predicate SegmentsUpTo(segments: seq<string>, longest: nat) {
    forall s | s in segments :: |s| <= longest
  }

  lemma {:induction false} MergeIsBounded(segments: seq<string>, size: int, overlap: int, longest: nat)
    requires SegmentsUpTo(segments, longest)
    ensures var m := MergeAll(segments, size, overlap);
            && |m.current| <= Max(size, Max(overlap, 0) + longest)
            && forall c | c in m.chunks :: 0 < |c| <= Max(size, Max(overlap, 0) + longest)
  {
    if segments != [] {
      var n := |segments| - 1;
      assert segments[n] in segments && forall s | s in segments[..n] :: s in segments;
      MergeIsBounded(segments[..n], size, overlap, longest);
    }
  }

  /** No chunk is empty, and none exceeds the size or the overlap plus the longest segment, whichever is larger. */
  lemma MergedChunksAreBounded(segments: seq<string>, size: int, overlap: int, longest: nat)
    requires SegmentsUpTo(segments, longest)
    ensures forall c | c in Merged(segments, size, overlap) :: 0 < |c| <= Max(size, Max(overlap, 0) + longest)
  {
    MergeIsBounded(segments, size, overlap, longest);
  }

  // ---------- Which segments share a chunk ----------

  /** The last runes of a chunk, all of it if it is no longer than the overlap. */
  function LastRunes(chunk: string, overlap: int): string {
    if overlap <= 0 then "" else if overlap >= |chunk| then chunk else chunk[|chunk| - overlap..]
  }

  /** A chunk that starts with `head` takes its first segment as it is, and each further one that fits. */
  ghost predicate Fits(head: string, segs: seq<string>, size: int) {
    forall j | 1 <= j < |segs| ::
      var before := head + Concat(segs[..j]);
      before == "" || |before| + |segs[j]| <= size
  }

  /** `current` holds the segments from some place on, behind the repeated end of the last closed chunk; that chunk
      holds the segments up to there in the same way, and could not take the next. */
  ghost predicate Greedy(segments: seq<string>, closed: seq<string>, current: string, size: int, overlap: int)
    decreases |closed|
  {
    exists at: nat | at <= |segments| :: FilledFrom(segments, closed, current, size, overlap, at)
  }

  ghost predicate FilledFrom(segments: seq<string>, closed: seq<string>, current: string, size: int, overlap: int,
                             at: nat)
    requires at <= |segments|
    decreases |closed|, 0
  {
    if closed == [] then at == 0 && current == Concat(segments) && Fits("", segments, size)
    else
      var full, head := closed[|closed| - 1], LastRunes(closed[|closed| - 1], overlap);
      && at < |segments|
      && current == head + Concat(segments[at..]) && Fits(head, segments[at..], size)
      && full != "" && |full| + |segments[at]| > size
      && Greedy(segments[..at], closed[..|closed| - 1], full, size, overlap)
  }

  lemma ConcatSnoc(segs: seq<string>, seg: string)
    ensures Concat(segs + [seg]) == Concat(segs) + seg
  {
    assert (segs + [seg])[..|segs|] == segs;
  }

  lemma FitsSnoc(head: string, segs: seq<string>, seg: string, size: int)
    requires Fits(head, segs, size)
    requires segs == [] || head + Concat(segs) == "" || |head + Concat(segs)| + |seg| <= size
    ensures Fits(head, segs + [seg], size)
  {
    forall j | 1 <= j < |segs + [seg]|
      ensures var before := head + Concat((segs + [seg])[..j]);
              before == "" || |before| + |(segs + [seg])[j]| <= size
    {
      assert (segs + [seg])[..j] == if j < |segs| then segs[..j] else segs;
    }
  }

  lemma GreedyGrows(segments: seq<string>, closed: seq<string>, current: string, seg: string, size: int, overlap: int)
    requires Greedy(segments, closed, current, size, overlap) && (current == "" || |current| + |seg| <= size)
    ensures Greedy(segments + [seg], closed, current + seg, size, overlap)
  {
    var at: nat :| at <= |segments| && FilledFrom(segments, closed, current, size, overlap, at);
    if closed == [] {
      OneMoreFits("", segments, current, seg, size);
    } else {
      OneMoreFits(LastRunes(closed[|closed| - 1], overlap), segments[at..], current, seg, size);
      SliceOfSnoc(segments, seg, at);
    }
    assert FilledFrom(segments + [seg], closed, current + seg, size, overlap, at);
  }

  lemma OneMoreFits(head: string, segs: seq<string>, current: string, seg: string, size: int)
    requires Fits(head, segs, size) && current == head + Concat(segs) && (current == "" || |current| + |seg| <= size)
    ensures Fits(head, segs + [seg], size) && current + seg == head + Concat(segs + [seg])
  {
    FitsSnoc(head, segs, seg, size);
    ConcatSnoc(segs, seg);
  }

  lemma SliceOfSnoc(segments: seq<string>, seg: string, at: nat)
    requires at <= |segments|
    ensures (segments + [seg])[at..] == segments[at..] + [seg] && (segments + [seg])[..at] == segments[..at]
    ensures at < |segments| ==> (segments + [seg])[at] == segments[at]
  {
  }

  lemma OnlyOne(head: string, seg: string, size: int)
    ensures Fits(head, [seg], size) && Concat([seg]) == seg
  {
    ConcatSnoc([], seg);
    assert [] + [seg] == [seg];
  }

  lemma GreedyCloses(segments: seq<string>, closed: seq<string>, current: string, seg: string, size: int, overlap: int)
    requires Greedy(segments, closed, current, size, overlap) && current != "" && |current| + |seg| > size
    ensures Greedy(segments + [seg], closed + [current], LastRunes(current, overlap) + seg, size, overlap)
  {
    var all, at := segments + [seg], |segments|;
    OnlyOne(LastRunes(current, overlap), seg, size);
    assert all[at..] == [seg] && all[..at] == segments && all[at] == seg;
    assert (closed + [current])[..|closed|] == closed && (closed + [current])[|closed|] == current;
    assert FilledFrom(all, closed + [current], LastRunes(current, overlap) + seg, size, overlap, at);
  }

  lemma GreedyStep(segments: seq<string>, m: Merge, seg: string, size: int, overlap: int)
    requires Greedy(segments, m.chunks, m.current, size, overlap)
    ensures var m' := MergeStep(m, seg, size, overlap); Greedy(segments + [seg], m'.chunks, m'.current, size, overlap)
  {
    if m.current != "" && |m.current| + |seg| > size {
      GreedyCloses(segments, m.chunks, m.current, seg, size, overlap);
      assert Repeat(m.current, overlap) == LastRunes(m.current, overlap);
    } else {
      GreedyGrows(segments, m.chunks, m.current, seg, size, overlap);
    }
  }

  ghost predicate MergesGreedily(segments: seq<string>, size: int, overlap: int) {
    var m := MergeAll(segments, size, overlap);
    Greedy(segments, m.chunks, m.current, size, overlap)
  }

  lemma OneMoreSegment(front: seq<string>, seg: string, size: int, overlap: int)
    requires MergesGreedily(front, size, overlap)
    ensures MergesGreedily(front + [seg], size, overlap)
  {
    GreedyStep(front, MergeAll(front, size, overlap), seg, size, overlap);
    assert (front + [seg])[..|front|] == front;
  }

  lemma {:induction false} MergeAllIsGreedy(segments: seq<string>, size: int, overlap: int)
    ensures MergesGreedily(segments, size, overlap)
  {
    if segments == [] {
      assert FilledFrom(segments, [], "", size, overlap, 0);
    } else {
      var front, seg := segments[..|segments| - 1], segments[|segments| - 1];
      MergeAllIsGreedy(front, size, overlap);
      OneMoreSegment(front, seg, size, overlap);
      assert segments == front + [seg];
    }
  }

  /** Each chunk holds all the segments it can: one that still fits is never split off, and one that does not fit opens
      the next chunk, behind the last runes of this one. */
  lemma MergedChunksAreFilled(segments: seq<string>, size: int, overlap: int)
    ensures exists closed, current | Greedy(segments, closed, current, size, overlap) ::
              Merged(segments, size, overlap) == closed + if current == "" then [] else [current]
  {
    var m := MergeAll(segments, size, overlap);
    MergeAllIsGreedy(segments, size, overlap);
    assert Merged(segments, size, overlap) == m.chunks + if m.current == "" then [] else [m.current];
  }
}
