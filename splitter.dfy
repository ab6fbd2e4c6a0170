/**
 * `AIService._split_text_by_lines`: the text is split at newlines and the
 * lines are packed greedily, in order, into chunks whose line estimates add
 * up to at most the budget. A line whose own estimate exceeds the budget
 * closes the chunk being built and is cut into windows of `4 * budget`
 * characters.
 *
 * The specification is a left fold (`Run`) over the lines whose state records,
 * besides the open chunk, the finished segments: a `Group` of whole lines
 * (emitted as one chunk, the lines joined with newlines) or a `Cut` line
 * (emitted as its windows). The segments are what make the split lossless.
 */
module Splitter {
  import opened Text
  import opened Tokens

  datatype Segment = Group(lines: seq<string>) | Cut(line: string)

  /** The loop state: finished segments, the open chunk's lines, and their running estimate. */
  datatype State = State(done: seq<Segment>, current: seq<string>, tokens: nat)

  const Newline: string := "\n"

  function Min(a: int, b: int): int
  {
    if a <= b then a else b
  }

  /** The sum of the lines' own estimates. */
  function SumEstimates(lines: seq<string>): nat
  {
    if lines == [] then 0 else SumEstimates(lines[..|lines| - 1]) + Estimate(lines[|lines| - 1])
  }

  /** Close the open chunk, if it has any line. */
  function Flush(st: State): seq<Segment>
  {
    if st.current != [] then st.done + [Group(st.current)] else st.done
  }

  /** One iteration of the loop over lines. */
  function Step(st: State, line: string, budget: nat): State
  {
    var t := Estimate(line);
    if t > budget then State(Flush(st) + [Cut(line)], [], 0)
    else if st.tokens + t > budget then State(Flush(st), [line], t)
    else State(st.done, st.current + [line], st.tokens + t)
  }

  /** The loop state after the given lines. */
  function Run(lines: seq<string>, budget: nat): State
  {
    if lines == [] then State([], [], 0)
    else Step(Run(lines[..|lines| - 1], budget), lines[|lines| - 1], budget)
  }

  /** The segments the text is split into. */
  function Segments(text: string, budget: nat): seq<Segment>
  {
    Flush(Run(SplitOn(text, '\n'), budget))
  }

  /** `line[i:i + width]` for `i` in `range(start, len(line), width)`. */
  function WindowsFrom(s: string, start: nat, width: nat): seq<string>
    requires width > 0
    decreases |s| - start
  {
    if start >= |s| then [] else [s[start..Min(start + width, |s|)]] + WindowsFrom(s, start + width, width)
  }

  function Windows(s: string, width: nat): seq<string>
    requires width > 0
  {
    WindowsFrom(s, 0, width)
  }

  /** The chunks a segment is emitted as. */
  function Render(seg: Segment, width: nat): seq<string>
    requires width > 0
  {
    match seg
    case Group(lines) => [JoinWith(lines, Newline)]
    case Cut(line) => Windows(line, width)
  }

  function Flatten(segs: seq<Segment>, width: nat): seq<string>
    requires width > 0
  {
    if segs == [] then [] else Flatten(segs[..|segs| - 1], width) + Render(segs[|segs| - 1], width)
  }

  /** The chunks `_split_text_by_lines(text, budget)` returns. */
  function Chunks(text: string, budget: nat): seq<string>
    requires budget > 0
  {
    Flatten(Segments(text, budget), 4 * budget)
  }

  /** The lines of a segment, in order. */
  function SegmentLines(seg: Segment): seq<string>
  {
    match seg
    case Group(lines) => lines
    case Cut(line) => [line]
  }

  function AllLines(segs: seq<Segment>): seq<string>
  {
    if segs == [] then [] else AllLines(segs[..|segs| - 1]) + SegmentLines(segs[|segs| - 1])
  }

  /** The text a segment stands for: its lines joined with newlines. */
  function SegmentText(seg: Segment): string
  {
    JoinWith(SegmentLines(seg), Newline)
  }

  function Texts(segs: seq<Segment>): seq<string>
  {
    if segs == [] then [] else Texts(segs[..|segs| - 1]) + [SegmentText(segs[|segs| - 1])]
  }

  /** A group is non-empty and within budget by its line estimates; a cut line alone exceeds the budget. */
  predicate GoodSegment(seg: Segment, budget: nat)
  {
    match seg
    case Group(lines) => lines != [] && SumEstimates(lines) <= budget
    case Cut(line) => Estimate(line) > budget
  }

  predicate AllGood(segs: seq<Segment>, budget: nat)
  {
    forall i :: 0 <= i < |segs| ==> GoodSegment(segs[i], budget)
  }

  /** What the loop keeps true: nothing lost or reordered, every finished segment good, the running estimate exact and within budget. */
  predicate Invariant(st: State, lines: seq<string>, budget: nat)
  {
    && AllLines(st.done) + st.current == lines
    && AllGood(st.done, budget)
    && SumEstimates(st.current) == st.tokens <= budget
  }

  lemma AllLinesAppend(segs: seq<Segment>, seg: Segment)
    ensures AllLines(segs + [seg]) == AllLines(segs) + SegmentLines(seg)
  {
    assert (segs + [seg])[..|segs|] == segs;
  }

  lemma SumEstimatesAppend(lines: seq<string>, line: string)
    ensures SumEstimates(lines + [line]) == SumEstimates(lines) + Estimate(line)
  {
    assert (lines + [line])[..|lines|] == lines;
  }

  lemma FlushKeeps(st: State, lines: seq<string>, budget: nat)
    requires Invariant(st, lines, budget)
    ensures AllLines(Flush(st)) == lines && AllGood(Flush(st), budget)
  {
    if st.current != [] {
      AllLinesAppend(st.done, Group(st.current));
    }
  }

  lemma AllGoodAppend(segs: seq<Segment>, seg: Segment, budget: nat)
    requires AllGood(segs, budget) && GoodSegment(seg, budget)
    ensures AllGood(segs + [seg], budget)
  {
  }

  lemma CutKeeps(st: State, lines: seq<string>, line: string, budget: nat)
    requires Invariant(st, lines, budget) && Estimate(line) > budget
    ensures Invariant(State(Flush(st) + [Cut(line)], [], 0), lines + [line], budget)
  {
    FlushKeeps(st, lines, budget);
    AllLinesAppend(Flush(st), Cut(line));
    AllGoodAppend(Flush(st), Cut(line), budget);
  }

  lemma RestartKeeps(st: State, lines: seq<string>, line: string, budget: nat)
    requires Invariant(st, lines, budget) && Estimate(line) <= budget
    ensures Invariant(State(Flush(st), [line], Estimate(line)), lines + [line], budget)
  {
    FlushKeeps(st, lines, budget);
    SumEstimatesAppend([], line);
    assert [] + [line] == [line];
  }

  lemma ExtendKeeps(st: State, lines: seq<string>, line: string, budget: nat)
    requires Invariant(st, lines, budget) && st.tokens + Estimate(line) <= budget
    ensures Invariant(State(st.done, st.current + [line], st.tokens + Estimate(line)), lines + [line], budget)
  {
    SumEstimatesAppend(st.current, line);
    assert AllLines(st.done) + (st.current + [line]) == lines + [line];
  }

  /** Each iteration keeps the invariant. */
  lemma StepKeeps(st: State, prefix: seq<string>, line: string, lines: seq<string>, budget: nat)
    requires Invariant(st, prefix, budget) && prefix + [line] == lines
    ensures Invariant(Step(st, line, budget), lines, budget)
  {
    var t := Estimate(line);
    if t > budget {
      CutKeeps(st, prefix, line, budget);
    } else if st.tokens + t > budget {
      RestartKeeps(st, prefix, line, budget);
    } else {
      ExtendKeeps(st, prefix, line, budget);
    }
  }

  lemma {:induction false} RunKeepsUpTo(lines: seq<string>, k: nat, budget: nat)
    requires k <= |lines|
    ensures Invariant(Run(lines[..k], budget), lines[..k], budget)
  {
    if k > 0 {
      RunKeepsUpTo(lines, k - 1, budget);
      RunStep(lines, k - 1, budget);
      assert lines[..k - 1] + [lines[k - 1]] == lines[..k];
      StepKeeps(Run(lines[..k - 1], budget), lines[..k - 1], lines[k - 1], lines[..k], budget);
    }
  }

  lemma RunKeeps(lines: seq<string>, budget: nat)
    ensures Invariant(Run(lines, budget), lines, budget)
  {
    RunKeepsUpTo(lines, |lines|, budget);
    assert lines[..|lines|] == lines;
  }

  /**
   * The segments are good and, in order, hold exactly the lines of the text:
   * no line is dropped, duplicated or moved.
   */
  lemma SegmentsKeepLines(text: string, budget: nat)
    ensures AllLines(Segments(text, budget)) == SplitOn(text, '\n')
    ensures AllGood(Segments(text, budget), budget)
  {
    RunKeeps(SplitOn(text, '\n'), budget);
    FlushKeeps(Run(SplitOn(text, '\n'), budget), SplitOn(text, '\n'), budget);
  }

  lemma {:induction false} JoinSegments(segs: seq<Segment>, budget: nat)
    requires AllGood(segs, budget)
    ensures JoinWith(Texts(segs), Newline) == JoinWith(AllLines(segs), Newline)
    ensures segs != [] ==> AllLines(segs) != []
  {
    if segs != [] {
      var init := segs[..|segs| - 1];
      var last := segs[|segs| - 1];
      assert GoodSegment(last, budget);
      assert AllGood(init, budget);
      JoinSegments(init, budget);
      if init != [] {
        JoinAppend(Texts(init), [SegmentText(last)], Newline);
        JoinAppend(AllLines(init), SegmentLines(last), Newline);
      } else {
        assert Texts(segs) == [SegmentText(last)];
        assert AllLines(segs) == SegmentLines(last);
      }
    }
  }

  /**
   * The split is lossless: joining the segments' texts with newlines gives the
   * text back, where a cut line's text is its windows put back together.
   */
  lemma SegmentsReassemble(text: string, budget: nat)
    ensures JoinWith(Texts(Segments(text, budget)), Newline) == text
  {
    SegmentsKeepLines(text, budget);
    JoinSegments(Segments(text, budget), budget);
    JoinSplit(text, '\n');
  }

  /** Windows put back together give the rest of the line; each is non-empty and at most `width` long, and all but the last are exactly `width` long. */
  lemma {:induction false} WindowsCover(s: string, start: nat, width: nat)
    requires width > 0 && start <= |s|
    ensures Concat(WindowsFrom(s, start, width)) == s[start..]
    ensures forall i :: 0 <= i < |WindowsFrom(s, start, width)| ==> 0 < |WindowsFrom(s, start, width)[i]| <= width
    ensures forall i :: 0 <= i < |WindowsFrom(s, start, width)| - 1 ==> |WindowsFrom(s, start, width)[i]| == width
    decreases |s| - start
  {
    if start < |s| {
      var w := s[start..Min(start + width, |s|)];
      var next := Min(start + width, |s|);
      var rest := WindowsFrom(s, start + width, width);
      if start + width <= |s| {
        WindowsCover(s, start + width, width);
        assert s[start..] == w + s[start + width..];
        assert WindowsFrom(s, start, width) == [w] + rest;
      } else {
        assert rest == [];
        assert WindowsFrom(s, start, width) == [w];
      }
    }
  }

  /** A cut line is rendered as windows that put it back together. */
  lemma CutReassembles(line: string, width: nat)
    requires width > 0
    ensures Concat(Windows(line, width)) == line
  {
    WindowsCover(line, 0, width);
  }

  /** Each segment's chunks put back together: a group's one chunk, or a cut line's windows concatenated. */
  function Glued(segs: seq<Segment>, width: nat): seq<string>
    requires width > 0
  {
    if segs == [] then [] else Glued(segs[..|segs| - 1], width) + [Concat(Render(segs[|segs| - 1], width))]
  }

  /** Putting each segment's chunks back together gives the segment's text. */
  lemma {:induction false} GluedTexts(segs: seq<Segment>, width: nat)
    requires width > 0
    ensures Glued(segs, width) == Texts(segs)
  {
    if segs != [] {
      GluedTexts(segs[..|segs| - 1], width);
      match segs[|segs| - 1]
      case Group(lines) =>
        var j := JoinWith(lines, Newline);
        assert [j][1..] == [];
        assert Concat(Render(Group(lines), width)) == j;
      case Cut(line) =>
        CutReassembles(line, width);
        assert JoinWith([line], Newline) == line;
    }
  }

  /** Regrouping the chunks segment by segment neither adds nor drops a character. */
  lemma {:induction false} GluedFlatten(segs: seq<Segment>, width: nat)
    requires width > 0
    ensures Concat(Glued(segs, width)) == Concat(Flatten(segs, width))
  {
    if segs != [] {
      var init := segs[..|segs| - 1];
      var last := Render(segs[|segs| - 1], width);
      GluedFlatten(init, width);
      ConcatAppend(Glued(init, width), [Concat(last)]);
      ConcatAppend(Flatten(init, width), last);
      assert Concat([Concat(last)]) == Concat(last) + Concat([]);
    }
  }

  /**
   * Nothing is lost: the chunks, put back together segment by segment (a
   * cut line's windows concatenated) and joined with newlines, give the text
   * back, and the regrouping holds exactly the characters of the chunks.
   */
  lemma ChunksReassemble(text: string, budget: nat)
    requires budget > 0
    ensures JoinWith(Glued(Segments(text, budget), 4 * budget), Newline) == text
    ensures Concat(Glued(Segments(text, budget), 4 * budget)) == Concat(Chunks(text, budget))
  {
    GluedTexts(Segments(text, budget), 4 * budget);
    SegmentsReassemble(text, budget);
    GluedFlatten(Segments(text, budget), 4 * budget);
  }

  /** The line estimates of a joined text never exceed the estimate of the whole. */
  lemma {:induction false} SumWithinJoin(lines: seq<string>)
    ensures SumEstimates(lines) <= Estimate(JoinWith(lines, Newline))
  {
    if |lines| == 1 {
      assert lines[..0] == [];
    } else if |lines| > 1 {
      var init := lines[..|lines| - 1];
      var last := lines[|lines| - 1];
      SumWithinJoin(init);
      assert init + [last] == lines;
      JoinAppend(init, [last], Newline);
      EstimateAppend(JoinWith(init, Newline), Newline);
      EstimateAppend(JoinWith(init, Newline) + Newline, last);
    }
  }

  lemma {:induction false} SumPrefix(lines: seq<string>, k: nat)
    requires k <= |lines|
    ensures SumEstimates(lines[..k]) <= SumEstimates(lines)
    decreases |lines| - k
  {
    if k < |lines| {
      SumPrefix(lines, k + 1);
      assert lines[..k + 1][..k] == lines[..k];
    } else {
      assert lines[..k] == lines;
    }
  }

  /** While the lines' estimates add up to at most the budget, they all stay in the open chunk. */
  lemma {:induction false} RunFits(lines: seq<string>, budget: nat)
    requires SumEstimates(lines) <= budget
    ensures Run(lines, budget) == State([], lines, SumEstimates(lines))
  {
    if lines != [] {
      var prefix := lines[..|lines| - 1];
      SumPrefix(lines, |lines| - 1);
      RunFits(prefix, budget);
      assert prefix + [lines[|lines| - 1]] == lines;
    }
  }

  /** A text whose estimate fits the budget comes back as a single chunk, unchanged. */
  lemma FitsInOneChunk(text: string, budget: nat)
    requires budget > 0 && Estimate(text) <= budget
    ensures Chunks(text, budget) == [text]
  {
    var lines := SplitOn(text, '\n');
    SumWithinJoin(lines);
    JoinSplit(text, '\n');
    RunFits(lines, budget);
    assert Segments(text, budget) == [Group(lines)];
    assert Flatten([Group(lines)], 4 * budget) == [JoinWith(lines, Newline)];
  }

  lemma {:induction false} FlattenNonEmpty(segs: seq<Segment>, width: nat, budget: nat)
    requires width > 0 && AllGood(segs, budget) && segs != []
    ensures Flatten(segs, width) != []
  {
    var last := segs[|segs| - 1];
    assert GoodSegment(last, budget);
    if last.Cut? {
      assert Estimate(last.line) > 0;
      assert |last.line| > 0;
      assert Windows(last.line, width)[0] == last.line[0..Min(width, |last.line|)];
    }
  }

  /** Every text, the empty one included, gives at least one chunk. */
  lemma ChunksNonEmpty(text: string, budget: nat)
    requires budget > 0
    ensures |Chunks(text, budget)| >= 1
  {
    SegmentsKeepLines(text, budget);
    assert Segments(text, budget) != [];
    FlattenNonEmpty(Segments(text, budget), 4 * budget, budget);
  }

  /** Empty content is one empty chunk, not zero chunks. */
  lemma EmptyTextOneChunk(budget: nat)
    requires budget > 0
    ensures Chunks("", budget) == [""]
  {
    FitsInOneChunk("", budget);
  }

  /**
   * The budget bounds the sum of the line estimates of a chunk, not the
   * chunk's own estimate: lines estimated at zero tokens are packed for free,
   * and the newlines that join them are never counted. Three copies of a
   * two-character line estimated at zero (such as "ab") under a budget of 1
   * form a single chunk of 8 characters, estimated at 2 tokens or more.
   */
  lemma GroupMayExceedBudget(w: string)
    requires |w| == 2 && Estimate(w) == 0 && '\n' !in w
    ensures Chunks(JoinWith([w, w, w], Newline), 1) == [JoinWith([w, w, w], Newline)]
    ensures Estimate(JoinWith([w, w, w], Newline)) >= 2
  {
    var lines := [w, w, w];
    var text := JoinWith(lines, Newline);
    assert lines[1..] == [w, w] && [w, w][1..] == [w];
    assert JoinWith([w, w], Newline) == w + Newline + w;
    assert text == w + Newline + (w + Newline + w);
    SplitJoin(lines, '\n');
    assert lines[..2] == [w, w] && [w, w][..1] == [w] && [w][..0] == [];
    assert SumEstimates([w]) == 0;
    assert SumEstimates([w, w]) == 0;
    RunFits(lines, 1);
    assert Segments(text, 1) == [Group(lines)];
    assert Flatten([Group(lines)], 4) == [text];
  }

  /** `chunks` followed by the windows of `line` of the given width. */
  method AppendWindows(chunks: seq<string>, line: string, width: nat) returns (r: seq<string>)
    requires width > 0
    ensures r == chunks + Windows(line, width)
  {
    r := chunks;
    var i := 0;
    while i < |line|
      invariant r + WindowsFrom(line, i, width) == chunks + Windows(line, width)
    {
      r := r + [line[i..Min(i + width, |line|)]];
      i := i + width;
    }
  }

  lemma RunStep(lines: seq<string>, k: nat, budget: nat)
    requires k < |lines|
    ensures Run(lines[..k + 1], budget) == Step(Run(lines[..k], budget), lines[k], budget)
  {
    assert lines[..k + 1][..k] == lines[..k];
  }

  /** `AIService._split_text_by_lines` */
  method SplitTextByLines(text: string, maxTokens: nat) returns (chunks: seq<string>)
    requires maxTokens > 0
    ensures chunks == Chunks(text, maxTokens)
  {
    var lines := SplitOn(text, '\n');
    var charLimit := maxTokens * 4;
    chunks := [];
    var currentChunk: seq<string> := [];
    var currentTokens: nat := 0;
    ghost var done: seq<Segment> := [];
    var k := 0;
    while k < |lines|
      invariant 0 <= k <= |lines|
      invariant Run(lines[..k], maxTokens) == State(done, currentChunk, currentTokens)
      invariant chunks == Flatten(done, charLimit)
    {
      var line := lines[k];
      var lineTokens := Estimate(line);
      RunStep(lines, k, maxTokens);
      ghost var next := Step(State(done, currentChunk, currentTokens), line, maxTokens);
      if lineTokens > maxTokens || currentTokens + lineTokens > maxTokens {
        if currentChunk != [] {
          FlattenAppend(done, Group(currentChunk), charLimit);
          chunks := chunks + [JoinWith(currentChunk, Newline)];
          done := done + [Group(currentChunk)];
        }
        if lineTokens > maxTokens {
          FlattenAppend(done, Cut(line), charLimit);
          chunks := AppendWindows(chunks, line, charLimit);
          done := done + [Cut(line)];
          currentChunk := [];
          currentTokens := 0;
        } else {
          currentChunk := [line];
          currentTokens := lineTokens;
        }
      } else {
        currentChunk := currentChunk + [line];
        currentTokens := currentTokens + lineTokens;
      }
      assert State(done, currentChunk, currentTokens) == next;
      k := k + 1;
    }
    assert lines[..k] == lines;
    if currentChunk != [] {
      FlattenAppend(done, Group(currentChunk), charLimit);
      chunks := chunks + [JoinWith(currentChunk, Newline)];
    }
  }

  lemma FlattenAppend(segs: seq<Segment>, seg: Segment, width: nat)
    requires width > 0
    ensures Flatten(segs + [seg], width) == Flatten(segs, width) + Render(seg, width)
  {
    assert (segs + [seg])[..|segs|] == segs;
  }
}
