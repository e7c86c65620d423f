/** What chunking keeps: sentences are neither lost, reordered, repeated nor cut, the cap and the floor hold, and every
    character of the text that is not whitespace or part of a heading line is in exactly one chunk body. */
module ChunkerProofs {
  import opened Basics
  import opened Text
  import opened Chunker

  // ---------------------------------------------------------------- groups partition the sentences

  predicate NoneEmpty(groups: seq<seq<string>>) {
    forall i :: 0 <= i < |groups| ==> groups[i] != []
  }

  /** The groups are all nonempty and together they are the sentences. */
  predicate Partition(groups: seq<seq<string>>, sentences: seq<string>) {
    NoneEmpty(groups) && Flat(groups) == sentences
  }

  lemma PartitionPush(group: seq<string>, groups: seq<seq<string>>, sentences: seq<string>)
    requires group != [] && Partition(groups, sentences)
    ensures Partition([group] + groups, group + sentences)
  {
    FlatCons(group, groups);
  }

  lemma {:induction false} PackPartitions(buffer: seq<string>, sentences: seq<string>, reserve: int)
    ensures Partition(Pack(buffer, sentences, reserve), buffer + sentences)
    decreases |sentences|
  {
    if sentences == [] {
      FlatOne(buffer);
      assert buffer + [] == buffer;
    } else {
      var one, rest := [sentences[0]], sentences[1..];
      PackPartitions(one, rest, reserve);
      PackPartitions([], rest, reserve);
      PackPartitions(buffer + one, rest, reserve);
      PackOneMore(buffer, sentences, one, rest, reserve);
    }
  }

  lemma PackOneMore(
    buffer: seq<string>, sentences: seq<string>, one: seq<string>, rest: seq<string>, reserve: int)
    requires sentences != [] && one == [sentences[0]] && rest == sentences[1..]
    requires Partition(Pack(one, rest, reserve), one + rest) && Partition(Pack([], rest, reserve), [] + rest)
    requires Partition(Pack(buffer + one, rest, reserve), buffer + one + rest)
    ensures Partition(Pack(buffer, sentences, reserve), buffer + sentences)
  {
    hide Partition, Spaced;
    assert one + rest == sentences && [] + rest == rest;
    Assoc(buffer, one, rest);
    if buffer != [] {
      PartitionPush(buffer, Pack(one, rest, reserve), sentences);
    }
    PartitionPush(buffer + one, Pack([], rest, reserve), rest);
  }

  lemma {:induction false} MergePartitions(
    merged: seq<seq<string>>, buffer: seq<string>, pieces: seq<seq<string>>, reserve: int)
    requires NoneEmpty(merged) && NoneEmpty(pieces)
    ensures Flat(Merge(merged, buffer, pieces, reserve)) == Flat(merged) + buffer + Flat(pieces)
    ensures NoneEmpty(Merge(merged, buffer, pieces, reserve))
    decreases |pieces|
  {
    if pieces == [] {
      TailPartitions(merged, buffer, reserve);
      assert Flat(merged) + buffer + [] == Flat(merged) + buffer;
    } else {
      var full := buffer != [] && |Spaced(buffer + pieces[0])| > MAX_CHARS - reserve;
      var done := if full then merged + [buffer] else merged;
      var next := if full then pieces[0] else buffer + pieces[0];
      assert Flat(done) + next == Flat(merged) + buffer + pieces[0] by {
        FlatPush(merged, buffer);
        Assoc(Flat(merged), buffer, pieces[0]);
      }
      Assoc(Flat(merged) + buffer, pieces[0], Flat(pieces[1..]));
      if |Spaced(next)| >= MIN_CHARS {
        FlatPush(done, next);
        assert Flat(done + [next]) + [] == Flat(done) + next;
        MergePartitions(done + [next], [], pieces[1..], reserve);
      } else {
        MergePartitions(done, next, pieces[1..], reserve);
      }
    }
  }

  lemma TailPartitions(merged: seq<seq<string>>, buffer: seq<string>, reserve: int)
    requires NoneEmpty(merged)
    ensures Flat(CloseTail(merged, buffer, reserve)) == Flat(merged) + buffer
    ensures NoneEmpty(CloseTail(merged, buffer, reserve))
  {
    FlatPush(merged, buffer);
    if merged != [] {
      var front, last := merged[..|merged| - 1], merged[|merged| - 1];
      assert merged == front + [last];
      FlatPush(front, last);
      FlatPush(front, last + buffer);
      Assoc(Flat(front), last, buffer);
    }
  }

  lemma PartitionAppend(
    groups: seq<seq<string>>, sentences: seq<string>, more: seq<seq<string>>, moreSentences: seq<string>)
    requires Partition(groups, sentences) && Partition(more, moreSentences)
    ensures Partition(groups + more, sentences + moreSentences)
  {
    FlatAppend(groups, more);
  }

  lemma {:induction false} PiecesPartition(paragraphs: seq<string>, reserve: int)
    ensures Partition(Pieces(paragraphs, reserve), SectionSentences(paragraphs))
  {
    if paragraphs != [] {
      PiecesPartition(paragraphs[1..], reserve);
      OneMoreParagraph(paragraphs, reserve);
    }
  }

  lemma OneMoreParagraph(paragraphs: seq<string>, reserve: int)
    requires paragraphs != []
    requires Partition(Pieces(paragraphs[1..], reserve), SectionSentences(paragraphs[1..]))
    ensures Partition(Pieces(paragraphs, reserve), SectionSentences(paragraphs))
  {
    hide Partition, Pack, Sentences;
    var sentences := Sentences(paragraphs[0]);
    PackPartitions([], sentences, reserve);
    assert [] + sentences == sentences;
    PartitionAppend(
      Pack([], sentences, reserve), sentences, Pieces(paragraphs[1..], reserve), SectionSentences(paragraphs[1..]));
  }

  /** The chunk bodies of a section are its sentences, cut into consecutive nonempty groups. */
  lemma SectionPartition(body: string, reserve: int)
    ensures Partition(SectionGroups(body, reserve), SectionSentences(Paragraphs(body)))
  {
    PiecesPartition(Paragraphs(body), reserve);
    MergePartitions([], [], Pieces(Paragraphs(body), reserve), reserve);
  }

  // ---------------------------------------------------------------- no text is lost

  /** A first part up to a blank gap, then parts that make up the rest. */
  lemma GapCut(s: string, start: nat, end: nat, next: nat, parts: seq<string>)
    requires start <= end <= next <= |s| && Blank(s[end..next]) && Squeeze(Flat(parts)) == Squeeze(s[next..])
    ensures Squeeze(Flat([s[start..end]] + parts)) == Squeeze(s[start..])
  {
    hide Squeeze, Flat;
    var rest := s[start..];
    assert rest[..end - start] == s[start..end] && rest[next - start..] == s[next..];
    assert rest[end - start..next - start] == s[end..next];
    SqueezeGap(rest, end - start, next - start);
    FlatCons(s[start..end], parts);
    SqueezeConcat(s[start..end], Flat(parts));
  }

  lemma {:induction false} LineSentencesKeepText(line: string, start: nat)
    requires start <= |line|
    ensures Squeeze(Flat(LineSentences(line, start))) == Squeeze(line[start..])
    decreases |line| - start
  {
    hide Squeeze, Flat, NextBoundary;
    match NextBoundary(line, start)
    case Some(b) =>
      LineSentencesKeepText(line, b.next);
      GapCut(line, start, b.end, b.next, LineSentences(line, b.next));
    case None =>
      FlatOne(line[start..]);
      FlatNone<char>();
      if start == |line| {
        assert line[start..] == "";
      }
  }

  lemma {:induction false} SentencesKeepText(lines: seq<string>)
    ensures Squeeze(Flat(SentencesOfLines(lines))) == Squeeze(Flat(lines))
  {
    if lines != [] {
      var stripped := Strip(lines[0]);
      var first := if stripped == "" then [] else LineSentences(stripped, 0);
      SqueezeStrip(lines[0]);
      LineSentencesKeepText(stripped, 0);
      assert stripped[0..] == stripped;
      SentencesKeepText(lines[1..]);
      FlatAppend(first, SentencesOfLines(lines[1..]));
      SqueezeConcat(Flat(first), Flat(SentencesOfLines(lines[1..])));
      SqueezeConcat(lines[0], Flat(lines[1..]));
    }
  }

  lemma {:induction false} SectionSentencesKeepText(paragraphs: seq<string>)
    ensures Squeeze(Flat(SectionSentences(paragraphs))) == Squeeze(Flat(paragraphs))
  {
    if paragraphs != [] {
      var first := Sentences(paragraphs[0]);
      SentencesKeepText(SplitLines(paragraphs[0]));
      SplitLinesKeepsText(paragraphs[0]);
      SectionSentencesKeepText(paragraphs[1..]);
      FlatAppend(first, SectionSentences(paragraphs[1..]));
      SqueezeConcat(Flat(first), Flat(SectionSentences(paragraphs[1..])));
      SqueezeConcat(paragraphs[0], Flat(paragraphs[1..]));
    }
  }

  lemma {:induction false} SplitBlankLinesKeepsText(s: string, start: nat, i: nat)
    requires start <= i <= |s|
    ensures Squeeze(Flat(SplitBlankLines(s, start, i))) == Squeeze(s[start..])
    decreases |s| - i
  {
    hide Squeeze, Flat, BlankLineEnd;
    if i == |s| {
      FlatOne(s[start..]);
    } else {
      match BlankLineEnd(s, i)
      case Some(e) =>
        SplitBlankLinesKeepsText(s, e, e);
        GapCut(s, start, i, e, SplitBlankLines(s, e, e));
      case None =>
        SplitBlankLinesKeepsText(s, start, i + 1);
    }
  }

  lemma {:induction false} StripAllKeepsText(parts: seq<string>)
    ensures Squeeze(Flat(StripAll(parts))) == Squeeze(Flat(parts))
  {
    if parts != [] {
      var first := if Strip(parts[0]) != "" then [Strip(parts[0])] else [];
      SqueezeStrip(parts[0]);
      FlatOne(Strip(parts[0]));
      StripAllKeepsText(parts[1..]);
      FlatAppend(first, StripAll(parts[1..]));
      SqueezeConcat(Flat(first), Flat(StripAll(parts[1..])));
      SqueezeConcat(parts[0], Flat(parts[1..]));
    }
  }

  lemma {:induction false} TextsKeepText(groups: seq<seq<string>>)
    ensures Squeeze(Flat(Texts(groups))) == Squeeze(Flat(Flat(groups)))
  {
    if groups != [] {
      TextsKeepText(groups[1..]);
      assert Texts(groups)[1..] == Texts(groups[1..]);
      SqueezeJoin(" ", groups[0]);
      FlatAppend(groups[0], Flat(groups[1..]));
      SqueezeConcat(Spaced(groups[0]), Flat(Texts(groups[1..])));
      SqueezeConcat(Flat(groups[0]), Flat(Flat(groups[1..])));
    }
  }

  /** Without whitespace, the chunk bodies of a section are the text of the section. */
  lemma SectionKeepsText(body: string, reserve: int)
    ensures Squeeze(Flat(Texts(SectionGroups(body, reserve)))) == Squeeze(body)
  {
    var parts := SplitBlankLines(body, 0, 0);
    TextsKeepText(SectionGroups(body, reserve));
    SectionPartition(body, reserve);
    SectionSentencesKeepText(Paragraphs(body));
    StripAllKeepsText(parts);
    SplitBlankLinesKeepsText(body, 0, 0);
    assert body[0..] == body;
  }

  function Bodies(sections: seq<Section>): seq<string> {
    if sections == [] then [] else [sections[0].body] + Bodies(sections[1..])
  }

  /** The lines of a text that are not headings. */
  function BodyLines(lines: seq<string>): seq<string> {
    if lines == [] then []
    else (if ParseHeading(lines[0]).Some? then [] else [lines[0]]) + BodyLines(lines[1..])
  }

  lemma {:induction false} BodiesAppend(xs: seq<Section>, ys: seq<Section>)
    ensures Bodies(xs + ys) == Bodies(xs) + Bodies(ys)
  {
    if xs == [] {
      assert xs + ys == ys;
    } else {
      BodiesAppend(xs[1..], ys);
      BodiesFirst(xs, ys);
    }
  }

  lemma BodiesFirst(xs: seq<Section>, ys: seq<Section>)
    requires xs != [] && Bodies(xs[1..] + ys) == Bodies(xs[1..]) + Bodies(ys)
    ensures Bodies(xs + ys) == Bodies(xs) + Bodies(ys)
  {
    assert (xs + ys)[0] == xs[0] && (xs + ys)[1..] == xs[1..] + ys;
    assert Bodies(xs + ys) == [xs[0].body] + Bodies(xs[1..] + ys);
    assert Bodies(xs) == [xs[0].body] + Bodies(xs[1..]);
    hide Bodies;
    Assoc([xs[0].body], Bodies(xs[1..]), Bodies(ys));
  }

  lemma FlushKeepsText(path: seq<string>, bodyLines: seq<string>)
    ensures Squeeze(Flat(Bodies(Flush(path, bodyLines)))) == Squeeze(Flat(bodyLines))
  {
    var body := Join("\n", bodyLines);
    SqueezeStrip(body);
    SqueezeJoin("\n", bodyLines);
    FlatOne(Strip(body));
    assert Bodies([Section(path, Strip(body))]) == [Strip(body)];
  }

  /** The section bodies hold the non-heading lines of the text, whatever the headings are. */
  lemma {:induction false} SectionsKeepText(path: seq<string>, bodyLines: seq<string>, lines: seq<string>)
    ensures Squeeze(Flat(Bodies(Sections(path, bodyLines, lines)))) == Squeeze(Flat(bodyLines + BodyLines(lines)))
    decreases |lines|
  {
    FlushKeepsText(path, bodyLines);
    if lines == [] {
      assert bodyLines + [] == bodyLines;
    } else {
      match ParseHeading(lines[0])
      case Some(heading) =>
        var rest := Sections(PathAfter(path, heading), [], lines[1..]);
        SectionsKeepText(PathAfter(path, heading), [], lines[1..]);
        assert [] + BodyLines(lines[1..]) == BodyLines(lines) == BodyLines(lines[1..]);
        BodiesAppend(Flush(path, bodyLines), rest);
        FlatAppend(Bodies(Flush(path, bodyLines)), Bodies(rest));
        SqueezeConcat(Flat(Bodies(Flush(path, bodyLines))), Flat(Bodies(rest)));
        FlatAppend(bodyLines, BodyLines(lines));
        SqueezeConcat(Flat(bodyLines), Flat(BodyLines(lines)));
      case None =>
        SectionsKeepText(path, bodyLines + [lines[0]], lines[1..]);
        Assoc(bodyLines, [lines[0]], BodyLines(lines[1..]));
    }
  }

  /** Each chunk is its body behind the heading prefix; they carry this kind and are numbered from `ordinal`. */
  predicate CarryBodies(chunks: seq<Chunk>, bodies: seq<string>, kind: string, ordinal: nat) {
    |chunks| == |bodies|
    && forall i :: 0 <= i < |chunks| ==>
         && chunks[i].kind == kind && chunks[i].ordinal == ordinal + i
         && chunks[i].content == Prefix(chunks[i].headingPath) + bodies[i]
         && chunks[i].charCount == |chunks[i].content|
  }

  lemma CarryBodiesAppend(
    chunks: seq<Chunk>, bodies: seq<string>, moreChunks: seq<Chunk>, moreBodies: seq<string>, kind: string, ordinal: nat)
    requires CarryBodies(chunks, bodies, kind, ordinal) && CarryBodies(moreChunks, moreBodies, kind, ordinal + |chunks|)
    ensures CarryBodies(chunks + moreChunks, bodies + moreBodies, kind, ordinal)
  {
    hide Prefix;
    var allChunks, allBodies := chunks + moreChunks, bodies + moreBodies;
    forall i | 0 <= i < |allChunks|
      ensures allChunks[i].kind == kind && allChunks[i].ordinal == ordinal + i
      ensures allChunks[i].content == Prefix(allChunks[i].headingPath) + allBodies[i]
      ensures allChunks[i].charCount == |allChunks[i].content|
    {
      if i >= |chunks| {
        assert allChunks[i] == moreChunks[i - |chunks|] && allBodies[i] == moreBodies[i - |chunks|];
      }
    }
  }

  /** The chunk bodies of some sections, in order. */
  function ChunkBodies(sections: seq<Section>): seq<string> {
    if sections == [] then []
    else Texts(SectionGroups(sections[0].body, |Prefix(sections[0].path)|)) + ChunkBodies(sections[1..])
  }

  lemma {:induction false} ChunksCarryBodies(kind: string, ordinal: nat, sections: seq<Section>)
    ensures CarryBodies(MarkdownChunks(kind, ordinal, sections), ChunkBodies(sections), kind, ordinal)
    decreases |sections|
  {
    if sections != [] {
      var groups := SectionGroups(sections[0].body, |Prefix(sections[0].path)|);
      ChunksCarryBodies(kind, ordinal + |groups|, sections[1..]);
      OneMoreCarried(kind, ordinal, sections, groups);
    }
  }

  lemma OneMoreCarried(kind: string, ordinal: nat, sections: seq<Section>, groups: seq<seq<string>>)
    requires sections != [] && groups == SectionGroups(sections[0].body, |Prefix(sections[0].path)|)
    requires CarryBodies(
      MarkdownChunks(kind, ordinal + |groups|, sections[1..]), ChunkBodies(sections[1..]), kind, ordinal + |groups|)
    ensures CarryBodies(MarkdownChunks(kind, ordinal, sections), ChunkBodies(sections), kind, ordinal)
  {
    hide SectionGroups, Prefix, Texts, Spaced;
    var first := Numbered(kind, ordinal, sections[0].path, groups);
    assert CarryBodies(first, Texts(groups), kind, ordinal);
    hide CarryBodies, Numbered;
    CarryBodiesAppend(
      first, Texts(groups), MarkdownChunks(kind, ordinal + |groups|, sections[1..]), ChunkBodies(sections[1..]), kind, ordinal);
  }

  lemma {:induction false} ChunkBodiesKeepText(sections: seq<Section>)
    ensures Squeeze(Flat(ChunkBodies(sections))) == Squeeze(Flat(Bodies(sections)))
  {
    if sections != [] {
      var texts := Texts(SectionGroups(sections[0].body, |Prefix(sections[0].path)|));
      SectionKeepsText(sections[0].body, |Prefix(sections[0].path)|);
      ChunkBodiesKeepText(sections[1..]);
      FlatAppend(texts, ChunkBodies(sections[1..]));
      SqueezeConcat(Flat(texts), Flat(ChunkBodies(sections[1..])));
      FlatCons(sections[0].body, Bodies(sections[1..]));
      SqueezeConcat(sections[0].body, Flat(Bodies(sections[1..])));
    }
  }

  /** Chunking a whole markdown source loses nothing: the chunks carry bodies which, without whitespace, are the text's
      non-heading lines, and their ordinals count from zero. */
  lemma MarkdownLosesNothing(text: string, kind: string)
    requires kind in CHUNKABLE_KINDS && kind != "speech_examples"
    ensures var chunks := ChunkMaterial(text, kind).value;
      var bodies := ChunkBodies(Sections([], [], SplitLines(text)));
      && CarryBodies(chunks, bodies, kind, 0)
      && Squeeze(Flat(bodies)) == Squeeze(Flat(BodyLines(SplitLines(text))))
  {
    var lines := SplitLines(text);
    var sections := Sections([], [], lines);
    ChunksCarryBodies(kind, 0, sections);
    ChunkBodiesKeepText(sections);
    SectionsKeepText([], [], lines);
    assert [] + BodyLines(lines) == BodyLines(lines);
  }

  // ---------------------------------------------------------------- cap and floor

  /** At most the cap with its prefix, or a single sentence. */
  predicate Capped(group: seq<string>, reserve: int) {
    |group| == 1 || |Spaced(group)| + reserve <= MAX_CHARS
  }

  predicate AllCapped(groups: seq<seq<string>>, reserve: int) {
    forall i :: 0 <= i < |groups| ==> Capped(groups[i], reserve)
  }

  lemma {:induction false} PackCapped(buffer: seq<string>, sentences: seq<string>, reserve: int)
    requires buffer == [] || Capped(buffer, reserve)
    ensures AllCapped(Pack(buffer, sentences, reserve), reserve)
    decreases |sentences|
  {
    if sentences != [] {
      var next := buffer + [sentences[0]];
      PackCapped([sentences[0]], sentences[1..], reserve);
      PackCapped([], sentences[1..], reserve);
      if buffer == [] || |Spaced(next)| + reserve <= MAX_CHARS {
        PackCapped(next, sentences[1..], reserve);
      }
    }
  }

  lemma {:induction false} PiecesCapped(paragraphs: seq<string>, reserve: int)
    ensures AllCapped(Pieces(paragraphs, reserve), reserve)
  {
    if paragraphs != [] {
      PackCapped([], Sentences(paragraphs[0]), reserve);
      PiecesCapped(paragraphs[1..], reserve);
    }
  }

  lemma {:induction false} MergeCapped(
    merged: seq<seq<string>>, buffer: seq<string>, pieces: seq<seq<string>>, reserve: int)
    requires AllCapped(merged, reserve) && AllCapped(pieces, reserve) && (buffer == [] || Capped(buffer, reserve))
    ensures AllCapped(Merge(merged, buffer, pieces, reserve), reserve)
    decreases |pieces|
  {
    if pieces != [] {
      assert buffer == [] ==> buffer + pieces[0] == pieces[0];
      var full := buffer != [] && |Spaced(buffer + pieces[0])| > MAX_CHARS - reserve;
      var done := if full then merged + [buffer] else merged;
      var next := if full then pieces[0] else buffer + pieces[0];
      MergeCapped(done + [next], [], pieces[1..], reserve);
      MergeCapped(done, next, pieces[1..], reserve);
    }
  }

  /** Every chunk of a section, prefix included, is within the cap unless its body is one sentence. */
  lemma SectionCapped(body: string, reserve: int)
    ensures AllCapped(SectionGroups(body, reserve), reserve)
  {
    PiecesCapped(Paragraphs(body), reserve);
    MergeCapped([], [], Pieces(Paragraphs(body), reserve), reserve);
  }

  function DocumentSentences(sections: seq<Section>): seq<string> {
    if sections == [] then [] else SectionSentences(Paragraphs(sections[0].body)) + DocumentSentences(sections[1..])
  }

  lemma {:induction false} InFlat<T>(xs: seq<seq<T>>, i: nat, x: T)
    requires i < |xs| && x in xs[i]
    ensures x in Flat(xs)
  {
    if i > 0 {
      InFlat(xs[1..], i - 1, x);
    }
  }

  /** Chunks next to their bodies: each is within the cap, or its body is one of the sentences. */
  predicate WithinCap(chunks: seq<Chunk>, bodies: seq<string>, sentences: seq<string>) {
    |chunks| == |bodies|
    && forall i :: 0 <= i < |chunks| ==> chunks[i].charCount <= MAX_CHARS || bodies[i] in sentences
  }

  lemma SectionChunksCapped(kind: string, ordinal: nat, section: Section)
    ensures var groups := SectionGroups(section.body, |Prefix(section.path)|);
      WithinCap(Numbered(kind, ordinal, section.path, groups), Texts(groups), SectionSentences(Paragraphs(section.body)))
  {
    hide SectionGroups, SectionSentences, Paragraphs, Texts;
    var reserve := |Prefix(section.path)|;
    var groups := SectionGroups(section.body, reserve);
    SectionCapped(section.body, reserve);
    SectionPartition(section.body, reserve);
    forall i | 0 <= i < |groups|
      ensures reserve + |Spaced(groups[i])| <= MAX_CHARS || Spaced(groups[i]) in Flat(groups)
    {
      assert Capped(groups[i], reserve);
      if |groups[i]| == 1 {
        InFlat(groups, i, groups[i][0]);
      }
    }
  }

  lemma WithinCapAppend(
    chunks: seq<Chunk>, bodies: seq<string>, sentences: seq<string>,
    moreChunks: seq<Chunk>, moreBodies: seq<string>, moreSentences: seq<string>)
    requires WithinCap(chunks, bodies, sentences) && WithinCap(moreChunks, moreBodies, moreSentences)
    ensures WithinCap(chunks + moreChunks, bodies + moreBodies, sentences + moreSentences)
  {
  }

  /** Every chunk of a markdown source has at most MAX_CHARS characters, its heading prefix included, or its body is one
      sentence of the source. */
  lemma {:induction false} MarkdownCapped(kind: string, ordinal: nat, sections: seq<Section>)
    ensures WithinCap(MarkdownChunks(kind, ordinal, sections), ChunkBodies(sections), DocumentSentences(sections))
    decreases |sections|
  {
    if sections != [] {
      var groups := SectionGroups(sections[0].body, |Prefix(sections[0].path)|);
      MarkdownCapped(kind, ordinal + |groups|, sections[1..]);
      OneMoreCapped(kind, ordinal, sections, groups);
    }
  }

  lemma OneMoreCapped(kind: string, ordinal: nat, sections: seq<Section>, groups: seq<seq<string>>)
    requires sections != [] && groups == SectionGroups(sections[0].body, |Prefix(sections[0].path)|)
    requires WithinCap(
      MarkdownChunks(kind, ordinal + |groups|, sections[1..]), ChunkBodies(sections[1..]), DocumentSentences(sections[1..]))
    ensures WithinCap(MarkdownChunks(kind, ordinal, sections), ChunkBodies(sections), DocumentSentences(sections))
  {
    hide WithinCap, SectionGroups, Prefix, SectionSentences, Paragraphs, Numbered, Texts;
    SectionChunksCapped(kind, ordinal, sections[0]);
    WithinCapAppend(
      Numbered(kind, ordinal, sections[0].path, groups), Texts(groups), SectionSentences(Paragraphs(sections[0].body)),
      MarkdownChunks(kind, ordinal + |groups|, sections[1..]), ChunkBodies(sections[1..]), DocumentSentences(sections[1..]));
  }

  predicate Short(group: seq<string>) {
    |Spaced(group)| < MIN_CHARS
  }

  /** Joining the two would pass the cap. */
  predicate TooLong(left: seq<string>, right: seq<string>, reserve: int) {
    |Spaced(left + right)| + reserve > MAX_CHARS
  }

  /** A group below the floor could not take the one after it, nor the last one the one before it. */
  predicate FloorKept(groups: seq<seq<string>>, reserve: int) {
    && (forall i :: 0 <= i < |groups| - 1 && Short(groups[i]) ==> TooLong(groups[i], groups[i + 1], reserve))
    && (|groups| > 1 && Short(groups[|groups| - 1])
        ==> TooLong(groups[|groups| - 2], groups[|groups| - 1], reserve))
  }

  /** The state of the merge loop: what was put out is final, except that the last group may still be waiting for the
      text in the buffer, which is short. */
  predicate FloorSoFar(merged: seq<seq<string>>, buffer: seq<string>, reserve: int) {
    var last := |merged| - 1;
    && (forall i :: 0 <= i < last && Short(merged[i]) ==> TooLong(merged[i], merged[i + 1], reserve))
    && (merged != [] && Short(merged[last]) ==> buffer != [] && TooLong(merged[last], buffer, reserve))
    && (buffer == [] || Short(buffer))
  }

  /** Text added on the right does not make two groups fit. */
  lemma TooLongStays(left: seq<string>, right: seq<string>, more: seq<string>, reserve: int)
    requires left + right != [] && more != []
    requires TooLong(left, right, reserve)
    ensures TooLong(left, right + more, reserve)
  {
    JoinAppend(" ", left + right, more);
    Assoc(left, right, more);
  }

  lemma {:induction false} MergeKeepsFloor(
    merged: seq<seq<string>>, buffer: seq<string>, pieces: seq<seq<string>>, reserve: int)
    requires NoneEmpty(merged) && NoneEmpty(pieces) && FloorSoFar(merged, buffer, reserve)
    ensures FloorKept(Merge(merged, buffer, pieces, reserve), reserve)
    decreases |pieces|
  {
    hide FloorKept, FloorSoFar, Spaced;
    if pieces == [] {
      TailKeepsFloor(merged, buffer, reserve);
    } else {
      var full := buffer != [] && |Spaced(buffer + pieces[0])| > MAX_CHARS - reserve;
      var done := if full then merged + [buffer] else merged;
      var next := if full then pieces[0] else buffer + pieces[0];
      FloorStep(merged, buffer, pieces[0], reserve);
      if |Spaced(next)| >= MIN_CHARS {
        MergeKeepsFloor(done + [next], [], pieces[1..], reserve);
      } else {
        MergeKeepsFloor(done, next, pieces[1..], reserve);
      }
    }
  }

  /** One turn of the merge loop. */
  lemma FloorStep(merged: seq<seq<string>>, buffer: seq<string>, piece: seq<string>, reserve: int)
    requires FloorSoFar(merged, buffer, reserve) && piece != []
    ensures var full := buffer != [] && |Spaced(buffer + piece)| > MAX_CHARS - reserve;
      var done := if full then merged + [buffer] else merged;
      var next := if full then piece else buffer + piece;
      if |Spaced(next)| >= MIN_CHARS then FloorSoFar(done + [next], [], reserve) else FloorSoFar(done, next, reserve)
  {
    hide Spaced;
    var full := buffer != [] && |Spaced(buffer + piece)| > MAX_CHARS - reserve;
    if buffer == [] {
      assert buffer + piece == piece;
    } else if merged != [] && !full && Short(merged[|merged| - 1]) {
      TooLongStays(merged[|merged| - 1], buffer, piece, reserve);
    }
  }

  lemma TailKeepsFloor(merged: seq<seq<string>>, buffer: seq<string>, reserve: int)
    requires NoneEmpty(merged) && FloorSoFar(merged, buffer, reserve)
    ensures FloorKept(CloseTail(merged, buffer, reserve), reserve)
  {
    var last := |merged| - 1;
    if buffer != [] && merged != [] && |Spaced(merged[last] + buffer)| <= MAX_CHARS - reserve {
      JoinAppend(" ", merged[last], buffer);
      if last > 0 && Short(merged[last - 1]) {
        TooLongStays(merged[last - 1], merged[last], buffer, reserve);
      }
      var result := merged[..last] + [merged[last] + buffer];
      forall i | 0 <= i < |result| - 1 && Short(result[i])
        ensures TooLong(result[i], result[i + 1], reserve)
      {
        assert result[i] == merged[i] && Short(merged[i]) && TooLong(merged[i], merged[i + 1], reserve);
      }
    }
  }

  /** A chunk body below the floor stays so only because joining it with its neighbour would pass the cap, for every
      prefix length, one longer than the cap included. */
  lemma SectionFloor(body: string, reserve: int)
    ensures FloorKept(SectionGroups(body, reserve), reserve)
  {
    PiecesPartition(Paragraphs(body), reserve);
    MergeKeepsFloor([], [], Pieces(Paragraphs(body), reserve), reserve);
  }

  // ---------------------------------------------------------------- spoken lines

  function Contents(chunks: seq<Chunk>): seq<string> {
    if chunks == [] then [] else [chunks[0].content] + Contents(chunks[1..])
  }

  /** Speech sources lose nothing but whitespace. */
  lemma {:induction false} SpeechLosesNothing(ordinal: nat, lines: seq<string>)
    ensures Squeeze(Flat(Contents(SpeechChunks(ordinal, lines)))) == Squeeze(Flat(lines))
    decreases |lines|
  {
    if lines != [] {
      hide Squeeze, Strip;
      var line := Strip(lines[0]);
      SqueezeStrip(lines[0]);
      SqueezeConcat(lines[0], Flat(lines[1..]));
      if line == "" {
        SpeechLosesNothing(ordinal, lines[1..]);
        SqueezeBlank("");
        assert "" + Squeeze(Flat(lines[1..])) == Squeeze(Flat(lines[1..]));
      } else {
        SpeechLosesNothing(ordinal + 1, lines[1..]);
        var rest := SpeechChunks(ordinal + 1, lines[1..]);
        assert SpeechChunks(ordinal, lines)[1..] == rest;
        FlatCons(line, Contents(rest));
        SqueezeConcat(line, Flat(Contents(rest)));
      }
    }
  }

  /** Each chunk is one stripped, nonblank line; they are numbered from `ordinal`. */
  predicate SpeechNumberedFrom(chunks: seq<Chunk>, ordinal: nat) {
    forall i :: 0 <= i < |chunks| ==>
      && chunks[i].kind == "speech_examples" && chunks[i].ordinal == ordinal + i
      && Trimmed(chunks[i].content) && chunks[i].charCount == |chunks[i].content|
  }

  lemma {:induction false} SpeechNumbered(ordinal: nat, lines: seq<string>)
    ensures SpeechNumberedFrom(SpeechChunks(ordinal, lines), ordinal)
    decreases |lines|
  {
    if lines != [] {
      var line := Strip(lines[0]);
      if line == "" {
        SpeechNumbered(ordinal, lines[1..]);
      } else {
        SpeechNumbered(ordinal + 1, lines[1..]);
        OneMoreSpoken(Chunk("speech_examples", ordinal, [], line, |line|), SpeechChunks(ordinal + 1, lines[1..]));
      }
    }
  }

  lemma OneMoreSpoken(chunk: Chunk, rest: seq<Chunk>)
    requires SpeechNumberedFrom([chunk], chunk.ordinal) && SpeechNumberedFrom(rest, chunk.ordinal + 1)
    ensures SpeechNumberedFrom([chunk] + rest, chunk.ordinal)
  {
    hide Trimmed;
    assert [chunk][0] == chunk;
  }

  /** Whatever the kind, the chunks of a source are numbered 0, 1, 2, ... and carry that kind. */
  lemma ChunksNumbered(text: string, kind: string)
    requires kind in CHUNKABLE_KINDS
    ensures var chunks := ChunkMaterial(text, kind).value;
      forall i :: 0 <= i < |chunks| ==> chunks[i].ordinal == i && chunks[i].kind == kind
  {
    hide MarkdownChunks, SpeechChunks, ChunkBodies, Sections, SplitLines;
    if kind == "speech_examples" {
      SpeechNumbered(0, SplitLines(text));
    } else {
      ChunksCarryBodies(kind, 0, Sections([], [], SplitLines(text)));
    }
  }
}
