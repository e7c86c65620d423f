/** indexing/chunker.py: cutting one source text into search chunks.

    The functions below say which sentences go into which chunk; the methods are the loops of the program, which work on
    strings, proved against those functions. ChunkerProofs shows what the functions keep. */
module Chunker {
  import opened Basics
  import opened Text

  const TARGET_CHARS: int := 550
  const MAX_CHARS: int := 800
  const MIN_CHARS: int := 120

  const CHUNKABLE_KINDS: seq<string> := ["events", "relationships", "abilities", "speech_examples"]

  datatype Chunk = Chunk(kind: string, ordinal: nat, headingPath: seq<string>, content: string, charCount: nat)

  /** A heading path with the text below it. */
  datatype Section = Section(path: seq<string>, body: string)

  // ---------------------------------------------------------------- sentences

  /** How far the footnote markers [^n] that start at i reach. */
  function MarkersEnd(line: string, i: nat): (e: nat)
    requires i <= |line|
    ensures i <= e <= |line|
    ensures i < e ==> !IsSpace(line[e - 1])
    decreases |line| - i
  {
    if i + 3 < |line| && line[i] == '[' && line[i + 1] == '^' && line[i + 2] != ']' then
      var close := BracketEnd(line, i + 3);
      if close < |line| then MarkersEnd(line, close + 1) else i
    else i
  }

  /** The next closing bracket at or after i, or the length. */
  function BracketEnd(line: string, i: nat): (e: nat)
    requires i <= |line|
    ensures i <= e <= |line|
    ensures e < |line| ==> line[e] == ']'
    decreases |line| - i
  {
    if i == |line| || line[i] == ']' then i else BracketEnd(line, i + 1)
  }

  predicate EndsSentence(c: char) {
    c == '.' || c == '!' || c == '?'
  }

  /** A match of the sentence boundary pattern: the sentence ends before `end`, the next one starts at `next`. */
  datatype Boundary = Boundary(end: nat, next: nat)

  /** The match that starts exactly at i, if there is one. */
  function BoundaryAt(line: string, i: nat): (b: Option<Boundary>)
    requires i < |line|
    ensures b.Some? ==> i < b.value.end < b.value.next <= |line|
    ensures b.Some? ==> !IsSpace(line[b.value.end - 1]) && Blank(line[b.value.end..b.value.next])
    ensures b.Some? && b.value.next < |line| ==> !IsSpace(line[b.value.next])
  {
    if !EndsSentence(line[i]) then None
    else
      var e := MarkersEnd(line, i + 1);
      var n := SpaceEnd(line, e);
      if n == e then None else Some(Boundary(e, n))
  }

  /** The leftmost match at or after i. */
  function NextBoundary(line: string, i: nat): (b: Option<Boundary>)
    requires i <= |line|
    ensures b.Some? ==> i < b.value.end < b.value.next <= |line|
    ensures b.Some? ==> !IsSpace(line[b.value.end - 1]) && Blank(line[b.value.end..b.value.next])
    ensures b.Some? && b.value.next < |line| ==> !IsSpace(line[b.value.next])
    decreases |line| - i
  {
    if i == |line| then None
    else if BoundaryAt(line, i).Some? then BoundaryAt(line, i)
    else NextBoundary(line, i + 1)
  }

  /** The sentences of line[start..]. */
  function LineSentences(line: string, start: nat): seq<string>
    requires start <= |line|
    decreases |line| - start
  {
    match NextBoundary(line, start)
    case Some(b) => [line[start..b.end]] + LineSentences(line, b.next)
    case None => if start < |line| then [line[start..]] else []
  }

  method SplitLineByPunctuation(line: string) returns (sentences: seq<string>)
    ensures sentences == LineSentences(line, 0)
  {
    hide NextBoundary;
    sentences := [];
    var start := 0;
    var found := NextBoundary(line, 0);
    while found.Some?
      invariant start <= |line| && found == NextBoundary(line, start)
      invariant sentences + LineSentences(line, start) == LineSentences(line, 0)
      decreases |line| - start
    {
      var sentence := line[start..found.value.end];
      Assoc(sentences, [sentence], LineSentences(line, found.value.next));
      sentences := sentences + [sentence];
      start := found.value.next;
      found := NextBoundary(line, start);
    }
    var tail := line[start..];
    if tail != "" {
      sentences := sentences + [tail];
    }
  }

  function SentencesOfLines(lines: seq<string>): seq<string> {
    if lines == [] then []
    else
      var stripped := Strip(lines[0]);
      (if stripped == "" then [] else LineSentences(stripped, 0)) + SentencesOfLines(lines[1..])
  }

  /** The sentences of a paragraph: line ends are boundaries too. */
  function Sentences(paragraph: string): seq<string> {
    SentencesOfLines(SplitLines(paragraph))
  }

  method SplitSentences(paragraph: string) returns (sentences: seq<string>)
    ensures sentences == Sentences(paragraph)
  {
    hide LineSentences, Strip, SplitLines;
    sentences := [];
    var lines := SplitLines(paragraph);
    for i := 0 to |lines|
      invariant sentences + SentencesOfLines(lines[i..]) == Sentences(paragraph)
    {
      assert lines[i..][0] == lines[i] && lines[i..][1..] == lines[i + 1..];
      var stripped := Strip(lines[i]);
      if stripped != "" {
        var more := SplitLineByPunctuation(stripped);
        Assoc(sentences, more, SentencesOfLines(lines[i + 1..]));
        sentences := sentences + more;
      } else {
        assert [] + SentencesOfLines(lines[i + 1..]) == SentencesOfLines(lines[i + 1..]);
      }
    }
  }

  // ---------------------------------------------------------------- packing sentences into pieces

  /** A group of sentences as one text. */
  function Spaced(group: seq<string>): string {
    Join(" ", group)
  }

  /** The pieces of a paragraph: sentences are taken until the target is reached or the next one would pass the cap.
      `buffer` holds the sentences taken for the piece under way; `reserve` is the length of the heading prefix. */
  function Pack(buffer: seq<string>, sentences: seq<string>, reserve: int): seq<seq<string>>
    decreases |sentences|
  {
    if sentences == [] then
      if buffer == [] then [] else [buffer]
    else
      var next := buffer + [sentences[0]];
      if buffer != [] && |Spaced(next)| > MAX_CHARS - reserve then
        [buffer] + Pack([sentences[0]], sentences[1..], reserve)
      else if |Spaced(next)| >= TARGET_CHARS - reserve then
        [next] + Pack([], sentences[1..], reserve)
      else
        Pack(next, sentences[1..], reserve)
  }

  /** The texts of groups of sentences. */
  function Texts(groups: seq<seq<string>>): (texts: seq<string>)
    ensures |texts| == |groups|
    ensures forall i :: 0 <= i < |groups| ==> texts[i] == Spaced(groups[i])
  {
    Map(Spaced, groups)
  }

  /** Sentences as the splitter leaves them. */
  predicate AllTrimmed(sentences: seq<string>) {
    forall i :: 0 <= i < |sentences| ==> Trimmed(sentences[i])
  }

  lemma {:induction false} LineSentencesTrimmed(line: string, start: nat)
    requires start <= |line| && (start < |line| ==> !IsSpace(line[start]) && !IsSpace(line[|line| - 1]))
    ensures AllTrimmed(LineSentences(line, start))
    decreases |line| - start
  {
    match NextBoundary(line, start)
    case Some(b) =>
      LineSentencesTrimmed(line, b.next);
      assert Trimmed(line[start..b.end]);
    case None =>
  }

  lemma {:induction false} SentencesTrimmed(lines: seq<string>)
    ensures AllTrimmed(SentencesOfLines(lines))
  {
    if lines != [] {
      SentencesTrimmed(lines[1..]);
      if Strip(lines[0]) != "" {
        LineSentencesTrimmed(Strip(lines[0]), 0);
      }
    }
  }

  /** A group that makes a text with no whitespace at its ends. */
  predicate Solid(group: seq<string>) {
    group != [] && Trimmed(Spaced(group))
  }

  /** What the f-string with strip() builds from a buffer, empty or not, and the next text. */
  lemma CandidateText(taken: seq<string>, next: seq<string>)
    requires (taken == [] || Solid(taken)) && Solid(next)
    ensures Spaced(taken) == "" <==> taken == []
    ensures Solid(taken + next)
    ensures Spaced(taken + next) == if taken == [] then Spaced(next) else Strip(Spaced(taken) + " " + Spaced(next))
    ensures taken != [] ==> Spaced(taken + next) == Spaced(taken) + " " + Spaced(next)
  {
    if taken == [] {
      assert taken + next == next;
    } else {
      JoinAppend(" ", taken, next);
      var text := Spaced(taken) + " " + Spaced(next);
      assert text[0] == Spaced(taken)[0];
      StripTrimmed(text);
    }
  }

  lemma TextsAppend(groups: seq<seq<string>>, more: seq<seq<string>>)
    ensures Texts(groups + more) == Texts(groups) + Texts(more)
  {
  }

  lemma TextsPush(groups: seq<seq<string>>, group: seq<string>)
    ensures Texts(groups + [group]) == Texts(groups) + [Spaced(group)]
  {
  }

  lemma StripTrimmed(s: string)
    requires Trimmed(s)
    ensures Strip(s) == s
  {
    assert s[0..] == s && s[..|s|] == s;
  }

  method SplitSentencesToBudget(paragraph: string, reserve: int) returns (pieces: seq<string>)
    ensures pieces == Texts(Pack([], Sentences(paragraph), reserve))
  {
    var effectiveTarget := TARGET_CHARS - reserve;
    var effectiveMax := MAX_CHARS - reserve;
    var sentences := SplitSentences(paragraph);
    SentencesTrimmed(SplitLines(paragraph));
    pieces := [];
    var buffer := "";
    ghost var done: seq<seq<string>>, taken: seq<string> := [], [];
    for i := 0 to |sentences|
      invariant (taken == [] || Solid(taken)) && buffer == Spaced(taken)
      invariant pieces == Texts(done)
      invariant done + Pack(taken, sentences[i..], reserve) == Pack([], sentences, reserve)
    {
      var sentence := sentences[i];
      ghost var rest := sentences[i + 1..];
      assert sentences[i..][0] == sentence && sentences[i..][1..] == rest;
      CandidateText(taken, [sentence]);
      var candidate := if buffer != "" then Strip(buffer + " " + sentence) else sentence;
      if buffer != "" && |candidate| > effectiveMax {
        Assoc(done, [taken], Pack([sentence], rest, reserve));
        TextsPush(done, taken);
        pieces, done := pieces + [buffer], done + [taken];
        buffer, taken := sentence, [sentence];
      } else {
        buffer, taken := candidate, taken + [sentence];
        if |buffer| >= effectiveTarget {
          Assoc(done, [taken], Pack([], rest, reserve));
          TextsPush(done, taken);
          pieces, done := pieces + [buffer], done + [taken];
          buffer, taken := "", [];
        }
      }
    }
    if buffer != "" {
      pieces := pieces + [buffer];
    }
  }

  // ---------------------------------------------------------------- merging short pieces

  /** The last buffer, shorter than the floor, goes to the chunk before it when the cap allows. */
  function CloseTail(merged: seq<seq<string>>, buffer: seq<string>, reserve: int): seq<seq<string>> {
    if buffer == [] then merged
    else if merged != [] && |Spaced(merged[|merged| - 1] + buffer)| <= MAX_CHARS - reserve then
      merged[..|merged| - 1] + [merged[|merged| - 1] + buffer]
    else merged + [buffer]
  }

  /** Pieces below the floor are joined with the next one unless that would pass the cap. */
  function Merge(merged: seq<seq<string>>, buffer: seq<string>, pieces: seq<seq<string>>, reserve: int)
    : seq<seq<string>>
    decreases |pieces|
  {
    if pieces == [] then CloseTail(merged, buffer, reserve)
    else
      var full := buffer != [] && |Spaced(buffer + pieces[0])| > MAX_CHARS - reserve;
      var done := if full then merged + [buffer] else merged;
      var next := if full then pieces[0] else buffer + pieces[0];
      if |Spaced(next)| >= MIN_CHARS then Merge(done + [next], [], pieces[1..], reserve)
      else Merge(done, next, pieces[1..], reserve)
  }

  predicate AllSolid(groups: seq<seq<string>>) {
    forall i :: 0 <= i < |groups| ==> Solid(groups[i])
  }

  /** One turn of the merge, on the groups not yet seen. */
  lemma MergeStep(merged: seq<seq<string>>, buffer: seq<string>, pieces: seq<seq<string>>, i: nat, reserve: int)
    requires i < |pieces|
    ensures var full := buffer != [] && |Spaced(buffer + pieces[i])| > MAX_CHARS - reserve;
      var done := if full then merged + [buffer] else merged;
      var next := if full then pieces[i] else buffer + pieces[i];
      Merge(merged, buffer, pieces[i..], reserve)
      == if |Spaced(next)| >= MIN_CHARS then Merge(done + [next], [], pieces[i + 1..], reserve)
         else Merge(done, next, pieces[i + 1..], reserve)
  {
    hide Spaced, CloseTail;
    assert pieces[i..][0] == pieces[i] && pieces[i..][1..] == pieces[i + 1..];
  }

  method MergeBelowFloor(pieces: seq<string>, ghost groups: seq<seq<string>>, reserve: int)
    returns (merged: seq<string>)
    requires AllSolid(groups) && pieces == Texts(groups)
    ensures merged == Texts(Merge([], [], groups, reserve))
  {
    hide Texts, Spaced, Strip, CloseTail;
    var effectiveMax := MAX_CHARS - reserve;
    merged := [];
    var buffer := "";
    ghost var done: seq<seq<string>>, taken: seq<string> := [], [];
    assert groups[0..] == groups && Spaced([]) == "" by { SpacedNone(); }
    for i := 0 to |pieces|
      invariant AllSolid(done) && merged == Texts(done)
      invariant (taken == [] || Solid(taken)) && buffer == Spaced(taken)
      invariant Merge(done, taken, groups[i..], reserve) == Merge([], [], groups, reserve)
    {
      hide Merge, Solid;
      var piece := pieces[i];
      MergeStep(done, taken, groups, i, reserve);
      CandidateText(taken, groups[i]);
      var candidate := if buffer != "" then Strip(buffer + " " + piece) else piece;
      if buffer != "" && |candidate| > effectiveMax {
        TextsPush(done, taken);
        merged, done := merged + [buffer], done + [taken];
        buffer, taken := piece, groups[i];
      } else {
        buffer, taken := candidate, taken + groups[i];
      }
      if |buffer| >= MIN_CHARS {
        TextsPush(done, taken);
        merged, done := merged + [buffer], done + [taken];
        buffer, taken := "", [];
        SpacedNone();
      }
    }
    assert groups[|pieces|..] == [];
    TailText(done, taken, reserve);
    if buffer != "" {
      var candidate := if merged != [] then Strip(merged[|merged| - 1] + " " + buffer) else buffer;
      if merged != [] && |candidate| <= effectiveMax {
        merged := merged[|merged| - 1 := candidate];
      } else {
        merged := merged + [buffer];
      }
    }
  }

  lemma SpacedNone()
    ensures Spaced([]) == ""
  {
  }

  /** The last step of the merge, on texts. */
  lemma TailText(done: seq<seq<string>>, taken: seq<string>, reserve: int)
    requires AllSolid(done) && (taken == [] || Solid(taken))
    ensures var merged, buffer, last := Texts(done), Spaced(taken), |done| - 1;
      var candidate := if done != [] then Strip(merged[last] + " " + buffer) else buffer;
      Texts(CloseTail(done, taken, reserve))
      == if buffer == "" then merged
         else if done != [] && |candidate| <= MAX_CHARS - reserve then merged[last := candidate]
         else merged + [buffer]
  {
    if taken != [] && done != [] {
      CandidateText(done[|done| - 1], taken);
    }
  }

  // ---------------------------------------------------------------- sections and paragraphs

  datatype Heading = Heading(level: nat, title: string)

  /** The number of leading number signs, counted up to four. */
  function Hashes(line: string, n: nat): (h: nat)
    requires n <= |line| && n <= 4
    ensures n <= h <= |line| && h <= 4
    decreases 4 - n
  {
    if n < 4 && n < |line| && line[n] == '#' then Hashes(line, n + 1) else n
  }

  /** One to three number signs, whitespace, a title. A line of number signs and at least two blanks is a heading whose
      title is its last blank: the pattern gives one of them back to the title. */
  function ParseHeading(line: string): Option<Heading> {
    var h := Hashes(line, 0);
    var t := SpaceEnd(line, h);
    if h == 0 || h > 3 || t == h then None
    else if t < |line| then Some(Heading(h, RStrip(line[t..])))
    else if t >= h + 2 then Some(Heading(h, line[|line| - 1..]))
    else None
  }

  /** The heading path after a heading: titles at its level and below are dropped. */
  function PathAfter(path: seq<string>, heading: Heading): seq<string> {
    var keep := if heading.level <= 1 then 0 else heading.level - 1;
    (if keep <= |path| then path[..keep] else path) + [heading.title]
  }

  /** The section under way when it has any text. */
  function Flush(path: seq<string>, bodyLines: seq<string>): seq<Section> {
    var body := Strip(Join("\n", bodyLines));
    if body != "" then [Section(path, body)] else []
  }

  function Sections(path: seq<string>, bodyLines: seq<string>, lines: seq<string>): seq<Section>
    decreases |lines|
  {
    if lines == [] then Flush(path, bodyLines)
    else
      match ParseHeading(lines[0])
      case Some(heading) => Flush(path, bodyLines) + Sections(PathAfter(path, heading), [], lines[1..])
      case None => Sections(path, bodyLines + [lines[0]], lines[1..])
  }

  method SplitByHeading(text: string) returns (sections: seq<Section>)
    ensures sections == Sections([], [], SplitLines(text))
  {
    sections := [];
    var path, bodyLines := [], [];
    var lines := SplitLines(text);
    for i := 0 to |lines|
      invariant sections + Sections(path, bodyLines, lines[i..]) == Sections([], [], lines)
    {
      assert lines[i..][0] == lines[i] && lines[i..][1..] == lines[i + 1..];
      var heading := ParseHeading(lines[i]);
      if heading.Some? {
        var next := PathAfter(path, heading.value);
        Assoc(sections, Flush(path, bodyLines), Sections(next, [], lines[i + 1..]));
        sections := sections + Flush(path, bodyLines);
        path, bodyLines := next, [];
      } else {
        bodyLines := bodyLines + [lines[i]];
      }
    }
    sections := sections + Flush(path, bodyLines);
  }

  /** The last line feed of s[lo..hi], if any. */
  function LastLineFeed(s: string, lo: nat, hi: nat): (r: Option<nat>)
    requires lo <= hi <= |s|
    ensures r.Some? ==> lo <= r.value < hi
    decreases hi - lo
  {
    if lo == hi then None else if s[hi - 1] == '\n' then Some(hi - 1) else LastLineFeed(s, lo, hi - 1)
  }

  /** Where the blank-line pattern (line feed, whitespace, line feed) that matches at i ends. */
  function BlankLineEnd(s: string, i: nat): (e: Option<nat>)
    requires i < |s|
    ensures e.Some? ==> i < e.value <= |s| && Blank(s[i..e.value])
  {
    if s[i] != '\n' then None
    else
      match LastLineFeed(s, i + 1, SpaceEnd(s, i + 1))
      case Some(j) => Some(j + 1)
      case None => None
  }

  /** re.split at blank lines: the parts of s, of which s[start..i] is already known to hold no match. */
  function SplitBlankLines(s: string, start: nat, i: nat): seq<string>
    requires start <= i <= |s|
    decreases |s| - i
  {
    if i == |s| then [s[start..]]
    else
      match BlankLineEnd(s, i)
      case Some(e) => [s[start..i]] + SplitBlankLines(s, e, e)
      case None => SplitBlankLines(s, start, i + 1)
  }

  /** The parts that are not blank, stripped. */
  function StripAll(parts: seq<string>): seq<string> {
    if parts == [] then []
    else (if Strip(parts[0]) != "" then [Strip(parts[0])] else []) + StripAll(parts[1..])
  }

  function Paragraphs(body: string): seq<string> {
    StripAll(SplitBlankLines(body, 0, 0))
  }

  // ---------------------------------------------------------------- whole sources

  /** All sentences of a section, in order. */
  function SectionSentences(paragraphs: seq<string>): seq<string> {
    if paragraphs == [] then [] else Sentences(paragraphs[0]) + SectionSentences(paragraphs[1..])
  }

  function Pieces(paragraphs: seq<string>, reserve: int): seq<seq<string>> {
    if paragraphs == [] then []
    else Pack([], Sentences(paragraphs[0]), reserve) + Pieces(paragraphs[1..], reserve)
  }

  /** Which sentences make up each chunk of a section. */
  function SectionGroups(body: string, reserve: int): seq<seq<string>> {
    Merge([], [], Pieces(Paragraphs(body), reserve), reserve)
  }

  /** The text put before every chunk of a section. */
  function Prefix(path: seq<string>): string {
    if path == [] then "" else "[" + Join(" > ", path) + "] "
  }

  function ChunkOf(kind: string, ordinal: nat, path: seq<string>, group: seq<string>): Chunk {
    var content := Prefix(path) + Spaced(group);
    Chunk(kind, ordinal, path, content, |content|)
  }

  /** The chunks of some groups, numbered from `ordinal`. */
  function Numbered(kind: string, ordinal: nat, path: seq<string>, groups: seq<seq<string>>): (chunks: seq<Chunk>)
    ensures |chunks| == |groups|
    ensures forall i :: 0 <= i < |groups| ==> chunks[i] == ChunkOf(kind, ordinal + i, path, groups[i])
  {
    seq(|groups|, i requires 0 <= i < |groups| => ChunkOf(kind, ordinal + i, path, groups[i]))
  }

  function MarkdownChunks(kind: string, ordinal: nat, sections: seq<Section>): seq<Chunk>
    decreases |sections|
  {
    if sections == [] then []
    else
      var groups := SectionGroups(sections[0].body, |Prefix(sections[0].path)|);
      Numbered(kind, ordinal, sections[0].path, groups) + MarkdownChunks(kind, ordinal + |groups|, sections[1..])
  }

  lemma MarkdownStep(kind: string, ordinal: nat, sections: seq<Section>, i: nat)
    requires i < |sections|
    ensures var groups := SectionGroups(sections[i].body, |Prefix(sections[i].path)|);
      MarkdownChunks(kind, ordinal, sections[i..])
      == Numbered(kind, ordinal, sections[i].path, groups) + MarkdownChunks(kind, ordinal + |groups|, sections[i + 1..])
  {
    hide SectionGroups, Numbered, Prefix;
    assert sections[i..][0] == sections[i] && sections[i..][1..] == sections[i + 1..];
  }

  method ChunkMarkdownBody(text: string, kind: string) returns (chunks: seq<Chunk>)
    ensures chunks == MarkdownChunks(kind, 0, Sections([], [], SplitLines(text)))
  {
    hide SectionGroups, Numbered, Prefix, SplitLines, Sections;
    chunks := [];
    var sections := SplitByHeading(text);
    assert sections[0..] == sections && [] + MarkdownChunks(kind, 0, sections) == MarkdownChunks(kind, 0, sections);
    for i := 0 to |sections|
      invariant chunks + MarkdownChunks(kind, |chunks|, sections[i..]) == MarkdownChunks(kind, 0, sections)
    {
      hide MarkdownChunks;
      var more := ChunkSection(sections[i], kind, |chunks|);
      MarkdownStep(kind, |chunks|, sections, i);
      Assoc(chunks, more, MarkdownChunks(kind, |chunks| + |more|, sections[i + 1..]));
      chunks := chunks + more;
    }
    assert chunks + [] == chunks;
  }

  lemma PiecesStep(paragraphs: seq<string>, i: nat, reserve: int)
    requires i < |paragraphs|
    ensures Pieces(paragraphs[i..], reserve)
      == Pack([], Sentences(paragraphs[i]), reserve) + Pieces(paragraphs[i + 1..], reserve)
  {
    hide Pack, Sentences;
    assert paragraphs[i..][0] == paragraphs[i] && paragraphs[i..][1..] == paragraphs[i + 1..];
  }

  /** The sentences of every paragraph, packed. */
  method PackParagraphs(paragraphs: seq<string>, reserve: int)
    returns (pieces: seq<string>, ghost groups: seq<seq<string>>)
    ensures AllSolid(groups) && pieces == Texts(groups) && groups == Pieces(paragraphs, reserve)
  {
    hide Pack, Sentences, Texts, Solid;
    pieces, groups := [], [];
    assert paragraphs[0..] == paragraphs && [] + Pieces(paragraphs, reserve) == Pieces(paragraphs, reserve);
    for i := 0 to |paragraphs|
      invariant AllSolid(groups) && pieces == Texts(groups)
      invariant groups + Pieces(paragraphs[i..], reserve) == Pieces(paragraphs, reserve)
    {
      hide Pieces;
      var more := SplitSentencesToBudget(paragraphs[i], reserve);
      ghost var packed := Pack([], Sentences(paragraphs[i]), reserve);
      PackedSolid(paragraphs[i], reserve);
      PiecesStep(paragraphs, i, reserve);
      Assoc(groups, packed, Pieces(paragraphs[i + 1..], reserve));
      TextsAppend(groups, packed);
      pieces, groups := pieces + more, groups + packed;
    }
    assert paragraphs[|paragraphs|..] == [] && groups + [] == groups;
  }

  /** The body of the outer loop: one section's chunks. */
  method ChunkSection(section: Section, kind: string, ordinal: nat) returns (chunks: seq<Chunk>)
    ensures chunks == Numbered(kind, ordinal, section.path, SectionGroups(section.body, |Prefix(section.path)|))
  {
    hide Paragraphs, Merge, Pieces, Prefix, Numbered, Texts, Spaced;
    var prefix := Prefix(section.path);
    var reserve := |prefix|;
    var paragraphs := Paragraphs(section.body);
    var pieces, groups := PackParagraphs(paragraphs, reserve);
    var contents := MergeBelowFloor(pieces, groups, reserve);
    chunks := [];
    ghost var final := SectionGroups(section.body, reserve);
    ghost var all := Numbered(kind, ordinal, section.path, final);
    assert contents == Texts(final);
    hide SectionGroups;
    for i := 0 to |contents|
      invariant |contents| == |all| && |chunks| == i
      invariant forall j :: 0 <= j < i ==> chunks[j] == all[j]
    {
      var prefixed := prefix + contents[i];
      var chunk := Chunk(kind, ordinal + i, section.path, prefixed, |prefixed|);
      assert chunk == all[i] by { assert contents[i] == Spaced(final[i]); }
      chunks := chunks + [chunk];
    }
  }

  lemma {:induction false} PackSolid(buffer: seq<string>, sentences: seq<string>, reserve: int)
    requires (buffer == [] || Solid(buffer)) && AllTrimmed(sentences)
    ensures AllSolid(Pack(buffer, sentences, reserve))
    decreases |sentences|
  {
    if sentences != [] {
      var one, rest := [sentences[0]], sentences[1..];
      CandidateText(buffer, one);
      PackSolid(one, rest, reserve);
      PackSolid([], rest, reserve);
      PackSolid(buffer + one, rest, reserve);
    }
  }

  lemma PackedSolid(paragraph: string, reserve: int)
    ensures AllSolid(Pack([], Sentences(paragraph), reserve))
  {
    SentencesTrimmed(SplitLines(paragraph));
    PackSolid([], Sentences(paragraph), reserve);
  }

  function SpeechChunks(ordinal: nat, lines: seq<string>): seq<Chunk>
    decreases |lines|
  {
    if lines == [] then []
    else
      var line := Strip(lines[0]);
      if line == "" then SpeechChunks(ordinal, lines[1..])
      else [Chunk("speech_examples", ordinal, [], line, |line|)] + SpeechChunks(ordinal + 1, lines[1..])
  }

  method ChunkSpeechLines(text: string) returns (chunks: seq<Chunk>)
    ensures chunks == SpeechChunks(0, SplitLines(text))
  {
    chunks := [];
    var lines := SplitLines(text);
    for i := 0 to |lines|
      invariant chunks + SpeechChunks(|chunks|, lines[i..]) == SpeechChunks(0, lines)
    {
      assert lines[i..][0] == lines[i] && lines[i..][1..] == lines[i + 1..];
      var stripped := Strip(lines[i]);
      if stripped == "" {
        continue;
      }
      var chunk := Chunk("speech_examples", |chunks|, [], stripped, |stripped|);
      Assoc(chunks, [chunk], SpeechChunks(|chunks| + 1, lines[i + 1..]));
      chunks := chunks + [chunk];
    }
  }

  /** chunk_material; None stands for the ValueError of an unknown kind. */
  function ChunkMaterial(text: string, kind: string): Option<seq<Chunk>> {
    if kind !in CHUNKABLE_KINDS then None
    else if kind == "speech_examples" then Some(SpeechChunks(0, SplitLines(text)))
    else Some(MarkdownChunks(kind, 0, Sections([], [], SplitLines(text))))
  }

  method RunChunkMaterial(text: string, kind: string) returns (chunks: Option<seq<Chunk>>)
    ensures chunks == ChunkMaterial(text, kind)
  {
    if kind !in CHUNKABLE_KINDS {
      return None;
    }
    if kind == "speech_examples" {
      var speech := ChunkSpeechLines(text);
      return Some(speech);
    }
    var body := ChunkMarkdownBody(text, kind);
    return Some(body);
  }
}
