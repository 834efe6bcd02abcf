/**
 * Document chunking and chunk grouping (src/core/document_chunker.py).
 *
 * The chunk token limit, the separator list, the group size and the group
 * token budget are parameters; the constants below hold the configured values.
 */
module DocumentChunker {
  import opened Wrappers
  import opened Sequences
  import opened Text
  import opened Tokenizer

  /** `CHUNK_SEPARATORS` of the configuration: heading markers, blank line, newline, sentence ends. */
  const ChunkSeparators: seq<string> :=
    ["\n# ", "\n## ", "\n### ", "\n#### ", "\n##### ", "\n###### ", "\n\n", "\n", "。", ".", "？", "?", "！", "!"]

  /** The finer separators `_split_large_chunk` tries, in order. */
  const FineSeparators: seq<string> := ["\n\n", "\n", "。", ".", "？", "?", "！", "!"]

  /** `DEFAULT_GROUP_SIZE` of the configuration. */
  const DefaultGroupSize: nat := 4

  /** The chunk token limit the configuration documents (its setting is commented out there). */
  const DocumentedChunkTokenLimit: nat := 500

  /** The `'type'` of a chunk: `'complete'`, `'chunk'` or `'sub_chunk'`. */
  datatype ChunkKind = Complete | Primary | SubChunk

  /** A chunk record: its text, its token count, its id and its type. */
  datatype Chunk = Chunk(content: string, tokens: nat, chunkId: int, kind: ChunkKind)

  /** Every separator is non-empty (Python's `split` refuses an empty one). */
  predicate ValidSeparators(seps: seq<string>) {
    forall k :: 0 <= k < |seps| ==> seps[k] != ""
  }

  /** `separator.startswith('\n#')`. */
  predicate IsHeadingSeparator(sep: string) {
    |sep| >= 2 && sep[..2] == "\n#"
  }

  // ---------------------------------------------------------------------------
  // _split_by_separator
  // ---------------------------------------------------------------------------

  /** The parts after the first, each with the separator put back in front. */
  function Reprefixed(sep: string, parts: seq<string>): seq<string> {
    seq(|parts|, k requires 0 <= k < |parts| => sep + parts[k])
  }

  /**
   * The pieces `_split_by_separator` strips: the parts of `content.split(sep)`,
   * where for a heading marker every part after the first gets the marker back.
   */
  function Pieces(content: string, sep: string): seq<string>
    requires sep != ""
  {
    var parts := Split(content, sep);
    if IsHeadingSeparator(sep) then [parts[0]] + Reprefixed(sep, parts[1..]) else parts
  }

  /** Every piece stripped, the empty ones included. */
  function StripEach(pieces: seq<string>): seq<string> {
    seq(|pieces|, k requires 0 <= k < |pieces| => Strip(pieces[k]))
  }

  /**
   * `[p.strip() for p in pieces if p.strip()]`: at most one segment per piece,
   * each non-empty and stripped, and nothing but whitespace-only pieces is
   * dropped, since the segments concatenate to the stripped pieces.
   */
  function StripNonEmpty(pieces: seq<string>): (r: seq<string>)
    ensures |r| <= |pieces|
    ensures forall k :: 0 <= k < |r| ==> r[k] != "" && IsStripped(r[k])
    ensures Concat(r) == Concat(StripEach(pieces))
    decreases |pieces|
  {
    if pieces == [] then []
    else
      var init := pieces[..|pieces| - 1];
      var rest := StripNonEmpty(init);
      var s := Strip(pieces[|pieces| - 1]);
      StripShape(pieces[|pieces| - 1]);
      assert StripEach(pieces)[..|init|] == StripEach(init);
      assert (rest + [s])[..|rest|] == rest;
      if s == "" then rest else rest + [s]
  }

  /** `_split_by_separator`. */
  function SplitBySeparator(content: string, sep: string): seq<string>
    requires sep != ""
  {
    StripNonEmpty(Pieces(content, sep))
  }

  lemma {:induction false} StripNonEmptyAvoids(pieces: seq<string>, sep: string)
    requires forall k :: 0 <= k < |pieces| ==> !Contains(pieces[k], sep)
    ensures forall k :: 0 <= k < |StripNonEmpty(pieces)| ==> !Contains(StripNonEmpty(pieces)[k], sep)
    decreases |pieces|
  {
    if pieces != [] {
      StripNonEmptyAvoids(pieces[..|pieces| - 1], sep);
      StripShape(pieces[|pieces| - 1]);
      SliceAvoids(Strip(pieces[|pieces| - 1]), pieces[|pieces| - 1], sep);
    }
  }

  lemma {:induction false} ReprefixedConcat(first: string, rest: seq<string>, sep: string)
    ensures Concat([first] + Reprefixed(sep, rest)) == Join([first] + rest, sep)
    decreases |rest|
  {
    if rest == [] {
      ConcatOne(first);
      assert [first] + Reprefixed(sep, rest) == [first];
    } else {
      var init := rest[..|rest| - 1];
      var last := rest[|rest| - 1];
      ReprefixedConcat(first, init, sep);
      assert ([first] + Reprefixed(sep, rest))[..|rest|] == [first] + Reprefixed(sep, init);
      assert [first] + rest == ([first] + init) + [last];
      JoinAppend([first] + init, last, sep);
    }
  }

  /**
   * What `_split_by_separator` returns: non-empty, stripped segments; for an
   * ordinary separator none of them contains it; and the pieces stripped are
   * exactly the content cut at the separator, so that for a heading marker
   * (which is put back in front of every part after the first) they
   * concatenate to the content, and otherwise they join on the separator to it.
   */
  lemma SplitBySeparatorSegments(content: string, sep: string)
    requires sep != ""
    ensures forall k :: 0 <= k < |SplitBySeparator(content, sep)| ==>
      SplitBySeparator(content, sep)[k] != "" && IsStripped(SplitBySeparator(content, sep)[k])
    ensures !IsHeadingSeparator(sep) ==>
      forall k :: 0 <= k < |SplitBySeparator(content, sep)| ==> !Contains(SplitBySeparator(content, sep)[k], sep)
    ensures IsHeadingSeparator(sep) ==> Concat(Pieces(content, sep)) == content
    ensures !IsHeadingSeparator(sep) ==> Join(Pieces(content, sep), sep) == content
  {
    var parts := Split(content, sep);
    SplitJoin(content, sep);
    if IsHeadingSeparator(sep) {
      ReprefixedConcat(parts[0], parts[1..], sep);
      assert [parts[0]] + parts[1..] == parts;
    } else {
      SplitPartsAvoidSeparator(content, sep);
      StripNonEmptyAvoids(parts, sep);
    }
  }

  // ---------------------------------------------------------------------------
  // _split_by_length and _force_split_by_tokens: consecutive slices
  // ---------------------------------------------------------------------------

  /** Consecutive slices of `width` elements (the last may be shorter), as the `current_pos` loops cut them. */
  function Slices<T>(s: seq<T>, width: nat): seq<seq<T>>
    requires width > 0
    decreases |s|
  {
    if s == [] then []
    else if |s| <= width then [s]
    else [s[..width]] + Slices(s[width..], width)
  }

  /** The slices concatenate to the whole input: nothing is lost, repeated or reordered. */
  lemma {:induction false} SlicesConcat<T>(s: seq<T>, width: nat)
    requires width > 0
    ensures Concat(Slices(s, width)) == s
    decreases |s|
  {
    if s == [] {
    } else if |s| <= width {
      ConcatOne(s);
    } else {
      SlicesConcat(s[width..], width);
      ConcatAppend([s[..width]], Slices(s[width..], width));
      ConcatOne(s[..width]);
      assert s == s[..width] + s[width..];
    }
  }

  /** Every slice is non-empty and at most `width` long. */
  lemma {:induction false} SlicesBounded<T>(s: seq<T>, width: nat)
    requires width > 0
    ensures forall k :: 0 <= k < |Slices(s, width)| ==> 0 < |Slices(s, width)[k]| <= width
    decreases |s|
  {
    if |s| > width {
      SlicesBounded(s[width..], width);
    }
  }

  /** There are ceil(|s| / width) slices: just enough to hold the input. */
  lemma {:induction false} SlicesCount<T>(s: seq<T>, width: nat)
    requires width > 0
    ensures |s| <= |Slices(s, width)| * width < |s| + width
    decreases |s|
  {
    if |s| > width {
      var n := |Slices(s[width..], width)|;
      SlicesCount(s[width..], width);
      assert |Slices(s, width)| == n + 1;
      assert (n + 1) * width == n * width + width;
    }
  }

  /** The slices are non-empty, at most `width` long, just enough of them, and concatenate to the input. */
  lemma SlicesShape<T>(s: seq<T>, width: nat)
    requires width > 0
    ensures Concat(Slices(s, width)) == s
    ensures forall k :: 0 <= k < |Slices(s, width)| ==> 0 < |Slices(s, width)[k]| <= width
    ensures |s| <= |Slices(s, width)| * width < |s| + width
  {
    SlicesConcat(s, width);
    SlicesBounded(s, width);
    SlicesCount(s, width);
  }

  /** One step of the slicing loops: the next slice runs from `pos` to `min(pos + width, |s|)`. */
  lemma SlicesStep<T>(s: seq<T>, width: nat, pos: nat, end: nat)
    requires width > 0 && pos < |s|
    requires end == if pos + width < |s| then pos + width else |s|
    ensures Slices(s[pos..], width) == [s[pos..end]] + Slices(s[end..], width)
  {
    var rest := s[pos..];
    if end < |s| {
      assert rest[..width] == s[pos..end];
      assert rest[width..] == s[end..];
    } else {
      assert rest == s[pos..end];
      assert s[end..] == [];
    }
  }

  /** `_split_by_length`: consecutive slices of at most `maxLength` characters. */
  method SplitByLength(content: string, maxLength: nat) returns (chunks: seq<string>)
    requires maxLength > 0
    ensures chunks == Slices(content, maxLength)
  {
    chunks := [];
    var currentPos := 0;
    while currentPos < |content|
      invariant 0 <= currentPos <= |content|
      invariant chunks + Slices(content[currentPos..], maxLength) == Slices(content, maxLength)
    {
      var endPos := if currentPos + maxLength < |content| then currentPos + maxLength else |content|;
      SlicesStep(content, maxLength, currentPos, endPos);
      chunks := chunks + [content[currentPos..endPos]];
      currentPos := endPos;
    }
  }

  /** The decoding of each token window, in order. */
  function DecodeAll(enc: Encoding, windows: seq<seq<int>>): (r: seq<string>)
    ensures |r| == |windows|
    ensures forall k :: 0 <= k < |windows| ==> r[k] == enc.decode(windows[k])
    decreases |windows|
  {
    if windows == [] then [] else [enc.decode(windows[0])] + DecodeAll(enc, windows[1..])
  }

  /** What `_force_split_by_tokens` returns: the decoding of each window of `limit` consecutive tokens. */
  function ForceSplit(enc: Encoding, limit: nat, content: string): seq<string>
    requires limit > 0
  {
    DecodeAll(enc, Slices(enc.encode(content), limit))
  }

  /** `_force_split_by_tokens`. */
  method ForceSplitByTokens(enc: Encoding, limit: nat, content: string) returns (chunks: seq<string>)
    requires limit > 0
    ensures chunks == ForceSplit(enc, limit, content)
  {
    var tokens := enc.encode(content);
    chunks := [];
    var currentPos := 0;
    while currentPos < |tokens|
      invariant 0 <= currentPos <= |tokens|
      invariant chunks + DecodeAll(enc, Slices(tokens[currentPos..], limit)) == DecodeAll(enc, Slices(tokens, limit))
    {
      var endPos := if currentPos + limit < |tokens| then currentPos + limit else |tokens|;
      SlicesStep(tokens, limit, currentPos, endPos);
      chunks := chunks + [enc.decode(tokens[currentPos..endPos])];
      currentPos := endPos;
    }
  }

  /**
   * A chunk text within the token ceiling: it counts at most `limit` tokens, or
   * it is the decoding of between 1 and `limit` tokens (a forced split's piece;
   * decoding need not invert encoding, so such a piece is not re-counted).
   */
  ghost predicate WithinCeiling(enc: Encoding, limit: nat, text: string) {
    CountTokens(enc, text) <= limit || exists w: seq<int> :: 0 < |w| <= limit && text == enc.decode(w)
  }

  /**
   * `_force_split_by_tokens` decodes consecutive windows of at most `limit`
   * tokens that together are the whole encoding; there are ceil(n / limit)
   * pieces for n tokens, so at least one for a non-empty encoding.
   */
  lemma ForceSplitShape(enc: Encoding, limit: nat, content: string)
    requires limit > 0
    ensures Concat(Slices(enc.encode(content), limit)) == enc.encode(content)
    ensures CountTokens(enc, content) <= |ForceSplit(enc, limit, content)| * limit < CountTokens(enc, content) + limit
    ensures CountTokens(enc, content) > 0 ==> ForceSplit(enc, limit, content) != []
    ensures forall k :: 0 <= k < |ForceSplit(enc, limit, content)| ==> WithinCeiling(enc, limit, ForceSplit(enc, limit, content)[k])
  {
    var windows := Slices(enc.encode(content), limit);
    SlicesShape(enc.encode(content), limit);
    forall k | 0 <= k < |ForceSplit(enc, limit, content)|
      ensures WithinCeiling(enc, limit, ForceSplit(enc, limit, content)[k])
    {
      assert ForceSplit(enc, limit, content)[k] == enc.decode(windows[k]);
    }
  }

  // ---------------------------------------------------------------------------
  // _split_large_chunk
  // ---------------------------------------------------------------------------

  /** One part as `_split_large_chunk` keeps it: whole when it fits, force-split otherwise. */
  function RefinePart(enc: Encoding, limit: nat, part: string): seq<string>
    requires limit > 0
  {
    if CountTokens(enc, part) <= limit then [part] else ForceSplit(enc, limit, part)
  }

  /** The `valid_parts` list `_split_large_chunk` builds from the parts. */
  function RefineParts(enc: Encoding, limit: nat, parts: seq<string>): seq<string>
    requires limit > 0
    decreases |parts|
  {
    if parts == [] then []
    else RefineParts(enc, limit, parts[..|parts| - 1]) + RefinePart(enc, limit, parts[|parts| - 1])
  }

  /** A fine separator `_split_large_chunk` accepts: it occurs, and the refined split has more than one part. */
  predicate Qualifies(enc: Encoding, limit: nat, content: string, sep: string)
    requires limit > 0
  {
    sep != "" && Contains(content, sep) && |RefineParts(enc, limit, SplitBySeparator(content, sep))| > 1
  }

  /** The fine separator at index `k` qualifies. */
  predicate FineQualifies(enc: Encoding, limit: nat, content: string, k: nat)
    requires limit > 0
  {
    k < |FineSeparators| && Qualifies(enc, limit, content, FineSeparators[k])
  }

  /** The test the fine-separator loop applies to each index. */
  function FineTest(enc: Encoding, limit: nat, content: string): nat -> bool
    requires limit > 0
  {
    (k: nat) => FineQualifies(enc, limit, content, k)
  }

  /** The index of the first fine separator that qualifies, if any. */
  function FirstFineSeparator(enc: Encoding, limit: nat, content: string): Option<nat>
    requires limit > 0
  {
    FirstWhere(|FineSeparators|, FineTest(enc, limit, content), 0)
  }

  /** What `_split_large_chunk` returns. */
  function LargeSplit(enc: Encoding, limit: nat, content: string): seq<string>
    requires limit > 0
  {
    match FirstFineSeparator(enc, limit, content)
    case Some(k) => RefineParts(enc, limit, SplitBySeparator(content, FineSeparators[k]))
    case None => ForceSplit(enc, limit, content)
  }

  /** The loop of `_split_large_chunk` over one separator's parts, building `valid_parts`. */
  method RefineAll(enc: Encoding, limit: nat, parts: seq<string>) returns (validParts: seq<string>)
    requires limit > 0
    ensures validParts == RefineParts(enc, limit, parts)
  {
    validParts := [];
    var i := 0;
    while i < |parts|
      invariant 0 <= i <= |parts|
      invariant validParts == RefineParts(enc, limit, parts[..i])
    {
      var part := parts[i];
      if CountTokens(enc, part) <= limit {
        validParts := validParts + [part];
      } else {
        var forced := ForceSplitByTokens(enc, limit, part);
        validParts := validParts + forced;
      }
      assert parts[..i + 1][..i] == parts[..i];
      i := i + 1;
    }
    assert parts[..|parts|] == parts;
  }

  /** `_split_large_chunk`. */
  method SplitLargeChunk(enc: Encoding, limit: nat, content: string) returns (pieces: seq<string>)
    requires limit > 0
    ensures pieces == LargeSplit(enc, limit, content)
  {
    var k := 0;
    while k < |FineSeparators|
      invariant 0 <= k <= |FineSeparators|
      invariant forall j :: 0 <= j < k ==> !FineQualifies(enc, limit, content, j)
    {
      var separator := FineSeparators[k];
      if Contains(content, separator) {
        var parts := SplitBySeparator(content, separator);
        var validParts := RefineAll(enc, limit, parts);
        if |validParts| > 1 {
          FirstWhereIs(|FineSeparators|, FineTest(enc, limit, content), 0, k);
          return validParts;
        }
      }
      assert !FineQualifies(enc, limit, content, k);
      forall j | 0 <= j < k + 1
        ensures !FineQualifies(enc, limit, content, j)
      {
      }
      k := k + 1;
    }
    FirstWhereNone(|FineSeparators|, FineTest(enc, limit, content), 0);
    pieces := ForceSplitByTokens(enc, limit, content);
  }

  lemma {:induction false} RefinePartsWithinCeiling(enc: Encoding, limit: nat, parts: seq<string>)
    requires limit > 0
    ensures forall k :: 0 <= k < |RefineParts(enc, limit, parts)| ==> WithinCeiling(enc, limit, RefineParts(enc, limit, parts)[k])
    decreases |parts|
  {
    if parts != [] {
      RefinePartsWithinCeiling(enc, limit, parts[..|parts| - 1]);
      ForceSplitShape(enc, limit, parts[|parts| - 1]);
    }
  }

  /**
   * What `_split_large_chunk` returns for an over-limit text: at least one
   * piece, and every piece within the ceiling.
   */
  lemma LargeSplitWithinCeiling(enc: Encoding, limit: nat, content: string)
    requires limit > 0
    ensures CountTokens(enc, content) > limit ==> LargeSplit(enc, limit, content) != []
    ensures forall k :: 0 <= k < |LargeSplit(enc, limit, content)| ==> WithinCeiling(enc, limit, LargeSplit(enc, limit, content)[k])
  {
    match FirstFineSeparator(enc, limit, content)
    case Some(k) =>
      RefinePartsWithinCeiling(enc, limit, SplitBySeparator(content, FineSeparators[k]));
    case None =>
      ForceSplitShape(enc, limit, content);
  }

  /**
   * Which split `_split_large_chunk` keeps: the first fine separator that
   * occurs and gives more than one piece; when none does, the token windows.
   */
  lemma LargeSplitChoice(enc: Encoding, limit: nat, content: string)
    requires limit > 0
    ensures match FirstFineSeparator(enc, limit, content)
            case Some(k) =>
              && k < |FineSeparators| && Contains(content, FineSeparators[k])
              && |LargeSplit(enc, limit, content)| > 1
              && LargeSplit(enc, limit, content) == RefineParts(enc, limit, SplitBySeparator(content, FineSeparators[k]))
              && forall j :: 0 <= j < k ==> !FineQualifies(enc, limit, content, j)
            case None =>
              && (forall j :: 0 <= j < |FineSeparators| ==> !FineQualifies(enc, limit, content, j))
              && LargeSplit(enc, limit, content) == ForceSplit(enc, limit, content)
  {
    match FirstFineSeparator(enc, limit, content)
    case Some(k) =>
      assert FineTest(enc, limit, content)(k);
      forall j | 0 <= j < k ensures !FineQualifies(enc, limit, content, j) {
        assert !FineTest(enc, limit, content)(j);
      }
    case None =>
      forall j | 0 <= j < |FineSeparators| ensures !FineQualifies(enc, limit, content, j) {
        assert !FineTest(enc, limit, content)(j);
      }
  }

  // ---------------------------------------------------------------------------
  // chunk_document
  // ---------------------------------------------------------------------------

  /** The separator at index `k` occurs in the content. */
  predicate SeparatorPresent(content: string, seps: seq<string>, k: nat) {
    k < |seps| && Contains(content, seps[k])
  }

  /** The test the separator loop of `chunk_document` applies to each index. */
  function PresenceTest(content: string, seps: seq<string>): nat -> bool {
    (k: nat) => SeparatorPresent(content, seps, k)
  }

  /** The index of the first separator, in list order, that occurs in the content. */
  function FirstSeparator(content: string, seps: seq<string>): Option<nat> {
    FirstWhere(|seps|, PresenceTest(content, seps), 0)
  }

  /** The first pass: split at the first separator present; slice by length when that yields nothing. */
  function FirstPassSegments(limit: nat, seps: seq<string>, content: string): seq<string>
    requires limit > 0 && ValidSeparators(seps)
  {
    var segments := match FirstSeparator(content, seps)
                    case Some(k) => SplitBySeparator(content, seps[k])
                    case None => [];
    if segments == [] then Slices(content, 3 * limit) else segments
  }

  /** The first-pass chunk records: id = position, type `'chunk'`. */
  function PrimaryChunks(enc: Encoding, segments: seq<string>): seq<Chunk> {
    seq(|segments|, i requires 0 <= i < |segments| => Chunk(segments[i], CountTokens(enc, segments[i]), i, Primary))
  }

  /** The sub-chunk records of one re-split chunk, numbered from `base` (the output's length so far). */
  function SubChunks(enc: Encoding, pieces: seq<string>, base: int): seq<Chunk> {
    seq(|pieces|, j requires 0 <= j < |pieces| => Chunk(pieces[j], CountTokens(enc, pieces[j]), base + j, SubChunk))
  }

  /** The second pass over the first-pass chunks: an over-limit chunk is replaced by its sub-chunks. */
  function SecondPass(enc: Encoding, limit: nat, chunks: seq<Chunk>): seq<Chunk>
    requires limit > 0
    decreases |chunks|
  {
    if chunks == [] then []
    else
      var done := SecondPass(enc, limit, chunks[..|chunks| - 1]);
      var chunk := chunks[|chunks| - 1];
      if chunk.tokens > limit then done + SubChunks(enc, LargeSplit(enc, limit, chunk.content), |done|)
      else done + [chunk]
  }

  /** What `chunk_document` returns. */
  function Chunking(enc: Encoding, limit: nat, seps: seq<string>, content: string): seq<Chunk>
    requires limit > 0 && ValidSeparators(seps)
  {
    var totalTokens := CountTokens(enc, content);
    if totalTokens <= limit then [Chunk(content, totalTokens, 0, Complete)]
    else SecondPass(enc, limit, PrimaryChunks(enc, FirstPassSegments(limit, seps, content)))
  }

  /** The separator loop of `chunk_document` and its fall-back to slicing by length. */
  method FirstPass(limit: nat, separators: seq<string>, content: string) returns (chunks: seq<string>)
    requires limit > 0 && ValidSeparators(separators)
    ensures chunks == FirstPassSegments(limit, separators, content)
  {
    chunks := [];
    var k := 0;
    var searching := true;
    while searching && k < |separators|
      invariant 0 <= k <= |separators|
      invariant forall j :: 0 <= j < k ==> !SeparatorPresent(content, separators, j)
      invariant searching ==> chunks == []
      invariant !searching ==> SeparatorPresent(content, separators, k)
                               && chunks == SplitBySeparator(content, separators[k])
      decreases |separators| - k, searching
    {
      if Contains(content, separators[k]) {
        chunks := SplitBySeparator(content, separators[k]);
        searching := false;
      } else {
        k := k + 1;
      }
    }
    if searching {
      FirstWhereNone(|separators|, PresenceTest(content, separators), 0);
    } else {
      FirstWhereIs(|separators|, PresenceTest(content, separators), 0, k);
    }
    if chunks == [] {
      chunks := SplitByLength(content, 3 * limit);
    }
  }

  /** The loop of `chunk_document` that gives every first-pass segment its record. */
  method MakePrimaryChunks(enc: Encoding, chunks: seq<string>) returns (resultChunks: seq<Chunk>)
    ensures resultChunks == PrimaryChunks(enc, chunks)
  {
    resultChunks := [];
    var i := 0;
    while i < |chunks|
      invariant 0 <= i <= |chunks|
      invariant |resultChunks| == i
      invariant forall j :: 0 <= j < i ==> resultChunks[j] == Chunk(chunks[j], CountTokens(enc, chunks[j]), j, Primary)
    {
      resultChunks := resultChunks + [Chunk(chunks[i], CountTokens(enc, chunks[i]), i, Primary)];
      i := i + 1;
    }
  }

  /** The loop of `chunk_document` that appends one chunk's sub-chunks, each numbered by the output's length. */
  method AppendSubChunks(enc: Encoding, finalChunks: seq<Chunk>, subChunks: seq<string>) returns (out: seq<Chunk>)
    ensures out == finalChunks + SubChunks(enc, subChunks, |finalChunks|)
  {
    out := finalChunks;
    var j := 0;
    while j < |subChunks|
      invariant 0 <= j <= |subChunks|
      invariant out == finalChunks + SubChunks(enc, subChunks[..j], |finalChunks|)
    {
      assert SubChunks(enc, subChunks[..j + 1], |finalChunks|)
          == SubChunks(enc, subChunks[..j], |finalChunks|) + [Chunk(subChunks[j], CountTokens(enc, subChunks[j]), |finalChunks| + j, SubChunk)];
      out := out + [Chunk(subChunks[j], CountTokens(enc, subChunks[j]), |out|, SubChunk)];
      j := j + 1;
    }
    assert subChunks[..|subChunks|] == subChunks;
  }

  /** The second-pass loop of `chunk_document`. */
  method RunSecondPass(enc: Encoding, limit: nat, resultChunks: seq<Chunk>) returns (finalChunks: seq<Chunk>)
    requires limit > 0
    ensures finalChunks == SecondPass(enc, limit, resultChunks)
  {
    finalChunks := [];
    var i := 0;
    while i < |resultChunks|
      invariant 0 <= i <= |resultChunks|
      invariant finalChunks == SecondPass(enc, limit, resultChunks[..i])
    {
      var chunk := resultChunks[i];
      assert resultChunks[..i + 1][..i] == resultChunks[..i];
      if chunk.tokens > limit {
        var subChunks := SplitLargeChunk(enc, limit, chunk.content);
        finalChunks := AppendSubChunks(enc, finalChunks, subChunks);
      } else {
        finalChunks := finalChunks + [chunk];
      }
      i := i + 1;
    }
    assert resultChunks[..|resultChunks|] == resultChunks;
  }

  /** `chunk_document`. */
  method ChunkDocument(enc: Encoding, limit: nat, separators: seq<string>, content: string) returns (finalChunks: seq<Chunk>)
    requires limit > 0 && ValidSeparators(separators)
    ensures finalChunks == Chunking(enc, limit, separators, content)
    ensures CountTokens(enc, content) <= limit ==> finalChunks == [Chunk(content, CountTokens(enc, content), 0, Complete)]
  {
    var totalTokens := CountTokens(enc, content);
    if totalTokens <= limit {
      return [Chunk(content, totalTokens, 0, Complete)];
    }
    var chunks := FirstPass(limit, separators, content);
    var resultChunks := MakePrimaryChunks(enc, chunks);
    finalChunks := RunSecondPass(enc, limit, resultChunks);
  }

  // ---------------------------------------------------------------------------
  // What chunk_document promises
  // ---------------------------------------------------------------------------

  /** The texts of a chunk list, in order. */
  function Contents(cs: seq<Chunk>): (r: seq<string>)
    ensures |r| == |cs| && forall k :: 0 <= k < |cs| ==> r[k] == cs[k].content
  {
    seq(|cs|, k requires 0 <= k < |cs| => cs[k].content)
  }

  /** The texts one first-pass chunk contributes to the output: its sub-chunks when over the limit, itself otherwise. */
  function Expansion(enc: Encoding, limit: nat, c: Chunk): seq<string>
    requires limit > 0
  {
    if c.tokens > limit then LargeSplit(enc, limit, c.content) else [c.content]
  }

  /** Every chunk's `'tokens'` is the token count of its text. */
  predicate TokensExact(enc: Encoding, cs: seq<Chunk>) {
    forall k :: 0 <= k < |cs| ==> cs[k].tokens == CountTokens(enc, cs[k].content)
  }

  /** The first-pass records: each at its own index, type `'chunk'`. */
  predicate NumberedPrimary(cs: seq<Chunk>) {
    forall i :: 0 <= i < |cs| ==> cs[i].chunkId == i && cs[i].kind == Primary
  }

  /** The expansions of a list of first-pass chunks. */
  function Expansions(enc: Encoding, limit: nat, cs: seq<Chunk>): (r: seq<seq<string>>)
    requires limit > 0
    ensures |r| == |cs| && forall k :: 0 <= k < |cs| ==> r[k] == Expansion(enc, limit, cs[k])
  {
    seq(|cs|, k requires 0 <= k < |cs| => Expansion(enc, limit, cs[k]))
  }

  lemma ContentsAppend(a: seq<Chunk>, b: seq<Chunk>)
    ensures Contents(a + b) == Contents(a) + Contents(b)
  {
  }

  /**
   * The second pass keeps the document order: its texts are the expansions of
   * the first-pass chunks, one after another.
   */
  lemma {:induction false} SecondPassContents(enc: Encoding, limit: nat, cs: seq<Chunk>)
    requires limit > 0
    ensures Contents(SecondPass(enc, limit, cs)) == Concat(Expansions(enc, limit, cs))
    decreases |cs|
  {
    if cs != [] {
      var init := cs[..|cs| - 1];
      var c := cs[|cs| - 1];
      var done := SecondPass(enc, limit, init);
      SecondPassContents(enc, limit, init);
      assert Expansions(enc, limit, cs)[..|cs| - 1] == Expansions(enc, limit, init);
      if c.tokens > limit {
        var subs := SubChunks(enc, LargeSplit(enc, limit, c.content), |done|);
        ContentsAppend(done, subs);
        assert Contents(subs) == LargeSplit(enc, limit, c.content);
      } else {
        ContentsAppend(done, [c]);
      }
    }
  }

  /**
   * Every output record carries its text's token count; a sub-chunk's id is
   * its position in the output; a chunk that was not re-split is a first-pass
   * record, unchanged, within the limit; and the output is at least as long as
   * the first pass (an over-limit chunk is replaced by one or more pieces).
   */
  lemma {:induction false} SecondPassRecords(enc: Encoding, limit: nat, cs: seq<Chunk>)
    requires limit > 0
    requires TokensExact(enc, cs) && NumberedPrimary(cs)
    ensures TokensExact(enc, SecondPass(enc, limit, cs))
    ensures forall k :: 0 <= k < |SecondPass(enc, limit, cs)| && SecondPass(enc, limit, cs)[k].kind == SubChunk ==>
      SecondPass(enc, limit, cs)[k].chunkId == k
    ensures forall k :: 0 <= k < |SecondPass(enc, limit, cs)| && SecondPass(enc, limit, cs)[k].kind != SubChunk ==>
      var c := SecondPass(enc, limit, cs)[k];
      0 <= c.chunkId < |cs| && c == cs[c.chunkId] && c.kind == Primary && c.tokens <= limit
    ensures |SecondPass(enc, limit, cs)| >= |cs|
    decreases |cs|
  {
    if cs != [] {
      var init := cs[..|cs| - 1];
      var c := cs[|cs| - 1];
      var done := SecondPass(enc, limit, init);
      assert TokensExact(enc, init) && NumberedPrimary(init);
      SecondPassRecords(enc, limit, init);
      if c.tokens > limit {
        var subs := SubChunks(enc, LargeSplit(enc, limit, c.content), |done|);
        LargeSplitWithinCeiling(enc, limit, c.content);
        assert SecondPass(enc, limit, cs) == done + subs;
      } else {
        assert SecondPass(enc, limit, cs) == done + [c];
        assert c.chunkId == |cs| - 1 && c == cs[c.chunkId];
      }
    }
  }

  /**
   * Every output record keeps a token field within the limit (a chunk that was
   * not re-split) or has a text within the token ceiling (a re-split piece);
   * when the first pass records exact token counts, every output text is
   * within the ceiling.
   */
  lemma {:induction false} SecondPassWithinCeiling(enc: Encoding, limit: nat, cs: seq<Chunk>)
    requires limit > 0
    ensures forall k :: 0 <= k < |SecondPass(enc, limit, cs)| ==>
      SecondPass(enc, limit, cs)[k].tokens <= limit || WithinCeiling(enc, limit, SecondPass(enc, limit, cs)[k].content)
    ensures TokensExact(enc, cs) ==>
      forall k :: 0 <= k < |SecondPass(enc, limit, cs)| ==> WithinCeiling(enc, limit, SecondPass(enc, limit, cs)[k].content)
    decreases |cs|
  {
    if cs != [] {
      var init := cs[..|cs| - 1];
      var c := cs[|cs| - 1];
      var done := SecondPass(enc, limit, init);
      SecondPassWithinCeiling(enc, limit, init);
      if TokensExact(enc, cs) {
        assert TokensExact(enc, init);
      }
      if c.tokens > limit {
        var pieces := LargeSplit(enc, limit, c.content);
        var subs := SubChunks(enc, pieces, |done|);
        LargeSplitWithinCeiling(enc, limit, c.content);
        assert SecondPass(enc, limit, cs) == done + subs;
        assert forall j :: 0 <= j < |subs| ==> WithinCeiling(enc, limit, subs[j].content);
      } else {
        assert SecondPass(enc, limit, cs) == done + [c];
      }
    }
  }

  /** With no over-limit chunk the second pass changes nothing, so the ids are 0..n-1 in order. */
  lemma {:induction false} SecondPassIdentity(enc: Encoding, limit: nat, cs: seq<Chunk>)
    requires limit > 0
    requires forall k :: 0 <= k < |cs| ==> cs[k].tokens <= limit
    ensures SecondPass(enc, limit, cs) == cs
    decreases |cs|
  {
    if cs != [] {
      SecondPassIdentity(enc, limit, cs[..|cs| - 1]);
    }
  }

  /**
   * Ids are not unique once a chunk is re-split: when the first of two
   * first-pass chunks is over the limit and splits into two or more pieces,
   * its second sub-chunk (numbered by position) and the untouched second
   * chunk (keeping its first-pass index) both carry id 1.
   */
  lemma SecondPassIdsMayRepeat(enc: Encoding, limit: nat, cs: seq<Chunk>)
    requires limit > 0 && |cs| == 2 && NumberedPrimary(cs)
    requires cs[0].tokens > limit && cs[1].tokens <= limit
    ensures |LargeSplit(enc, limit, cs[0].content)| >= 2 ==>
      var out := SecondPass(enc, limit, cs);
      && |out| == |LargeSplit(enc, limit, cs[0].content)| + 1
      && out[1].chunkId == 1 && out[|out| - 1].chunkId == 1
      && out[1].kind == SubChunk && out[|out| - 1].kind == Primary
  {
    var pieces := LargeSplit(enc, limit, cs[0].content);
    assert cs[..1][..0] == [];
    assert SecondPass(enc, limit, cs[..1]) == SubChunks(enc, pieces, 0);
    assert cs[..|cs| - 1] == cs[..1];
    assert SecondPass(enc, limit, cs) == SubChunks(enc, pieces, 0) + [cs[1]];
  }

  /**
   * What `chunk_document` returns: every record carries its text's token
   * count and stays within the ceiling; a sub-chunk's id is its position; a
   * record that was not re-split is the first-pass segment of its id; the
   * texts follow the document order of the first pass; a non-empty document
   * gives at least one chunk; and when no first-pass segment is over the
   * limit the ids are 0..n-1.
   */
  lemma ChunkingShape(enc: Encoding, limit: nat, seps: seq<string>, content: string)
    requires limit > 0 && ValidSeparators(seps)
    ensures TokensExact(enc, Chunking(enc, limit, seps, content))
    ensures forall k :: 0 <= k < |Chunking(enc, limit, seps, content)| ==>
      WithinCeiling(enc, limit, Chunking(enc, limit, seps, content)[k].content)
    ensures forall k :: 0 <= k < |Chunking(enc, limit, seps, content)| && Chunking(enc, limit, seps, content)[k].kind == SubChunk ==>
      Chunking(enc, limit, seps, content)[k].chunkId == k
    ensures CountTokens(enc, content) > limit ==>
      var segs := FirstPassSegments(limit, seps, content);
      && (forall k :: 0 <= k < |Chunking(enc, limit, seps, content)| && Chunking(enc, limit, seps, content)[k].kind == Primary ==>
            var c := Chunking(enc, limit, seps, content)[k];
            0 <= c.chunkId < |segs| && c.content == segs[c.chunkId] && c.tokens <= limit)
      && Contents(Chunking(enc, limit, seps, content))
         == Concat(Expansions(enc, limit, PrimaryChunks(enc, segs)))
      && |Chunking(enc, limit, seps, content)| >= |segs|
      && ((forall i :: 0 <= i < |segs| ==> CountTokens(enc, segs[i]) <= limit) ==>
            Chunking(enc, limit, seps, content) == PrimaryChunks(enc, segs))
    ensures content != [] ==> Chunking(enc, limit, seps, content) != []
  {
    if CountTokens(enc, content) > limit {
      var segs := FirstPassSegments(limit, seps, content);
      var cs := PrimaryChunks(enc, segs);
      SecondPassRecords(enc, limit, cs);
      SecondPassWithinCeiling(enc, limit, cs);
      SecondPassContents(enc, limit, cs);
      if forall i :: 0 <= i < |segs| ==> CountTokens(enc, segs[i]) <= limit {
        SecondPassIdentity(enc, limit, cs);
      }
      if content != [] {
        SlicesCount(content, 3 * limit);
      }
    }
  }

  /**
   * Which split the first pass uses: the first separator, in list order, that
   * occurs in the content, and no later one; length slicing when none occurs or
   * the split leaves only whitespace.
   */
  lemma FirstPassChoice(limit: nat, seps: seq<string>, content: string)
    requires limit > 0 && ValidSeparators(seps)
    ensures match FirstSeparator(content, seps)
            case Some(k) =>
              && k < |seps| && Contains(content, seps[k])
              && (forall j :: 0 <= j < k ==> !Contains(content, seps[j]))
              && FirstPassSegments(limit, seps, content)
                 == if SplitBySeparator(content, seps[k]) == [] then Slices(content, 3 * limit) else SplitBySeparator(content, seps[k])
            case None =>
              && (forall j :: 0 <= j < |seps| ==> !Contains(content, seps[j]))
              && FirstPassSegments(limit, seps, content) == Slices(content, 3 * limit)
  {
    match FirstSeparator(content, seps)
    case Some(k) =>
      assert PresenceTest(content, seps)(k);
      forall j | 0 <= j < k ensures !Contains(content, seps[j]) {
        assert !PresenceTest(content, seps)(j);
      }
    case None =>
      forall j | 0 <= j < |seps| ensures !Contains(content, seps[j]) {
        assert !PresenceTest(content, seps)(j);
      }
  }

  // ---------------------------------------------------------------------------
  // create_chunk_groups
  // ---------------------------------------------------------------------------

  /** The sum of the chunks' `'tokens'`. */
  function TokenSum(g: seq<Chunk>): nat
    decreases |g|
  {
    if g == [] then 0 else TokenSum(g[..|g| - 1]) + g[|g| - 1].tokens
  }

  /** The loop state of `create_chunk_groups`: closed groups, the open group and its token total. */
  datatype PackState = PackState(groups: seq<seq<Chunk>>, current: seq<Chunk>, currentTokens: int)

  /** One iteration of the grouping loop: join the open group if size and budget allow, else close it and start anew. */
  function PackStep(groupSize: nat, maxGroupTokens: int, st: PackState, c: Chunk): PackState {
    if |st.current| < groupSize && st.currentTokens + c.tokens <= maxGroupTokens then
      PackState(st.groups, st.current + [c], st.currentTokens + c.tokens)
    else
      PackState(if st.current != [] then st.groups + [st.current] else st.groups, [c], c.tokens)
  }

  /** The loop state of `create_chunk_groups` after the given chunks. */
  function Pack(groupSize: nat, maxGroupTokens: int, chunks: seq<Chunk>): PackState
    decreases |chunks|
  {
    if chunks == [] then PackState([], [], 0)
    else PackStep(groupSize, maxGroupTokens, Pack(groupSize, maxGroupTokens, chunks[..|chunks| - 1]), chunks[|chunks| - 1])
  }

  /** What `create_chunk_groups` returns: the closed groups and, when non-empty, the last open one. */
  function Grouping(groupSize: nat, maxGroupTokens: int, chunks: seq<Chunk>): seq<seq<Chunk>> {
    var st := Pack(groupSize, maxGroupTokens, chunks);
    if st.current != [] then st.groups + [st.current] else st.groups
  }

  /** `create_chunk_groups`, with the group size and the group token budget as parameters. */
  method CreateChunkGroups(chunks: seq<Chunk>, groupSize: nat, maxGroupTokens: int) returns (groups: seq<seq<Chunk>>)
    ensures groups == Grouping(groupSize, maxGroupTokens, chunks)
  {
    groups := [];
    var currentGroup: seq<Chunk> := [];
    var currentGroupTokens := 0;
    var i := 0;
    while i < |chunks|
      invariant 0 <= i <= |chunks|
      invariant PackState(groups, currentGroup, currentGroupTokens) == Pack(groupSize, maxGroupTokens, chunks[..i])
    {
      var chunk := chunks[i];
      var chunkTokens := chunk.tokens;
      assert chunks[..i + 1][..i] == chunks[..i];
      if |currentGroup| < groupSize && currentGroupTokens + chunkTokens <= maxGroupTokens {
        currentGroup := currentGroup + [chunk];
        currentGroupTokens := currentGroupTokens + chunkTokens;
      } else {
        if currentGroup != [] {
          groups := groups + [currentGroup];
        }
        currentGroup := [chunk];
        currentGroupTokens := chunkTokens;
      }
      i := i + 1;
    }
    assert chunks[..|chunks|] == chunks;
    if currentGroup != [] {
      groups := groups + [currentGroup];
    }
  }

  /** The size bound `create_chunk_groups` keeps: the group size, but at least one chunk. */
  function SizeBound(groupSize: nat): nat {
    if groupSize == 0 then 1 else groupSize
  }

  /** A group `create_chunk_groups` may form: non-empty, within the size bound, and within the budget unless a single chunk. */
  predicate WellFormedGroup(groupSize: nat, maxGroupTokens: int, g: seq<Chunk>) {
    g != [] && |g| <= SizeBound(groupSize) && (|g| >= 2 ==> TokenSum(g) <= maxGroupTokens)
  }

  /** A group is closed only because the next chunk would break the size bound or the budget. */
  predicate ClosedForCause(groupSize: nat, maxGroupTokens: int, g: seq<Chunk>, next: seq<Chunk>) {
    next != [] && (|g| >= groupSize || TokenSum(g) + next[0].tokens > maxGroupTokens)
  }

  /** The invariant of the grouping loop. */
  ghost predicate PackInvariant(groupSize: nat, maxGroupTokens: int, chunks: seq<Chunk>, st: PackState) {
    && Concat(st.groups) + st.current == chunks
    && (chunks != [] ==> st.current != [])
    && st.currentTokens == TokenSum(st.current)
    && (st.current != [] ==> WellFormedGroup(groupSize, maxGroupTokens, st.current))
    && (forall i :: 0 <= i < |st.groups| ==> WellFormedGroup(groupSize, maxGroupTokens, st.groups[i]))
    && (forall i :: 0 <= i < |st.groups| - 1 ==> ClosedForCause(groupSize, maxGroupTokens, st.groups[i], st.groups[i + 1]))
    && (st.groups != [] ==> ClosedForCause(groupSize, maxGroupTokens, st.groups[|st.groups| - 1], st.current))
  }

  lemma TokenSumAppend(g: seq<Chunk>, c: Chunk)
    ensures TokenSum(g + [c]) == TokenSum(g) + c.tokens
  {
    assert (g + [c])[..|g|] == g;
  }

  /** Adding a chunk to the open group keeps the invariant. */
  lemma PackStepJoin(groupSize: nat, maxGroupTokens: int, chunks: seq<Chunk>, st: PackState, c: Chunk)
    requires PackInvariant(groupSize, maxGroupTokens, chunks, st)
    requires |st.current| < groupSize && st.currentTokens + c.tokens <= maxGroupTokens
    ensures PackInvariant(groupSize, maxGroupTokens, chunks + [c], PackState(st.groups, st.current + [c], st.currentTokens + c.tokens))
  {
    TokenSumAppend(st.current, c);
    if st.groups != [] {
      assert (st.current + [c])[0] == st.current[0];
    }
  }

  /** Closing the open group and starting a new one with the chunk keeps the invariant. */
  lemma PackStepClose(groupSize: nat, maxGroupTokens: int, chunks: seq<Chunk>, st: PackState, c: Chunk)
    requires PackInvariant(groupSize, maxGroupTokens, chunks, st)
    requires !(|st.current| < groupSize && st.currentTokens + c.tokens <= maxGroupTokens)
    ensures PackInvariant(groupSize, maxGroupTokens, chunks + [c],
                          PackState(if st.current != [] then st.groups + [st.current] else st.groups, [c], c.tokens))
  {
    TokenSumAppend([], c);
    assert [] + [c] == [c];
    assert WellFormedGroup(groupSize, maxGroupTokens, [c]);
    if st.current == [] {
      assert st.groups == [];
      assert Concat(st.groups) + [c] == chunks + [c];
    } else {
      var gs := st.groups + [st.current];
      ConcatAppend(st.groups, [st.current]);
      ConcatOne(st.current);
      assert Concat(gs) + [c] == chunks + [c];
      assert ClosedForCause(groupSize, maxGroupTokens, st.current, [c]);
      forall i | 0 <= i < |gs| ensures WellFormedGroup(groupSize, maxGroupTokens, gs[i]) {
        if i < |st.groups| {
          assert gs[i] == st.groups[i];
        }
      }
      forall i | 0 <= i < |gs| - 1 ensures ClosedForCause(groupSize, maxGroupTokens, gs[i], gs[i + 1]) {
        if i < |st.groups| - 1 {
          assert gs[i] == st.groups[i] && gs[i + 1] == st.groups[i + 1];
        }
      }
    }
  }

  /** One iteration of the grouping loop keeps the invariant. */
  lemma PackStepKeepsInvariant(groupSize: nat, maxGroupTokens: int, chunks: seq<Chunk>, st: PackState, c: Chunk)
    requires PackInvariant(groupSize, maxGroupTokens, chunks, st)
    ensures PackInvariant(groupSize, maxGroupTokens, chunks + [c], PackStep(groupSize, maxGroupTokens, st, c))
  {
    if |st.current| < groupSize && st.currentTokens + c.tokens <= maxGroupTokens {
      assert PackStep(groupSize, maxGroupTokens, st, c) == PackState(st.groups, st.current + [c], st.currentTokens + c.tokens);
      PackStepJoin(groupSize, maxGroupTokens, chunks, st, c);
    } else {
      assert PackStep(groupSize, maxGroupTokens, st, c) ==
        PackState(if st.current != [] then st.groups + [st.current] else st.groups, [c], c.tokens);
      PackStepClose(groupSize, maxGroupTokens, chunks, st, c);
    }
  }

  lemma {:induction false} PackKeepsInvariant(groupSize: nat, maxGroupTokens: int, chunks: seq<Chunk>)
    ensures PackInvariant(groupSize, maxGroupTokens, chunks, Pack(groupSize, maxGroupTokens, chunks))
    decreases |chunks|
  {
    if chunks != [] {
      var init := chunks[..|chunks| - 1];
      var last := chunks[|chunks| - 1];
      assert chunks == init + [last];
      PackKeepsInvariant(groupSize, maxGroupTokens, init);
      PackStepKeepsInvariant(groupSize, maxGroupTokens, init, Pack(groupSize, maxGroupTokens, init), last);
    }
  }

  /**
   * What `create_chunk_groups` returns: the groups concatenate to exactly the
   * input chunk list; every group is non-empty, holds at most the group size
   * (at least one), and a group of two or more chunks stays within the token
   * budget; and a group was closed only because the next chunk would have
   * broken the size bound or the budget.
   */
  lemma GroupingShape(groupSize: nat, maxGroupTokens: int, chunks: seq<Chunk>)
    ensures Concat(Grouping(groupSize, maxGroupTokens, chunks)) == chunks
    ensures forall i :: 0 <= i < |Grouping(groupSize, maxGroupTokens, chunks)| ==>
      WellFormedGroup(groupSize, maxGroupTokens, Grouping(groupSize, maxGroupTokens, chunks)[i])
    ensures forall i :: 0 <= i < |Grouping(groupSize, maxGroupTokens, chunks)| - 1 ==>
      ClosedForCause(groupSize, maxGroupTokens, Grouping(groupSize, maxGroupTokens, chunks)[i], Grouping(groupSize, maxGroupTokens, chunks)[i + 1])
    ensures chunks == [] <==> Grouping(groupSize, maxGroupTokens, chunks) == []
  {
    var st := Pack(groupSize, maxGroupTokens, chunks);
    var gs := Grouping(groupSize, maxGroupTokens, chunks);
    PackKeepsInvariant(groupSize, maxGroupTokens, chunks);
    if st.current != [] {
      assert gs == st.groups + [st.current];
      ConcatAppend(st.groups, [st.current]);
      ConcatOne(st.current);
      forall i | 0 <= i < |gs| ensures WellFormedGroup(groupSize, maxGroupTokens, gs[i]) {
        if i < |st.groups| {
          assert gs[i] == st.groups[i];
        }
      }
      forall i | 0 <= i < |gs| - 1 ensures ClosedForCause(groupSize, maxGroupTokens, gs[i], gs[i + 1]) {
        if i < |st.groups| - 1 {
          assert gs[i] == st.groups[i] && gs[i + 1] == st.groups[i + 1];
        }
      }
    } else {
      assert gs == st.groups;
    }
  }
}
