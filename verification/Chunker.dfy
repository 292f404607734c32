/** The overlapping-window chunker. */
module Chunker {
  import opened Collections
  import Words

  datatype ConfigError = SizeNotPositive | OverlapNegative | OverlapNotSmaller

  /** A validated configuration; the fields never change after construction. */
  datatype Config = Config(chunkSize: nat, overlap: nat) {
    predicate Valid() {
      overlap < chunkSize
    }

    function Step(): nat
      requires Valid()
    {
      chunkSize - overlap
    }
  }

  function MakeConfig(chunkSize: int, overlap: int): (r: Result<Config, ConfigError>)
    ensures r.Ok? <==> 0 <= overlap < chunkSize
    ensures r.Ok? ==> r.value.Valid() && r.value == Config(chunkSize, overlap)
    ensures r == Err(SizeNotPositive) <==> chunkSize <= 0
    ensures r == Err(OverlapNegative) <==> chunkSize > 0 && overlap < 0
    ensures r == Err(OverlapNotSmaller) <==> 0 < chunkSize <= overlap
  {
    if chunkSize <= 0 then Err(SizeNotPositive)
    else if overlap < 0 then Err(OverlapNegative)
    else if overlap >= chunkSize then Err(OverlapNotSmaller)
    else Ok(Config(chunkSize, overlap))
  }

  datatype Chunk = Chunk(chunkIndex: nat, chunkText: string, contentSha256: string, tokenCount: nat)

  /** Number of chunks of n words: 1 + ceil((n - size) / step) once they do not fit in one. */
  function ChunkCount(n: nat, config: Config): nat
    requires config.Valid()
  {
    if n == 0 then 0
    else if n <= config.chunkSize then 1
    else 1 + (n - config.chunkSize + config.Step() - 1) / config.Step()
  }

  function ChunkEnd(n: nat, config: Config, i: nat): nat
    requires config.Valid()
  {
    if i * config.Step() + config.chunkSize <= n then i * config.Step() + config.chunkSize else n
  }

  /** The words of chunk i: chunk i starts i steps into the text. */
  function ChunkWords(words: seq<string>, config: Config, i: nat): seq<string>
    requires config.Valid() && i * config.Step() <= |words|
  {
    words[i * config.Step()..ChunkEnd(|words|, config, i)]
  }

  ghost predicate IsChunk(c: Chunk, i: nat, words: seq<string>, config: Config, sha256: string -> string)
    requires config.Valid()
  {
    && i * config.Step() <= |words|
    && c.chunkIndex == i
    && c.chunkText == Words.Join(ChunkWords(words, config, i))
    && c.contentSha256 == sha256(c.chunkText)
    && c.tokenCount == |ChunkWords(words, config, i)|
  }

  ghost predicate IsChunking(chunks: seq<Chunk>, words: seq<string>, config: Config, sha256: string -> string)
    requires config.Valid()
  {
    && |chunks| == ChunkCount(|words|, config)
    && forall i :: 0 <= i < |chunks| ==> IsChunk(chunks[i], i, words, config, sha256)
  }

  /** The closed-form count seen from one step of the loop: the window that starts at
      i steps reaches the end exactly when it is the last one. */
  lemma LastWindow(n: nat, config: Config, i: nat)
    requires config.Valid()
    requires i * config.Step() < n && i < ChunkCount(n, config)
    ensures ChunkEnd(n, config, i) == n <==> i + 1 == ChunkCount(n, config)
    ensures ChunkEnd(n, config, i) < n ==> (i + 1) * config.Step() < n && i + 1 < ChunkCount(n, config)
    ensures (i + 1) * config.Step() == i * config.Step() + config.Step()
  {
    var step, size := config.Step(), config.chunkSize;
    var d := n - size;
    assert (i + 1) * step == i * step + step;
    if d > 0 {
      var q := (d + step - 1) / step;
      CeilingDivision(d, step, q, i);
    } else {
      assert i == 0;
    }
  }

  lemma CeilingDivision(d: nat, step: nat, q: nat, i: nat)
    requires step > 0 && q == (d + step - 1) / step
    ensures i >= q <==> i * step >= d
  {
    var r := (d + step - 1) % step;
    assert d + step - 1 == q * step + r && 0 <= r < step;
    if i >= q { MulMonotone(q, i, step); } else { MulMonotone(i + 1, q, step); }
  }

  lemma MulMonotone(a: nat, b: nat, m: nat)
    requires a <= b
    ensures a * m <= b * m
  {
  }

  method ChunkText(text: string, config: Config, sha256: string -> string) returns (chunks: seq<Chunk>)
    requires config.Valid()
    ensures Words.AreWordsOf(Words.Split(text), text) && IsChunking(chunks, Words.Split(text), config, sha256)
  {
    var words := Words.Split(text);
    assert Words.AreWordsOf(words, text) by { Words.SplitExactly(text, words); }
    if words == [] {
      return [];
    }
    chunks := [];
    var idx := 0;
    var start := 0;
    while start < |words|
      invariant |chunks| == idx < ChunkCount(|words|, config)
      invariant start == idx * config.Step() < |words|
      invariant forall i :: 0 <= i < idx ==> IsChunk(chunks[i], i, words, config, sha256)
      decreases |words| - start
    {
      var end := if start + config.chunkSize <= |words| then start + config.chunkSize else |words|;
      var chunkWords := words[start..end];
      var chunkText := Words.Join(chunkWords);
      chunks := chunks + [Chunk(idx, chunkText, sha256(chunkText), |chunkWords|)];
      LastWindow(|words|, config, idx);
      idx := idx + 1;
      if end == |words| {
        return;
      }
      start := start + config.Step();
    }
    // The loop always leaves from inside: its own condition never becomes false.
    assert false;
  }

  /** The chunks of a text as a value: there is exactly one chunking. */
  function ChunksOf(text: string, config: Config, sha256: string -> string): (chunks: seq<Chunk>)
    requires config.Valid()
    ensures IsChunking(chunks, Words.Split(text), config, sha256)
  {
    var words := Words.Split(text);
    seq(ChunkCount(|words|, config), i requires 0 <= i < ChunkCount(|words|, config) => ChunkAt(words, config, sha256, i))
  }

  function ChunkAt(words: seq<string>, config: Config, sha256: string -> string, i: nat): (c: Chunk)
    requires config.Valid() && i < ChunkCount(|words|, config)
    ensures IsChunk(c, i, words, config, sha256)
  {
    WindowBounds(|words|, config, i);
    var text := Words.Join(ChunkWords(words, config, i));
    Chunk(i, text, sha256(text), |ChunkWords(words, config, i)|)
  }

  lemma ChunkingIsUnique(chunks: seq<Chunk>, text: string, words: seq<string>, config: Config, sha256: string -> string)
    requires config.Valid() && Words.AreWordsOf(words, text) && IsChunking(chunks, words, config, sha256)
    ensures chunks == ChunksOf(text, config, sha256)
  {
    Words.SplitExactly(text, words);
    forall i | 0 <= i < |chunks| ensures chunks[i] == ChunksOf(text, config, sha256)[i] {
      assert IsChunk(chunks[i], i, words, config, sha256);
      assert IsChunk(ChunksOf(text, config, sha256)[i], i, words, config, sha256);
    }
  }

  // ----- what the chunks preserve -----

  lemma WindowBounds(n: nat, config: Config, i: nat)
    requires config.Valid() && i < ChunkCount(n, config)
    ensures i * config.Step() < n
    ensures i + 1 < ChunkCount(n, config) ==> ChunkEnd(n, config, i) == i * config.Step() + config.chunkSize < n
    ensures i + 1 == ChunkCount(n, config) ==> ChunkEnd(n, config, i) == n
  {
    if i > 0 {
      WindowBounds(n, config, i - 1);
      LastWindow(n, config, i - 1);
    }
    LastWindow(n, config, i);
  }

  /** The words of the first `count` chunks, each later one without its first `overlap` words. */
  function Reassembled(words: seq<string>, config: Config, count: nat): seq<string>
    requires config.Valid() && count <= ChunkCount(|words|, config)
  {
    if count == 0 then []
    else
      WindowBounds(|words|, config, count - 1);
      var window := ChunkWords(words, config, count - 1);
      if count == 1 then window
      else
        WindowBounds(|words|, config, count - 2);
        OverlapFits(|words|, config, count - 1);
        Reassembled(words, config, count - 1) + window[config.overlap..]
  }

  lemma OverlapFits(n: nat, config: Config, i: nat)
    requires config.Valid() && 0 < i < ChunkCount(n, config)
    ensures i * config.Step() + config.overlap < n
    ensures ChunkEnd(n, config, i - 1) == i * config.Step() + config.overlap < ChunkEnd(n, config, i)
  {
    WindowBounds(n, config, i - 1);
    WindowBounds(n, config, i);
    assert i * config.Step() == (i - 1) * config.Step() + config.Step();
  }

  lemma SliceJoin(words: seq<string>, lo: nat, overlap: nat, hi: nat)
    requires lo + overlap <= hi <= |words|
    ensures words[..lo + overlap] + words[lo..hi][overlap..] == words[..hi]
  {
  }

  lemma ReassembledStep(words: seq<string>, config: Config, count: nat)
    requires config.Valid() && 1 < count <= ChunkCount(|words|, config)
    requires ChunkEnd(|words|, config, count - 2) <= |words|
    requires Reassembled(words, config, count - 1) == words[..ChunkEnd(|words|, config, count - 2)]
    ensures ChunkEnd(|words|, config, count - 1) <= |words|
    ensures Reassembled(words, config, count) == words[..ChunkEnd(|words|, config, count - 1)]
  {
    OverlapFits(|words|, config, count - 1);
    SliceJoin(words, (count - 1) * config.Step(), config.overlap, ChunkEnd(|words|, config, count - 1));
  }

  lemma {:induction false} ReassembledIsPrefix(words: seq<string>, config: Config, count: nat)
    requires config.Valid() && 0 < count <= ChunkCount(|words|, config)
    ensures ChunkEnd(|words|, config, count - 1) <= |words|
    ensures Reassembled(words, config, count) == words[..ChunkEnd(|words|, config, count - 1)]
  {
    if count > 1 {
      ReassembledIsPrefix(words, config, count - 1);
      ReassembledStep(words, config, count);
    } else {
      WindowBounds(|words|, config, 0);
    }
  }

  /** The first chunk followed by each later chunk without its overlap is the text's word list. */
  lemma Reconstruction(words: seq<string>, config: Config)
    requires config.Valid()
    ensures Reassembled(words, config, ChunkCount(|words|, config)) == words
  {
    if words != [] {
      var count := ChunkCount(|words|, config);
      ReassembledIsPrefix(words, config, count);
      WindowBounds(|words|, config, count - 1);
    }
  }

  /** The token counts of the first `count` chunks together. */
  function TotalTokens(chunks: seq<Chunk>, count: nat): nat
    requires count <= |chunks|
  {
    if count == 0 then 0 else TotalTokens(chunks, count - 1) + chunks[count - 1].tokenCount
  }

  lemma ChunkLength(words: seq<string>, config: Config, i: nat)
    requires config.Valid() && i < ChunkCount(|words|, config)
    ensures i * config.Step() <= |words|
    ensures |ChunkWords(words, config, i)| ==
            if i == 0 then ChunkEnd(|words|, config, 0)
            else ChunkEnd(|words|, config, i) - ChunkEnd(|words|, config, i - 1) + config.overlap
  {
    WindowBounds(|words|, config, i);
    if i > 0 { OverlapFits(|words|, config, i); }
  }

  lemma TokensStep(chunks: seq<Chunk>, words: seq<string>, config: Config, sha256: string -> string, count: nat)
    requires config.Valid() && IsChunking(chunks, words, config, sha256) && 1 < count <= |chunks|
    requires TotalTokens(chunks, count - 1) == ChunkEnd(|words|, config, count - 2) + config.overlap * (count - 2)
    ensures TotalTokens(chunks, count) == ChunkEnd(|words|, config, count - 1) + config.overlap * (count - 1)
  {
    ChunkLength(words, config, count - 1);
    assert IsChunk(chunks[count - 1], count - 1, words, config, sha256);
    OneMore(config.overlap, count - 2);
  }

  lemma {:induction false} TokensOfPrefix(chunks: seq<Chunk>, words: seq<string>, config: Config,
                                          sha256: string -> string, count: nat)
    requires config.Valid() && IsChunking(chunks, words, config, sha256)
    requires 0 < count <= |chunks|
    ensures TotalTokens(chunks, count) == ChunkEnd(|words|, config, count - 1) + config.overlap * (count - 1)
  {
    if count > 1 {
      TokensOfPrefix(chunks, words, config, sha256, count - 1);
      TokensStep(chunks, words, config, sha256, count);
    } else {
      ChunkLength(words, config, 0);
      assert IsChunk(chunks[0], 0, words, config, sha256);
      assert TotalTokens(chunks, 0) == 0;
    }
  }

  lemma OneMore(m: nat, k: nat)
    ensures m * (k + 1) == m * k + m
  {
  }

  /** Every word is counted once, plus one overlap per chunk after the first. */
  lemma TokenConservation(chunks: seq<Chunk>, words: seq<string>, config: Config, sha256: string -> string)
    requires config.Valid() && words != []
    requires IsChunking(chunks, words, config, sha256)
    ensures |chunks| > 0 && TotalTokens(chunks, |chunks|) == |words| + config.overlap * (|chunks| - 1)
  {
    TokensOfPrefix(chunks, words, config, sha256, |chunks|);
    WindowBounds(|words|, config, |chunks| - 1);
  }

  /** No chunk lies inside its predecessor: each one brings at least one new word. */
  lemma EveryChunkAdvances(words: seq<string>, config: Config, i: nat)
    requires config.Valid() && i + 1 < ChunkCount(|words|, config)
    ensures ChunkEnd(|words|, config, i) < ChunkEnd(|words|, config, i + 1)
    ensures 0 < |ChunkWords(words, config, i + 1)| <= config.chunkSize
    ensures |ChunkWords(words, config, i + 1)| > config.overlap
  {
    OverlapFits(|words|, config, i + 1);
  }

  lemma ChunkWordsAreWords(words: seq<string>, config: Config, i: nat)
    requires config.Valid() && Words.AllWords(words) && i < ChunkCount(|words|, config)
    ensures i * config.Step() <= |words| && Words.AllWords(ChunkWords(words, config, i))
  {
    WindowBounds(|words|, config, i);
  }

  /** Splitting a stored chunk text gives that chunk's words. */
  lemma ChunkTextRoundTrip(text: string, config: Config, sha256: string -> string, chunks: seq<Chunk>, i: nat)
    requires config.Valid() && IsChunking(chunks, Words.Split(text), config, sha256) && i < |chunks|
    ensures i * config.Step() <= |Words.Split(text)|
    ensures Words.Split(chunks[i].chunkText) == ChunkWords(Words.Split(text), config, i)
  {
    Words.SplitYieldsWords(text);
    ChunkWordsAreWords(Words.Split(text), config, i);
    assert IsChunk(chunks[i], i, Words.Split(text), config, sha256);
    Words.SplitJoin(ChunkWords(Words.Split(text), config, i));
  }

  /** Reading the words back from the stored texts alone. */
  function WordsFromTexts(texts: seq<string>, overlap: nat): seq<string> {
    if texts == [] then []
    else
      var last := Words.Split(texts[|texts| - 1]);
      if |texts| == 1 then last
      else WordsFromTexts(texts[..|texts| - 1], overlap) + (if overlap <= |last| then last[overlap..] else [])
  }

  function Texts(chunks: seq<Chunk>): seq<string> {
    seq(|chunks|, i requires 0 <= i < |chunks| => chunks[i].chunkText)
  }

  lemma LastText(chunks: seq<Chunk>, count: nat)
    requires 0 < count <= |chunks|
    ensures var texts := Texts(chunks)[..count];
            texts[..count - 1] == Texts(chunks)[..count - 1] && texts[count - 1] == chunks[count - 1].chunkText
  {
  }

  lemma WordsFromMore(texts: seq<string>, overlap: nat)
    requires |texts| > 1
    ensures var last := Words.Split(texts[|texts| - 1]);
            WordsFromTexts(texts, overlap)
            == WordsFromTexts(texts[..|texts| - 1], overlap) + (if overlap <= |last| then last[overlap..] else [])
  {
  }

  lemma ReassembledMore(words: seq<string>, config: Config, count: nat)
    requires config.Valid() && 1 < count <= ChunkCount(|words|, config)
    ensures (count - 1) * config.Step() <= |words|
    ensures var window := ChunkWords(words, config, count - 1);
            config.overlap <= |window|
            && Reassembled(words, config, count) == Reassembled(words, config, count - 1) + window[config.overlap..]
  {
    WindowBounds(|words|, config, count - 1);
    OverlapFits(|words|, config, count - 1);
  }

  lemma {:induction false} TextsReassemble(text: string, config: Config, sha256: string -> string,
                                           chunks: seq<Chunk>, count: nat)
    requires config.Valid() && IsChunking(chunks, Words.Split(text), config, sha256) && count <= |chunks|
    ensures WordsFromTexts(Texts(chunks)[..count], config.overlap) == Reassembled(Words.Split(text), config, count)
  {
    if count > 0 {
      TextsReassemble(text, config, sha256, chunks, count - 1);
      ChunkTextRoundTrip(text, config, sha256, chunks, count - 1);
      LastText(chunks, count);
      if count > 1 {
        WordsFromMore(Texts(chunks)[..count], config.overlap);
        ReassembledMore(Words.Split(text), config, count);
      }
    }
  }

  /** The source text's words, each maximal run of its non-whitespace characters, are
      recoverable from the stored chunk texts alone; no such character is lost. */
  lemma SourceWordsRecoverable(text: string, words: seq<string>, config: Config, sha256: string -> string, chunks: seq<Chunk>)
    requires config.Valid() && Words.AreWordsOf(words, text) && IsChunking(chunks, words, config, sha256)
    ensures Words.AreWordsOf(WordsFromTexts(Texts(chunks), config.overlap), text)
    ensures Words.Concatenated(WordsFromTexts(Texts(chunks), config.overlap)) == Words.WithoutSpaces(text)
  {
    Words.SplitExactly(text, words);
    TextsReassemble(text, config, sha256, chunks, |chunks|);
    assert Texts(chunks)[..|chunks|] == Texts(chunks);
    Reconstruction(words, config);
    Words.WordsKeepCharacters(text);
  }
}
