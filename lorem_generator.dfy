/** Deterministic lorem-ipsum chunks: a cyclic walk over a fixed word list
    (src/shared/lib/loremGenerator.ts). */
module LoremGenerator {
  import opened JsString

  /** BASE_WORDS, in order, written as rows of five so that the verifier can
      reason about the literals of one row at a time. */
  const BaseWords: seq<string> :=
    Row0 + Row1 + Row2 + Row3 + Row4 + Row5 + Row6 + Row7 + Row8 + Row9 + Row10 + Row11 + Row12 + Row13

  const Row0: seq<string> := ["lorem", "ipsum", "dolor", "sit", "amet"]
  const Row1: seq<string> := ["consectetur", "adipiscing", "elit", "sed", "do"]
  const Row2: seq<string> := ["eiusmod", "tempor", "incididunt", "ut", "labore"]
  const Row3: seq<string> := ["et", "dolore", "magna", "aliqua", "ut"]
  const Row4: seq<string> := ["enim", "ad", "minim", "veniam", "quis"]
  const Row5: seq<string> := ["nostrud", "exercitation", "ullamco", "laboris", "nisi"]
  const Row6: seq<string> := ["ut", "aliquip", "ex", "ea", "commodo"]
  const Row7: seq<string> := ["consequat", "duis", "aute", "irure", "dolor"]
  const Row8: seq<string> := ["in", "reprehenderit", "in", "voluptate", "velit"]
  const Row9: seq<string> := ["esse", "cillum", "dolore", "eu", "fugiat"]
  const Row10: seq<string> := ["nulla", "pariatur", "excepteur", "sint", "occaecat"]
  const Row11: seq<string> := ["cupidatat", "non", "proident", "sunt", "in"]
  const Row12: seq<string> := ["culpa", "qui", "officia", "deserunt", "mollit"]
  const Row13: seq<string> := ["anim", "id", "est", "laborum"]

  /** `words[i % words.length]` as JavaScript evaluates it: `%` keeps the
      sign of the dividend, a negative index reads `undefined`, which `join`
      renders as the empty string, and `-0` reads index 0. */
  function WordAt(words: seq<string>, i: int): string
    requires |words| > 0
  {
    if i >= 0 then words[i % |words|]
    else if i % |words| == 0 then words[0]
    else ""
  }

  /** The words `buildWordChunk(size, startIndex)` pushes, in order, for a
      given word list. */
  function ChunkWords(words: seq<string>, size: int, startIndex: int): seq<string>
    requires |words| > 0
  {
    seq(if size > 0 then size else 0, i => WordAt(words, startIndex + i))
  }

  /** The string `buildWordChunk(size, startIndex)` returns, for a given word list. */
  function WordChunk(words: seq<string>, size: int, startIndex: int): (chunk: string)
    requires |words| > 0
  {
    Join(ChunkWords(words, size, startIndex), " ")
  }

  /** `buildWordChunk`: one word of BASE_WORDS per index, then joined with single spaces. */
  method BuildWordChunk(size: int, startIndex: int) returns (chunk: string)
    ensures chunk == WordChunk(BaseWords, size, startIndex)
    ensures size <= 0 ==> chunk == ""
  {
    BaseWordsAreTokens();
    var words: seq<string> := [];
    var index := 0;
    while index < size
      invariant 0 <= index <= (if size > 0 then size else 0)
      invariant words == ChunkWords(BaseWords, index, startIndex)
    {
      assert ChunkWords(BaseWords, index + 1, startIndex) == words + [WordAt(BaseWords, startIndex + index)];
      words := words + [WordAt(BaseWords, startIndex + index)];
      index := index + 1;
    }
    chunk := Join(words, " ");
  }

  lemma BaseWordsAreTokens()
    ensures AllTokens(BaseWords) && |BaseWords| == 69
  {
    Row0Tokens();
    Row1Tokens();
    Row2Tokens();
    Row3Tokens();
    Row4Tokens();
    Row5Tokens();
    Row6Tokens();
    Row7Tokens();
    Row8Tokens();
    Row9Tokens();
    Row10Tokens();
    Row11Tokens();
    Row12Tokens();
    Row13Tokens();
    AllTokensAppend(Row0, Row1);
    AllTokensAppend(Row0 + Row1, Row2);
    AllTokensAppend(Row0 + Row1 + Row2, Row3);
    AllTokensAppend(Row0 + Row1 + Row2 + Row3, Row4);
    AllTokensAppend(Row0 + Row1 + Row2 + Row3 + Row4, Row5);
    AllTokensAppend(Row0 + Row1 + Row2 + Row3 + Row4 + Row5, Row6);
    AllTokensAppend(Row0 + Row1 + Row2 + Row3 + Row4 + Row5 + Row6, Row7);
    AllTokensAppend(Row0 + Row1 + Row2 + Row3 + Row4 + Row5 + Row6 + Row7, Row8);
    AllTokensAppend(Row0 + Row1 + Row2 + Row3 + Row4 + Row5 + Row6 + Row7 + Row8, Row9);
    AllTokensAppend(Row0 + Row1 + Row2 + Row3 + Row4 + Row5 + Row6 + Row7 + Row8 + Row9, Row10);
    AllTokensAppend(Row0 + Row1 + Row2 + Row3 + Row4 + Row5 + Row6 + Row7 + Row8 + Row9 + Row10, Row11);
    AllTokensAppend(Row0 + Row1 + Row2 + Row3 + Row4 + Row5 + Row6 + Row7 + Row8 + Row9 + Row10 + Row11, Row12);
    AllTokensAppend(Row0 + Row1 + Row2 + Row3 + Row4 + Row5 + Row6 + Row7 + Row8 + Row9 + Row10 + Row11 + Row12, Row13);
  }

  lemma Row0Tokens() ensures AllTokens(Row0) {}
  lemma Row1Tokens() ensures AllTokens(Row1) {}
  lemma Row2Tokens() ensures AllTokens(Row2) {}
  lemma Row3Tokens() ensures AllTokens(Row3) {}
  lemma Row4Tokens() ensures AllTokens(Row4) {}
  lemma Row5Tokens() ensures AllTokens(Row5) {}
  lemma Row6Tokens() ensures AllTokens(Row6) {}
  lemma Row7Tokens() ensures AllTokens(Row7) {}
  lemma Row8Tokens() ensures AllTokens(Row8) {}
  lemma Row9Tokens() ensures AllTokens(Row9) {}
  lemma Row10Tokens() ensures AllTokens(Row10) {}
  lemma Row11Tokens() ensures AllTokens(Row11) {}
  lemma Row12Tokens() ensures AllTokens(Row12) {}
  lemma Row13Tokens() ensures AllTokens(Row13) {}

  /** For a non-negative start, the chunk holds exactly `size` space-separated
      words, word i being words[(startIndex + i) % words.length]. */
  lemma WordChunkWords(words: seq<string>, size: int, startIndex: int)
    requires |words| > 0 && AllTokens(words)
    requires size > 0 && startIndex >= 0
    ensures SplitOnWhitespace(WordChunk(words, size, startIndex)) == ChunkWords(words, size, startIndex)
    ensures |ChunkWords(words, size, startIndex)| == size
    ensures forall i :: 0 <= i < size ==>
              ChunkWords(words, size, startIndex)[i] == words[(startIndex + i) % |words|]
    ensures Words(WordChunk(words, size, startIndex)) == size
  {
    var ws := ChunkWords(words, size, startIndex);
    forall i | 0 <= i < size
      ensures ws[i] == words[(startIndex + i) % |words|] && IsToken(ws[i])
    {
      assert ws[i] == WordAt(words, startIndex + i);
    }
    SplitJoin(ws);
    TokensJoinWords(ws);
  }

  lemma WordAtPeriodic(words: seq<string>, i: int)
    requires |words| > 0 && i >= 0
    ensures WordAt(words, i + |words|) == WordAt(words, i)
  {
    ModPeriod(i, |words|);
  }

  lemma MulAtLeast(d: int, n: int)
    requires d >= 1 && n > 0
    ensures d * n >= n
  {
    assert d * n == (d - 1) * n + n;
    assert (d - 1) * n >= 0;
  }

  lemma DivModUnique(x: int, n: int, q: int, r: int)
    requires n > 0 && 0 <= r < n && x == q * n + r
    ensures x % n == r
  {
    var q', r' := x / n, x % n;
    assert x == q' * n + r';
    assert q * n - q' * n == r' - r;
    assert (q - q') * n == q * n - q' * n;
    if q > q' {
      MulAtLeast(q - q', n);
    } else if q < q' {
      assert (q' - q) * n == q' * n - q * n;
      MulAtLeast(q' - q, n);
    }
  }

  lemma ModPeriod(i: int, n: int)
    requires n > 0
    ensures (i + n) % n == i % n
  {
    var q := i / n;
    assert i == q * n + i % n;
    assert i + n == (q + 1) * n + i % n;
    DivModUnique(i + n, n, q + 1, i % n);
  }

  /** Shifting a non-negative start by the length of the word list changes nothing. */
  lemma WordChunkPeriodic(words: seq<string>, size: int, startIndex: int)
    requires |words| > 0 && startIndex >= 0
    ensures WordChunk(words, size, startIndex + |words|) == WordChunk(words, size, startIndex)
  {
    var n := |words|;
    var shifted, ws := ChunkWords(words, size, startIndex + n), ChunkWords(words, size, startIndex);
    forall i | 0 <= i < |ws| ensures shifted[i] == ws[i] {
      assert shifted[i] == WordAt(words, startIndex + n + i) && ws[i] == WordAt(words, startIndex + i);
      WordAtPeriodic(words, startIndex + i);
      assert startIndex + i + n == startIndex + n + i;
    }
    assert shifted == ws;
  }

  /** A chunk of a + b words is the chunk of a words, a space, and the chunk of
      b words that continues where the first stopped. */
  lemma WordChunkSplit(words: seq<string>, a: int, b: int, startIndex: int)
    requires |words| > 0 && a > 0 && b > 0
    ensures WordChunk(words, a + b, startIndex) ==
            WordChunk(words, a, startIndex) + " " + WordChunk(words, b, startIndex + a)
  {
    assert ChunkWords(words, a + b, startIndex) ==
           ChunkWords(words, a, startIndex) + ChunkWords(words, b, startIndex + a);
    JoinAppend(ChunkWords(words, a, startIndex), ChunkWords(words, b, startIndex + a), " ");
  }

  /** Length of sample i of `seedHistorySamples`. */
  function SampleSize(i: int): int {
    36 + (i % 5) * 4
  }

  /** `seedHistorySamples`: `count` samples (none when count <= 0); sample i
      walks BASE_WORDS from 3 * i and holds between 36 and 52 words. */
  method SeedHistorySamples(count: int) returns (samples: seq<string>)
    ensures |samples| == if count > 0 then count else 0
    ensures forall i :: 0 <= i < |samples| ==> samples[i] == WordChunk(BaseWords, SampleSize(i), i * 3)
    ensures forall i :: 0 <= i < |samples| ==> 36 <= Words(samples[i]) <= 52
  {
    BaseWordsAreTokens();
    samples := [];
    var index := 0;
    while index < count
      invariant 0 <= index <= (if count > 0 then count else 0)
      invariant |samples| == index
      invariant forall i :: 0 <= i < index ==> samples[i] == WordChunk(BaseWords, SampleSize(i), i * 3)
    {
      var chunk := BuildWordChunk(SampleSize(index), index * 3);
      samples := samples + [chunk];
      index := index + 1;
    }
    forall i | 0 <= i < |samples| ensures 36 <= Words(samples[i]) <= 52 {
      SampleWords(i);
    }
  }

  lemma SampleWords(i: nat)
    ensures 36 <= SampleSize(i) <= 52
    ensures Words(WordChunk(BaseWords, SampleSize(i), i * 3)) == SampleSize(i)
  {
    BaseWordsAreTokens();
    WordChunkWords(BaseWords, SampleSize(i), i * 3);
  }
}
