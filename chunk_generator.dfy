/** The streaming text producer of `createTextChunkGenerator`
    (src/shared/lib/textGenerator.ts): a closure over the words of the current
    paragraph, a cursor into them, a running total, a paragraph counter and a
    pending-code-block flag, handing out one chunk per call.

    The random choices are inputs of the calls that would draw them: the next
    paragraph (already split on white space), the code-block coin and the
    snippet `buildCodeBlock` picks. */
module TextChunks {
  import opened JsString
  import opened Options
  import opened TextGenerator

  /** What `nextChunk` returns when it does not return null. */
  datatype Chunk = Chunk(text: string, words: int)

  /** What `takeParagraphWords` returns. */
  datatype Taken = Taken(text: string, words: int, isParagraphFinished: bool)

  /** The closure's locals, and the target it was created with. */
  datatype GenState = GenState(
    targetWords: int,
    paragraphWords: seq<string>,
    wordIndex: nat,
    total: int,
    paragraphs: nat,
    pendingCode: bool)

  /** A generator as `createTextChunkGenerator(targetWords)` creates it. */
  function Init(targetWords: int): GenState {
    GenState(targetWords, [], 0, 0, 0, false)
  }

  /** What the generator keeps true between calls when every paragraph it is
      given is a non-empty list of words: the cursor stays inside the
      paragraph, the words are words, and a pending code block never belongs
      to a paragraph whose ordinal is a multiple of 3. */
  predicate GenValid(g: GenState) {
    g.wordIndex <= |g.paragraphWords| &&
    AllTokens(g.paragraphWords) &&
    g.total >= 0 &&
    (g.pendingCode ==> g.paragraphs % 3 != 0)
  }

  /** A paragraph as `buildParagraph().split(/\s+/)` yields it. */
  predicate ParagraphWords(paragraph: seq<string>) {
    |paragraph| > 0 && AllTokens(paragraph)
  }

  function Min(a: int, b: int): int {
    if a <= b then a else b
  }

  function Max(a: int, b: int): int {
    if a >= b then a else b
  }

  /** `fillParagraph`: a fresh paragraph, the cursor at its start, one more
      paragraph counted, and a code block pending when the coin says so and
      the new ordinal is not a multiple of 3. */
  function Fill(g: GenState, paragraph: seq<string>, coin: bool): GenState {
    var count := g.paragraphs + 1;
    g.(paragraphWords := paragraph, wordIndex := 0, paragraphs := count,
       pendingCode := coin && count % 3 != 0)
  }

  /** Whether `takeParagraphWords` starts by filling a new paragraph. */
  predicate NeedsFill(g: GenState) {
    |g.paragraphWords| == 0 || g.wordIndex >= |g.paragraphWords|
  }

  /** `takeParagraphWords(budget)`; its only caller passes a budget of at least 1. */
  function Take(g: GenState, budget: int, paragraph: seq<string>, coin: bool): (r: (GenState, Taken))
    requires budget >= 1
  {
    var g1 := if NeedsFill(g) then Fill(g, paragraph, coin) else g;
    var endIndex := Min(|g1.paragraphWords|, g1.wordIndex + budget);
    var chunkWords := g1.paragraphWords[g1.wordIndex..endIndex];
    var finished := endIndex >= |g1.paragraphWords|;
    var suffix := if finished then "\n\n" else " ";
    (g1.(wordIndex := endIndex), Taken(Join(chunkWords, " ") + suffix, |chunkWords|, finished))
  }

  /** `nextChunk(wordBudget)`: null once the target is reached; otherwise the
      pending code block as a whole, or else the next words of the paragraph. */
  function Next(g: GenState, wordBudget: int, paragraph: seq<string>, coin: bool, snippet: string): (r: (GenState, Option<Chunk>)) {
    if g.total >= g.targetWords then (g, None)
    else if g.pendingCode then
      var codeBlock := CodeBlock(snippet);
      var words := CountWords(codeBlock);
      (g.(pendingCode := false, total := g.total + words), Some(Chunk(codeBlock + "\n", words)))
    else
      var (g1, taken) := Take(g, Max(1, wordBudget), paragraph, coin);
      (g1.(total := g.total + taken.words), Some(Chunk(taken.text, taken.words)))
  }

  /** Null exactly once the total has reached the target; a null call changes
      nothing, so every later call returns null as well. */
  lemma NextNull(g: GenState, wordBudget: int, paragraph: seq<string>, coin: bool, snippet: string,
                 wordBudget': int, paragraph': seq<string>, coin': bool, snippet': string)
    ensures Next(g, wordBudget, paragraph, coin, snippet).1.None? <==> g.total >= g.targetWords
    ensures Next(g, wordBudget, paragraph, coin, snippet).1.None? ==>
              Next(g, wordBudget, paragraph, coin, snippet).0 == g &&
              Next(g, wordBudget, paragraph, coin, snippet).0.total >= g.targetWords &&
              Next(Next(g, wordBudget, paragraph, coin, snippet).0, wordBudget', paragraph', coin', snippet').1.None?
  {
  }

  /** A paragraph chunk: between 1 and max(1, wordBudget) consecutive words of
      the paragraph, taken from the cursor on (from the start of a freshly
      filled paragraph when the cursor had reached the end), the cursor moved
      past exactly those words, and the text ending in a blank line exactly
      when the paragraph is used up. */
  lemma TakeWords(g: GenState, budget: int, paragraph: seq<string>, coin: bool)
    requires budget >= 1 && g.wordIndex <= |g.paragraphWords| && |paragraph| > 0
    ensures var (g', taken) := Take(g, budget, paragraph, coin);
            var start := if NeedsFill(g) then 0 else g.wordIndex;
            var words := if NeedsFill(g) then paragraph else g.paragraphWords;
            1 <= taken.words <= budget &&
            g'.paragraphWords == words &&
            g'.wordIndex == start + taken.words <= |words| &&
            taken.text == Join(words[start..g'.wordIndex], " ") + (if taken.isParagraphFinished then "\n\n" else " ") &&
            (taken.isParagraphFinished <==> g'.wordIndex == |words|) &&
            (NeedsFill(g) ==> g' == Fill(g, paragraph, coin).(wordIndex := g'.wordIndex)) &&
            (!NeedsFill(g) ==> g' == g.(wordIndex := g'.wordIndex))
  {
  }

  /** Tokens joined by spaces, followed by white space: one word per token,
      and the text ends in white space. */
  lemma JoinedWithSuffix(ws: seq<string>, suffix: string)
    requires AllTokens(ws) && suffix != [] && AllSpace(suffix)
    ensures Words(Join(ws, " ") + suffix) == |ws|
    ensures IsSpace((Join(ws, " ") + suffix)[|Join(ws, " ") + suffix| - 1])
  {
    TokensJoinWords(ws);
    WordsAllSpace(suffix);
    WordsConcat(Join(ws, " "), suffix);
  }

  /** Every chunk carries at least one word, its `words` is the number of words
      in its text, its text ends in white space, the total grows by exactly its
      `words`, and the generator stays valid. */
  lemma NextChunkWords(g: GenState, wordBudget: int, paragraph: seq<string>, coin: bool, snippet: string)
    requires GenValid(g) && ParagraphWords(paragraph)
    ensures var (g', chunk) := Next(g, wordBudget, paragraph, coin, snippet);
            GenValid(g') && g'.targetWords == g.targetWords &&
            (chunk.None? ==> g' == g) &&
            (chunk.Some? ==>
              chunk.value.words >= 1 &&
              g'.total == g.total + chunk.value.words &&
              Words(chunk.value.text) == chunk.value.words &&
              |chunk.value.text| > 0 && IsSpace(chunk.value.text[|chunk.value.text| - 1]))
  {
    if g.total < g.targetWords {
      if g.pendingCode {
        var codeBlock := CodeBlock(snippet);
        CodeBlockWords(snippet);
        assert AllSpace("\n");
        WordsAllSpace("\n");
        WordsConcat(codeBlock, "\n");
      } else {
        var budget := Max(1, wordBudget);
        TakeWords(g, budget, paragraph, coin);
        var (g1, taken) := Take(g, budget, paragraph, coin);
        var start := if NeedsFill(g) then 0 else g.wordIndex;
        var words := if NeedsFill(g) then paragraph else g.paragraphWords;
        var chunkWords := words[start..g1.wordIndex];
        assert AllTokens(chunkWords) by {
          forall i | 0 <= i < |chunkWords| ensures IsToken(chunkWords[i]) {
            assert chunkWords[i] == words[start + i];
          }
        }
        var suffix := if taken.isParagraphFinished then "\n\n" else " ";
        assert AllSpace(suffix);
        JoinedWithSuffix(chunkWords, suffix);
      }
    }
  }

  /** A pending code block is emitted whole, whatever the budget: the text is
      the block and a newline, the words are the snippet's plus the two fences,
      and only the flag and the total change. */
  lemma CodeChunk(g: GenState, wordBudget: int, paragraph: seq<string>, coin: bool, snippet: string)
    requires g.pendingCode && g.total < g.targetWords
    ensures var (g', chunk) := Next(g, wordBudget, paragraph, coin, snippet);
            chunk == Some(Chunk(CodeBlock(snippet) + "\n", Words(snippet) + 2)) &&
            g' == g.(pendingCode := false, total := g.total + Words(snippet) + 2)
  {
    CodeBlockWords(snippet);
  }

  /** A code block can be pending after a call only if that call filled a new
      paragraph, whose ordinal is then not a multiple of 3; so a code block
      comes on the call right after a fill, and at most one per paragraph. */
  lemma PendingAfterFill(g: GenState, wordBudget: int, paragraph: seq<string>, coin: bool, snippet: string)
    requires GenValid(g)
    ensures var g' := Next(g, wordBudget, paragraph, coin, snippet).0;
            g'.pendingCode ==>
              g'.paragraphs % 3 != 0 &&
              (g.pendingCode ==> g' == g) &&
              (!g.pendingCode ==> NeedsFill(g) && g'.paragraphs == g.paragraphs + 1 && coin)
  {
  }

  /** The inputs a sequence of `nextChunk` calls consumes. */
  datatype Draw = Draw(wordBudget: int, paragraph: seq<string>, coin: bool, snippet: string)

  /** The state after a sequence of calls, and how many of them returned a chunk. */
  function Run(g: GenState, draws: seq<Draw>): (GenState, nat)
    decreases |draws|
  {
    if |draws| == 0 then (g, 0)
    else
      var d := draws[0];
      var (g1, chunk) := Next(g, d.wordBudget, d.paragraph, d.coin, d.snippet);
      var (g2, n) := Run(g1, draws[1..]);
      (g2, n + (if chunk.Some? then 1 else 0))
  }

  predicate AllParagraphWords(draws: seq<Draw>) {
    forall i :: 0 <= i < |draws| ==> ParagraphWords(draws[i].paragraph)
  }

  /** However the calls go, at most targetWords - total of them return a
      chunk, and the total never decreases. */
  lemma {:induction false} RunBound(g: GenState, draws: seq<Draw>)
    requires GenValid(g) && AllParagraphWords(draws)
    ensures Run(g, draws).1 <= Max(0, g.targetWords - g.total)
    ensures Run(g, draws).0.total >= g.total
    ensures Run(g, draws).0.targetWords == g.targetWords
    decreases |draws|
  {
    if |draws| > 0 {
      var d := draws[0];
      NextChunkWords(g, d.wordBudget, d.paragraph, d.coin, d.snippet);
      var g1 := Next(g, d.wordBudget, d.paragraph, d.coin, d.snippet).0;
      assert AllParagraphWords(draws[1..]) by {
        forall i | 0 <= i < |draws[1..]| ensures ParagraphWords(draws[1..][i].paragraph) {
          assert draws[1..][i] == draws[i + 1];
        }
      }
      RunBound(g1, draws[1..]);
    }
  }

  /** `createTextChunkGenerator(targetWords)` as an object: the closure's
      locals are fields, and fillParagraph, takeParagraphWords and nextChunk
      are methods. */
  class ChunkGenerator {
    const targetWords: int
    var currentParagraphWords: seq<string>
    var paragraphWordIndex: nat
    var wordsGeneratedTotal: int
    var paragraphsGenerated: nat
    var isPendingCodeBlock: bool

    function State(): GenState
      reads this
    {
      GenState(targetWords, currentParagraphWords, paragraphWordIndex, wordsGeneratedTotal,
               paragraphsGenerated, isPendingCodeBlock)
    }

    constructor (targetWords: int)
      ensures State() == Init(targetWords)
    {
      this.targetWords := targetWords;
      currentParagraphWords := [];
      paragraphWordIndex := 0;
      wordsGeneratedTotal := 0;
      paragraphsGenerated := 0;
      isPendingCodeBlock := false;
    }

    method FillParagraph(paragraph: seq<string>, coin: bool)
      modifies this
      ensures State() == Fill(old(State()), paragraph, coin)
    {
      currentParagraphWords := paragraph;
      paragraphWordIndex := 0;
      paragraphsGenerated := paragraphsGenerated + 1;
      isPendingCodeBlock := coin && paragraphsGenerated % 3 != 0;
    }

    method TakeParagraphWords(budget: int, paragraph: seq<string>, coin: bool) returns (taken: Taken)
      requires budget >= 1
      modifies this
      ensures (State(), taken) == Take(old(State()), budget, paragraph, coin)
    {
      if |currentParagraphWords| == 0 || paragraphWordIndex >= |currentParagraphWords| {
        FillParagraph(paragraph, coin);
      }
      var endIndex := Min(|currentParagraphWords|, paragraphWordIndex + budget);
      var chunkWords := currentParagraphWords[paragraphWordIndex..endIndex];
      paragraphWordIndex := endIndex;
      var isParagraphFinished := paragraphWordIndex >= |currentParagraphWords|;
      var suffix := if isParagraphFinished then "\n\n" else " ";
      taken := Taken(Join(chunkWords, " ") + suffix, |chunkWords|, isParagraphFinished);
    }

    method NextChunk(wordBudget: int, paragraph: seq<string>, coin: bool, snippet: string) returns (chunk: Option<Chunk>)
      modifies this
      ensures (State(), chunk) == Next(old(State()), wordBudget, paragraph, coin, snippet)
    {
      if wordsGeneratedTotal >= targetWords {
        return None;
      }
      if isPendingCodeBlock {
        isPendingCodeBlock := false;
        var codeBlock := CodeBlock(snippet);
        var words := CountWords(codeBlock);
        wordsGeneratedTotal := wordsGeneratedTotal + words;
        return Some(Chunk(codeBlock + "\n", words));
      }
      var safeBudget := Max(1, wordBudget);
      var taken := TakeParagraphWords(safeBudget, paragraph, coin);
      wordsGeneratedTotal := wordsGeneratedTotal + taken.words;
      return Some(Chunk(taken.text, taken.words));
    }
  }
}
