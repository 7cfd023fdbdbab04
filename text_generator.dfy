/** The bulk text builders of src/shared/lib/textGenerator.ts: `countWords`,
    `buildCodeBlock`, `generateTextWithCode` and `createInitialHistorySamples`.
    The random choices (`buildParagraph`, the code-block coin, the snippet)
    are inputs, indexed by the iteration that draws them. */
module TextGenerator {
  import opened JsString

  /** `countWords`: 0 for blank text, otherwise the number of pieces of the
      trimmed text split on white space; that is the number of words. */
  function CountWords(text: string): (n: nat)
    ensures n == Words(text)
  {
    var trimmed := Trim(text);
    TrimSpec(text);
    TrimWords(text);
    if trimmed == "" then 0
    else
      SplitCount(trimmed);
      |SplitOnWhitespace(trimmed)|
  }

  /** Blank text has no words; any other text has at least one. */
  lemma CountWordsBlank(text: string)
    ensures CountWords(text) == 0 <==> AllSpace(text)
  {
    WordsZero(text);
  }

  /** A line of its own: a token between two newlines. */
  function Line(t: string): string {
    "\n" + t + "\n"
  }

  const Fence: string := "```"
  const CodeOpen: string := Line(Fence + "javascript")
  const CodeClose: string := Line(Fence)

  /** `buildCodeBlock` around a chosen snippet: a fenced javascript block. */
  function CodeBlock(code: string): string {
    CodeOpen + code + CodeClose
  }

  lemma LineWords(t: string)
    requires IsToken(t)
    ensures Words(Line(t)) == 1
    ensures Line(t)[0] == '\n' && Line(t)[|Line(t)| - 1] == '\n'
  {
    var nl := "\n";
    assert AllSpace(nl);
    WordsAllSpace(nl);
    WordsOfToken(t);
    WordsConcat(t, nl);
    WordsConcat(nl, t + nl);
    assert Line(t) == nl + (t + nl);
  }

  lemma FenceTokens()
    ensures IsToken(Fence) && IsToken(Fence + "javascript")
  {
    var lang := "javascript";
    assert NoSpace(lang);
    assert (Fence + lang)[..3] == Fence && (Fence + lang)[3..] == lang;
  }

  /** The fences are words of their own: a code block has two words more than
      its snippet, so never fewer than two. */
  lemma CodeBlockWords(code: string)
    ensures Words(CodeBlock(code)) == Words(code) + 2
  {
    FenceTokens();
    LineWords(Fence);
    LineWords(Fence + "javascript");
    WordsConcat(code, CodeClose);
    WordsConcat(CodeOpen, code + CodeClose);
    assert CodeBlock(code) == CodeOpen + (code + CodeClose);
  }

  /** Where `Math.random` is drawn: the paragraph `buildParagraph` returns, the
      code-block coin and the snippet `buildCodeBlock` picks, each for the
      iteration that draws it. */
  datatype Randomness = Randomness(paragraph: nat -> string, codeCoin: nat -> bool, snippet: nat -> string)

  /** `buildParagraph` never returns blank text. */
  ghost predicate WellFormed(rnd: Randomness) {
    forall i: nat :: Words(rnd.paragraph(i)) > 0
  }

  /** The pieces `generateTextWithCode(wordCount)` pushes from iteration i on,
      once `counted` words have been counted (`countWords` is Words, by CountWords, and a code block
      has two words more than its snippet, by CodeBlockWords). */
  function TextPieces(wordCount: int, rnd: Randomness, i: nat, counted: int): seq<string>
    requires WellFormed(rnd)
    decreases wordCount - counted
  {
    if counted >= wordCount then []
    else
      var paragraph := rnd.paragraph(i);
      var afterParagraph := counted + Words(paragraph);
      if rnd.codeCoin(i) then
        var block := CodeBlock(rnd.snippet(i));
        [paragraph, block] + TextPieces(wordCount, rnd, i + 1, afterParagraph + Words(rnd.snippet(i)) + 2)
      else
        [paragraph] + TextPieces(wordCount, rnd, i + 1, afterParagraph)
  }

  /** The text `generateTextWithCode(wordCount)` returns. */
  function GenerateText(wordCount: int, rnd: Randomness): string
    requires WellFormed(rnd)
  {
    Join(TextPieces(wordCount, rnd, 0, 0), "\n\n")
  }

  lemma {:induction false} SumWordsAppend(xs: seq<string>, ys: seq<string>)
    ensures SumWords(xs + ys) == SumWords(xs) + SumWords(ys)
  {
    if |xs| > 0 {
      assert (xs + ys)[1..] == xs[1..] + ys;
      SumWordsAppend(xs[1..], ys);
    } else {
      assert xs + ys == ys;
    }
  }

  /** The pieces pushed from some point on count at least the words still missing. */
  lemma {:induction false} TextPiecesWords(wordCount: int, rnd: Randomness, i: nat, counted: int)
    requires WellFormed(rnd)
    ensures counted + SumWords(TextPieces(wordCount, rnd, i, counted)) >= wordCount
    decreases wordCount - counted
  {
    if counted < wordCount {
      var paragraph := rnd.paragraph(i);
      var afterParagraph := counted + Words(paragraph);
      if rnd.codeCoin(i) {
        var block := CodeBlock(rnd.snippet(i));
        var rest := TextPieces(wordCount, rnd, i + 1, afterParagraph + Words(rnd.snippet(i)) + 2);
        TextPiecesWords(wordCount, rnd, i + 1, afterParagraph + Words(rnd.snippet(i)) + 2);
        CodeBlockWords(rnd.snippet(i));
        SumWordsAppend([paragraph, block], rest);
      } else {
        var rest := TextPieces(wordCount, rnd, i + 1, afterParagraph);
        TextPiecesWords(wordCount, rnd, i + 1, afterParagraph);
        SumWordsAppend([paragraph], rest);
      }
    }
  }

  /** An iteration of `generateTextWithCode` without a code block, words
      counted by CountWords. */
  lemma ParagraphStep(wordCount: int, rnd: Randomness, i: nat, counted: int, before: seq<string>)
    requires WellFormed(rnd) && counted < wordCount && !rnd.codeCoin(i)
    ensures before + TextPieces(wordCount, rnd, i, counted) ==
            before + [rnd.paragraph(i)] + TextPieces(wordCount, rnd, i + 1, counted + CountWords(rnd.paragraph(i)))
  {
    var rest := TextPieces(wordCount, rnd, i + 1, counted + CountWords(rnd.paragraph(i)));
    assert TextPieces(wordCount, rnd, i, counted) == [rnd.paragraph(i)] + rest;
    assert before + ([rnd.paragraph(i)] + rest) == before + [rnd.paragraph(i)] + rest;
  }

  /** An iteration of `generateTextWithCode` with a code block. */
  lemma CodeStep(wordCount: int, rnd: Randomness, i: nat, counted: int, before: seq<string>)
    requires WellFormed(rnd) && counted < wordCount && rnd.codeCoin(i)
    ensures before + TextPieces(wordCount, rnd, i, counted) ==
            before + [rnd.paragraph(i)] + [CodeBlock(rnd.snippet(i))] +
            TextPieces(wordCount, rnd, i + 1, counted + CountWords(rnd.paragraph(i)) + CountWords(CodeBlock(rnd.snippet(i))))
  {
    var paragraph, block := rnd.paragraph(i), CodeBlock(rnd.snippet(i));
    var after := counted + CountWords(paragraph) + CountWords(block);
    CodeBlockWords(rnd.snippet(i));
    assert after == counted + Words(paragraph) + Words(rnd.snippet(i)) + 2;
    var rest := TextPieces(wordCount, rnd, i + 1, after);
    assert TextPieces(wordCount, rnd, i, counted) == [paragraph, block] + rest;
    assert before + ([paragraph, block] + rest) == before + [paragraph] + [block] + rest;
  }

  /** `generateTextWithCode` stops only once it has counted wordCount words,
      and every counted word is a word of the returned text. */
  lemma GenerateTextWords(wordCount: int, rnd: Randomness)
    requires WellFormed(rnd)
    ensures CountWords(GenerateText(wordCount, rnd)) >= wordCount
    ensures wordCount <= 0 ==> GenerateText(wordCount, rnd) == ""
  {
    assert AllSpace("\n\n");
    JoinWords(TextPieces(wordCount, rnd, 0, 0), "\n\n");
    TextPiecesWords(wordCount, rnd, 0, 0);
  }

  /** `generateTextWithCode`: push paragraphs, and after each a code block when
      the coin says so, until wordCount words are counted; join with blank lines. */
  method GenerateTextWithCode(wordCount: int, rnd: Randomness) returns (text: string)
    requires WellFormed(rnd)
    ensures text == GenerateText(wordCount, rnd)
    ensures wordCount <= 0 ==> text == ""
    ensures CountWords(text) >= wordCount
  {
    var result: seq<string> := [];
    var wordsGenerated := 0;
    var i: nat := 0;
    ghost var pieces := TextPieces(wordCount, rnd, 0, 0);
    assert result + pieces == pieces;
    while wordsGenerated < wordCount
      invariant result + TextPieces(wordCount, rnd, i, wordsGenerated) == pieces
      decreases wordCount - wordsGenerated
    {
      if rnd.codeCoin(i) {
        CodeStep(wordCount, rnd, i, wordsGenerated, result);
      } else {
        ParagraphStep(wordCount, rnd, i, wordsGenerated, result);
      }
      var paragraph := rnd.paragraph(i);
      result := result + [paragraph];
      wordsGenerated := wordsGenerated + CountWords(paragraph);
      if rnd.codeCoin(i) {
        var codeBlock := CodeBlock(rnd.snippet(i));
        result := result + [codeBlock];
        wordsGenerated := wordsGenerated + CountWords(codeBlock);
      }
      i := i + 1;
    }
    assert TextPieces(wordCount, rnd, i, wordsGenerated) == [];
    assert result == pieces;
    text := Join(result, "\n\n");
    GenerateTextWords(wordCount, rnd);
  }

  /** Word target of sample i of `createInitialHistorySamples`. */
  function SampleTarget(i: int): int {
    60 + (i % 4) * 40
  }

  /** `createInitialHistorySamples`: `count` samples (none when count <= 0),
      sample i generated for SampleTarget(i) words and holding at least that many. */
  method CreateInitialHistorySamples(count: int, rnd: nat -> Randomness) returns (samples: seq<string>)
    requires forall i: nat :: WellFormed(rnd(i))
    ensures |samples| == if count > 0 then count else 0
    ensures forall i :: 0 <= i < |samples| ==> samples[i] == GenerateText(SampleTarget(i), rnd(i))
    ensures forall i :: 0 <= i < |samples| ==> 60 <= SampleTarget(i) <= CountWords(samples[i])
  {
    samples := [];
    var index := 0;
    while index < count
      invariant 0 <= index <= (if count > 0 then count else 0)
      invariant |samples| == index
      invariant forall i :: 0 <= i < index ==> samples[i] == GenerateText(SampleTarget(i), rnd(i))
      invariant forall i :: 0 <= i < index ==> 60 <= SampleTarget(i) <= CountWords(samples[i])
    {
      var words := SampleTarget(index);
      var sample := GenerateTextWithCode(words, rnd(index));
      samples := samples + [sample];
      index := index + 1;
    }
  }
}
