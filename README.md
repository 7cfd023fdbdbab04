# Streaming chat reply engine, modelled in Dafny

This project models the part of a chat front end that streams an assistant
reply into the conversation, and the text producers behind it:

- **The chat store** (`src/entities/chat/model/chatStore.ts`). This is a
  zustand store plus a module-level runtime record. The record holds:
  - whether the interval is armed;
  - the buffered text and the flush-scheduled flag;
  - the words produced so far and the session's target;
  - the streaming message id and the chunk generator.

  The store's actions are: append a user message, append one with an instant
  reply, start a stream, stop it, toggle auto-scroll, and clear the history.
  There are also two timer callbacks: the interval tick, which pulls a chunk
  from the generator into the buffer, and the animation-frame callback, which
  flushes the buffer into the streaming message.
- **The chunk generator** (`createTextChunkGenerator` in
  `src/shared/lib/textGenerator.ts`). It hands out a paragraph a few words at
  a time. Now and then it hands out a whole fenced code block, on the call
  right after the one that started a new paragraph.
- **The bulk text builders** `countWords`, `buildCodeBlock`,
  `generateTextWithCode` and `createInitialHistorySamples`.
- **The lorem-ipsum builders** `buildWordChunk` and `seedHistorySamples`
  (`src/shared/lib/loremGenerator.ts`).

Layout:

- Each operation has a pure function over a value of the state
  (`ChatModel.StoreState`, `TextChunks.GenState`).
- The store and the generator are also classes, `Store.ChatStore` and
  `TextChunks.ChunkGenerator`. Their fields are the source's variables, and
  their methods update those fields step by step in the source's order. Each
  method's `ensures` ties the new state (`Snapshot()` / `State()`) to the
  pure function of the old state.
- The properties are proved as lemmas about the pure functions:
  - the store invariant `ChatModel.ValidState`, and that every action keeps it;
  - the exact effect of each action;
  - the generator's chunk accounting;
  - the word counts of the text builders.
- The loops of `generateTextWithCode`, `createInitialHistorySamples`,
  `buildWordChunk` and `seedHistorySamples` are methods with loop invariants.
  Each is proved against a function of its inputs.
- Words are counted against an independent reference, `JsString.Words`: the
  number of maximal runs of non-white-space characters. White space is the
  ECMAScript set that `\s` and `trim` use.

Behaviour of the code as written, which the model keeps:

- **Flush.** The flush sets the content to `${content} ${chunk}`.trim(). It
  does not simply append.
  - The words are preserved (`ChatModel.SpacedTrimWords`). So during a
    session, once the frame callback has run, the streaming message holds
    exactly `generatedWords` words (`ChatModel.FrameValid`).
  - Trimming also drops the white space at the end of every flushed chunk
    (`JsString.TrimSpec`). The next flush joins with a single space, so a
    chunk's closing blank line does not survive in the message.
- **Stop is not idempotent.** One might expect `stop` to do nothing outside
  a session; the code instead changes the public state. It republishes `generatedWords = 0` and the target drawn by the previous
  reset as `targetWords`, and it draws a new runtime target
  (`ChatModel.StopWhenIdle`, `ChatModel.StopTwice`).
- **Clear is not idempotent either.** A second `clearHistory` on an empty
  log is also not a no-op: each call publishes a newly drawn target
  (`ChatModel.ClearHistoryValid`).
- **Code blocks land inside paragraphs.** `fillParagraph` decides whether a
  code block is pending, and the same call goes on to return the first chunk
  of the new paragraph. The block comes out whole on the next call
  (`TextChunks.PendingAfterFill`, `TextChunks.CodeChunk`). So it follows the
  first chunk of a freshly filled paragraph. When the paragraph is longer
  than the chunk size, the block sits in the middle of that paragraph's text.
- **The count can overshoot the target.** The check against the target comes
  before a chunk is taken, not after. A code block adds all its words at
  once, and a paragraph chunk taken one word short of the target still adds
  up to the chunk size. `TextChunks.RunBound` and `ChatModel.TickValid`
  bound the number of chunks, not the final total.
- **Negative start in `buildWordChunk`.** JavaScript's `%` keeps the sign of
  the dividend. So a negative start reads `undefined` from the word list,
  which `join` renders as an empty string (`LoremGenerator.WordAt`). The
  properties about word positions are stated for non-negative starts, the
  only ones the callers use.

## Model

| member | source | states |
|---|---|---|
| JsString.TrimSpec | src/shared/lib/textGenerator.ts:82 | `trim` yields "" exactly for blank text; otherwise its result starts and ends with a non-white-space character |
| JsString.TrimStartSpec | src/shared/lib/textGenerator.ts:82 | dropping leading white space keeps a suffix whose removed prefix is all white space; the result is empty exactly for blank text |
| JsString.TrimEndSpec | src/shared/lib/textGenerator.ts:82 | dropping trailing white space keeps a prefix whose removed suffix is all white space; the result is empty exactly for blank text |
| JsString.TrimWords | src/entities/chat/model/chatStore.ts:236 | trimming keeps the number of words |
| JsString.SplitOnWhitespace | src/shared/lib/textGenerator.ts:86 | `split(/\s+/)` yields at least one piece, and no piece holds white space |
| JsString.SplitCount | src/shared/lib/textGenerator.ts:86 | `split(/\s+/)` yields one piece per word, plus one for leading and one for trailing white space |
| JsString.SplitJoin | src/shared/lib/textGenerator.ts:154 | splitting words joined by single spaces gives the same words back |
| JsString.JoinWords | src/shared/lib/textGenerator.ts:127 | joining with a white-space separator neither adds nor merges words |
| JsString.TokensJoinWords | src/shared/lib/textGenerator.ts:173 | words joined by single spaces contain exactly one word each |
| JsString.JoinAppend | src/shared/lib/loremGenerator.ts:81 | joining two non-empty lists puts exactly one separator between their joins |
| TextGenerator.CountWords | src/shared/lib/textGenerator.ts:81-87 | `countWords` equals the reference count of maximal non-white-space runs |
| TextGenerator.CountWordsBlank | src/shared/lib/textGenerator.ts:81-87 | `countWords` is 0 exactly for empty or white-space-only text |
| TextGenerator.CodeBlockWords | src/shared/lib/textGenerator.ts:106-109 | a fenced block counts the snippet's words plus two, one for each fence line |
| TextGenerator.TextPiecesWords | src/shared/lib/textGenerator.ts:115-125 | the pieces pushed from any point of the loop on count at least the words still missing |
| TextGenerator.GenerateTextWords | src/shared/lib/textGenerator.ts:111-128 | the generated text has at least `wordCount` words, and is "" when `wordCount <= 0` |
| TextGenerator.GenerateTextWithCode | src/shared/lib/textGenerator.ts:111-128 | the loop returns the pieces joined by blank lines, "" for `wordCount <= 0`, and at least `wordCount` words |
| TextGenerator.CreateInitialHistorySamples | src/shared/lib/textGenerator.ts:130-139 | `max(count, 0)` samples; sample i is generated for `60 + (i % 4) * 40` words and holds at least that many |
| LoremGenerator.BuildWordChunk | src/shared/lib/loremGenerator.ts:73-82 | the loop returns the walk over BASE_WORDS from `startIndex`, joined by spaces; "" when `size <= 0` |
| LoremGenerator.BaseWordsAreTokens | src/shared/lib/loremGenerator.ts:1-71 | BASE_WORDS has 69 entries, each a non-empty word without white space |
| LoremGenerator.WordChunkWords | src/shared/lib/loremGenerator.ts:76-81 | for `size > 0` and a non-negative start: exactly `size` words, word i being `BASE_WORDS[(start + i) % length]`, and splitting gives them back |
| LoremGenerator.WordChunkPeriodic | src/shared/lib/loremGenerator.ts:77 | shifting a non-negative start by the list's length gives the same string |
| LoremGenerator.WordChunkSplit | src/shared/lib/loremGenerator.ts:76-81 | a chunk of a + b words is the chunk of a words, a space, and the chunk of b words continuing at start + a |
| LoremGenerator.SeedHistorySamples | src/shared/lib/loremGenerator.ts:84-93 | `max(count, 0)` samples; sample i is `buildWordChunk(36 + (i % 5) * 4, 3 * i)` and holds between 36 and 52 words |
| LoremGenerator.SampleWords | src/shared/lib/loremGenerator.ts:88 | sample i has exactly `36 + (i % 5) * 4` words, between 36 and 52 |
| TextChunks.NextNull | src/shared/lib/textGenerator.ts:180-183 | `nextChunk` returns null exactly once the total has reached the target; such a call changes nothing, so every later call is null too |
| TextChunks.TakeWords | src/shared/lib/textGenerator.ts:160-177 | between 1 and the budget of consecutive paragraph words from the cursor on (from 0 of a new paragraph when the cursor was at the end), the cursor moved past exactly them, the text ending in "\n\n" exactly when the paragraph is used up and in " " otherwise |
| TextChunks.NextChunkWords | src/shared/lib/textGenerator.ts:180-198 | every chunk has at least one word, `words` equals the words in its text, the text ends in white space, the total grows by exactly `words`, and the generator's invariant holds |
| TextChunks.CodeChunk | src/shared/lib/textGenerator.ts:185-191 | a pending code block is emitted whole, whatever the budget: text = block + "\n", words = snippet's words + 2; only the flag and the total change |
| TextChunks.PendingAfterFill | src/shared/lib/textGenerator.ts:152-158 | a code block is pending only right after the call that filled its paragraph, and never for a paragraph whose ordinal is a multiple of 3 |
| TextChunks.RunBound | src/shared/lib/textGenerator.ts:180-198 | over any sequence of calls, at most `targetWords - total` return a chunk, and the total never decreases |
| TextChunks.ChunkGenerator.constructor | src/shared/lib/textGenerator.ts:145-150 | a new generator has no paragraph, cursor 0, total 0, no paragraphs counted and nothing pending |
| TextChunks.ChunkGenerator.FillParagraph | src/shared/lib/textGenerator.ts:152-158 | `fillParagraph` installs the new paragraph at cursor 0, counts it, and sets the pending flag from the coin and the ordinal |
| TextChunks.ChunkGenerator.TakeParagraphWords | src/shared/lib/textGenerator.ts:160-177 | `takeParagraphWords` performs the take step on the fields and returns its chunk |
| TextChunks.ChunkGenerator.NextChunk | src/shared/lib/textGenerator.ts:180-198 | `nextChunk` performs the next-chunk step on the fields and returns its chunk or null |
| Messages.FindIndex | src/entities/chat/model/chatStore.ts:108-110 | `findIndex` by id is -1 exactly when no message has the id, and otherwise the first message that has it |
| Messages.FindIndexAppend | src/entities/chat/model/chatStore.ts:284 | appending messages does not move a message the lookup already finds |
| Messages.FindIndexOf | src/entities/chat/model/chatStore.ts:179-181 | with distinct ids, looking up a message's id finds that message |
| Messages.FindIndexSameIds | src/entities/chat/model/chatStore.ts:127 | the lookup depends on the ids alone, so rewriting contents keeps it |
| ChatModel.PickBetween | src/entities/chat/model/chatStore.ts:68-78 | `MIN + floor(random * (MAX - MIN + 1))` lies in [MIN, MAX] |
| ChatModel.StreamingIndex | src/entities/chat/model/chatStore.ts:98-114 | the streaming message's position is -1 or a valid index |
| ChatModel.InitValid | src/entities/chat/model/chatStore.ts:44-52 | the store as created satisfies the store invariant |
| ChatModel.SpacedTrimWords | src/entities/chat/model/chatStore.ts:124 | `${content} ${chunk}`.trim() has the words of content plus those of chunk |
| ChatModel.FlushKeeps | src/entities/chat/model/chatStore.ts:97-135 | the flush changes only message contents, the buffer and the public count; ids, roles, flags, order and the lookup stay |
| ChatModel.FlushEffect | src/entities/chat/model/chatStore.ts:89-136 | empty buffer: no-op; otherwise the buffer empties and only the found assistant message gets `trim(content + " " + chunk)`, with generatedWords taking the runtime count |
| ChatModel.FrameValid | src/entities/chat/model/chatStore.ts:145-148 | the frame callback keeps the invariant at any time; outside a session it changes nothing; in a session it drains the buffer and the message then holds exactly generatedWords = wordsGenerated words |
| ChatModel.StreamingOnly | src/entities/chat/model/chatStore.ts:279-281 | a message streams exactly when a session runs and it is the one with streamingMessageId |
| ChatModel.StopStreamValid | src/entities/chat/model/chatStore.ts:213-227 | stop disarms, flushes the buffer into the streaming message, clears its flag, resets the runtime and publishes the session's words and target; other messages are untouched and the invariant holds |
| ChatModel.StopWhenIdle | src/entities/chat/model/chatStore.ts:213-227 | a stop with no session publishes 0 words and the previously drawn target, and draws a new one |
| ChatModel.StopTwice | src/entities/chat/model/chatStore.ts:318-321 | a second stop keeps the messages but republishes 0 words and the first stop's drawn target |
| ChatModel.ClearHistoryValid | src/entities/chat/model/chatStore.ts:201-211 | from any state: no messages, no session, runtime reset, generatedWords 0, both targets the newly drawn one, invariant holds |
| ChatModel.ToggleAutoScrollValid | src/entities/chat/model/chatStore.ts:322-325 | toggling sets the flag and keeps the invariant |
| ChatModel.AppendIdleValid | src/entities/chat/model/chatStore.ts:257-262 | appending non-streaming messages with fresh distinct ids keeps the invariant |
| ChatModel.AddUserMessageValid | src/entities/chat/model/chatStore.ts:235-246 | blank text: no change; otherwise exactly one non-streaming user message with the trimmed text (same words, no white space at either end) is appended; invariant holds |
| ChatModel.InstantReplyValid | src/entities/chat/model/chatStore.ts:247-271 | blank text: no change; otherwise exactly the trimmed user message then a non-streaming assistant reply are appended and auto-scroll turns on; invariant holds |
| ChatModel.StartValid | src/entities/chat/model/chatStore.ts:272-295 | a running session is stopped first, no earlier message streams, one empty streaming assistant message is appended and becomes the streaming one, and a fresh session starts for the drawn target |
| ChatModel.TickValid | src/entities/chat/model/chatStore.ts:296-316 | a tick keeps the invariant and either continues (count grows but stays below the target, buffer only extended by the chunk's words, frame requested, messages untouched) or stops (published count ≥ published target, message finalized with exactly that many words) |
| ChatModel.BufferChunkValid | src/entities/chat/model/chatStore.ts:309-311 | recording a chunk and requesting a frame keeps the session valid and extends the buffer by exactly the chunk's words |
| Store.ChatStore.constructor | src/entities/chat/model/chatStore.ts:229-234 | the store's initial state, which satisfies the invariant |
| Store.ChatStore.FlushBufferedChunk | src/entities/chat/model/chatStore.ts:89-136 | `flushBufferedChunk` performs the flush step on the fields |
| Store.ChatStore.ScheduleFlush | src/entities/chat/model/chatStore.ts:138-149 | `scheduleFlush` sets the flag only when it is clear |
| Store.ChatStore.FrameCallback | src/entities/chat/model/chatStore.ts:145-148 | the frame callback clears the flag and flushes, keeping the invariant |
| Store.ChatStore.StopInterval | src/entities/chat/model/chatStore.ts:151-156 | `stopInterval` disarms the interval |
| Store.ChatStore.ResetRuntime | src/entities/chat/model/chatStore.ts:158-165 | `resetRuntime` clears the runtime record and draws a new target |
| Store.ChatStore.MarkStreamStopped | src/entities/chat/model/chatStore.ts:167-199 | `markStreamStopped` clears the flag of the found streaming message |
| Store.ChatStore.ClearHistoryInternal | src/entities/chat/model/chatStore.ts:201-211 | `clearHistoryInternal` performs the clear step on the fields |
| Store.ChatStore.StopStream | src/entities/chat/model/chatStore.ts:213-227 | `stopStream` performs the stop step, its helpers called in the source's order |
| Store.ChatStore.AddUserMessage | src/entities/chat/model/chatStore.ts:235-246 | `addUserMessage` performs the append step and keeps the invariant |
| Store.ChatStore.AddUserMessageAndInstantReply | src/entities/chat/model/chatStore.ts:247-271 | the instant reply is `generateTextWithCode(pickInstantWords())`, holds at least the picked number of words, and the invariant holds |
| Store.ChatStore.StartAssistantStream | src/entities/chat/model/chatStore.ts:272-317 | `startAssistantStream` performs the start step with a fresh generator object and keeps the invariant |
| Store.ChatStore.StartStream | src/entities/chat/model/chatStore.ts:273-295 | stop a running session, then open a new one |
| Store.ChatStore.OpenStream | src/entities/chat/model/chatStore.ts:277-295 | reset, open the streaming message with a fresh generator, publish, arm the interval |
| Store.ChatStore.Tick | src/entities/chat/model/chatStore.ts:296-316 | one firing of the interval performs the tick step and keeps the invariant |
| Store.ChatStore.IntervalCallback | src/entities/chat/model/chatStore.ts:296-316 | the interval callback's steps: next chunk, stop on none, buffer, count, schedule, stop at target |
| Store.ChatStore.StopGeneration | src/entities/chat/model/chatStore.ts:318-321 | `stopGeneration` is `stopStream` and keeps the invariant |
| Store.ChatStore.ToggleAutoScroll | src/entities/chat/model/chatStore.ts:322-325 | `toggleAutoScroll` sets the flag and keeps the invariant |
| Store.ChatStore.ClearHistory | src/entities/chat/model/chatStore.ts:326-328 | `clearHistory` is `clearHistoryInternal` and keeps the invariant |

## Left out

- Timing is not modelled. `setInterval`, `clearInterval` and `requestAnimationFrame` are replaced by the `intervalArmed` flag and the explicit methods `Tick` and `FrameCallback`.
  - The environment may call `Tick` only while the interval is armed, and `FrameCallback` at any time.
  - `STREAM_DELAY_MS` and frame rates are not modelled.
- `Math.random`, `crypto.randomUUID` and `Date.now` are inputs. Each draw is a real in [0, 1). Ids are fresh and distinct, and timestamps are opaque integers.
- The word lists, templates and `buildParagraph` (textGenerator.ts:1-79, 89-104) are cosmetic, so they are inputs too:
  - a paragraph for the chunk generator is a non-empty list of words, as `split(/\s+/)` yields it from a paragraph without leading or trailing white space;
  - for `generateTextWithCode` a paragraph is any text with at least one word;
  - the code snippet is any string.
- The configuration constants of `@shared/config/chatConfig` are not part of this model. They are parameters with MIN ≤ MAX and a chunk size of at least 1. `MAX_HISTORY_ITEMS` is imported but never used.
- zustand's `create`, `set` and `get` become direct field updates. `console.log` (`logMessages`) is dropped.
- The React UI, `formatProgress` and `scroll.ts` are not part of this model.
- Store.ChatStore.StartAssistantStream: the stop inside a restart draws a target that the following reset overwrites. The model passes both draws; only the second is observable.
- TextGenerator.CreateInitialHistorySamples: states the word bound for sample i, not which random draws each sample consumed. Each sample gets its own `Randomness`.
- LoremGenerator.WordChunkWords: stated for non-negative starts only. A negative start is modelled (`WordAt`), but no word-count property is claimed for it.
- Strings are sequences of Dafny characters. Only the white-space set is taken from ECMAScript; UTF-16 surrogate pairs are not modelled.
