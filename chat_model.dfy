/** The chat store of src/entities/chat/model/chatStore.ts as values: the
    public state, the module-level runtime record, and one function per step
    the store takes. The store class (module Store) performs the same steps
    on fields; this module states and proves what they achieve.

    Timers become a flag and explicit callbacks: `intervalArmed` stands for
    `intervalId !== null`, the interval callback is TickStep, and the
    animation-frame callback is Frame. Random draws and fresh ids are
    parameters. */
module ChatModel {
  import opened JsString
  import opened Options
  import opened Messages
  import opened TextGenerator
  import opened TextChunks

  /** The constants of `@shared/config/chatConfig`: word-target ranges for
      streamed and instant replies, and the word budget of one tick. */
  datatype Config = Config(streamMin: int, streamMax: int, instantMin: int, instantMax: int, chunkSize: int)

  predicate ValidConfig(cfg: Config) {
    cfg.streamMin <= cfg.streamMax && cfg.instantMin <= cfg.instantMax && cfg.chunkSize >= 1
  }

  /** `MIN + Math.floor(Math.random() * (MAX - MIN + 1))` for a draw u of
      `Math.random()`: always a whole number in [MIN, MAX]. */
  function PickBetween(min: int, max: int, u: real): (n: int)
    requires min <= max && 0.0 <= u < 1.0
    ensures min <= n <= max
  {
    var range := max - min;
    var scaled := u * (range + 1) as real;
    ScaleBelow(u, (range + 1) as real);
    min + scaled.Floor
  }

  lemma ScaleBelow(u: real, k: real)
    requires 0.0 <= u < 1.0 && k > 0.0
    ensures 0.0 <= u * k < k
  {
    assert k - u * k == (1.0 - u) * k;
    assert (1.0 - u) * k > 0.0;
  }

  /** `pickTargetWords`. */
  function PickTargetWords(cfg: Config, u: real): int
    requires ValidConfig(cfg) && 0.0 <= u < 1.0
  {
    PickBetween(cfg.streamMin, cfg.streamMax, u)
  }

  /** `pickInstantWords`. */
  function PickInstantWords(cfg: Config, u: real): int
    requires ValidConfig(cfg) && 0.0 <= u < 1.0
  {
    PickBetween(cfg.instantMin, cfg.instantMax, u)
  }

  /** The public state (messages, isGenerating, isAutoScroll, generatedWords,
      targetWords) followed by the runtime record. */
  datatype StoreState = StoreState(
    messages: seq<Message>,
    isGenerating: bool,
    isAutoScroll: bool,
    generatedWords: int,
    targetWords: int,
    intervalArmed: bool,
    bufferedChunk: string,
    isFlushScheduled: bool,
    wordsGenerated: int,
    runtimeTarget: int,
    streamingMessageId: Option<string>,
    textGenerator: Option<GenState>)

  /** The store as created: no messages, auto-scroll on, and both targets at
      STREAM_TARGET_WORDS_MAX. */
  function Init(cfg: Config): StoreState {
    StoreState([], false, true, 0, cfg.streamMax, false, "", false, 0, cfg.streamMax, None, None)
  }

  /** `!runtime.streamingMessageId`: null and the empty string are falsy. */
  predicate NoStreamingId(s: StoreState) {
    s.streamingMessageId.None? || s.streamingMessageId.value == ""
  }

  /** Where the streaming message is, or -1 when the lookup gives up. */
  function StreamingIndex(s: StoreState): (index: int)
    ensures -1 <= index < |s.messages|
  {
    if |s.messages| == 0 || NoStreamingId(s) then -1
    else FindIndex(s.messages, s.streamingMessageId.value)
  }

  /** `stopInterval`. */
  function StopInterval(s: StoreState): StoreState {
    s.(intervalArmed := false)
  }

  /** `flushBufferedChunk`: the buffer is emptied first; then, only when the
      streaming message is found and is an assistant message, its content
      becomes `${content} ${chunk}`.trim() and the public generatedWords takes
      the runtime count. */
  function FlushBuffered(s: StoreState): (r: StoreState) {
    if s.bufferedChunk == "" then s
    else
      var chunk := s.bufferedChunk;
      var s1 := s.(bufferedChunk := "");
      var index := StreamingIndex(s1);
      if index == -1 || s1.messages[index].role != Assistant then s1
      else
        var message := s1.messages[index];
        s1.(messages := s1.messages[index := message.(content := Trim(message.content + " " + chunk))],
            generatedWords := s1.wordsGenerated)
  }

  /** `markStreamStopped`: clears isStreaming on the streaming message, when
      it is found and still streaming. */
  function MarkStreamStopped(s: StoreState): StoreState {
    var index := StreamingIndex(s);
    if index == -1 || !s.messages[index].isStreaming then s
    else s.(messages := s.messages[index := s.messages[index].(isStreaming := false)])
  }

  /** `resetRuntime`, with `target` the value `pickTargetWords` returns. */
  function ResetRuntime(s: StoreState, target: int): StoreState {
    s.(bufferedChunk := "", isFlushScheduled := false, wordsGenerated := 0, runtimeTarget := target,
       streamingMessageId := None, textGenerator := None)
  }

  /** `stopStream`: remember the runtime count and target, stop the interval,
      flush, mark the message stopped, reset, and publish what was remembered. */
  function StopStream(s: StoreState, target: int): StoreState {
    var finishedWords := s.wordsGenerated;
    var finishedTarget := s.runtimeTarget;
    var s1 := ResetRuntime(MarkStreamStopped(FlushBuffered(StopInterval(s))), target);
    s1.(isGenerating := false, targetWords := finishedTarget, generatedWords := finishedWords)
  }

  /** `clearHistoryInternal`. */
  function ClearHistory(s: StoreState, target: int): StoreState {
    var s1 := ResetRuntime(StopInterval(s), target);
    s1.(messages := [], isGenerating := false, generatedWords := 0, targetWords := s1.runtimeTarget)
  }

  /** `addUserMessage(text)`, the new message built with `id` and `now`. */
  function AddUserMessage(s: StoreState, text: string, id: string, now: int): StoreState {
    var trimmed := Trim(text);
    if trimmed == "" then s
    else s.(messages := s.messages + [Message(id, User, trimmed, false, now)])
  }

  /** `addUserMessageAndInstantReply(text)`, with `replyText` the text
      `generateTextWithCode(pickInstantWords())` returns. */
  function InstantReply(s: StoreState, text: string, userId: string, userTime: int,
                        replyId: string, replyTime: int, replyText: string): StoreState {
    var trimmed := Trim(text);
    if trimmed == "" then s
    else
      s.(messages := s.messages + [Message(userId, User, trimmed, false, userTime),
                                   Message(replyId, Assistant, replyText, false, replyTime)],
         isAutoScroll := true)
  }

  /** `startAssistantStream`: stop a running stream (its reset drawing
      `stopTarget`), reset again (drawing `target`), append an empty streaming
      assistant message, create a generator for the target, publish, and arm
      the interval. */
  function Start(s: StoreState, stopTarget: int, target: int, id: string, now: int): StoreState {
    Open(if s.isGenerating then StopStream(s, stopTarget) else s, target, id, now)
  }

  /** The part of `startAssistantStream` after the stop of a running session:
      reset the runtime record, open the streaming message with a fresh
      generator, arm the interval. */
  function Open(s: StoreState, target: int, id: string, now: int): StoreState {
    var s2 := ResetRuntime(s, target);
    var s3 := s2.(streamingMessageId := Some(id), textGenerator := Some(TextChunks.Init(s2.runtimeTarget)));
    var s4 := s3.(messages := s3.messages + [Message(id, Assistant, "", true, now)], isGenerating := true,
                  isAutoScroll := true, generatedWords := 0, targetWords := s3.runtimeTarget);
    s4.(intervalArmed := true)
  }

  function ScheduleFlush(s: StoreState): StoreState {
    if s.isFlushScheduled then s else s.(isFlushScheduled := true)
  }

  /** The animation-frame callback. */
  function Frame(s: StoreState): StoreState {
    FlushBuffered(s.(isFlushScheduled := false))
  }

  /** The interval callback: stop when there is no generator or it returns
      null; otherwise count the chunk's words, buffer its text, schedule a
      flush, and stop once the target is reached. `target` is what the
      reset of a stop would draw. */
  function TickStep(s: StoreState, chunkSize: int, paragraph: seq<string>, coin: bool, snippet: string,
                    target: int): StoreState {
    if s.textGenerator.None? then StopStream(s, target)
    else
      var (g, next) := Next(s.textGenerator.value, chunkSize, paragraph, coin, snippet);
      if next.None? then StopStream(s, target)
      else
        var s2 := ScheduleFlush(BufferChunk(s, g, next.value));
        if s2.wordsGenerated >= s2.runtimeTarget then StopStream(s2, target) else s2
  }

  /** The part of a tick that records a chunk: the generator's new state, the
      words counted, the text appended to the buffer. */
  function BufferChunk(s: StoreState, g: GenState, chunk: Chunk): StoreState {
    s.(textGenerator := Some(g), wordsGenerated := s.wordsGenerated + chunk.words,
       bufferedChunk := s.bufferedChunk + chunk.text)
  }

  /** `toggleAutoScroll(value)`. */
  function ToggleAutoScroll(s: StoreState, value: bool): StoreState {
    s.(isAutoScroll := value)
  }

  predicate InStreamRange(cfg: Config, n: int) {
    cfg.streamMin <= n <= cfg.streamMax
  }

  /** Exactly the message whose id is streamingMessageId is streaming. */
  predicate StreamingFlags(s: StoreState) {
    forall i :: 0 <= i < |s.messages| ==>
      (s.messages[i].isStreaming <==> s.streamingMessageId == Some(s.messages[i].id))
  }

  /** What holds while a session runs: the streaming message is an assistant
      message the lookup finds; its words and the buffered words together are
      the words produced; buffered text ends in white space and has a frame
      requested for it; with nothing buffered the public count is current;
      and the generator agrees with the runtime count and target. */
  predicate SessionValid(s: StoreState)
    requires s.streamingMessageId.Some? && s.textGenerator.Some?
  {
    var index := StreamingIndex(s);
    var g := s.textGenerator.value;
    index >= 0 && s.messages[index].role == Assistant &&
    Words(s.messages[index].content) + Words(s.bufferedChunk) == s.wordsGenerated &&
    (s.bufferedChunk != "" ==> IsSpace(s.bufferedChunk[|s.bufferedChunk| - 1]) && s.isFlushScheduled) &&
    (s.bufferedChunk == "" ==> s.generatedWords == s.wordsGenerated) &&
    GenValid(g) && g.total == s.wordsGenerated && g.targetWords == s.runtimeTarget
  }

  /** The store invariant. */
  predicate ValidState(cfg: Config, s: StoreState) {
    ValidConfig(cfg) &&
    DistinctIds(s.messages) &&
    StreamingFlags(s) &&
    s.isGenerating == s.intervalArmed &&
    s.streamingMessageId.Some? == s.intervalArmed &&
    s.textGenerator.Some? == s.intervalArmed &&
    InStreamRange(cfg, s.runtimeTarget) &&
    InStreamRange(cfg, s.targetWords) &&
    (s.intervalArmed ==> SessionValid(s)) &&
    (!s.intervalArmed ==> s.bufferedChunk == "" && s.wordsGenerated == 0 && !s.isFlushScheduled)
  }

  /** The store starts out valid. */
  lemma InitValid(cfg: Config)
    requires ValidConfig(cfg)
    ensures ValidState(cfg, Init(cfg))
  {
  }

  /** Gluing with a space and trimming neither merges nor adds words. */
  lemma SpacedTrimWords(content: string, chunk: string)
    ensures Words(Trim(content + " " + chunk)) == Words(content) + Words(chunk)
  {
    TrimWords(content + " " + chunk);
    assert AllSpace(" ");
    WordsAllSpace(" ");
    WordsConcat(content, " ");
    WordsConcat(content + " ", chunk);
  }

  /** The flush changes the content of the streaming message and nothing else
      in the messages: ids, roles, flags, timestamps and order stay, and
      outside the messages only the buffer and the public count can change. */
  lemma FlushKeeps(s: StoreState)
    ensures var r := FlushBuffered(s);
            SameIds(r.messages, s.messages) &&
            (forall k :: 0 <= k < |s.messages| ==>
               r.messages[k] == s.messages[k].(content := r.messages[k].content)) &&
            r == s.(messages := r.messages, bufferedChunk := r.bufferedChunk, generatedWords := r.generatedWords) &&
            StreamingIndex(r) == StreamingIndex(s)
  {
    var r := FlushBuffered(s);
    if !NoStreamingId(s) {
      FindIndexSameIds(r.messages, s.messages, s.streamingMessageId.value);
    }
  }

  /** `flushBufferedChunk`: nothing happens with an empty buffer. Otherwise
      the buffer is emptied, and only the streaming message, when it is found
      and is an assistant message, changes: its content becomes the old
      content, a space and the buffered text, trimmed, and then the public
      generatedWords becomes the runtime count. */
  lemma FlushEffect(s: StoreState)
    ensures s.bufferedChunk == "" ==> FlushBuffered(s) == s
    ensures s.bufferedChunk != "" ==>
              var r := FlushBuffered(s);
              var index := StreamingIndex(s);
              r.bufferedChunk == "" && |r.messages| == |s.messages| &&
              (forall k :: 0 <= k < |s.messages| && k != index ==> r.messages[k] == s.messages[k]) &&
              (index >= 0 && s.messages[index].role == Assistant ==>
                 r.messages[index] == s.messages[index].(content := Trim(s.messages[index].content + " " + s.bufferedChunk)) &&
                 r == s.(messages := r.messages, bufferedChunk := "", generatedWords := s.wordsGenerated)) &&
              (index == -1 || s.messages[index].role != Assistant ==> r == s.(bufferedChunk := ""))
  {
  }

  /** The animation-frame callback keeps the store valid whenever it runs.
      Outside a session it changes nothing, so a frame left over from an
      earlier session is harmless; during a session it drains the whole
      buffer into the streaming message, which then holds exactly the words
      produced, and the public count catches up with them. */
  lemma FrameValid(cfg: Config, s: StoreState)
    requires ValidState(cfg, s)
    ensures ValidState(cfg, Frame(s))
    ensures !s.intervalArmed ==> Frame(s) == s
    ensures s.intervalArmed ==>
              var r := Frame(s);
              var index := StreamingIndex(s);
              r.bufferedChunk == "" && !r.isFlushScheduled &&
              r.generatedWords == r.wordsGenerated == s.wordsGenerated &&
              StreamingIndex(r) == index &&
              Words(r.messages[index].content) == r.generatedWords
  {
    var t := s.(isFlushScheduled := false);
    var r := FlushBuffered(t);
    FlushKeeps(t);
    if s.intervalArmed && s.bufferedChunk != "" {
      var index := StreamingIndex(s);
      SpacedTrimWords(s.messages[index].content, s.bufferedChunk);
    }
  }

  /** During a session exactly one message streams, the one the lookup finds. */
  lemma StreamingOnly(cfg: Config, s: StoreState, k: int)
    requires ValidState(cfg, s) && 0 <= k < |s.messages|
    ensures s.messages[k].isStreaming <==> s.intervalArmed && k == StreamingIndex(s)
  {
    if s.intervalArmed {
      FindIndexOf(s.messages, k);
    }
  }

  /** `stopStream` from any valid state: the interval is off, the runtime is
      reset with the newly drawn target, no message streams any more, and the
      public state shows the words and the target of the session that ended.
      The message that was streaming received the buffered text, lost its
      streaming flag and holds exactly the words produced; every other
      message is untouched. */
  lemma StopStreamValid(cfg: Config, s: StoreState, target: int)
    requires ValidState(cfg, s) && InStreamRange(cfg, target)
    ensures var r := StopStream(s, target);
            ValidState(cfg, r) &&
            !r.intervalArmed && !r.isGenerating && r.bufferedChunk == "" && !r.isFlushScheduled &&
            r.wordsGenerated == 0 && r.runtimeTarget == target &&
            r.streamingMessageId.None? && r.textGenerator.None? &&
            r.generatedWords == s.wordsGenerated && r.targetWords == s.runtimeTarget &&
            r.isAutoScroll == s.isAutoScroll &&
            SameIds(r.messages, s.messages) &&
            (forall k :: 0 <= k < |s.messages| && k != StreamingIndex(s) ==> r.messages[k] == s.messages[k]) &&
            (s.intervalArmed ==>
               var index := StreamingIndex(s);
               var content := s.messages[index].content;
               r.messages[index] == s.messages[index].(
                 content := if s.bufferedChunk == "" then content else Trim(content + " " + s.bufferedChunk),
                 isStreaming := false) &&
               Words(r.messages[index].content) == s.wordsGenerated)
  {
    var s1 := StopInterval(s);
    var s2 := FlushBuffered(s1);
    FlushKeeps(s1);
    var s3 := MarkStreamStopped(s2);
    var r := StopStream(s, target);
    assert r.messages == s3.messages;
    forall k | 0 <= k < |s.messages|
      ensures s.messages[k].isStreaming <==> s.intervalArmed && k == StreamingIndex(s)
    {
      StreamingOnly(cfg, s, k);
    }
    if s.intervalArmed {
      var index := StreamingIndex(s);
      if s.bufferedChunk != "" {
        SpacedTrimWords(s.messages[index].content, s.bufferedChunk);
      }
    }
  }

  /** A stop outside a session, such as a second stop in a row, is not a
      no-op: the messages stay, but the public count drops to 0 and the
      public target becomes the one the previous reset drew. */
  lemma StopWhenIdle(cfg: Config, s: StoreState, target: int)
    requires ValidState(cfg, s) && !s.intervalArmed
    ensures StopStream(s, target) == s.(generatedWords := 0, targetWords := s.runtimeTarget, runtimeTarget := target)
  {
  }

  /** Stopping a session twice: the first stop publishes the session's words
      and target, the second republishes 0 words and the target the first
      stop's reset drew. */
  lemma StopTwice(cfg: Config, s: StoreState, target1: int, target2: int)
    requires ValidState(cfg, s) && s.intervalArmed && InStreamRange(cfg, target1)
    ensures var r1 := StopStream(s, target1);
            var r2 := StopStream(r1, target2);
            r1.generatedWords == s.wordsGenerated && r1.targetWords == s.runtimeTarget &&
            r2.messages == r1.messages && r2.generatedWords == 0 && r2.targetWords == target1
  {
    StopStreamValid(cfg, s, target1);
    StopWhenIdle(cfg, StopStream(s, target1), target2);
  }

  /** `clearHistory` from any state: no messages, no session, the runtime
      reset, the public count 0, and both targets the newly drawn one. */
  lemma ClearHistoryValid(cfg: Config, s: StoreState, target: int)
    requires ValidConfig(cfg) && InStreamRange(cfg, target)
    ensures var r := ClearHistory(s, target);
            ValidState(cfg, r) &&
            r.messages == [] && !r.isGenerating && !r.intervalArmed && r.generatedWords == 0 &&
            r.targetWords == target && r.runtimeTarget == target &&
            r.bufferedChunk == "" && !r.isFlushScheduled && r.wordsGenerated == 0 &&
            r.streamingMessageId.None? && r.textGenerator.None? && r.isAutoScroll == s.isAutoScroll
  {
  }

  /** `toggleAutoScroll` changes the flag and nothing else. */
  lemma ToggleAutoScrollValid(cfg: Config, s: StoreState, value: bool)
    requires ValidState(cfg, s)
    ensures ValidState(cfg, ToggleAutoScroll(s, value))
    ensures ToggleAutoScroll(s, value).isAutoScroll == value
  {
  }

  /** Appending messages that are not streaming and carry fresh ids keeps the
      store valid. */
  lemma AppendIdleValid(cfg: Config, s: StoreState, extra: seq<Message>)
    requires ValidState(cfg, s) && DistinctIds(extra)
    requires forall k :: 0 <= k < |extra| ==> !extra[k].isStreaming && FreshId(s.messages, extra[k].id)
    ensures ValidState(cfg, s.(messages := s.messages + extra))
  {
    var r := s.(messages := s.messages + extra);
    if s.intervalArmed {
      FindIndexAppend(s.messages, extra, s.streamingMessageId.value);
      var index := StreamingIndex(s);
      forall k | |s.messages| <= k < |r.messages|
        ensures r.streamingMessageId != Some(r.messages[k].id)
      {
        assert r.messages[k] == extra[k - |s.messages|];
        assert s.messages[index].id == s.streamingMessageId.value;
      }
    }
    forall i, j | 0 <= i < j < |r.messages| ensures r.messages[i].id != r.messages[j].id {
      if j >= |s.messages| {
        assert r.messages[j] == extra[j - |s.messages|];
        if i >= |s.messages| {
          assert r.messages[i] == extra[i - |s.messages|];
        }
      }
    }
  }

  /** `addUserMessage`: blank text leaves the store as it was; any other text
      appends exactly one user message, not streaming, whose content is the
      text trimmed (same words, no white space at either end). */
  lemma AddUserMessageValid(cfg: Config, s: StoreState, text: string, id: string, now: int)
    requires ValidState(cfg, s) && FreshId(s.messages, id)
    ensures var r := AddUserMessage(s, text, id, now);
            ValidState(cfg, r) &&
            (AllSpace(text) ==> r == s) &&
            (!AllSpace(text) ==>
               var trimmed := Trim(text);
               r == s.(messages := s.messages + [Message(id, User, trimmed, false, now)]) &&
               Words(trimmed) == Words(text) > 0 &&
               !IsSpace(trimmed[0]) && !IsSpace(trimmed[|trimmed| - 1]))
  {
    TrimSpec(text);
    TrimWords(text);
    WordsZero(text);
    if !AllSpace(text) {
      AppendIdleValid(cfg, s, [Message(id, User, Trim(text), false, now)]);
    }
  }

  /** `addUserMessageAndInstantReply`: blank text leaves the store as it was;
      any other text appends exactly two messages, the trimmed user message
      and then a finished assistant reply, and turns auto-scroll on. */
  lemma InstantReplyValid(cfg: Config, s: StoreState, text: string, userId: string, userTime: int,
                          replyId: string, replyTime: int, replyText: string)
    requires ValidState(cfg, s) && FreshId(s.messages, userId) && FreshId(s.messages, replyId) && userId != replyId
    ensures var r := InstantReply(s, text, userId, userTime, replyId, replyTime, replyText);
            ValidState(cfg, r) &&
            (AllSpace(text) ==> r == s) &&
            (!AllSpace(text) ==>
               r == s.(messages := s.messages + [Message(userId, User, Trim(text), false, userTime),
                                                 Message(replyId, Assistant, replyText, false, replyTime)],
                       isAutoScroll := true) &&
               Words(Trim(text)) == Words(text) > 0)
  {
    TrimSpec(text);
    TrimWords(text);
    WordsZero(text);
    if !AllSpace(text) {
      var extra := [Message(userId, User, Trim(text), false, userTime),
                    Message(replyId, Assistant, replyText, false, replyTime)];
      AppendIdleValid(cfg, s, extra);
    }
  }

  /** `startAssistantStream`: a running session is stopped first, so its
      message is finalized; then exactly one new message is appended, an
      empty streaming assistant message that becomes the only streaming one,
      and a fresh session starts for the newly drawn target with nothing
      produced yet. */
  lemma StartValid(cfg: Config, s: StoreState, stopTarget: int, target: int, id: string, now: int)
    requires ValidState(cfg, s) && InStreamRange(cfg, stopTarget) && InStreamRange(cfg, target)
    requires FreshId(s.messages, id)
    ensures var r := Start(s, stopTarget, target, id, now);
            var before := if s.isGenerating then StopStream(s, stopTarget).messages else s.messages;
            ValidState(cfg, r) &&
            r.intervalArmed && r.isGenerating && r.isAutoScroll &&
            SameIds(before, s.messages) &&
            (forall k :: 0 <= k < |before| ==> !before[k].isStreaming) &&
            r.messages == before + [Message(id, Assistant, "", true, now)] &&
            r.streamingMessageId == Some(id) && StreamingIndex(r) == |before| &&
            r.generatedWords == 0 && r.wordsGenerated == 0 && r.bufferedChunk == "" &&
            r.targetWords == target && r.runtimeTarget == target &&
            r.textGenerator == Some(TextChunks.Init(target))
  {
    var s1 := if s.isGenerating then StopStream(s, stopTarget) else s;
    if s.isGenerating {
      StopStreamValid(cfg, s, stopTarget);
    }
    forall k | 0 <= k < |s1.messages| ensures !s1.messages[k].isStreaming {
      StreamingOnly(cfg, s1, k);
    }
    var r := Start(s, stopTarget, target, id, now);
    var message := Message(id, Assistant, "", true, now);
    assert r.messages == s1.messages + [message];
    assert FindIndex(r.messages, id) == |s1.messages| by {
      assert r.messages[|s1.messages|] == message;
    }
    forall i, j | 0 <= i < j < |r.messages| ensures r.messages[i].id != r.messages[j].id {
      if j == |s1.messages| {
        assert r.messages[j] == message;
      }
    }
    assert Words("") == 0;
  }

  /** The interval callback during a session keeps the store valid and does
      one of two things. Either the session goes on: the tick produced at
      least one word, buffered text was only added to (its words being the
      words added to the count), a frame is requested, the messages and the
      public state are untouched, and the count is still below the target.
      Or the session has ended, by a null chunk or by reaching the target:
      then the public count is at least the public target, and the message
      that was streaming has stopped streaming and holds exactly that many
      words. */
  lemma TickValid(cfg: Config, s: StoreState, paragraph: seq<string>, coin: bool, snippet: string, target: int)
    requires ValidState(cfg, s) && s.intervalArmed && ParagraphWords(paragraph) && InStreamRange(cfg, target)
    ensures var r := TickStep(s, cfg.chunkSize, paragraph, coin, snippet, target);
            ValidState(cfg, r) && SameIds(r.messages, s.messages) &&
            (r.intervalArmed ==>
               r == s.(textGenerator := r.textGenerator, wordsGenerated := r.wordsGenerated,
                       bufferedChunk := r.bufferedChunk, isFlushScheduled := true) &&
               s.wordsGenerated < r.wordsGenerated < r.runtimeTarget &&
               |r.bufferedChunk| > |s.bufferedChunk| && r.bufferedChunk[..|s.bufferedChunk|] == s.bufferedChunk &&
               Words(r.bufferedChunk) - Words(s.bufferedChunk) == r.wordsGenerated - s.wordsGenerated) &&
            (!r.intervalArmed ==>
               var index := StreamingIndex(s);
               r.generatedWords >= r.targetWords && r.targetWords == s.runtimeTarget &&
               !r.messages[index].isStreaming && Words(r.messages[index].content) == r.generatedWords)
  {
    var g := s.textGenerator.value;
    var r := TickStep(s, cfg.chunkSize, paragraph, coin, snippet, target);
    NextChunkWords(g, cfg.chunkSize, paragraph, coin, snippet);
    var (g1, next) := Next(g, cfg.chunkSize, paragraph, coin, snippet);
    if next.None? {
      assert r == StopStream(s, target);
      StopStreamValid(cfg, s, target);
    } else {
      var s2 := ScheduleFlush(BufferChunk(s, g1, next.value));
      BufferChunkValid(cfg, s, g1, next.value);
      if s2.wordsGenerated >= s2.runtimeTarget {
        assert r == StopStream(s2, target);
        StopStreamValid(cfg, s2, target);
      } else {
        assert r == s2;
      }
    }
  }

  /** Recording a chunk the generator produced, and requesting a frame for it,
      keeps a session valid. */
  lemma BufferChunkValid(cfg: Config, s: StoreState, g: GenState, chunk: Chunk)
    requires ValidState(cfg, s) && s.intervalArmed
    requires GenValid(g) && g.targetWords == s.runtimeTarget && g.total == s.wordsGenerated + chunk.words
    requires chunk.words >= 1 && Words(chunk.text) == chunk.words
    requires |chunk.text| > 0 && IsSpace(chunk.text[|chunk.text| - 1])
    ensures var r := ScheduleFlush(BufferChunk(s, g, chunk));
            ValidState(cfg, r) && StreamingIndex(r) == StreamingIndex(s) &&
            r.bufferedChunk[..|s.bufferedChunk|] == s.bufferedChunk &&
            Words(r.bufferedChunk) == Words(s.bufferedChunk) + chunk.words
  {
    var r := ScheduleFlush(BufferChunk(s, g, chunk));
    WordsConcat(s.bufferedChunk, chunk.text);
    assert r.bufferedChunk[|r.bufferedChunk| - 1] == chunk.text[|chunk.text| - 1];
  }
}
