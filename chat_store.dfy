/** `useChatStore` (src/entities/chat/model/chatStore.ts) as an object: the
    public state and the module-level runtime record are fields, the store's
    actions and internal helpers are methods that update them step by step,
    and the two timer callbacks are the methods Tick and FrameCallback, which
    the environment calls (Tick only while the interval is armed,
    FrameCallback at any time).

    Each method states its new state as the step of ChatModel it performs on
    Snapshot(); the public actions also keep ChatModel.ValidState. Random
    draws (`Math.random()` results in [0, 1)), fresh ids, timestamps and the
    random choices of the text producers are parameters. */
module Store {
  import opened JsString
  import opened Options
  import opened Messages
  import opened TextGenerator
  import opened TextChunks
  import opened ChatModel

  class ChatStore {
    const cfg: Config

    var messages: seq<Message>
    var isGenerating: bool
    var isAutoScroll: bool
    var generatedWords: int
    var targetWords: int

    /** `runtime.intervalId !== null`. */
    var intervalArmed: bool
    var bufferedChunk: string
    var isFlushScheduled: bool
    var wordsGenerated: int
    var runtimeTarget: int
    var streamingMessageId: Option<string>
    var textGenerator: ChunkGenerator?

    function Snapshot(): StoreState
      reads this, textGenerator
    {
      StoreState(messages, isGenerating, isAutoScroll, generatedWords, targetWords,
                 intervalArmed, bufferedChunk, isFlushScheduled, wordsGenerated, runtimeTarget,
                 streamingMessageId, if textGenerator == null then None else Some(textGenerator.State()))
    }

    predicate Valid()
      reads this, textGenerator
    {
      ValidState(cfg, Snapshot())
    }

    /** The store as `create` builds it, with the runtime record's initial values. */
    constructor (cfg: Config)
      requires ValidConfig(cfg)
      ensures Valid() && Snapshot() == ChatModel.Init(cfg)
    {
      this.cfg := cfg;
      messages := [];
      isGenerating := false;
      isAutoScroll := true;
      generatedWords := 0;
      targetWords := cfg.streamMax;
      intervalArmed := false;
      bufferedChunk := "";
      isFlushScheduled := false;
      wordsGenerated := 0;
      runtimeTarget := cfg.streamMax;
      streamingMessageId := None;
      textGenerator := null;
      new;
      InitValid(cfg);
    }

    method FlushBufferedChunk()
      modifies this
      ensures Snapshot() == ChatModel.FlushBuffered(old(Snapshot()))
    {
      if bufferedChunk == "" {
        return;
      }
      var chunk := bufferedChunk;
      bufferedChunk := "";
      if |messages| == 0 {
        return;
      }
      var id := streamingMessageId;
      if id.None? || id.value == "" {
        return;
      }
      var nextMessages := messages;
      var messageIndex := FindIndex(nextMessages, id.value);
      if messageIndex == -1 {
        return;
      }
      var message := nextMessages[messageIndex];
      if message.role != Assistant {
        return;
      }
      var updatedMessage := message.(content := Trim(message.content + " " + chunk));
      nextMessages := nextMessages[messageIndex := updatedMessage];
      messages := nextMessages;
      generatedWords := wordsGenerated;
    }

    method ScheduleFlush()
      modifies this
      ensures Snapshot() == ChatModel.ScheduleFlush(old(Snapshot()))
    {
      if isFlushScheduled {
        return;
      }
      isFlushScheduled := true;
    }

    /** The callback `scheduleFlush` hands to `requestAnimationFrame`. */
    method FrameCallback()
      requires Valid()
      modifies this
      ensures Valid()
      ensures Snapshot() == Frame(old(Snapshot()))
    {
      FrameValid(cfg, Snapshot());
      isFlushScheduled := false;
      FlushBufferedChunk();
    }

    method StopInterval()
      modifies this
      ensures Snapshot() == ChatModel.StopInterval(old(Snapshot()))
    {
      if intervalArmed {
        intervalArmed := false;
      }
    }

    /** `resetRuntime`, `u` being the draw `pickTargetWords` makes. */
    method ResetRuntime(u: real)
      requires ValidConfig(cfg) && 0.0 <= u < 1.0
      modifies this
      ensures Snapshot() == ChatModel.ResetRuntime(old(Snapshot()), PickTargetWords(cfg, u))
    {
      bufferedChunk := "";
      isFlushScheduled := false;
      wordsGenerated := 0;
      runtimeTarget := PickTargetWords(cfg, u);
      streamingMessageId := None;
      textGenerator := null;
    }

    method MarkStreamStopped()
      modifies this
      ensures Snapshot() == ChatModel.MarkStreamStopped(old(Snapshot()))
    {
      if |messages| == 0 {
        return;
      }
      var id := streamingMessageId;
      if id.None? || id.value == "" {
        return;
      }
      var nextMessages := messages;
      var messageIndex := FindIndex(nextMessages, id.value);
      if messageIndex == -1 {
        return;
      }
      var message := nextMessages[messageIndex];
      if !message.isStreaming {
        return;
      }
      nextMessages := nextMessages[messageIndex := message.(isStreaming := false)];
      messages := nextMessages;
    }

    /** `clearHistoryInternal`, behind the `clearHistory` action. */
    method ClearHistoryInternal(u: real)
      requires ValidConfig(cfg) && 0.0 <= u < 1.0
      modifies this
      ensures Snapshot() == ChatModel.ClearHistory(old(Snapshot()), PickTargetWords(cfg, u))
    {
      StopInterval();
      ResetRuntime(u);
      messages := [];
      isGenerating := false;
      generatedWords := 0;
      targetWords := runtimeTarget;
    }

    method StopStream(u: real)
      requires ValidConfig(cfg) && 0.0 <= u < 1.0
      modifies this
      ensures Snapshot() == ChatModel.StopStream(old(Snapshot()), PickTargetWords(cfg, u))
    {
      var finishedWords := wordsGenerated;
      var finishedTarget := runtimeTarget;
      StopInterval();
      FlushBufferedChunk();
      MarkStreamStopped();
      ResetRuntime(u);
      isGenerating := false;
      targetWords := finishedTarget;
      generatedWords := finishedWords;
    }

    method AddUserMessage(text: string, id: string, now: int)
      requires Valid() && FreshId(messages, id)
      modifies this
      ensures Valid()
      ensures Snapshot() == ChatModel.AddUserMessage(old(Snapshot()), text, id, now)
    {
      AddUserMessageValid(cfg, Snapshot(), text, id, now);
      var trimmed := Trim(text);
      if trimmed == "" {
        return;
      }
      messages := messages + [Message(id, User, trimmed, false, now)];
    }

    /** `addUserMessageAndInstantReply`: `u` is the draw of `pickInstantWords`
        and `rnd` the choices `generateTextWithCode` makes; the reply carries
        at least the picked number of words. */
    method AddUserMessageAndInstantReply(text: string, userId: string, userTime: int,
                                         replyId: string, replyTime: int, u: real, rnd: Randomness)
      requires Valid() && FreshId(messages, userId) && FreshId(messages, replyId) && userId != replyId
      requires 0.0 <= u < 1.0 && WellFormed(rnd)
      modifies this
      ensures Valid()
      ensures Snapshot() == InstantReply(old(Snapshot()), text, userId, userTime, replyId, replyTime,
                                         GenerateText(PickInstantWords(cfg, u), rnd))
      ensures !AllSpace(text) ==> |messages| > 0 && CountWords(messages[|messages| - 1].content) >= PickInstantWords(cfg, u)
    {
      TrimSpec(text);
      InstantReplyValid(cfg, Snapshot(), text, userId, userTime, replyId, replyTime,
                        GenerateText(PickInstantWords(cfg, u), rnd));
      var trimmed := Trim(text);
      if trimmed == "" {
        return;
      }
      var instantWords := PickInstantWords(cfg, u);
      var assistantText := GenerateTextWithCode(instantWords, rnd);
      messages := messages + [Message(userId, User, trimmed, false, userTime),
                              Message(replyId, Assistant, assistantText, false, replyTime)];
      isAutoScroll := true;
    }

    /** `startAssistantStream`: `stopDraw` is the draw of the reset inside a
        stop of a running session, `u` the draw of its own reset, and `id` the
        new message's `crypto.randomUUID()`, fresh among the messages. The
        session it opens keeps the store's invariant. */
    method StartAssistantStream(stopDraw: real, u: real, id: string, now: int)
      requires Valid() && 0.0 <= stopDraw < 1.0 && 0.0 <= u < 1.0 && FreshId(messages, id)
      modifies this
      ensures Valid() && fresh(textGenerator)
      ensures Snapshot() == Start(old(Snapshot()), PickTargetWords(cfg, stopDraw), PickTargetWords(cfg, u), id, now)
    {
      StartValid(cfg, Snapshot(), PickTargetWords(cfg, stopDraw), PickTargetWords(cfg, u), id, now);
      StartStream(stopDraw, u, id, now);
    }

    /** The steps of `startAssistantStream`: stop a running session, then open a new one. */
    method StartStream(stopDraw: real, u: real, id: string, now: int)
      requires ValidConfig(cfg) && 0.0 <= stopDraw < 1.0 && 0.0 <= u < 1.0
      modifies this
      ensures fresh(textGenerator)
      ensures Snapshot() == Start(old(Snapshot()), PickTargetWords(cfg, stopDraw), PickTargetWords(cfg, u), id, now)
    {
      if isGenerating {
        StopStream(stopDraw);
      }
      OpenStream(u, id, now);
    }

    /** Reset the runtime record, open the streaming message with a fresh
        generator, and arm the interval. */
    method OpenStream(u: real, id: string, now: int)
      requires ValidConfig(cfg) && 0.0 <= u < 1.0
      modifies this
      ensures fresh(textGenerator)
      ensures Snapshot() == Open(old(Snapshot()), PickTargetWords(cfg, u), id, now)
    {
      ResetRuntime(u);
      var assistantMessage := Message(id, Assistant, "", true, now);
      streamingMessageId := Some(assistantMessage.id);
      textGenerator := new ChunkGenerator(runtimeTarget);
      messages := messages + [assistantMessage];
      isGenerating := true;
      isAutoScroll := true;
      generatedWords := 0;
      targetWords := runtimeTarget;
      intervalArmed := true;
    }

    /** One firing of the interval `startAssistantStream` arms: the generator
        is asked for STREAM_CHUNK_SIZE words, with the paragraph, coin and
        snippet it would draw, and `u` is the draw of the reset in case the
        session stops. A firing keeps the store's invariant. */
    method Tick(paragraph: seq<string>, coin: bool, snippet: string, u: real)
      requires Valid() && intervalArmed && ParagraphWords(paragraph) && 0.0 <= u < 1.0
      modifies this, textGenerator
      ensures Valid()
      ensures Snapshot() == TickStep(old(Snapshot()), cfg.chunkSize, paragraph, coin, snippet, PickTargetWords(cfg, u))
    {
      TickValid(cfg, Snapshot(), paragraph, coin, snippet, PickTargetWords(cfg, u));
      IntervalCallback(paragraph, coin, snippet, u);
    }

    /** The callback `startAssistantStream` hands to `setInterval`: take the
        next chunk, stop when there is none, otherwise buffer it, count its
        words, schedule a flush, and stop once the target is reached. */
    method IntervalCallback(paragraph: seq<string>, coin: bool, snippet: string, u: real)
      requires ValidConfig(cfg) && 0.0 <= u < 1.0
      modifies this, textGenerator
      ensures Snapshot() == TickStep(old(Snapshot()), cfg.chunkSize, paragraph, coin, snippet, PickTargetWords(cfg, u))
    {
      ghost var s0 := Snapshot();
      var generator := textGenerator;
      var next: Option<Chunk> := None;
      if generator != null {
        next := generator.NextChunk(cfg.chunkSize, paragraph, coin, snippet);
      }
      if next.None? {
        assert Snapshot() == s0;
        StopStream(u);
        return;
      }
      assert generator != null;
      ghost var g1 := generator.State();
      assert (g1, next) == Next(s0.textGenerator.value, cfg.chunkSize, paragraph, coin, snippet);
      wordsGenerated := wordsGenerated + next.value.words;
      bufferedChunk := bufferedChunk + next.value.text;
      assert Snapshot() == BufferChunk(s0, g1, next.value);
      ScheduleFlush();
      ghost var s2 := Snapshot();
      assert s2 == ChatModel.ScheduleFlush(BufferChunk(s0, g1, next.value));
      if wordsGenerated >= runtimeTarget {
        StopStream(u);
      }
    }

    method StopGeneration(u: real)
      requires Valid() && 0.0 <= u < 1.0
      modifies this
      ensures Valid()
      ensures Snapshot() == ChatModel.StopStream(old(Snapshot()), PickTargetWords(cfg, u))
    {
      StopStreamValid(cfg, Snapshot(), PickTargetWords(cfg, u));
      StopStream(u);
    }

    method ToggleAutoScroll(value: bool)
      requires Valid()
      modifies this
      ensures Valid()
      ensures Snapshot() == ChatModel.ToggleAutoScroll(old(Snapshot()), value)
    {
      ToggleAutoScrollValid(cfg, Snapshot(), value);
      isAutoScroll := value;
    }

    method ClearHistory(u: real)
      requires Valid() && 0.0 <= u < 1.0
      modifies this
      ensures Valid()
      ensures Snapshot() == ChatModel.ClearHistory(old(Snapshot()), PickTargetWords(cfg, u))
    {
      ClearHistoryValid(cfg, Snapshot(), PickTargetWords(cfg, u));
      ClearHistoryInternal(u);
    }
  }
}
