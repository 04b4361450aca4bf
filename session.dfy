/** The send path of the chat component as a state machine over snapshots of
    the component's state. `handleSend` is asynchronous: `Begin` is the part
    that runs synchronously when it is called (the gate, the user message, the
    input cleared, `loading` raised) and `Finish` the continuation once the
    provider's `chat` promise settles (the assistant message, the transcript
    write, `loading` lowered). Other events may happen in between. */
module Session {
  import opened Options
  import opened JsValues
  import opened JsStrings
  import opened Messages
  import opened ResponseNormalizer
  import opened Transcript

  /** The model name the component holds; it has no setter. */
  const ModelName := "gpt-4o-mini"
  const ApologyText := "Sorry, I encountered an error processing your request."

  /** The arguments of the `chat` call: the prompt and the model option. */
  datatype ChatRequest = ChatRequest(prompt: string, model: string)

  /** How the awaited `chat` call settled: resolved with a value, or threw. */
  datatype ChatOutcome = Replied(response: Value) | Threw

  /** The host library functions the continuation calls: `JSON.stringify` and
      the string conversion of a template literal (`None` means it threw). */
  datatype Host = Host(stringify: Value -> Serialized, toText: Value -> Option<string>)

  /** The clock readings the continuation takes: `Date.now()` for the reply
      and for the apology, and the three `toISOString()` results (for the file
      name, the user line and the assistant line). */
  datatype Clock = Clock(replyAt: int, errorAt: int, dayStamp: string, userStamp: string, assistantStamp: string)

  /** A `puter.fs.write` call issued (fire-and-forget; its result is dropped). */
  datatype WriteRequest = WriteRequest(path: string, content: string)

  /** What a continuation adds: the assistant-side messages and the write. */
  datatype Settlement = Settlement(appended: seq<Message>, write: Option<WriteRequest>)

  /** The component's state: messages, input, provider presence, loading,
      and the transcript writes issued so far. */
  datatype SessionState = SessionState(
    messages: seq<Message>, input: string, providerReady: bool, loading: bool, writes: seq<WriteRequest>)

  const Initial := SessionState([], "", false, false, [])

  /** The gate of `handleSend`: the trimmed input is non-empty and the
      provider is present. There is no `loading` test. */
  predicate CanSend(s: SessionState)
  {
    Trim(s.input) != "" && s.providerReady
  }

  function UserMessage(prompt: string, at: int): Message
  {
    Message(User, Str(prompt), at)
  }

  function Apology(at: int): Message
  {
    Message(Assistant, Str(ApologyText), at)
  }

  /** The synchronous part of `handleSend`, returning the `chat` call made. */
  function Begin(s: SessionState, now: int): (SessionState, Option<ChatRequest>)
  {
    if !CanSend(s) then
      (s, None)
    else
      (s.(messages := s.messages + [UserMessage(s.input, now)], input := "", loading := true),
       Some(ChatRequest(s.input, ModelName)))
  }

  /** The try/catch of the continuation. A throw before the reply is appended
      (the call itself, or `JSON.stringify`) leaves only the apology; a throw
      while composing the log entry comes after the reply was appended, so the
      apology follows it; without a throw the entry is written. */
  function Settle(request: ChatRequest, outcome: ChatOutcome, host: Host, clock: Clock): Settlement
  {
    match outcome
    case Threw => Settlement([Apology(clock.errorAt)], None)
    case Replied(response) =>
      match Normalize(response, host.stringify)
      case None => Settlement([Apology(clock.errorAt)], None)
      case Some(content) =>
        var reply := Message(Assistant, content, clock.replyAt);
        match TemplateString(content, host.toText)
        case None => Settlement([reply, Apology(clock.errorAt)], None)
        case Some(text) =>
          Settlement([reply], Some(WriteRequest(
            HistoryFileName(clock.dayStamp),
            LogEntry(clock.userStamp, request.prompt, clock.assistantStamp, text))))
  }

  function WriteList(write: Option<WriteRequest>): seq<WriteRequest>
  {
    match write
    case Some(w) => [w]
    case None => []
  }

  /** The continuation, `finally` included: appends onto the messages as they
      are now, and lowers `loading` whatever happened. */
  function Finish(s: SessionState, request: ChatRequest, outcome: ChatOutcome, host: Host, clock: Clock): SessionState
  {
    var st := Settle(request, outcome, host, clock);
    s.(messages := s.messages + st.appended, writes := s.writes + WriteList(st.write), loading := false)
  }

  /** A whole `handleSend` with nothing happening while `chat` is awaited. */
  function Send(s: SessionState, now: int, outcome: ChatOutcome, host: Host, clock: Clock): (SessionState, Option<ChatRequest>)
  {
    var (t, request) := Begin(s, now);
    if request.Some? then (Finish(t, request.value, outcome, host, clock), request) else (t, None)
  }

  /** The key rule of `handleKeyDown`: Enter without Shift sends. */
  predicate IsSendKey(key: string, shift: bool)
  {
    key == "Enter" && !shift
  }

  /** `handleKeyDown`: starts a send (without awaiting it) on the send key. */
  function KeyDown(s: SessionState, key: string, shift: bool, now: int): (SessionState, Option<ChatRequest>)
  {
    if IsSendKey(key, shift) then Begin(s, now) else (s, None)
  }

  /** The send button is enabled when not loading and the trimmed input is
      non-empty (it does not look at the provider). */
  predicate SendButtonEnabled(s: SessionState)
  {
    !s.loading && Trim(s.input) != ""
  }

  // ---------------------------------------------------------------------
  // The gate

  /** A send is accepted exactly when the provider is present and the input
      holds a character other than white space. */
  lemma CanSendIffVisibleInput(s: SessionState)
    ensures CanSend(s) <==> s.providerReady && exists i :: 0 <= i < |s.input| && !IsJsSpace(s.input[i])
  {
    TrimNonEmptyIffVisible(s.input);
  }

  /** A rejected send changes nothing and calls nothing. */
  lemma BeginRejectedIsNoOp(s: SessionState, now: int)
    requires !CanSend(s)
    ensures Begin(s, now) == (s, None)
  {
  }

  /** An accepted send appends exactly one user message holding the untrimmed
      input, clears the input, raises `loading`, and asks the constant model
      with the untrimmed input as prompt. */
  lemma BeginAccepted(s: SessionState, now: int)
    requires CanSend(s)
    ensures var (t, request) := Begin(s, now);
      && t.messages == s.messages + [Message(User, Str(s.input), now)]
      && t.input == "" && t.loading
      && t.providerReady == s.providerReady && t.writes == s.writes
      && request == Some(ChatRequest(s.input, ModelName))
  {
  }

  // ---------------------------------------------------------------------
  // The continuation

  /** Each continuation appends one or two messages, all from the assistant. */
  lemma SettleAppendsAssistantOnly(request: ChatRequest, outcome: ChatOutcome, host: Host, clock: Clock)
    ensures var st := Settle(request, outcome, host, clock);
      1 <= |st.appended| <= 2 && forall m :: m in st.appended ==> m.role == Assistant
  {
  }

  /** A failed `chat` call appends the apology alone and writes nothing. */
  lemma SettleChatThrew(request: ChatRequest, host: Host, clock: Clock)
    ensures Settle(request, Threw, host, clock) == Settlement([Apology(clock.errorAt)], None)
  {
  }

  /** The transcript is written exactly when nothing in the try block threw,
      and then the continuation appended exactly the normalized reply and
      wrote the prompt and the reply's text under the day's file name. */
  lemma SettleWritesIffNoThrow(request: ChatRequest, outcome: ChatOutcome, host: Host, clock: Clock)
    ensures var st := Settle(request, outcome, host, clock);
      st.write.Some? <==>
        (outcome.Replied? && Normalize(outcome.response, host.stringify).Some?
         && TemplateString(Normalize(outcome.response, host.stringify).value, host.toText).Some?)
    ensures var st := Settle(request, outcome, host, clock);
      st.write.Some? ==>
        var content := Normalize(outcome.response, host.stringify).value;
        && st.appended == [Message(Assistant, content, clock.replyAt)]
        && st.write.value == WriteRequest(HistoryFileName(clock.dayStamp),
             LogEntry(clock.userStamp, request.prompt, clock.assistantStamp,
                      TemplateString(content, host.toText).value))
  {
  }

  /** Whenever something threw, the apology is the last message appended,
      and a second message before it can only be the normalized reply. */
  lemma SettleThrowEndsWithApology(request: ChatRequest, outcome: ChatOutcome, host: Host, clock: Clock)
    requires Settle(request, outcome, host, clock).write.None?
    ensures var st := Settle(request, outcome, host, clock);
      && st.appended[|st.appended| - 1] == Apology(clock.errorAt)
      && (|st.appended| == 2 ==>
            outcome.Replied? && Normalize(outcome.response, host.stringify).Some?
            && st.appended[0] == Message(Assistant, Normalize(outcome.response, host.stringify).value, clock.replyAt))
  {
  }

  /** A string reply is stored as it is. */
  lemma SettleStringReply(request: ChatRequest, reply: string, host: Host, clock: Clock)
    ensures Settle(request, Replied(Str(reply)), host, clock).appended[0] == Message(Assistant, Str(reply), clock.replyAt)
    ensures Settle(request, Replied(Str(reply)), host, clock).write.Some?
  {
  }

  /** An object without `message.content` that `JSON.stringify` turns into
      `undefined` is stored as `undefined` content and logged as "undefined". */
  lemma SettleUndefinedSerialization(request: ChatRequest, response: Value, host: Host, clock: Clock)
    requires response.Object? && !HasMessageContent(response) && host.stringify(response).NoJson?
    ensures Settle(request, Replied(response), host, clock) ==
      Settlement([Message(Assistant, Undefined, clock.replyAt)],
                 Some(WriteRequest(HistoryFileName(clock.dayStamp),
                   LogEntry(clock.userStamp, request.prompt, clock.assistantStamp, "undefined"))))
  {
    NormalizeOtherObject(response, host.stringify);
  }

  // ---------------------------------------------------------------------
  // A whole send

  /** A rejected send is a no-op. */
  lemma SendRejectedIsNoOp(s: SessionState, now: int, outcome: ChatOutcome, host: Host, clock: Clock)
    requires !CanSend(s)
    ensures Send(s, now, outcome, host, clock) == (s, None)
  {
  }

  /** Messages are only appended: the old ones stay, in place and in order. */
  lemma SendAppendOnly(s: SessionState, now: int, outcome: ChatOutcome, host: Host, clock: Clock)
    ensures s.messages <= Send(s, now, outcome, host, clock).0.messages
    ensures s.writes <= Send(s, now, outcome, host, clock).0.writes
  {
  }

  /** An accepted send adds the user message and then the assistant side,
      clears the input and ends with `loading` lowered. */
  lemma SendAccepted(s: SessionState, now: int, outcome: ChatOutcome, host: Host, clock: Clock)
    requires CanSend(s)
    ensures var (t, request) := Send(s, now, outcome, host, clock);
      && request == Some(ChatRequest(s.input, ModelName))
      && t.messages == s.messages + [UserMessage(s.input, now)] + Settle(request.value, outcome, host, clock).appended
      && t.writes == s.writes + WriteList(Settle(request.value, outcome, host, clock).write)
      && t.input == "" && !t.loading && t.providerReady == s.providerReady
  {
  }

  /** Without a throw an accepted send adds exactly two messages, user then
      assistant, and issues one write. */
  lemma SendSuccessAddsTwo(s: SessionState, now: int, outcome: ChatOutcome, host: Host, clock: Clock)
    requires CanSend(s)
    requires Settle(ChatRequest(s.input, ModelName), outcome, host, clock).write.Some?
    ensures var t := Send(s, now, outcome, host, clock).0;
      && |t.messages| == |s.messages| + 2
      && t.messages[|s.messages|] == UserMessage(s.input, now)
      && t.messages[|s.messages| + 1].role == Assistant
      && |t.writes| == |s.writes| + 1
  {
    SettleWritesIffNoThrow(ChatRequest(s.input, ModelName), outcome, host, clock);
  }

  /** The write of a successful single-line exchange records the day of its
      stamp in the file name, and its entry reads back as the untrimmed prompt
      under the user role and the reply's text under the assistant role. */
  lemma SendWriteReadsBack(s: SessionState, now: int, response: Value, host: Host, clock: Clock)
    requires CanSend(s)
    requires Settle(ChatRequest(s.input, ModelName), Replied(response), host, clock).write.Some?
    requires '\n' !in s.input && ']' !in clock.userStamp && ']' !in clock.assistantStamp
    requires '\n' !in clock.userStamp && '\n' !in clock.assistantStamp
    requires var text := TemplateString(Normalize(response, host.stringify).value, host.toText).value;
      '\n' !in text
    ensures var t := Send(s, now, Replied(response), host, clock).0;
      var w := t.writes[|t.writes| - 1];
      var text := TemplateString(Normalize(response, host.stringify).value, host.toText).value;
      && DayOfFileName(w.path) == Some(Before(clock.dayStamp, 'T'))
      && ParseLogEntry(w.content) == Some((LogRecord(clock.userStamp, User, s.input),
                                           LogRecord(clock.assistantStamp, Assistant, text)))
  {
    var request := ChatRequest(s.input, ModelName);
    SettleWritesIffNoThrow(request, Replied(response), host, clock);
    var text := TemplateString(Normalize(response, host.stringify).value, host.toText).value;
    DayOfHistoryFileName(clock.dayStamp);
    LogEntryRoundTrip(clock.userStamp, s.input, clock.assistantStamp, text);
  }

  // ---------------------------------------------------------------------
  // The controls and overlapping sends

  /** The button is enabled exactly when not loading and the input holds a
      character other than white space. */
  lemma SendButtonEnabledIff(s: SessionState)
    ensures SendButtonEnabled(s) <==> !s.loading && exists i :: 0 <= i < |s.input| && !IsJsSpace(s.input[i])
  {
    TrimNonEmptyIffVisible(s.input);
  }

  /** A click on the enabled button sends once the provider is present. */
  lemma EnabledButtonSends(s: SessionState, now: int)
    requires SendButtonEnabled(s) && s.providerReady
    ensures Begin(s, now).1.Some?
  {
  }

  /** Shift+Enter, and any other key, leaves everything as it is. */
  lemma OtherKeysDoNothing(s: SessionState, key: string, shift: bool, now: int)
    requires !IsSendKey(key, shift)
    ensures KeyDown(s, key, shift, now) == (s, None)
  {
  }

  /** Only the button looks at `loading`: while a send is in flight the
      button is disabled, yet Enter still starts another send. */
  lemma EnterSendsWhileLoading(s: SessionState, now: int)
    requires s.loading && CanSend(s)
    ensures !SendButtonEnabled(s)
    ensures KeyDown(s, "Enter", false, now).1.Some?
  {
  }

  /** A continuation keeps every message there is when it runs, puts an
      assistant message right after them, and lowers `loading`. */
  lemma FinishKeepsAndAppends(s: SessionState, request: ChatRequest, outcome: ChatOutcome, host: Host, clock: Clock)
    ensures var t := Finish(s, request, outcome, host, clock);
      && s.messages < t.messages
      && (forall i :: 0 <= i < |s.messages| ==> t.messages[i] == s.messages[i])
      && t.messages[|s.messages|].role == Assistant
      && !t.loading
  {
    var st := Settle(request, outcome, host, clock);
    SettleAppendsAssistantOnly(request, outcome, host, clock);
    assert st.appended[0] in st.appended;
  }

  /** Two overlapping sends: the second prompt lands before the first reply,
      and the first continuation to finish lowers `loading` although the
      second `chat` call is still pending. */
  lemma OverlappingSends(s: SessionState, second: string, t0: int, t1: int,
                         outcome: ChatOutcome, host: Host, clock: Clock)
    requires CanSend(s) && Trim(second) != ""
    ensures var first := Begin(s, t0);
      var next := Begin(first.0.(input := second), t1);
      var s3 := Finish(next.0, first.1.value, outcome, host, clock);
      && next.1 == Some(ChatRequest(second, ModelName))
      && |s3.messages| > |s.messages| + 2
      && s3.messages[|s.messages|] == UserMessage(s.input, t0)
      && s3.messages[|s.messages| + 1] == UserMessage(second, t1)
      && s3.messages[|s.messages| + 2].role == Assistant
      && !s3.loading
  {
    var first := Begin(s, t0);
    BeginAccepted(s, t0);
    var mid := first.0.(input := second);
    assert CanSend(mid);
    BeginAccepted(mid, t1);
    var next := Begin(mid, t1);
    var users := [UserMessage(s.input, t0), UserMessage(second, t1)];
    assert next.0.messages == s.messages + users;
    FinishKeepsAndAppends(next.0, first.1.value, outcome, host, clock);
    var s3 := Finish(next.0, first.1.value, outcome, host, clock);
    assert s3.messages[|s.messages|] == next.0.messages[|s.messages|] == users[0];
    assert s3.messages[|s.messages| + 1] == next.0.messages[|s.messages| + 1] == users[1];
  }
}
