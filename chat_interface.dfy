/** The chat component's state and handlers. Each field is one piece of the
    component's React state; each handler updates them step by step and is
    proved to produce the state the `Session` functions describe. */
module ChatComponent {
  import opened Options
  import opened JsValues
  import opened JsStrings
  import opened Messages
  import opened ResponseNormalizer
  import opened Transcript
  import opened Session

  class ChatInterface {
    var messages: seq<Message>
    var input: string
    /** Whether the provider object has been found (set by the readiness poll). */
    var providerReady: bool
    var loading: bool
    /** The transcript writes issued so far, in order. */
    var writes: seq<WriteRequest>

    /** A snapshot of the component's state. */
    function State(): SessionState
      reads this
    {
      SessionState(messages, input, providerReady, loading, writes)
    }

    /** The initial state: no messages, empty input, no provider, not loading. */
    constructor ()
      ensures State() == Initial
    {
      messages, input, providerReady, loading, writes := [], "", false, false, [];
    }

    /** The readiness poll found the provider. */
    method ProviderFound()
      modifies this
      ensures State() == old(State()).(providerReady := true)
    {
      providerReady := true;
    }

    /** The text area's change handler. */
    method SetInput(text: string)
      modifies this
      ensures State() == old(State()).(input := text)
    {
      input := text;
    }

    /** `handleSend` up to the awaited `chat` call; returns the call made. */
    method BeginSend(now: int) returns (request: Option<ChatRequest>)
      modifies this
      ensures (State(), request) == Begin(old(State()), now)
    {
      if Trim(input) == "" || !providerReady {
        return None;
      }
      var userMsg := Message(User, Str(input), now);
      messages := messages + [userMsg];
      request := Some(ChatRequest(input, ModelName));
      input := "";
      loading := true;
    }

    /** `handleSend` after the `chat` call for `request` has settled. */
    method FinishSend(request: ChatRequest, outcome: ChatOutcome, host: Host, clock: Clock)
      modifies this
      ensures State() == Finish(old(State()), request, outcome, host, clock)
    {
      match outcome {
        case Threw =>
          messages := messages + [Apology(clock.errorAt)];
        case Replied(response) =>
          var content := Normalize(response, host.stringify);
          if content.None? {
            messages := messages + [Apology(clock.errorAt)];
          } else {
            var aiMsg := Message(Assistant, content.value, clock.replyAt);
            messages := messages + [aiMsg];
            var path := HistoryFileName(clock.dayStamp);
            var text := TemplateString(content.value, host.toText);
            if text.None? {
              messages := messages + [Apology(clock.errorAt)];
            } else {
              var entry := LogEntry(clock.userStamp, request.prompt, clock.assistantStamp, text.value);
              writes := writes + [WriteRequest(path, entry)];
            }
          }
      }
      loading := false;
    }

    /** A whole `handleSend` whose `chat` call settles with nothing else
        happening in between. */
    method HandleSend(now: int, outcome: ChatOutcome, host: Host, clock: Clock) returns (request: Option<ChatRequest>)
      modifies this
      ensures (State(), request) == Send(old(State()), now, outcome, host, clock)
    {
      request := BeginSend(now);
      if request.Some? {
        FinishSend(request.value, outcome, host, clock);
      }
    }

    /** `handleKeyDown`: Enter without Shift starts a send, which it does not
        await. */
    method HandleKeyDown(key: string, shift: bool, now: int) returns (request: Option<ChatRequest>)
      modifies this
      ensures (State(), request) == KeyDown(old(State()), key, shift, now)
    {
      if key == "Enter" && !shift {
        request := BeginSend(now);
      } else {
        request := None;
      }
    }
  }
}
