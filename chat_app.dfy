/**
  The session state of the chat front end in deployment/st_app.py: the
  history, the agent session id, the re-entrancy flag and the prompt a
  quick-prompt button leaves for the next run. `send_prompt` guards against
  an empty prompt and a send in progress, raises the flag for the duration
  of the send, counts the tool calls for the status box, reduces the events
  and appends the reply.
 */
module ChatApp {
  import opened Basics
  import opened Events
  import opened EventReducer
  import opened ToolActivity
  import opened AgentClient
  import opened Conversation

  /** The quick-prompt buttons, in page order. */
  const QuickPrompts: seq<string> := [
    "Tell me about Mohit",
    "What are Mohit's technical skills?",
    "Where did Mohit go to school?",
    "What projects does Mohit have?",
    "List my articles",
    "Summarize the hackathon article"
  ]

  datatype ChatState = ChatState(messages: seq<Message>, sessionId: Option<string>, isSending: bool, pendingPrompt: Option<string>)

  /** The state after `send_prompt(prompt)`. */
  function Send(s: ChatState, prompt: string, b: Backend): ChatState {
    if prompt == "" || s.isSending then s
    else
      var t := Exchange(Turn(s.messages, s.sessionId), prompt, b);
      s.(messages := t.messages, sessionId := t.sessionId)
  }

  /** The state after the input orchestration: a truthy pending prompt is cleared, then sent. */
  function RunPending(s: ChatState, b: Backend): ChatState {
    if Truthy(s.pendingPrompt) then Send(s.(pendingPrompt := None), s.pendingPrompt.value, b) else s
  }

  /** The state after "Clear Chat History". */
  function Clear(s: ChatState): ChatState {
    s.(messages := [], sessionId := None)
  }

  class ChatSession {
    var messages: seq<Message>
    var sessionId: Option<string>
    var isSending: bool
    var pendingPrompt: Option<string>

    function State(): ChatState
      reads this
    {
      ChatState(messages, sessionId, isSending, pendingPrompt)
    }

    /** The first run's initialisation of the session state. */
    constructor ()
      ensures State() == ChatState([], None, false, None)
    {
      messages := [];
      sessionId := None;
      isSending := false;
      pendingPrompt := None;
    }

    /** A quick-prompt button: its prompt waits for the input orchestration. */
    method PickQuickPrompt(i: nat)
      requires i < |QuickPrompts|
      modifies this
      ensures State() == old(State()).(pendingPrompt := Some(QuickPrompts[i]))
    {
      pendingPrompt := Some(QuickPrompts[i]);
    }

    method ClearHistory()
      modifies this
      ensures State() == Clear(old(State()))
    {
      messages := [];
      sessionId := None;
    }

    /**
      `send_prompt`. The status label shown once the query returned is
      given back; none when the send stopped before that.
     */
    method SendPrompt(prompt: string, b: Backend) returns (status: Option<string>)
      modifies this
      ensures State() == Send(old(State()), prompt, b)
      ensures status.Some? <==> prompt != "" && !old(isSending) && Ask(b, prompt, old(sessionId)).Success?
      ensures status.Some? ==> status.value == StatusLabel(|ToolCalls(Ask(b, prompt, old(sessionId)).value.events)|)
    {
      if prompt == "" || isSending {
        return None;
      }
      isSending := true;
      messages := messages + [UserMessage(prompt)];
      if !Truthy(Lookup(b.env, ResourceVar)) {
        isSending := false;
        return None;
      }
      var result := QueryAgent(b.env, b.runtime, prompt, DefaultUserId, sessionId, b.show);
      assert result == Ask(b, prompt, old(sessionId));
      if result.Failure? {
        // the exception handler shows the error; `finally` lowers the flag
        isSending := false;
        return None;
      }
      sessionId := Some(result.value.sessionId);
      var toolCount := CountToolCalls(result.value.events);
      status := Some(StatusLabel(toolCount));
      var answer, citations := ExtractAnswer(result.value.events, Some(result.value.response));
      messages := messages + [AssistantMessage(answer, citations)];
      isSending := false;
      assert messages == old(messages) + [UserMessage(prompt), Reply(result.value)];
    }

    /** The input orchestration: a pending prompt is cleared before it is sent. */
    method ProcessPending(b: Backend)
      modifies this
      ensures State() == RunPending(old(State()), b)
    {
      var pending := pendingPrompt;
      if Truthy(pending) {
        pendingPrompt := None;
        var _ := SendPrompt(pending.value, b);
      }
    }
  }

  // ---------------------------------------------------------------------
  // Properties
  // ---------------------------------------------------------------------

  /** An empty prompt, or a send already in progress, leaves the state exactly as it was. */
  lemma GuardedSendIsNoOp(s: ChatState, prompt: string, b: Backend)
    requires prompt == "" || s.isSending
    ensures Send(s, prompt, b) == s
  {
  }

  /** The flag is down after every send that got past the guard, whatever happened to the query. */
  lemma SendLowersFlag(s: ChatState, prompt: string, b: Backend)
    requires !s.isSending
    ensures !Send(s, prompt, b).isSending
    ensures Send(s, prompt, b).pendingPrompt == s.pendingPrompt
  {
  }

  /**
    A successful send appends exactly the user's message and then the
    assistant's, and adopts the session id the query returned.
   */
  lemma SuccessfulSend(s: ChatState, prompt: string, b: Backend)
    requires prompt != "" && !s.isSending && Ask(b, prompt, s.sessionId).Success?
    ensures var r := Ask(b, prompt, s.sessionId).value;
            var s' := Send(s, prompt, b);
            s'.messages == s.messages + [UserMessage(prompt),
                                         AssistantMessage(Answer(r.events, Some(r.response)), CitationsOf(r.events))]
            && s'.sessionId == Some(r.sessionId)
  {
  }

  /** A pending prompt is sent once: running the orchestration again does nothing more. */
  lemma PendingSentOnce(s: ChatState, b: Backend)
    ensures RunPending(RunPending(s, b), b) == RunPending(s, b)
  {
    if Truthy(s.pendingPrompt) {
      var s1 := s.(pendingPrompt := None);
      assert Send(s1, s.pendingPrompt.value, b).pendingPrompt == None;
    }
  }

  /** Clearing keeps the flag and the pending prompt, and a cleared history stays cleared. */
  lemma ClearResets(s: ChatState)
    ensures Clear(s).messages == [] && Clear(s).sessionId == None
    ensures Clear(s).isSending == s.isSending && Clear(s).pendingPrompt == s.pendingPrompt
    ensures Clear(Clear(s)) == Clear(s)
  {
  }
}
