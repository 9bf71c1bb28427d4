/**
  The session state of the older chat front end in
  deployment/streamlit_app.py: only the history and the agent session id.
  Its chat-input handler has no re-entrancy flag and no status box; a
  missing resource name stops the script after the user's message is shown.
 */
module ChatPage {
  import opened Basics
  import opened Events
  import opened EventReducer
  import opened AgentClient
  import opened Conversation

  /** The state after a chat input: an empty input does nothing. */
  function Submit(t: Turn, prompt: string, b: Backend): Turn {
    if prompt == "" then t else Exchange(t, prompt, b)
  }

  class ChatHistory {
    var messages: seq<Message>
    var sessionId: Option<string>

    function State(): Turn
      reads this
    {
      Turn(messages, sessionId)
    }

    constructor ()
      ensures State() == Turn([], None)
    {
      messages := [];
      sessionId := None;
    }

    /** "Clear Chat History" */
    method ClearHistory()
      modifies this
      ensures State() == Turn([], None)
    {
      messages := [];
      sessionId := None;
    }

    /** The chat-input handler. */
    method HandleChatInput(prompt: string, b: Backend)
      modifies this
      ensures State() == Submit(old(State()), prompt, b)
    {
      if prompt == "" {
        return;
      }
      messages := messages + [UserMessage(prompt)];
      if !Truthy(Lookup(b.env, ResourceVar)) {
        // st.stop(): the rest of the handler does not run
        return;
      }
      var result := QueryAgent(b.env, b.runtime, prompt, DefaultUserId, sessionId, b.show);
      if result.Failure? {
        return;
      }
      sessionId := Some(result.value.sessionId);
      var answer, citations := ExtractAnswer(result.value.events, Some(result.value.response));
      messages := messages + [AssistantMessage(answer, citations)];
    }
  }

  /** The session id is replaced by the query's on success and kept otherwise. */
  lemma SubmitSession(t: Turn, prompt: string, b: Backend)
    requires prompt != ""
    ensures var out := Ask(b, prompt, t.sessionId);
            Submit(t, prompt, b).sessionId == if out.Success? then Some(out.value.sessionId) else t.sessionId
  {
  }

  /** The user's message is recorded before the query, so it stays when the query fails. */
  lemma FailedQueryKeepsUserMessage(t: Turn, prompt: string, b: Backend)
    requires prompt != "" && Ask(b, prompt, t.sessionId).Failure?
    ensures Submit(t, prompt, b) == Turn(t.messages + [UserMessage(prompt)], t.sessionId)
  {
  }
}
