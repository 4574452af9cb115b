/**
 * The chat panel (frontend/src/components/AIAssistant.js): the message list
 * only ever grows, one send is in flight at a time, and the session id is
 * made up on first opening and then taken from the server's replies.
 */
module AIAssistant {
  import opened Common

  datatype Role = UserRole | AssistantRole

  datatype Message = Message(role: Role, content: string)

  /** The body of POST /ai/chat. */
  datatype ChatRequest = ChatRequest(message: string, sessionId: Option<string>)

  /** The reply of POST /ai/chat; its `session_id` may be missing. */
  datatype ChatReply = ChatReply(response: string, sessionId: Option<string>)

  const Fallback: string := "I'm having trouble connecting. Please try again."
  const NoResponse: string := "Failed to get response"

  /** JavaScript truthiness of the optional session id: missing and empty are both false. */
  predicate HasSessionId(id: Option<string>) {
    id.Some? && id.value != ""
  }

  /** The id the panel makes up on opening: "chat_" and the clock in milliseconds. */
  function LocalSessionId(now: nat): (id: string)
    ensures "chat_" <= id && |id| > 5
  {
    "chat_" + NatToString(now)
  }

  /** Two openings at different instants make different ids. */
  lemma {:induction false} LocalSessionIdsDiffer(a: nat, b: nat)
    requires a != b
    ensures LocalSessionId(a) != LocalSessionId(b)
  {
    if LocalSessionId(a) == LocalSessionId(b) {
      assert NatToString(a) == LocalSessionId(a)[5..];
      assert NatToString(b) == LocalSessionId(b)[5..];
      NatToStringInjective(a, b);
    }
  }

  /** The send guard, shared by the Enter key and the send button: nothing to send, or a reply still pending. */
  predicate SendDisabled(input: string, loading: bool) {
    Trim(input) == [] || loading
  }

  /** The guard refuses exactly the inputs made of white space only. */
  lemma SendDisabledIff(input: string, loading: bool)
    ensures SendDisabled(input, loading) <==> loading || AllSpace(input)
  {
    BlankIffAllSpace(input);
  }

  class ChatPanel {
    var isOpen: bool
    /** The conversation, oldest first. */
    var messages: seq<Message>
    var input: string
    var loading: bool
    var sessionId: Option<string>
    /** Every request sent, oldest first. */
    var requests: seq<ChatRequest>
    /** Every toast shown, oldest first. */
    var toasts: seq<Toast>

    constructor ()
      ensures !isOpen && messages == [] && input == "" && !loading && sessionId.None?
      ensures requests == [] && toasts == []
    {
      isOpen, messages, input, loading, sessionId := false, [], "", false, None;
      requests, toasts := [], [];
    }

    /**
     * The chat button and the close button set `isOpen`. The effect on
     * `isOpen` runs only when it changes: opening a closed panel without a
     * session id makes one up from the clock reading `now`.
     */
    method SetOpen(open: bool, now: nat)
      modifies this`isOpen, this`sessionId
      ensures isOpen == open
      ensures open && !old(isOpen) && !HasSessionId(old(sessionId)) ==> sessionId == Some(LocalSessionId(now))
      ensures !(open && !old(isOpen) && !HasSessionId(old(sessionId))) ==> sessionId == old(sessionId)
    {
      if open && !isOpen && !HasSessionId(sessionId) {
        sessionId := Some(LocalSessionId(now));
      }
      isOpen := open;
    }

    /** Typing in the message box. */
    method Type(text: string)
      modifies this`input
      ensures input == text
    {
      input := text;
    }

    /**
     * The first half of `handleSend`. When the guard refuses, nothing
     * changes; otherwise the input is cleared, the trimmed text is appended
     * as the user's message and sent with the current session id, and the
     * panel waits for the reply.
     */
    method BeginSend() returns (sent: bool)
      modifies this`input, this`messages, this`loading, this`requests
      ensures sent <==> !SendDisabled(old(input), old(loading))
      ensures !sent ==>
                && input == old(input) && messages == old(messages)
                && loading == old(loading) && requests == old(requests)
      ensures sent ==>
                && input == "" && loading
                && messages == old(messages) + [Message(UserRole, Trim(old(input)))]
                && requests == old(requests) + [ChatRequest(Trim(old(input)), sessionId)]
    {
      if SendDisabled(input, loading) {
        return false;
      }
      var userMessage := Trim(input);
      input := "";
      messages := messages + [Message(UserRole, userMessage)];
      loading := true;
      requests := requests + [ChatRequest(userMessage, sessionId)];
      return true;
    }

    /**
     * The second half of `handleSend`: the reply, or the fallback message and
     * one error toast when the request fails; the panel stops waiting either way.
     */
    method FinishSend(reply: Fetch<ChatReply>)
      requires loading
      modifies this`messages, this`loading, this`sessionId, this`toasts
      ensures !loading
      ensures reply.Fetched? ==>
                && messages == old(messages) + [Message(AssistantRole, reply.value.response)]
                && sessionId == reply.value.sessionId && toasts == old(toasts)
      ensures reply.FetchFailed? ==>
                && messages == old(messages) + [Message(AssistantRole, Fallback)]
                && sessionId == old(sessionId) && toasts == old(toasts) + [Error(NoResponse)]
    {
      if reply.Fetched? {
        messages := messages + [Message(AssistantRole, reply.value.response)];
        sessionId := reply.value.sessionId;
      } else {
        toasts := toasts + [Error(NoResponse)];
        messages := messages + [Message(AssistantRole, Fallback)];
      }
      loading := false;
    }
  }

  /** The user's message never starts or ends with white space. */
  lemma SentMessageTrimmed(input: string)
    requires !SendDisabled(input, false)
    ensures |Trim(input)| > 0
    ensures !IsSpace(Trim(input)[0]) && !IsSpace(Trim(input)[|Trim(input)| - 1])
  {
  }
}
