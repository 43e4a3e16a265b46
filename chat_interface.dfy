/** The single-session chat page: the conversation so far, the text being
    typed, whether an answer is pending, and the session id sent with every
    question. A send runs in two steps, as the handler does around its
    `await`: the question goes out, then the answer (or the failure) comes back. */
module ChatInterface {
  import opened Wrappers
  import opened Strings
  import opened Forms
  import ChatActions

  datatype Turn = Turn(role: string, content: string)

  const NewPrefix := "new-"
  const Apology := "Lo siento, ocurri\U{00F3} un error al comunicarse con el coach. Por favor, intenta de nuevo."

  /** The guard of `handleSendMessage`. */
  predicate CanSend(input: string, isLoading: bool, sessionId: Option<string>) {
    Trim(input) != "" && !isLoading && Truthy(sessionId)
  }

  /** The turn a finished request adds: the answer, or the apology when `askCoach` threw. */
  function ReplyTurn(reply: Result<ChatActions.AskReply, string>): (t: Turn)
    ensures t.role == "assistant"
    ensures reply.Ok? ==> t.content == reply.value.response
    ensures reply.Err? ==> t.content == Apology
  {
    match reply
    case Ok(r) => Turn("assistant", r.response)
    case Err(_) => Turn("assistant", Apology)
  }

  /** The session id after a finished request: the saved id of a session the
      request created, else the one it was sent with. */
  function NextSessionId(current: Option<string>, reply: Result<ChatActions.AskReply, string>): (r: Option<string>)
    ensures reply.Ok? && Truthy(reply.value.newSessionId) ==> r == reply.value.newSessionId
    ensures !(reply.Ok? && Truthy(reply.value.newSessionId)) ==> r == current
  {
    if reply.Ok? && Truthy(reply.value.newSessionId) then reply.value.newSessionId else current
  }

  /** The id a page starts with is a new-session id, which the first answer
      replaces by the saved id without the prefix. */
  lemma NewSessionIdIsSaved(uuid: string)
    ensures StartsWith(NewPrefix + uuid, ChatActions.NewPrefix)
    ensures ChatActions.CurrentSessionId(NewPrefix + uuid) == uuid
    ensures Truthy(Some(NewPrefix + uuid))
  {
    assert (NewPrefix + uuid)[|ChatActions.NewPrefix|..] == uuid;
  }

  class ChatPage {
    var messages: seq<Turn>
    var input: string
    var isLoading: bool
    var sessionId: Option<string>
    /** The question of the request in flight, as the handler's closure holds it. */
    var asked: string

    constructor ()
      ensures messages == [] && input == "" && !isLoading && sessionId == None && asked == ""
    {
      messages := [];
      input := "";
      isLoading := false;
      sessionId := None;
      asked := "";
    }

    /** The text field's `onChange`. */
    method Type(text: string)
      modifies this
      ensures input == text
      ensures messages == old(messages) && isLoading == old(isLoading) && sessionId == old(sessionId) && asked == old(asked)
    {
      input := text;
    }

    /** The effect that gives a page without a session id a new-session id. */
    method InitSession(uuid: string)
      modifies this
      ensures sessionId == if Truthy(old(sessionId)) then old(sessionId) else Some(NewPrefix + uuid)
      ensures messages == old(messages) && input == old(input) && isLoading == old(isLoading) && asked == old(asked)
    {
      if !Truthy(sessionId) {
        sessionId := Some(NewPrefix + uuid);
      }
    }

    /** The part of `handleSendMessage` before the `await`: the question,
        untrimmed, is added to the conversation, the input is cleared, and
        `request` is the question and session id `askCoach` is called with. */
    method StartSend() returns (request: Option<(string, string)>)
      modifies this
      ensures !CanSend(old(input), old(isLoading), old(sessionId)) ==>
        request == None && messages == old(messages) && input == old(input) && isLoading == old(isLoading) && asked == old(asked)
      ensures CanSend(old(input), old(isLoading), old(sessionId)) ==>
        && request == Some((old(input), old(sessionId).value))
        && messages == old(messages) + [Turn("user", old(input))]
        && input == "" && isLoading && asked == old(input)
      ensures sessionId == old(sessionId)
    {
      if Trim(input) == "" || isLoading || !Truthy(sessionId) {
        return None;
      }
      messages := messages + [Turn("user", input)];
      asked := input;
      request := Some((input, sessionId.value));
      input := "";
      isLoading := true;
    }

    /** The part after the `await`, run for a request in flight: exactly one
        assistant turn is added, a created session's id is adopted, and the
        page stops waiting whichever way the request ended. */
    method FinishSend(reply: Result<ChatActions.AskReply, string>)
      requires isLoading
      modifies this
      ensures messages == old(messages) + [ReplyTurn(reply)]
      ensures sessionId == NextSessionId(old(sessionId), reply)
      ensures !isLoading
      ensures input == old(input)
    {
      if reply.Ok? {
        messages := messages + [Turn("assistant", reply.value.response)];
        if Truthy(reply.value.newSessionId) {
          sessionId := reply.value.newSessionId;
        }
      } else {
        messages := messages + [Turn("assistant", Apology)];
      }
      isLoading := false;
    }
  }
}
