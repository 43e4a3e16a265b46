/** The multi-session chat page: the user's sessions, the active one, its
    messages, and whether an answer or the session list is loading. Calls to
    the server actions are given their outcome as a parameter; a send runs in
    two steps, the question going out and the answer coming back. `t` is the
    translation function of the current language. */
module MultiChat {
  import opened Wrappers
  import opened Strings
  import opened Seqs
  import opened Forms
  import ChatActions
  import opened ChatSidebar
  import ChatMessages

  type Message = ChatActions.ChatMessage

  const NewPrefix := "new-"
  const DeleteFailed := "No se pudo eliminar la conversaci\U{00F3}n"
  const ErrorLoadingSessionsKey := "chat.errorLoadingSessions"
  const ErrorLoadingKey := "chat.errorLoading"
  const GenericErrorKey := "chat.errors.generic"
  const ErrorSendingKey := "chat.errorSending"

  /** A listed session as the page holds it; listed sessions have no last message. */
  function ToSession(s: ChatActions.SessionSummary): ChatSession {
    ChatSession(s.id, s.title, s.timestamp, None)
  }

  /** The last message shown for a new session: the first 100 characters of
      the answer, with "..." when it is longer. */
  function Preview(answer: string): (r: string)
    ensures |answer| <= 100 ==> r == answer
    ensures |answer| > 100 ==> |r| == 103 && r[..100] == answer[..100] && r[100..] == "..."
  {
    Prefix(answer, 100) + (if |answer| > 100 then "..." else "")
  }

  /** The entry a new session gets once its first answer arrives. */
  function NewSessionEntry(id: string, content: string, answer: string, now: int): (s: ChatSession)
    ensures s.id == id && s.timestamp == now
    ensures s.title == ChatActions.SessionTitle(content)
    ensures s.lastMessage == Some(Preview(answer))
  {
    ChatSession(id, ChatActions.SessionTitle(content), now, Some(Preview(answer)))
  }

  /** The session list after a delete: every session with another id, in order. */
  function WithoutSession(sessions: seq<ChatSession>, id: string): (r: seq<ChatSession>)
    ensures forall i :: 0 <= i < |r| ==> r[i].id != id && r[i] in sessions
    ensures forall i :: 0 <= i < |sessions| && sessions[i].id != id ==> sessions[i] in r
    ensures IsSubsequence(r, sessions)
  {
    FilterIsSubsequence(sessions, (s: ChatSession) => s.id != id);
    Filter(sessions, (s: ChatSession) => s.id != id)
  }

  function UserMessage(content: string, now: int): Message {
    ChatActions.ChatMessage("msg-" + IntString(now) + "-user", Some("user"), content, now)
  }

  function AnswerMessage(content: string, now: int): Message {
    ChatActions.ChatMessage("msg-" + IntString(now) + "-assistant", Some("assistant"), content, now)
  }

  function FailureMessage(content: string, now: int): Message {
    ChatActions.ChatMessage("msg-" + IntString(now) + "-error", Some("assistant"), content, now)
  }

  /** What a finished request adds to the conversation: the answer, or the
      generic error text when `askCoach` threw; either way from the assistant. */
  function ReplyMessage(reply: Result<ChatActions.AskReply, string>, genericError: string, now: int): (m: Message)
    ensures m.role == Some("assistant") && m.timestamp == now
    ensures reply.Ok? ==> m.content == reply.value.response
    ensures reply.Err? ==> m.content == genericError
  {
    match reply
    case Ok(r) => AnswerMessage(r.response, now)
    case Err(_) => FailureMessage(genericError, now)
  }

  /** A question the composer lets through always passes the page's own
      guard, as the composer is disabled without an active session and
      while an answer is pending. */
  lemma ComposerSendPassesPageGuard(input: string, isLoading: bool, activeSessionId: Option<string>)
    requires ChatMessages.CanSend(input, isLoading, !Truthy(activeSessionId))
    ensures Truthy(activeSessionId) && !isLoading
    ensures Trim(input) != ""
  {
  }

  class ChatPage {
    const t: string -> string
    var sessions: seq<ChatSession>
    var activeSessionId: Option<string>
    var messages: seq<Message>
    var isLoading: bool
    var isLoadingSessions: bool
    var error: Option<string>
    /** The question and session id of the request in flight, as the
        handler's closure holds them. */
    var pending: (string, string)

    constructor (translate: string -> string)
      ensures t == translate
      ensures sessions == [] && activeSessionId == None && messages == []
      ensures !isLoading && isLoadingSessions && error == None
    {
      t := translate;
      sessions := [];
      activeSessionId := None;
      messages := [];
      isLoading := false;
      isLoadingSessions := true;
      error := None;
      pending := ("", "");
    }

    /** `handleNewChat`: a fresh new-session id is active and the conversation is empty. */
    method HandleNewChat(uuid: string)
      modifies this
      ensures activeSessionId == Some(NewPrefix + uuid) && messages == []
      ensures sessions == old(sessions) && isLoading == old(isLoading) && isLoadingSessions == old(isLoadingSessions)
      ensures error == old(error) && pending == old(pending)
    {
      activeSessionId := Some(NewPrefix + uuid);
      messages := [];
    }

    /** `handleSessionSelect` */
    method HandleSessionSelect(sessionId: string)
      modifies this
      ensures activeSessionId == Some(sessionId)
      ensures sessions == old(sessions) && messages == old(messages) && isLoading == old(isLoading)
      ensures isLoadingSessions == old(isLoadingSessions) && error == old(error) && pending == old(pending)
    {
      activeSessionId := Some(sessionId);
    }

    /** `loadMessages(sessionId)`: a new session has nothing to fetch and shows
        no messages; otherwise `fetched` is what `getChatMessages` gave, and a
        failure shows no messages and sets the error. `asked` says whether the
        server was called. */
    method LoadMessages(sessionId: string, fetched: Result<seq<Message>, string>) returns (asked: bool)
      modifies this
      ensures asked <==> !StartsWith(sessionId, NewPrefix)
      ensures !asked ==> messages == [] && error == old(error)
      ensures asked && fetched.Ok? ==> messages == fetched.value && error == old(error)
      ensures asked && fetched.Err? ==> messages == [] && error == Some(t(ErrorLoadingKey))
      ensures sessions == old(sessions) && activeSessionId == old(activeSessionId) && isLoading == old(isLoading)
      ensures isLoadingSessions == old(isLoadingSessions) && pending == old(pending)
    {
      if StartsWith(sessionId, NewPrefix) {
        messages := [];
        return false;
      }
      asked := true;
      match fetched
      case Ok(ms) =>
        messages := ms;
      case Err(_) =>
        error := Some(t(ErrorLoadingKey));
        messages := [];
    }

    /** The effect run when the active session changes: load its messages, or
        show none when no session is active. */
    method ActiveSessionChanged(fetched: Result<seq<Message>, string>) returns (asked: bool)
      modifies this
      ensures !Truthy(activeSessionId) ==> !asked && messages == [] && error == old(error)
      ensures Truthy(activeSessionId) ==> (asked <==> !StartsWith(activeSessionId.value, NewPrefix))
      ensures sessions == old(sessions) && activeSessionId == old(activeSessionId) && isLoading == old(isLoading)
      ensures isLoadingSessions == old(isLoadingSessions) && pending == old(pending)
    {
      if Truthy(activeSessionId) {
        asked := LoadMessages(activeSessionId.value, fetched);
      } else {
        messages := [];
        asked := false;
      }
    }

    /** `loadSessions`: `loaded` is what `getChatSessions` gave. With no active
        session, the first listed one becomes active, or a new chat starts when
        there is none; a failure sets the error and starts a new chat. */
    method LoadSessions(loaded: Result<seq<ChatActions.SessionSummary>, string>, uuid: string)
      modifies this
      ensures !isLoadingSessions
      ensures loaded.Ok? ==> sessions == Map(loaded.value, ToSession) && error == old(error)
      ensures loaded.Ok? && |loaded.value| > 0 && !Truthy(old(activeSessionId)) ==>
                activeSessionId == Some(loaded.value[0].id) && messages == old(messages)
      ensures loaded.Ok? && |loaded.value| == 0 && !Truthy(old(activeSessionId)) ==>
                activeSessionId == Some(NewPrefix + uuid) && messages == []
      ensures loaded.Ok? && Truthy(old(activeSessionId)) ==>
                activeSessionId == old(activeSessionId) && messages == old(messages)
      ensures loaded.Err? ==>
                && sessions == old(sessions) && error == Some(t(ErrorLoadingSessionsKey))
                && activeSessionId == Some(NewPrefix + uuid) && messages == []
      ensures isLoading == old(isLoading) && pending == old(pending)
    {
      isLoadingSessions := true;
      match loaded {
      case Ok(ls) =>
        sessions := Map(ls, ToSession);
        if |ls| > 0 && !Truthy(activeSessionId) {
          activeSessionId := Some(ls[0].id);
        } else if |ls| == 0 && !Truthy(activeSessionId) {
          HandleNewChat(uuid);
        }
      case Err(_) =>
        error := Some(t(ErrorLoadingSessionsKey));
        HandleNewChat(uuid);
      }
      isLoadingSessions := false;
    }

    /** The part of `handleSendMessage` before the `await`: without an active
        session or while an answer is pending nothing happens; otherwise the
        question is added to the conversation, the error is cleared, and
        `request` is what `askCoach` is called with. */
    method StartSend(content: string, now: int) returns (request: Option<(string, string)>)
      modifies this
      ensures !Truthy(old(activeSessionId)) || old(isLoading) ==>
                && request == None && messages == old(messages) && isLoading == old(isLoading)
                && error == old(error) && pending == old(pending)
      ensures Truthy(old(activeSessionId)) && !old(isLoading) ==>
                && request == Some((content, old(activeSessionId).value)) && pending == request.value
                && messages == old(messages) + [UserMessage(content, now)]
                && isLoading && error == None
      ensures sessions == old(sessions) && activeSessionId == old(activeSessionId)
      ensures isLoadingSessions == old(isLoadingSessions)
    {
      if !Truthy(activeSessionId) || isLoading {
        return None;
      }
      messages := messages + [UserMessage(content, now)];
      isLoading := true;
      error := None;
      pending := (content, activeSessionId.value);
      request := Some(pending);
    }

    /** The part after the `await`, run for a request in flight: exactly one
        assistant message is added; a request that created a session puts it
        first in the list and makes it active; a failure sets the error; the
        page stops waiting either way. */
    method FinishSend(reply: Result<ChatActions.AskReply, string>, now: int)
      requires isLoading
      modifies this
      ensures messages == old(messages) + [ReplyMessage(reply, t(GenericErrorKey), now)]
      ensures !isLoading
      ensures reply.Ok? && Truthy(reply.value.newSessionId) && StartsWith(pending.1, NewPrefix) ==>
                && sessions == [NewSessionEntry(reply.value.newSessionId.value, pending.0, reply.value.response, now)] + old(sessions)
                && activeSessionId == reply.value.newSessionId
      ensures !(reply.Ok? && Truthy(reply.value.newSessionId) && StartsWith(pending.1, NewPrefix)) ==>
                sessions == old(sessions) && activeSessionId == old(activeSessionId)
      ensures reply.Ok? ==> error == old(error)
      ensures reply.Err? ==> error == Some(t(ErrorSendingKey))
      ensures isLoadingSessions == old(isLoadingSessions) && pending == old(pending)
    {
      match reply {
      case Ok(r) =>
        messages := messages + [AnswerMessage(r.response, now)];
        if Truthy(r.newSessionId) && StartsWith(pending.1, NewPrefix) {
          var newSession := ChatSession(r.newSessionId.value, ChatActions.SessionTitle(pending.0), now, Some(Preview(r.response)));
          sessions := [newSession] + sessions;
          activeSessionId := r.newSessionId;
        }
      case Err(_) =>
        messages := messages + [FailureMessage(t(GenericErrorKey), now)];
        error := Some(t(ErrorSendingKey));
      }
      isLoading := false;
    }

    /** `handleDeleteSession(sessionId)`: `deleted` is how `deleteChatSession`
        ended. A delete drops the sessions with that id and, when it was the
        active one, leaves no session active and no messages; a failure only
        sets the error. */
    method HandleDeleteSession(sessionId: string, deleted: Result<bool, string>)
      modifies this
      ensures deleted.Ok? ==> sessions == WithoutSession(old(sessions), sessionId) && error == old(error)
      ensures deleted.Ok? && old(activeSessionId) == Some(sessionId) ==> activeSessionId == None && messages == []
      ensures deleted.Ok? && old(activeSessionId) != Some(sessionId) ==>
                activeSessionId == old(activeSessionId) && messages == old(messages)
      ensures deleted.Err? ==>
                && sessions == old(sessions) && activeSessionId == old(activeSessionId) && messages == old(messages)
                && error == Some(DeleteFailed)
      ensures isLoading == old(isLoading) && isLoadingSessions == old(isLoadingSessions) && pending == old(pending)
    {
      if deleted.Err? {
        error := Some(DeleteFailed);
        return;
      }
      sessions := Filter(sessions, (s: ChatSession) => s.id != sessionId);
      if activeSessionId == Some(sessionId) {
        activeSessionId := None;
        messages := [];
      }
    }
  }
}
