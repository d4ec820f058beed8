/**
 * The chat-session registry of the service, app/core/session_manager.py:
 * sessions keyed by id, each holding the ids of its chats. The fresh id
 * (a uuid4) and the creation time (an ISO timestamp) are parameters.
 */
module Sessions {
  import opened Wrappers

  datatype Session = Session(sessionId: string, createdAt: string, chats: seq<string>)

  predicate NoDuplicates(xs: seq<string>)
  {
    forall i, j :: 0 <= i < j < |xs| ==> xs[i] != xs[j]
  }

  /** The registry after `add_chat`: the chat is appended to a known session that does not hold it yet; nothing else changes. */
  function WithChat(sessions: map<string, Session>, sessionId: string, chatId: string): map<string, Session>
  {
    if sessionId in sessions && chatId !in sessions[sessionId].chats then
      sessions[sessionId := sessions[sessionId].(chats := sessions[sessionId].chats + [chatId])]
    else sessions
  }

  /** Adding the same chat twice is the same as adding it once. */
  lemma AddChatIdempotent(sessions: map<string, Session>, sessionId: string, chatId: string)
    ensures WithChat(WithChat(sessions, sessionId, chatId), sessionId, chatId) == WithChat(sessions, sessionId, chatId)
  {
  }

  /**
   * After `add_chat` on a known session, a chat id is among its chats exactly
   * when it was before or is the one added, the earlier chats keep their
   * order, and no chat id appears twice if none did.
   */
  lemma AddChatContents(sessions: map<string, Session>, sessionId: string, chatId: string)
    requires sessionId in sessions
    ensures var after := WithChat(sessions, sessionId, chatId);
      sessionId in after
      && (forall c :: c in after[sessionId].chats <==> c in sessions[sessionId].chats || c == chatId)
      && after[sessionId].chats[..|sessions[sessionId].chats|] == sessions[sessionId].chats
      && (NoDuplicates(sessions[sessionId].chats) ==> NoDuplicates(after[sessionId].chats))
  {
  }

  /** `add_chat` on an unknown session changes nothing, and it never touches another session. */
  lemma AddChatFrame(sessions: map<string, Session>, sessionId: string, chatId: string, other: string)
    ensures sessionId !in sessions ==> WithChat(sessions, sessionId, chatId) == sessions
    ensures other != sessionId && other in sessions ==>
      other in WithChat(sessions, sessionId, chatId) && WithChat(sessions, sessionId, chatId)[other] == sessions[other]
    ensures WithChat(sessions, sessionId, chatId).Keys == sessions.Keys
  {
  }

  class SessionManager {
    var sessions: map<string, Session>

    /** Every session is stored under its own id and lists each chat once. */
    predicate Valid()
      reads this
    {
      forall id :: id in sessions ==> sessions[id].sessionId == id && NoDuplicates(sessions[id].chats)
    }

    constructor()
      ensures Valid()
      ensures sessions == map[]
    {
      sessions := map[];
    }

    /** `create_session`: stores an empty session under the fresh id `sessionId` and returns it. */
    method CreateSession(sessionId: string, createdAt: string) returns (id: string)
      requires Valid()
      modifies this
      ensures Valid()
      ensures id == sessionId
      ensures sessions == old(sessions)[sessionId := Session(sessionId, createdAt, [])]
    {
      sessions := sessions[sessionId := Session(sessionId, createdAt, [])];
      id := sessionId;
    }

    /** `get_session`: the session, or `None` where the lookup raises for an unknown id. */
    method GetSession(sessionId: string) returns (s: Option<Session>)
      requires Valid()
      ensures sessionId in sessions ==> s == Some(sessions[sessionId]) && s.value.sessionId == sessionId
      ensures sessionId !in sessions ==> s.None?
    {
      if sessionId in sessions {
        s := Some(sessions[sessionId]);
      } else {
        s := None;
      }
    }

    /** `add_chat`: appends the chat to a known session unless it is already there. */
    method AddChat(sessionId: string, chatId: string)
      requires Valid()
      modifies this
      ensures Valid()
      ensures sessions == WithChat(old(sessions), sessionId, chatId)
    {
      if sessionId in sessions {
        if chatId !in sessions[sessionId].chats {
          AddChatContents(sessions, sessionId, chatId);
          sessions := sessions[sessionId := sessions[sessionId].(chats := sessions[sessionId].chats + [chatId])];
        }
      }
    }
  }
}
