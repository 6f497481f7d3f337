/**
  The chat page of the browser client (`Home`): the list of sessions shown in
  the sidebar, the active session and the messages on screen, and the three
  handlers that change them.  Sending a message is one atomic step (the
  one-second delay before the canned assistant answer is not modelled); the
  `Date.now()` identifiers and the creation time are passed in.
*/
module ChatView {

  import opened Wrappers
  import opened Seqs

  datatype Mode = Chat | Code

  datatype Role = UserRole | AssistantRole

  datatype Message = Message(id: string, role: Role, content: string)

  datatype ChatSession = ChatSession(id: string, title: string, mode: Mode, createdAt: nat, messages: seq<Message>)

  /** Titles keep this many characters of the first message. */
  const TitleLength := 50
  const Ellipsis := "..."

  const ChatReply :=
    "I'm a chat assistant powered by llama-3.3-70b-versatile. In the full application, I'll provide natural, factual, context-aware conversations. This is currently a design prototype."
  const CodeReply :=
    "I'm a code assistant powered by llama-4-maverick. In the full application, I'll help you write, debug, and explain code. This is currently a design prototype.\n\n```javascript\nfunction example() {\n  console.log('Hello, World!');\n}\n```"

  /** The canned assistant answer for the current mode. */
  function PrototypeReply(mode: Mode): (r: string)
    ensures r == ChatReply <==> mode == Chat
    ensures r == CodeReply <==> mode == Code
  {
    assert |ChatReply| != |CodeReply|;
    match mode
    case Chat => ChatReply
    case Code => CodeReply
  }

  /**
    The title of a new session: the content itself when it has at most 50
    characters, otherwise its first 50 characters followed by "...".
  */
  function SessionTitle(content: string): (title: string)
    ensures |title| <= TitleLength + |Ellipsis|
    ensures |content| <= TitleLength ==> title == content
    ensures |content| > TitleLength ==> |title| == TitleLength + |Ellipsis| && title[TitleLength..] == Ellipsis
    ensures var kept := if |content| <= TitleLength then |content| else TitleLength;
            kept <= |title| && title[..kept] == content[..kept]
  {
    var kept := if |content| <= TitleLength then content else content[..TitleLength];
    kept + (if |content| > TitleLength then Ellipsis else "")
  }

  function HasId(id: string): ChatSession -> bool {
    (s: ChatSession) => s.id == id
  }

  /** The first session with identifier `id` (`sessions.find`). */
  function FindSession(sessions: seq<ChatSession>, id: string): (r: Option<ChatSession>)
    ensures r.None? <==> forall s :: s in sessions ==> s.id != id
    ensures r.Some? ==> exists i :: 0 <= i < |sessions| && sessions[i] == r.value && r.value.id == id
                                    && forall j :: 0 <= j < i ==> sessions[j].id != id
  {
    Find(sessions, HasId(id))
  }

  /** `sessions.map(...)`: appends `extra` to the messages of every session with identifier `id`. */
  function AppendToSession(sessions: seq<ChatSession>, id: string, extra: seq<Message>): (r: seq<ChatSession>)
    ensures |r| == |sessions|
    ensures forall i :: 0 <= i < |r| ==> r[i] == sessions[i].(messages := r[i].messages)
    ensures forall i :: 0 <= i < |r| ==>
      r[i].messages == if sessions[i].id == id then sessions[i].messages + extra else sessions[i].messages
  {
    seq(|sessions|, i requires 0 <= i < |sessions| =>
      if sessions[i].id == id then sessions[i].(messages := sessions[i].messages + extra) else sessions[i])
  }

  /**
    After appending to session `id`, looking `id` up finds the same session
    with the extra messages, and every other identifier finds what it found
    before.
  */
  lemma FindAfterAppend(sessions: seq<ChatSession>, id: string, extra: seq<Message>, other: string)
    ensures var r := AppendToSession(sessions, id, extra);
      && (FindSession(sessions, id).Some? ==>
            FindSession(r, id) == Some(FindSession(sessions, id).value.(messages := FindSession(sessions, id).value.messages + extra)))
      && (FindSession(sessions, id).None? ==> FindSession(r, id).None?)
      && (other != id ==> FindSession(r, other) == FindSession(sessions, other))
  {
    var r := AppendToSession(sessions, id, extra);
    FirstIndexPointwise(r, sessions, HasId(id));
    FirstIndexPointwise(r, sessions, HasId(other));
  }

  /**
    The messages on screen are those of the active session (none when no
    session is active), and every session has a non-empty identifier.
  */
  ghost predicate InSync(sessions: seq<ChatSession>, activeSessionId: Option<string>, messages: seq<Message>) {
    && (forall s :: s in sessions ==> s.id != "")
    && (activeSessionId.None? ==> messages == [])
    && (activeSessionId.Some? ==>
          FindSession(sessions, activeSessionId.value).Some? &&
          FindSession(sessions, activeSessionId.value).value.messages == messages)
  }

  /** A new session put at the front and made active is in sync with its own messages. */
  lemma NewSessionInSync(sessions: seq<ChatSession>, newSession: ChatSession)
    requires forall s :: s in sessions ==> s.id != ""
    requires newSession.id != ""
    ensures InSync([newSession] + sessions, Some(newSession.id), newSession.messages)
  {
    assert FindSession([newSession] + sessions, newSession.id) == Some(newSession);
  }

  /** Appending the same messages to the active session and to the screen keeps them in sync. */
  lemma AppendInSync(sessions: seq<ChatSession>, id: string, messages: seq<Message>, extra: seq<Message>)
    requires InSync(sessions, Some(id), messages)
    ensures InSync(AppendToSession(sessions, id, extra), Some(id), messages + extra)
  {
    var r := AppendToSession(sessions, id, extra);
    FindAfterAppend(sessions, id, extra, id);
    forall s | s in r ensures s.id != "" {
      var i :| 0 <= i < |r| && r[i] == s;
      assert sessions[i] in sessions;
    }
  }

  class Home {
    var mode: Mode
    var sessions: seq<ChatSession>
    var activeSessionId: Option<string>
    var messages: seq<Message>

    ghost predicate Synced()
      reads this
    {
      InSync(sessions, activeSessionId, messages)
    }

    /** `activeSessionId` is truthy. */
    predicate HasActiveSession()
      reads this
      ensures HasActiveSession() ==> activeSessionId.Some? && |activeSessionId.value| > 0
      ensures activeSessionId.None? ==> !HasActiveSession()
    {
      activeSessionId.Some? && activeSessionId.value != ""
    }

    constructor ()
      ensures Synced()
      ensures mode == Chat && sessions == [] && activeSessionId == None && messages == []
    {
      mode := Chat;
      sessions := [];
      activeSessionId := None;
      messages := [];
    }

    /** `handleNewChat`: clears the screen and the active session; the session list stays. */
    method HandleNewChat()
      requires Synced()
      modifies this
      ensures Synced()
      ensures messages == [] && activeSessionId == None
      ensures sessions == old(sessions) && mode == old(mode)
    {
      messages := [];
      activeSessionId := None;
    }

    /**
      `handleSessionClick`: an unknown id changes nothing; a known one becomes
      active and brings its messages and mode on screen.
    */
    method HandleSessionClick(id: string)
      requires Synced()
      modifies this
      ensures Synced()
      ensures sessions == old(sessions)
      ensures FindSession(sessions, id).None? ==>
        activeSessionId == old(activeSessionId) && messages == old(messages) && mode == old(mode)
      ensures FindSession(sessions, id).Some? ==>
        && activeSessionId == Some(id)
        && messages == FindSession(sessions, id).value.messages
        && mode == FindSession(sessions, id).value.mode
    {
      var session := FindSession(sessions, id);
      if session.Some? {
        activeSessionId := Some(id);
        messages := session.value.messages;
        mode := session.value.mode;
      }
    }

    /**
      `handleSendMessage`: the user message and then the assistant answer are
      added to the screen.  Without an active session a new session holding
      exactly those two messages is put at the front of the list and made
      active; otherwise both are appended to the active session only.
    */
    method HandleSendMessage(content: string, userMessageId: string, assistantMessageId: string,
                             newSessionId: string, now: nat)
      requires Synced()
      requires newSessionId != ""
      modifies this
      ensures Synced()
      ensures mode == old(mode)
      ensures var userMessage := Message(userMessageId, UserRole, content);
              var assistantMessage := Message(assistantMessageId, AssistantRole, PrototypeReply(old(mode)));
        && messages == old(messages) + [userMessage, assistantMessage]
        && (!old(HasActiveSession()) ==>
              && sessions == [ChatSession(newSessionId, SessionTitle(content), old(mode), now, [userMessage, assistantMessage])]
                             + old(sessions)
              && activeSessionId == Some(newSessionId))
        && (old(HasActiveSession()) ==>
              && sessions == AppendToSession(old(sessions), old(activeSessionId).value, [userMessage, assistantMessage])
              && activeSessionId == old(activeSessionId))
    {
      var userMessage := Message(userMessageId, UserRole, content);
      messages := messages + [userMessage];

      var assistantMessage := Message(assistantMessageId, AssistantRole, PrototypeReply(mode));
      messages := messages + [assistantMessage];

      if !HasActiveSession() {
        var newSession := ChatSession(newSessionId, SessionTitle(content), mode, now, [userMessage, assistantMessage]);
        NewSessionInSync(sessions, newSession);
        sessions := [newSession] + sessions;
        activeSessionId := Some(newSession.id);
      } else {
        AppendInSync(sessions, activeSessionId.value, old(messages), [userMessage, assistantMessage]);
        sessions := AppendToSession(sessions, activeSessionId.value, [userMessage, assistantMessage]);
      }
    }
  }
}
