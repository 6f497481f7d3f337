/**
  The in-memory storage backend of the chat server (`MemStorage`), the API-key
  table the authentication middleware reads and updates, and the choice of
  backend made at start-up (`createStorage`).

  Each table is kept as a sequence in insertion order, which is the order in
  which a JavaScript `Map` yields its values.  Identifiers come from one
  counter shared by all tables (standing for `randomUUID`), and every creation
  time is the reading `now` of the clock, passed in by the caller.
*/
module Storage {

  import opened Wrappers
  import opened Seqs

  type Id = nat

  datatype Mode = Chat | Code

  datatype Role = UserRole | AssistantRole

  datatype ChatSession = ChatSession(
    id: Id,
    userId: Option<Id>,
    anonymousSessionId: Option<string>,
    title: string,
    mode: Mode,
    createdAt: nat)

  datatype Message = Message(id: Id, sessionId: Id, role: Role, content: string, createdAt: nat)

  datatype User = User(id: Id, email: string, passwordHash: string, isVerified: bool, createdAt: nat)

  datatype EmailVerification = EmailVerification(
    id: Id,
    userId: Id,
    otpHash: string,
    expiresAt: nat,
    isUsed: bool,
    createdAt: nat)

  datatype ApiKey = ApiKey(
    id: Id,
    userId: Id,
    name: string,
    keyHash: string,
    keyPrefix: string,
    lastUsedAt: Option<nat>,
    createdAt: nat)

  function SessionKey(s: ChatSession): nat { s.id }
  function MessageKey(m: Message): nat { m.id }
  function UserKey(u: User): nat { u.id }
  function VerificationKey(v: EmailVerification): nat { v.id }

  /** The filter of `getMessages(sessionId)`. */
  function InSession(sessionId: Id): Message -> bool {
    (m: Message) => m.sessionId == sessionId
  }

  /** The search of `getUserByEmail(email)`. */
  function HasEmail(email: string): User -> bool {
    (u: User) => u.email == email
  }

  /** The sort key of `getMessages`: oldest first. */
  function MessageTime(m: Message): int {
    m.createdAt
  }

  /** The sort key of `getAllChatSessions`: newest first. */
  function SessionRecency(s: ChatSession): int {
    -(s.createdAt as int)
  }

  /** The sort key of `findEmailVerification`: newest first. */
  function VerificationRecency(v: EmailVerification): int {
    -(v.createdAt as int)
  }

  /** The user table after `markUserVerified(id)`: only `isVerified` of the user `id` changes, to true. */
  function WithUserVerified(users: seq<User>, id: Id): (r: seq<User>)
    ensures |r| == |users|
    ensures forall i :: 0 <= i < |r| ==> r[i] == users[i].(isVerified := r[i].isVerified)
    ensures forall i :: 0 <= i < |r| ==> r[i].isVerified == (users[i].isVerified || users[i].id == id)
  {
    seq(|users|, i requires 0 <= i < |users| =>
      if users[i].id == id then users[i].(isVerified := true) else users[i])
  }

  /** Marking a user verified twice is the same as marking it once; an unknown id changes nothing. */
  lemma MarkUserVerifiedIdempotent(users: seq<User>, id: Id)
    ensures WithUserVerified(WithUserVerified(users, id), id) == WithUserVerified(users, id)
    ensures (forall u :: u in users ==> u.id != id) ==> WithUserVerified(users, id) == users
  {
    var once := WithUserVerified(users, id);
    assert forall i :: 0 <= i < |once| ==> once[i].id == users[i].id;
    if forall u :: u in users ==> u.id != id {
      assert forall i :: 0 <= i < |users| ==> users[i].id != id;
    }
  }

  /**
    Marking the last-created user verified, when no older user shares its id
    or email, leaves it the first user found under its email.
  */
  lemma VerifyNewestUser(before: seq<User>, user: User)
    requires forall u :: u in before ==> u.id != user.id
    requires Find(before, HasEmail(user.email)).None?
    ensures WithUserVerified(before + [user], user.id) == before + [user.(isVerified := true)]
    ensures Find(before + [user.(isVerified := true)], HasEmail(user.email)) == Some(user.(isVerified := true))
  {
    var after := WithUserVerified(before + [user], user.id);
    forall i | 0 <= i < |before| ensures after[i] == before[i] {
      assert before[i] in before;
    }
    FirstIndexAppend(before, user.(isVerified := true), HasEmail(user.email));
  }

  /** The verification table after `markVerificationUsed(id)`: only `isUsed` of the verification `id` changes, to true. */
  function WithVerificationUsed(vs: seq<EmailVerification>, id: Id): (r: seq<EmailVerification>)
    ensures |r| == |vs|
    ensures forall i :: 0 <= i < |r| ==> r[i] == vs[i].(isUsed := r[i].isUsed)
    ensures forall i :: 0 <= i < |r| ==> r[i].isUsed == (vs[i].isUsed || vs[i].id == id)
  {
    seq(|vs|, i requires 0 <= i < |vs| =>
      if vs[i].id == id then vs[i].(isUsed := true) else vs[i])
  }

  /** Marking a verification used twice is the same as marking it once; an unknown id changes nothing. */
  lemma MarkVerificationUsedIdempotent(vs: seq<EmailVerification>, id: Id)
    ensures WithVerificationUsed(WithVerificationUsed(vs, id), id) == WithVerificationUsed(vs, id)
    ensures (forall v :: v in vs ==> v.id != id) ==> WithVerificationUsed(vs, id) == vs
  {
    var once := WithVerificationUsed(vs, id);
    assert forall i :: 0 <= i < |once| ==> once[i].id == vs[i].id;
    if forall v :: v in vs ==> v.id != id {
      assert forall i :: 0 <= i < |vs| ==> vs[i].id != id;
    }
  }

  /** Appending `message` to the message table adds it to its own session's list and to no other. */
  lemma MessageListsAfterAppend(before: seq<Message>, message: Message)
    ensures multiset(Filter(before + [message], InSession(message.sessionId)))
         == multiset(Filter(before, InSession(message.sessionId))) + multiset{message}
    ensures forall s :: s != message.sessionId ==> Filter(before + [message], InSession(s)) == Filter(before, InSession(s))
  {
    FilterAppend(before, [message], InSession(message.sessionId));
    assert Filter([message], InSession(message.sessionId)) == [message];
    forall s | s != message.sessionId
      ensures Filter(before + [message], InSession(s)) == Filter(before, InSession(s))
    {
      FilterAppend(before, [message], InSession(s));
      assert Filter([message], InSession(s)) == [];
    }
  }

  class MemStorage {
    var chatSessions: seq<ChatSession>
    var messages: seq<Message>
    var users: seq<User>
    var emailVerifications: seq<EmailVerification>
    /** The next identifier to hand out; every stored identifier is smaller. */
    var nextId: Id

    /** Each table is keyed: its identifiers are distinct and were all handed out already. */
    ghost predicate Valid()
      reads this
    {
      && UniqueKeysBelow(chatSessions, SessionKey, nextId)
      && UniqueKeysBelow(messages, MessageKey, nextId)
      && UniqueKeysBelow(users, UserKey, nextId)
      && UniqueKeysBelow(emailVerifications, VerificationKey, nextId)
    }

    constructor ()
      ensures Valid()
      ensures chatSessions == [] && messages == [] && users == [] && emailVerifications == []
    {
      chatSessions, messages, users, emailVerifications := [], [], [], [];
      nextId := 0;
    }

    /** `getChatSession`: the stored session with identifier `id`, if any. */
    function GetChatSession(id: Id): (r: Option<ChatSession>)
      reads this
      ensures r.Some? ==> r.value in chatSessions && r.value.id == id
      ensures r.None? <==> forall s :: s in chatSessions ==> s.id != id
    {
      Find(chatSessions, (s: ChatSession) => s.id == id)
    }

    /**
      `getAllChatSessions`: with a user id, exactly that user's sessions; with
      none, every session; newest first.
    */
    function GetAllChatSessions(userId: Option<Id>): (r: seq<ChatSession>)
      reads this
      ensures forall s :: multiset(r)[s] == if userId.None? || s.userId == userId then multiset(chatSessions)[s] else 0
      ensures forall i, j :: 0 <= i < j < |r| ==> r[i].createdAt >= r[j].createdAt
    {
      var selected := if userId.Some? then Filter(chatSessions, (s: ChatSession) => s.userId == userId) else chatSessions;
      var r := SortBy(selected, SessionRecency);
      assert forall i, j :: 0 <= i < j < |r| ==> SessionRecency(r[i]) <= SessionRecency(r[j]);
      r
    }

    /** `getMessages`: exactly the messages of session `sessionId`, oldest first. */
    function GetMessages(sessionId: Id): (r: seq<Message>)
      reads this
      ensures forall m :: multiset(r)[m] == if m.sessionId == sessionId then multiset(messages)[m] else 0
      ensures forall i, j :: 0 <= i < j < |r| ==> r[i].createdAt <= r[j].createdAt
    {
      SortBy(Filter(messages, InSession(sessionId)), MessageTime)
    }

    /**
      When the clock never went backwards, the messages of a session come back
      in the order they were created.
    */
    lemma MessagesInCreationOrder(sessionId: Id)
      requires forall i, j :: 0 <= i < j < |messages| ==> messages[i].createdAt <= messages[j].createdAt
      ensures GetMessages(sessionId) == Filter(messages, InSession(sessionId))
    {
      assert SortedBy(messages, MessageTime);
      FilterOrdered(messages, InSession(sessionId), MessageTime);
      SortByOrdered(Filter(messages, InSession(sessionId)), MessageTime);
    }

    /** `getUserByEmail`: the first user, in insertion order, with that email. */
    function GetUserByEmail(email: string): (r: Option<User>)
      reads this
      ensures r.None? <==> forall u :: u in users ==> u.email != email
      ensures r.Some? ==> exists i :: 0 <= i < |users| && users[i] == r.value && r.value.email == email
                                      && forall j :: 0 <= j < i ==> users[j].email != email
    {
      Find(users, HasEmail(email))
    }

    /** `getUserById`: the stored user with identifier `id`, if any. */
    function GetUserById(id: Id): (r: Option<User>)
      reads this
      ensures r.Some? ==> r.value in users && r.value.id == id
      ensures r.None? <==> forall u :: u in users ==> u.id != id
    {
      Find(users, (u: User) => u.id == id)
    }

    /**
      `findEmailVerification`: an unused verification of user `userId` created
      last, or none exactly when that user has no unused verification.
    */
    function FindEmailVerification(userId: Id): (r: Option<EmailVerification>)
      reads this
      ensures r.None? <==> forall v :: v in emailVerifications ==> v.userId != userId || v.isUsed
      ensures r.Some? ==> r.value in emailVerifications && r.value.userId == userId && !r.value.isUsed
      ensures r.Some? ==> forall v :: v in emailVerifications && v.userId == userId && !v.isUsed ==> v.createdAt <= r.value.createdAt
    {
      var pending := Filter(emailVerifications, (v: EmailVerification) => v.userId == userId && !v.isUsed);
      var newestFirst := SortBy(pending, VerificationRecency);
      if newestFirst == [] then
        assert forall v :: v in emailVerifications ==> v.userId != userId || v.isUsed by {
          forall v | v in emailVerifications ensures v.userId != userId || v.isUsed {
            assert multiset(newestFirst)[v] == 0;
          }
        }
        None
      else
        assert forall v :: v in emailVerifications && v.userId == userId && !v.isUsed ==> v.createdAt <= newestFirst[0].createdAt by {
          forall v | v in emailVerifications && v.userId == userId && !v.isUsed
            ensures v.createdAt <= newestFirst[0].createdAt
          {
            assert v in multiset(newestFirst);
            var k :| 0 <= k < |newestFirst| && newestFirst[k] == v;
            if k > 0 {
              assert VerificationRecency(newestFirst[0]) <= VerificationRecency(newestFirst[k]);
            }
          }
        }
        assert newestFirst[0] in multiset(newestFirst);
        Some(newestFirst[0])
    }

    /** `createChatSession`: stores a session under a fresh identifier; a missing owner is stored as none. */
    method CreateChatSession(title: string, mode: Mode, userId: Option<Id>, anonymousSessionId: Option<string>, now: nat)
      returns (session: ChatSession)
      requires Valid()
      modifies this
      ensures Valid()
      ensures session == ChatSession(old(nextId), userId, anonymousSessionId, title, mode, now)
      ensures forall s :: s in old(chatSessions) ==> s.id != session.id
      ensures chatSessions == old(chatSessions) + [session] && nextId == old(nextId) + 1
      ensures messages == old(messages) && users == old(users) && emailVerifications == old(emailVerifications)
      ensures GetChatSession(session.id) == Some(session)
    {
      session := ChatSession(nextId, userId, anonymousSessionId, title, mode, now);
      chatSessions := chatSessions + [session];
      nextId := nextId + 1;
    }

    /**
      `createMessage`: stores a message under a fresh identifier.  The message
      lists of all other sessions stay as they were.
    */
    method CreateMessage(sessionId: Id, role: Role, content: string, now: nat) returns (message: Message)
      requires Valid()
      modifies this
      ensures Valid()
      ensures message == Message(old(nextId), sessionId, role, content, now)
      ensures forall m :: m in old(messages) ==> m.id != message.id
      ensures messages == old(messages) + [message] && nextId == old(nextId) + 1
      ensures chatSessions == old(chatSessions) && users == old(users) && emailVerifications == old(emailVerifications)
      ensures multiset(GetMessages(sessionId)) == multiset(old(GetMessages(sessionId))) + multiset{message}
      ensures forall s :: s != sessionId ==> GetMessages(s) == old(GetMessages(s))
    {
      message := Message(nextId, sessionId, role, content, now);
      ghost var before := messages;
      UniqueKeysAppend(messages, MessageKey, nextId, message);
      messages := messages + [message];
      nextId := nextId + 1;
      assert Valid();
      assert forall s :: s != sessionId ==> Filter(messages, InSession(s)) == Filter(before, InSession(s)) by {
        MessageListsAfterAppend(before, message);
      }
      assert multiset(Filter(messages, InSession(sessionId))) == multiset(Filter(before, InSession(sessionId))) + multiset{message} by {
        MessageListsAfterAppend(before, message);
      }
    }

    /** `createUser`: stores an unverified user under a fresh identifier; email uniqueness is not checked here. */
    method CreateUser(email: string, passwordHash: string, now: nat) returns (user: User)
      requires Valid()
      modifies this
      ensures Valid()
      ensures user == User(old(nextId), email, passwordHash, false, now)
      ensures forall u :: u in old(users) ==> u.id != user.id
      ensures users == old(users) + [user] && nextId == old(nextId) + 1
      ensures chatSessions == old(chatSessions) && messages == old(messages) && emailVerifications == old(emailVerifications)
      ensures GetUserById(user.id) == Some(user)
      ensures old(GetUserByEmail(email)).None? ==> GetUserByEmail(email) == Some(user)
      ensures forall e :: old(GetUserByEmail(e)).Some? ==> GetUserByEmail(e) == old(GetUserByEmail(e))
    {
      user := User(nextId, email, passwordHash, false, now);
      ghost var before := users;
      UniqueKeysAppend(users, UserKey, nextId, user);
      users := users + [user];
      nextId := nextId + 1;
      assert Valid();
      forall e | Find(before, HasEmail(e)).Some? ensures Find(users, HasEmail(e)) == Find(before, HasEmail(e)) {
        FirstIndexAppend(before, user, HasEmail(e));
      }
      FirstIndexAppend(before, user, HasEmail(email));
    }

    /** `markUserVerified`: sets `isVerified` of user `userId`; nothing else changes. */
    method MarkUserVerified(userId: Id)
      requires Valid()
      modifies this
      ensures Valid()
      ensures users == WithUserVerified(old(users), userId)
      ensures chatSessions == old(chatSessions) && messages == old(messages)
      ensures emailVerifications == old(emailVerifications) && nextId == old(nextId)
    {
      users := WithUserVerified(users, userId);
      assert forall i :: 0 <= i < |users| ==> users[i].id == old(users)[i].id;
    }

    /** `createEmailVerification`: stores an unused verification under a fresh identifier. */
    method CreateEmailVerification(userId: Id, otpHash: string, expiresAt: nat, now: nat)
      returns (verification: EmailVerification)
      requires Valid()
      modifies this
      ensures Valid()
      ensures verification == EmailVerification(old(nextId), userId, otpHash, expiresAt, false, now)
      ensures forall v :: v in old(emailVerifications) ==> v.id != verification.id
      ensures emailVerifications == old(emailVerifications) + [verification] && nextId == old(nextId) + 1
      ensures chatSessions == old(chatSessions) && messages == old(messages) && users == old(users)
      ensures FindEmailVerification(userId).Some?
    {
      verification := EmailVerification(nextId, userId, otpHash, expiresAt, false, now);
      emailVerifications := emailVerifications + [verification];
      nextId := nextId + 1;
      assert verification in emailVerifications;
    }

    /** `markVerificationUsed`: sets `isUsed` of verification `verificationId`; nothing else changes. */
    method MarkVerificationUsed(verificationId: Id)
      requires Valid()
      modifies this
      ensures Valid()
      ensures emailVerifications == WithVerificationUsed(old(emailVerifications), verificationId)
      ensures chatSessions == old(chatSessions) && messages == old(messages)
      ensures users == old(users) && nextId == old(nextId)
    {
      emailVerifications := WithVerificationUsed(emailVerifications, verificationId);
      assert forall i :: 0 <= i < |emailVerifications| ==> emailVerifications[i].id == old(emailVerifications)[i].id;
    }
  }

  /** The key table after `updateApiKeyLastUsed(keyHash)` at time `now`: only `lastUsedAt` of keys with that hash changes. */
  function WithLastUsed(keys: seq<ApiKey>, keyHash: string, now: nat): (r: seq<ApiKey>)
    ensures |r| == |keys|
    ensures forall i :: 0 <= i < |r| ==> r[i] == keys[i].(lastUsedAt := r[i].lastUsedAt)
    ensures forall i :: 0 <= i < |r| ==>
      r[i].lastUsedAt == if keys[i].keyHash == keyHash then Some(now) else keys[i].lastUsedAt
  {
    seq(|keys|, i requires 0 <= i < |keys| =>
      if keys[i].keyHash == keyHash then keys[i].(lastUsedAt := Some(now)) else keys[i])
  }

  /** The API keys of all users, as `getAllApiKeys` lists them. */
  class ApiKeyTable {
    var keys: seq<ApiKey>

    constructor (keys: seq<ApiKey>)
      ensures this.keys == keys
    {
      this.keys := keys;
    }

    /** `updateApiKeyLastUsed`: stamps every key with hash `keyHash`; no key matching is a no-op. */
    method UpdateApiKeyLastUsed(keyHash: string, now: nat)
      modifies this
      ensures keys == WithLastUsed(old(keys), keyHash, now)
    {
      keys := WithLastUsed(keys, keyHash, now);
    }
  }

  datatype Backend = PostgresBackend | MemoryBackend

  /**
    `createStorage`: the relational backend exactly when `DATABASE_URL` is set
    to a non-empty string (JavaScript truthiness), the in-memory one otherwise.
  */
  function CreateStorage(databaseUrl: Option<string>): (b: Backend)
    ensures b == PostgresBackend <==> databaseUrl.Some? && databaseUrl.value != ""
    ensures b == MemoryBackend <==> databaseUrl.None? || databaseUrl.value == ""
  {
    if databaseUrl.Some? && databaseUrl.value != "" then PostgresBackend else MemoryBackend
  }
}
