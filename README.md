# Chat application core: storage, authentication and client session state

This project models, in Dafny, the stateful core of a small web chat
application (an Express server with a React client):

- **The in-memory storage backend** (`MemStorage`): four keyed tables (chat
  sessions, messages, users, email verifications) with creation, lookup,
  filter-and-sort queries and the one-way flag transitions `isVerified` and
  `isUsed`, plus the start-up choice between the relational and the in-memory
  backend (`createStorage`). Module `Storage`, class `MemStorage`.
- **Authentication decisions**: the `requireAuth`, `requireApiKey` and
  `requireAuthOrApiKey` middlewares (Bearer-header parsing, a first-match scan
  over stored key hashes, the `lastUsedAt` stamp) and the decision chains of
  the signup, verify-otp and login handlers. Module `Auth`.
- **The client chat page** (`Home`): the session list, the active session and
  the messages on screen, changed by `handleNewChat`, `handleSessionClick` and
  `handleSendMessage`. Module `ChatView`, class `Home`.
- **The anonymous identity** kept in `localStorage`
  (`getAnonymousSessionId`, `clearAnonymousSession`). Module
  `AnonymousSession`.

Modelling choices:

- Each storage table is a sequence in insertion order, the order in which a
  JavaScript `Map` yields its values. The tables are kept keyed by the object
  invariant `MemStorage.Valid()`: identifiers are distinct and below the
  counter `nextId`, which stands for `randomUUID` and is shared by all tables.
- Every creation time is the clock reading `now`, a parameter. The sorts are a
  stable insertion sort (`Seqs.SortBy`), proved ordered and a permutation of
  its input, so no assumption that the clock only moves forward is needed.
  `MessagesInCreationOrder` states what holds when it does.
- `bcrypt.compare` is the parameter `compare`. The hash `bcrypt.hash` produced
  for a new password is passed in as `passwordHash`.
- `getAllApiKeys` and `updateApiKeyLastUsed` are called by the middleware but
  not defined in the storage source. They are modelled as the class
  `ApiKeyTable` with a `keys` sequence in `getAllApiKeys` order.
  `updateApiKeyLastUsed(keyHash)` stamps every key with that hash.
- The request session is `Option<SessionData>`. None means the request has no
  session object, which the handlers' `if (req.session)` guards test for.
- JavaScript truthiness is kept where it can arise:
  - an empty `DATABASE_URL` selects the in-memory backend;
  - an empty stored anonymous id is replaced by a new one;
  - an empty `activeSessionId` counts as no active session.

The code is narrower than one might expect:

- `getAllChatSessions` takes only an optional user id. Without one it returns
  every session; there is no anonymous-token filter.
- `createStorage` looks only at `DATABASE_URL`. There is no document-store
  branch.
- `createUser` does not reject a duplicate email. The signup handler checks
  first.
- The in-memory `findEmailVerification` does not filter expired rows. The
  verify-otp handler checks expiry itself.
- Signup verifies the new user at once and signs it in. The OTP step is
  switched off in the signup handler, while the verify-otp handler remains.

## Model

| member | source | states |
|---|---|---|
| `Storage.MemStorage.constructor` | server/storage.ts:37-42 | all four tables start empty and the store satisfies its keyed-table invariant |
| `Storage.MemStorage.GetChatSession` | server/storage.ts:44-46 | returns a stored session carrying the requested id, and none exactly when no stored session has that id |
| `Storage.MemStorage.GetAllChatSessions` | server/storage.ts:48-54 | with a user id, exactly that user's sessions (as a multiset of the table); with none, every session; newest first |
| `Storage.MemStorage.CreateChatSession` | server/storage.ts:56-66 | stores one new session under an id no stored session has; an absent owner is stored as none; other tables unchanged; `GetChatSession` then finds it |
| `Storage.MemStorage.GetMessages` | server/storage.ts:68-72 | exactly the stored messages of the session (as a multiset), in non-decreasing `createdAt` order |
| `Storage.MemStorage.MessagesInCreationOrder` | server/storage.ts:68-72 | when creation times never decrease, the query returns the session's messages in creation order (the sort is stable) |
| `Storage.MemStorage.CreateMessage` | server/storage.ts:74-83 | stores one new message under a fresh id; its session's list gains exactly it; every other session's list is unchanged |
| `Storage.MessageListsAfterAppend` | server/storage.ts:68-83 | appending a message adds it to its own session's filtered list and leaves every other session's list equal |
| `Storage.MemStorage.CreateUser` | server/storage.ts:85-95 | stores an unverified user with the given email and hash under a fresh id, found by `GetUserById`; an email already taken still resolves to the older user |
| `Storage.MemStorage.GetUserByEmail` | server/storage.ts:97-99 | the first user in insertion order with that email, and none exactly when no user has it |
| `Storage.MemStorage.GetUserById` | server/storage.ts:101-103 | returns a stored user carrying the requested id, and none exactly when there is none |
| `Storage.MemStorage.MarkUserVerified` | server/storage.ts:105-110 | the user table becomes `WithUserVerified` of the old one; the other tables and the id counter are unchanged |
| `Storage.WithUserVerified` | server/storage.ts:105-110 | only `isVerified` can change, and it becomes true exactly for the user with the given id |
| `Storage.MarkUserVerifiedIdempotent` | server/storage.ts:105-110 | marking twice equals marking once; an unknown id leaves the table unchanged |
| `Storage.VerifyNewestUser` | server/auth.ts:24-28 | creating a user whose email is free and then marking it verified leaves the verified user first under that email |
| `Storage.MemStorage.CreateEmailVerification` | server/storage.ts:112-122 | stores an unused verification under a fresh id; afterwards the user has an unused verification |
| `Storage.MemStorage.FindEmailVerification` | server/storage.ts:124-128 | an unused verification of the user with the greatest `createdAt`, and none exactly when the user has no unused verification |
| `Storage.MemStorage.MarkVerificationUsed` | server/storage.ts:130-135 | the verification table becomes `WithVerificationUsed` of the old one; nothing else changes |
| `Storage.WithVerificationUsed` | server/storage.ts:130-135 | only `isUsed` can change, and it becomes true exactly for the verification with the given id |
| `Storage.MarkVerificationUsedIdempotent` | server/storage.ts:130-135 | marking twice equals marking once; an unknown id leaves the table unchanged |
| `Storage.ApiKeyTable.UpdateApiKeyLastUsed` | server/auth.ts:213 | the key table becomes `WithLastUsed` of the old one |
| `Storage.WithLastUsed` | server/auth.ts:213 | only `lastUsedAt` changes, set to the current time exactly for keys with the given hash; no match changes nothing |
| `Storage.CreateStorage` | server/storage.ts:242-247 | the relational backend exactly when `DATABASE_URL` is a non-empty string, the in-memory backend otherwise |
| `Seqs.FirstIndex` | server/storage.ts:98 | the index of the first element satisfying the predicate, none exactly when no element does |
| `Seqs.FirstIndexAppend` | server/storage.ts:93-98 | appending an element changes the first match only when there was none before |
| `Seqs.FirstIndexPointwise` | client/src/pages/Home.tsx:94-100 | sequences matching the predicate at the same positions have the same first match |
| `Seqs.Find` | server/storage.ts:98 | the first element satisfying the predicate, and none exactly when no element does |
| `Seqs.Filter` | server/storage.ts:50 | each value occurs in the result as often as in the input if it satisfies the predicate, and not at all otherwise |
| `Seqs.FilterAppend` | server/storage.ts:69-70 | filtering distributes over concatenation |
| `Seqs.FilterOrdered` | server/storage.ts:69-71 | filtering keeps a sequence ordered |
| `Seqs.Insert` | server/storage.ts:51-53 | inserting into an ordered sequence keeps it ordered and adds exactly the element |
| `Seqs.SortBy` | server/storage.ts:51-53 | the result is ordered by the key and is a permutation of the input |
| `Seqs.SortByOrdered` | server/storage.ts:51-53 | sorting an already ordered sequence returns it unchanged (stability) |
| `Auth.SignIn` | server/auth.ts:31-34 | a session, when there is one, then carries the user's id and email, and so counts as signed in exactly when one exists |
| `Auth.SignedIn` | server/auth.ts:182 | signed in only when there is a session (the same test as `req.session?.userId` at auth.ts line 232) |
| `Auth.RequireAuth` | server/auth.ts:181-186 | goes on to `next` with the session unchanged exactly when it carries a user id, otherwise 401 "Authentication required" |
| `Auth.BearerToken` | server/auth.ts:189-195 | a key exactly when the header starts with "Bearer ", and then the header is "Bearer " followed by that key |
| `Auth.MatchingKey` | server/auth.ts:200-207 | the first key in table order whose hash matches, and none exactly when no hash matches |
| `Auth.ScanApiKeys` | server/auth.ts:200-207 | the loop with `break` returns the first matching key |
| `Auth.ApiKeyVerdict` | server/auth.ts:188-224 | every rejection is 401; no Bearer header gives "API key required"; no matching hash gives "Invalid API key"; when the first key in table order whose hash matches the token has an owner, the request goes on with that owner's id and email, and when that owner is missing it gets 401 "Invalid API key"; going on always means that first matching key's owner exists |
| `Auth.KeysAfterLookup` | server/auth.ts:209-213 | the table is stamped for the first match's hash whether or not its owner exists, and untouched without a Bearer header or a match |
| `Auth.RequireApiKey` | server/auth.ts:188-229 | the outcome is `ApiKeyVerdict` and the key table becomes `KeysAfterLookup`; the user table is only read |
| `Auth.RequireAuthOrApiKey` | server/auth.ts:231-244 | a signed-in session goes on untouched whatever the header; otherwise a Bearer header gets the API-key outcome; otherwise 401 |
| `Auth.Signup` | server/auth.ts:17-45 | a registered email gives 400 and changes nothing; otherwise exactly one new user is stored already verified, is found by its email, and signs the session in; the id counter advances by one |
| `Auth.VerifyOtp` | server/auth.ts:57-97 | checks in order: unknown 404, verified 400, no unused code 400, `expiresAt < now` 400, wrong code 400; only full success marks the code used and the user verified, leaving the id counter as it was; any failure changes nothing |
| `Auth.Login` | server/auth.ts:109-135 | fails with the same 401 message exactly when the email is unknown or the password does not match; `isVerified` is reported, not checked |
| `ChatView.PrototypeReply` | client/src/pages/Home.tsx:75-77 | the canned chat answer exactly in chat mode and the canned code answer exactly in code mode |
| `ChatView.SessionTitle` | client/src/pages/Home.tsx:86 | at most 53 characters; the content itself up to 50 characters; otherwise its first 50 characters followed by "..." |
| `ChatView.FindSession` | client/src/pages/Home.tsx:52 | the first listed session with that id, and none exactly when no session has it |
| `ChatView.AppendToSession` | client/src/pages/Home.tsx:94-100 | same length; only the messages of sessions with the id change, by the extra messages at the end |
| `ChatView.FindAfterAppend` | client/src/pages/Home.tsx:94-100 | after appending, the id finds its session with the extra messages, and every other id finds what it found before |
| `ChatView.NewSessionInSync` | client/src/pages/Home.tsx:83-92 | a new session put at the front and made active is in sync with the screen |
| `ChatView.AppendInSync` | client/src/pages/Home.tsx:93-100 | appending the same messages to the active session and to the screen keeps them in sync |
| `ChatView.Home.HasActiveSession` | client/src/pages/Home.tsx:83 | true only for a present, non-empty `activeSessionId` (JavaScript truthiness); never without one |
| `ChatView.Home.constructor` | client/src/pages/Home.tsx:26-30 | chat mode, no sessions, no active session, no messages on screen |
| `ChatView.Home.HandleNewChat` | client/src/pages/Home.tsx:45-49 | clears the screen and the active session; the session list and the mode stay |
| `ChatView.Home.HandleSessionClick` | client/src/pages/Home.tsx:51-59 | an unknown id changes nothing; a known one becomes active and brings its messages and mode on screen |
| `ChatView.Home.HandleSendMessage` | client/src/pages/Home.tsx:61-103 | the screen grows by the user message then the assistant answer; with no active session a new one holding exactly those two goes to the front and becomes active; otherwise only the active session gains them; the screen stays in sync |
| `AnonymousSession.LocalStorage.GetItem` | client/src/lib/anonymousSession.ts:4 | the value under the key, and none exactly when the key is absent |
| `AnonymousSession.LocalStorage.SetItem` | client/src/lib/anonymousSession.ts:8 | the key now maps to the value and every other key is as before |
| `AnonymousSession.LocalStorage.RemoveItem` | client/src/lib/anonymousSession.ts:15 | the key is gone and every other key is as before |
| `AnonymousSession.StoredSessionId` | client/src/lib/anonymousSession.ts:4-6 | the stored id exactly when the key holds a non-empty string |
| `AnonymousSession.GetAnonymousSessionId` | client/src/lib/anonymousSession.ts:3-12 | a usable stored id is returned with nothing written; otherwise the fresh id is stored under `anonymous_session_id` and returned; either way the returned id is now the stored one |
| `AnonymousSession.ClearAnonymousSession` | client/src/lib/anonymousSession.ts:14-16 | removes that key only; every other key reads as before; no id is stored afterwards |
| `AnonymousSession.GetTwiceThenClear` | client/src/lib/anonymousSession.ts:3-16 | two calls without a clear between them return the same id; after a clear the next call returns its fresh id |

## Left out

- `PostgresStorage` (server/storage.ts:138-240) and server/db.ts: SQL built through an ORM over a pooled connection. Nothing here goes beyond the library.
- server/mongodb.ts: connection set-up and index creation are network I/O, and its converters are field copies through a foreign `ObjectId.toString`.
- server/routes.ts: the completion call to the language-model API is foreign, and the route glue around it is trivial.
- server/email.ts: mail transport and an HTML template.
- `generateOtp` (server/auth.ts:10-12): it draws from floating-point `Math.random`. One-time codes are opaque strings checked through `compare`.
- bcrypt hashing, salting and comparison are foreign calls. They are the parameters `compare` and `passwordHash`.
- Express session and cookie mechanics are out: the logout handler's `destroy` callback, and the `/api/auth/me` handler, which is not among the modelled handlers.
- Input validation with the request schemas (400 "Invalid input") is not modelled. The shared schema file is not part of this model, so the handlers take already-parsed fields.
- The 500 answers of the `catch` blocks are not modelled. The in-memory store and the abstract key table never throw.
- `getAllApiKeys` and `updateApiKeyLastUsed` are not defined in the storage source. `ApiKeyTable` models them, and stamping every key that shares the hash is an assumption of this model.
- Storage identifiers are naturals from a counter. A falsy empty-string user id, such as `getAllChatSessions("")` returning every session, cannot arise in the model.
- `Storage.MemStorage.FindEmailVerification`: does not state which of several unused verifications with the same greatest `createdAt` is returned. The stable sort returns the earliest inserted, but no contract says so.
- `Storage.MemStorage.GetAllChatSessions`: does not state the relative order of sessions with equal `createdAt`. It only states the non-increasing order and the exact multiset of sessions.
- `Storage.MemStorage.GetMessages`: states the order of messages with equal `createdAt` only through `MessagesInCreationOrder`, which assumes a non-decreasing clock.
- `ChatView.SessionTitle`: counts Dafny characters. JavaScript's `slice` and `length` count UTF-16 code units, so text outside the Basic Multilingual Plane is not modelled.
- `ChatView.Home.HandleSendMessage`: treats one send as atomic. The one-second `setTimeout`, the `isLoading` flag, and a click on another session during the delay are not modelled. In the source, a click during the delay makes the assistant answer land in the clicked session's message view.
- The presentation components (dialogs, sidebar, markdown rendering, mode toggle, navigation bar, input box, the API-key and documentation pages) are out. Their only logic is one-line guards.
