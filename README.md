# gpt-chat `chat` command, modelled in Dafny

This project models the `chat <msg>` command handler of the koishi gpt-chat plugin
(`src/index.ts`). The handler does four things:

- It keeps an in-memory list of conversation sessions, one per (user, channel) pair.
  Each session has a turn count and an opaque session identifier.
- It resolves each incoming message to a session. A first message from a pair appends
  a new record. For a pair that already has a record, the `-n` flag gives this turn a
  fresh record that is never stored.
- It assembles the completion request from the stored history rows and the new prompt.
- It builds the row to persist, and turns any thrown error into returned text.

Modules:

- `Wrappers` (wrappers.dfy): `Option` (nil values) and `Result` (a value or a thrown error's message).
- `Database` (database.dfy): the `Chat` row of `src/database/index.ts` and the partial row the handler writes.
- `Sessions` (sessions.dfy): session records, the `find` predicate, resolution and counting as functions.
  It also holds the list invariants (one record per pair, distinct identifiers) and the growth relation `Extends`.
- `Messages` (messages.dfy): the request entries as functions, and the loop that builds them as a method.
- `ChatCommand` (chat_command.dfy): `ChatOutcome` specifies one invocation as a value.
  The class `Plugin` holds the configuration and the mutable `sessionList` that `apply` closes over.
  `Plugin.ChatAction` is the handler, proved equal to `ChatOutcome` and proved to keep the list invariant.
- `ChatProperties` (chat_properties.dfy): lemmas about one invocation and about two invocations in a row.

The environment enters as inputs of `ChatOutcome` / `ChatAction`:

- the session the host passes (or `None`);
- the identifier `crypto.randomUUID()` would return;
- the answer to the history query: rows, or the message of a thrown error;
- the answer of `getAnswer`: `Some(text)`, a null content (`None`), or a thrown error.

The outputs are the new list, the returned text, the history query issued, the request sent and the row handed to the store.

Three behaviours of the code are reproduced exactly as written:

- **No ceiling reset.** A session is never reset when its turn count reaches `continuousChatCount`.
  That setting only limits the history query (src/index.ts:120). `ContinuingTurnReusesSession` holds for any turn count.
- **`-n` is not stored.** The `-n` record is built for one turn and never stored (src/index.ts:99).
  The next message without `-n` is back in the old session (`ForcedNewDoesNotPersist`).
- **New pair wins over `-n`.** For a pair with no entry, the first-contact branch is taken even with `-n`.

The history query the handler issues records its ordering: newest first on `create_time`
(src/index.ts:119). The assembly keeps the order the rows arrive in, so the request lists
the most recent exchange first.

## Model

| member | source | states |
|---|---|---|
| Sessions.FirstMatch | src/index.ts:72-74 | the index `find` returns is the first entry whose channel and user equal the caller's; `None` exactly when no entry matches |
| Sessions.Matches | src/index.ts:72-74 | the `find` callback holds exactly when the record's user and channel equal the caller's; turn count and session identifier play no part |
| Sessions.NewSession | src/index.ts:76-82 | a new record belongs to the caller's pair, starts at turn count 0 and carries the fresh identifier (the same shape is built at lines 92-98) |
| Sessions.Resolve | src/index.ts:72-106 | the list grows by exactly the new record when no entry matches, and is otherwise unchanged; the turn gets a one-turn record under the fresh identifier exactly when `-n` is set and an entry matched; otherwise it resolves to the first matching entry, or to the appended one |
| Sessions.CountTurn | src/index.ts:111 | the increment lands on the resolved list entry only, or on the one-turn record only; the turn's record has its count plus one; no other entry changes |
| Sessions.TurnKeepsUnique | src/index.ts:72-111 | when identifiers are fresh, resolving and counting a turn keeps at most one record per pair and no repeated session identifier |
| Messages.Exchange | src/index.ts:126-136 | one history row gives two entries: a user entry holding its message, then an assistant entry holding its answer |
| Messages.HistoryMessages | src/index.ts:125-137 | there are 2·\|q\| entries; entry 2i is the user entry with row i's message and entry 2i+1 the assistant entry with row i's answer |
| Messages.RequestMessages | src/index.ts:123-142 | the request has 2·\|q\|+1 entries, the history pairs in the order of q, and the new prompt as the final user entry |
| Messages.HistoryMessagesSnoc | src/index.ts:125-137 | one more history row appends exactly its two entries to the end, so the order of q is preserved |
| Messages.RolesAlternate | src/index.ts:123-142 | roles alternate user, assistant, ... and both the first and the last entries are user entries |
| Messages.RequestBounded | src/index.ts:120-142 | at most `limit` rows give at most 2·limit+1 entries; an empty history gives exactly the new prompt |
| Messages.BuildMessages | src/index.ts:123-142 | the loop that pushes two entries per row and then the prompt yields exactly the request above |
| ChatCommand.AnswerText | src/index.ts:146 | the reply text is empty exactly when the content is null or empty, and is otherwise the content itself |
| ChatCommand.InternalError | src/index.ts:161 | the error text is the fixed label followed by the error's message, so the message can be read back after the label |
| ChatCommand.ChatOutcome | src/index.ts:63-162 | the list only grows, by at most one entry, with no entry removed, re-keyed or its count lowered; a stored row carries the returned text, the prompt and the queried session identifier; a sent request is built from the returned history; no query means no request and no row |
| ChatCommand.Plugin.constructor | src/index.ts:35 | the session list starts empty, which satisfies the invariant |
| ChatCommand.Plugin.FindSession | src/index.ts:72-74 | the linear scan returns the `find` index |
| ChatCommand.Plugin.ResolveSession | src/index.ts:72-106 | the list and the resolution after lookup, append or `-n` are those of `Resolve` |
| ChatCommand.Plugin.CountSession | src/index.ts:111 | the in-place increment leaves the list and the turn's record as `CountTurn` says |
| ChatCommand.Plugin.ChatAction | src/index.ts:63-162 | with a fresh identifier, the handler keeps the invariant; its new list, reply, query, request and row are those of `ChatOutcome` |
| ChatProperties.FirstContactAppendsOne | src/index.ts:75-111 | a first group message with both identifiers appends exactly one record for the pair, with the fresh identifier and count 1; earlier entries are unchanged; history is queried under the fresh identifier, with or without `-n` |
| ChatProperties.NewFlagIgnoredForNewPair | src/index.ts:75-106 | for a pair with no entry the outcome is the same with and without `-n` |
| ChatProperties.ContinuingTurnReusesSession | src/index.ts:72-121 | without `-n`, an existing pair keeps its session identifier whatever its count; only that entry's count changes, by exactly 1; the length is kept; the query and the stored row use the old identifier |
| ChatProperties.ForcedNewLeavesListUntouched | src/index.ts:91-111 | `-n` on an existing pair leaves the list exactly as it was; the history is queried under the fresh identifier, which differs from the stored one |
| ChatProperties.ForcedNewDoesNotPersist | src/index.ts:91-111 | after an `-n` turn, the next plain turn queries the old session identifier again, and its count is one more than before the `-n` turn |
| ChatProperties.EarlyRejectionsChangeNothing | src/index.ts:65-70 | a missing session or a direct message returns its fixed text; the list is unchanged and nothing is queried, sent or stored |
| ChatProperties.NilIdsCheckedAfterAppend | src/index.ts:75-110 | a nil user or channel returns the fixed error after the append: a first contact leaves a new record with count 0; an existing pair's list is unchanged; nothing is queried |
| ChatProperties.ThrownErrorsBecomeReplies | src/index.ts:111-161 | an error thrown by the history query or the completion is returned as "服务器内部错误" followed by its message; no row is stored; the list and query equal those of the successful path, so the increment stays |
| ChatProperties.SuccessfulTurnPersistsRow | src/index.ts:139-158 | a successful turn sends the history entries plus the prompt; it stores a row with the queried session identifier, the user, the channel, the prompt, the reply ("" for null or empty content) and the timestamp; it returns that reply |
| ChatProperties.RequestWithinLimit | src/index.ts:120-142 | when the history has at most `continuousChatCount` rows, any request sent has at most 2·continuousChatCount+1 entries |
| ChatProperties.OutcomeKeepsUnique | src/index.ts:72-111 | one invocation at a time, with a fresh identifier, keeps one record per pair and distinct session identifiers |
| ChatProperties.TwoTurnConversation | src/index.ts:72-158 | two plain messages from a new pair: the first sends only its prompt, and the second reuses the first's identifier, reaches count 2 and sends [user: first prompt, assistant: first reply, user: second prompt] |

## Left out

- `getAnswer` (src/openai.ts) wraps a network call to the completion endpoint. Its result is an input: content, null content, or a thrown error's message.
- `createImages` (src/openai.ts) is a network call the `chat` handler does not use.
- The history query (src/index.ts:114-121) belongs to the host's database layer. The store carries out its filters, its newest-first ordering and its `.limit`; how it does so is not visible. The rows are an input; the query the handler issues is an output. The length bound assumes the store honours the limit.
- `ctx.database.create` (src/index.ts:157) is not awaited. The row is an output, and a failure of that call is not modelled.
- `crypto.randomUUID()` is randomness. It is replaced by a caller-supplied identifier. `ChatAction` requires it to differ from every stored identifier.
- Configuration schema, proxy agent, OpenAI client construction, logging, table declaration and command registration are configuration and I/O glue.
- Concurrency: invocations are modelled one at a time. Interleaving at the two `await`s, and the duplicate records two concurrent first messages could create, are not modelled.
- `isNil` (src/utils) is not part of this model. A nil identifier is modelled as one value, `None`, so `null` and `undefined` are not told apart.
- JavaScript numbers are modelled as unbounded integers (turn counts, timestamps, row ids). Floating point is not modelled.
- A thrown value that is not an `Error` (whose `message` would be `undefined`) is not modelled. A thrown error is represented by its message string.
- The alias between `nowSession` and a list entry is modelled as an index into the list (`Resolution.Stored`). The one-turn `-n` record is modelled as a separate value (`Resolution.Unstored`).
