# Bounded-context chat over journal notes — a Dafny model

This project models the chat core of a journaling backend: a user starts a
chat grounded in some of their notes, asks follow-up questions, and reads the
chat back. Every chat session is one stored record (owner, note ids, creation
time, message list, optional summary). Once a session's stored message list
grows past `MAX_MESSAGES`, the next follow-up compacts it. It summarises the
older messages, folds any earlier summary in, keeps only the last
`TRIM_KEEP_LAST` messages, and then answers.

Files and modules:

- `outcomes.dfy`, module `Outcomes`: `Option`, `Result`, and the error kinds
  (`InvalidId`, `NotFound`, `Forbidden`, `DuplicateKey`, `CompletionUnavailable`).
- `text.dfy`, module `Text`: Python's `str.strip()` and `"\n".join(...)`,
  with `str.split` as the inverse of join.
- `object_ids.dfy`, module `ObjectIds`: the 12-byte ObjectId, its 24-digit
  text form, and the conversion `ObjectId(text)` that `get_notes_by_ids`,
  `get_chat_by_id`, `append_to_chat` and `replace_summary` apply to the ids
  they are given (`start_chat` stores the note ids as given).
- `db.dfy`, module `Db` (`app/db.py`): the records, the read-only lookups
  `ChatById` and `NotesByIds`, and the class `Database`. Its `chats` field is
  a `map` that the methods `StartChat`, `AppendToChat` and `ReplaceSummary`
  update in place, one record per call.
- `chat_service.dfy`, module `ChatService` (`app/chat_with_notes.py`): the
  prompts, the compaction, and the three handlers `ChatWithNotes`,
  `FollowUp` and `GetChatHistory`. Each handler is a method over a
  `Database`. Its `ensures` ties the new `chats` and the result to a
  specification function (`StartSpec`, `FollowUpSpec`, `History`).
- `chat_properties.dfy`, module `ChatProperties`: lemmas about the
  specification functions that relate several steps.

Outside collaborators are parameters:

- The completion engine is a function `Engine` from a prompt and its sampling
  settings to `Content(text)` or `Unavailable`. The reply is the stripped
  content.
- The clock reading is `now`.
- The id the store's driver generates for an insert is `newId`.

Behaviour of the code a reader might not expect:

- The code does not keep a session at or below `MAX_MESSAGES` at rest. The size check runs
  before the question is appended, and the turn adds two messages. So the
  bound is `max(MAX_MESSAGES, TRIM_KEEP_LAST) + 2`, and it is reached
  (`FollowUpRestBound`, `RestBoundReached`).
- A compaction is stored before the reply is requested. When the reply then
  fails, the session stays compacted (`ReplyFailureKeepsCompaction`) rather
  than returning to its earlier state; without a compaction a failed reply
  stores nothing (`FollowUpAnswer`).
- The completion input uses the summary read when the session was loaded,
  not the one the compaction just stored (`CompletionUsesLoadedSummary`).
- `TRIM_KEEP_LAST` is sliced with Python's rules and not checked against
  `MAX_MESSAGES`. With 0 nothing is evicted and the list grows without bound
  (`KeepNoneNeverShrinks`). When it is at least the list length, an empty
  transcript is summarised.
- No handler rejects an empty question.

## Model

| member | source | states |
|---|---|---|
| `Text.Strip` | app/chat_with_notes.py:132 | the reply is the run of the content that starts at its first non-whitespace character and is followed only by whitespace, and it starts and ends with a non-space |
| `Text.Join` | app/chat_with_notes.py:35 | `"\n".join`: empty for no parts, the part itself for one, otherwise the first part then the separator |
| `Text.SplitJoin` | app/chat_with_notes.py:120 | splitting a join on its separator gives back the parts when none contains the separator |
| `ObjectIds.Parse` | app/db.py:50 | `ObjectId(text)` succeeds exactly on texts of 24 hexadecimal digits, either case, and the id is their hex decoding |
| `ObjectIds.DecodeHex` | app/db.py:38 | hex decoding succeeds exactly when every character is a hex digit, and byte k is 16 times digit 2k plus digit 2k+1, upper and lower case alike |
| `ObjectIds.ToText` | app/db.py:34 | `str(id)` is 24 lower-case hexadecimal digits |
| `ObjectIds.ParseToText` | app/db.py:34 | the id text `start_chat` returns parses back to the inserted id |
| `ObjectIds.ToTextInjective` | app/db.py:34 | distinct sessions get distinct id texts |
| `Db.ChatById` | app/db.py:49-50 | a malformed id fails; otherwise the stored record for the id, or none when absent |
| `Db.ParseAll` | app/db.py:20 | all note id texts convert, in order, or the conversion fails when any one is malformed |
| `Db.Matching` | app/db.py:21 | a note is selected exactly when it is stored and its id is requested |
| `Db.NotesByIds` | app/db.py:19-22 | the lookup fails exactly when some requested id text is malformed |
| `Db.NotesByIdsSound` | app/db.py:19-22 | every returned content belongs to a stored note whose id was requested |
| `Db.NotesByIdsComplete` | app/db.py:19-22 | every stored note whose id was requested has its content returned |
| `Db.NotesByIdsMembers` | app/db.py:19-22 | a content is returned exactly when some stored note with a requested id has it; missing ids are skipped |
| `Db.MatchingBound` | app/db.py:21 | with unique note ids, no more notes match than distinct ids are requested |
| `Db.NotesByIdsBound` | app/db.py:19-22 | the result is no longer than the number of distinct requested ids, hence than the request |
| `Db.Appended` | app/db.py:36-47 | the session's messages gain exactly the question then the reply at the end; its other fields and all other sessions are unchanged; a missing id changes nothing |
| `Db.SummaryReplaced` | app/db.py:52-61 | summary and messages are set together; owner, note ids, creation time and all other sessions are unchanged |
| `Db.Database.StartChat` | app/db.py:24-34 | a new record under the new id with the given owner and note ids, messages exactly the first turn and no summary; its text id is returned; no existing session changes |
| `Db.Database.AppendToChat` | app/db.py:36-47 | the stored chats become `Appended` of the old ones; a malformed id fails and changes nothing |
| `Db.Database.ReplaceSummary` | app/db.py:52-61 | the stored chats become `SummaryReplaced` of the old ones; a malformed id fails and changes nothing |
| `ChatService.NotesMessage` | app/chat_with_notes.py:37 | a user message: the notes lead, then the bullet lines joined by newlines |
| `ChatService.Bullets` | app/chat_with_notes.py:35 | one `- ` line per note, in order |
| `ChatService.StartPrompt` | app/chat_with_notes.py:27-39 | the system message first; then the no-notes message ending in the question when no ids were given, else the notes message and then the question; every later message is a user message |
| `ChatService.FetchNotes` | app/chat_with_notes.py:29-34 | no lookup for an empty id list; otherwise it fails exactly when the note lookup fails and on success carries the lookup's notes |
| `ChatService.StartSpec` | app/chat_with_notes.py:26-55 | on success exactly one new session appears, owned by the caller, with the given note ids, the clock reading, messages exactly [question, reply] and no summary, and its text id is returned; the reply is the stripped engine answer to the start prompt; success exactly when the notes are fetched, the engine answers and the id is free; any failure changes nothing |
| `ChatService.ChatWithNotes` | app/chat_with_notes.py:25-55 | the handler's new chats and result are those of `StartSpec` |
| `ChatService.Complete` | app/chat_with_notes.py:41-48 | one completion call: fails exactly when the engine gives no content; otherwise the content with `strip()` applied |
| `ChatService.SummaryPrompt` | app/chat_with_notes.py:121-124 | the summariser's system message, then one user message: the summarise lead followed by the transcript lines joined by newlines |
| `ChatService.SummarizeMessages` | app/chat_with_notes.py:119-132 | succeeds exactly when the engine answers the summary prompt with the summary sampling; the summary is that answer stripped |
| `ChatService.TranscriptLines` | app/chat_with_notes.py:120 | one `role: content` line per message, in order |
| `ChatService.SliceBound` | app/chat_with_notes.py:70-71 | Python slice bound normalisation: negative counts from the end; below -n gives 0, above n gives n |
| `ChatService.SplitForCompaction` | app/chat_with_notes.py:70-71 | evicted followed by kept is the whole list; kept is the last `TRIM_KEEP_LAST` messages (all if fewer); with 0 nothing is evicted |
| `ChatService.HasSummary` | app/chat_with_notes.py:75 | definition, no contract: a stored and non-empty summary |
| `ChatService.MergeInput` | app/chat_with_notes.py:76-79 | two user messages: the lead `Earlier summary:` and a newline, then the earlier summary; the lead `New context:` and a newline, then the new summary |
| `ChatService.CombinedSummary` | app/chat_with_notes.py:73-81 | the summary of the evicted messages when there is no non-empty earlier summary, else the summary of (earlier, new) in that order; a failed first call fails |
| `ChatService.Compact` | app/chat_with_notes.py:69-84 | no compaction exactly when at most `MAX_MESSAGES` are stored; a compaction keeps the split's tail and carries the combined summary; a due compaction fails exactly when the combined summary fails |
| `ChatService.CompletionInput` | app/chat_with_notes.py:86-91 | the loaded summary framed first (only when non-empty), then the working messages, then the question last |
| `ChatService.FollowUpOwned` | app/chat_with_notes.py:67-101 | definition, no contract: compaction, then the reply, then the append; its outcomes are stated by `FollowUpAnswer` and `FollowUpStores` |
| `ChatService.FollowUpSpec` | app/chat_with_notes.py:57-106 | malformed id, missing session and foreign caller each fail with their own kind and change nothing; only the addressed session can change, never its owner, note ids or creation time |
| `ChatService.CompactIfDue` | app/chat_with_notes.py:69-84 | performs `Compact`, storing summary and kept tail in one update only when a compaction happened |
| `ChatService.FollowUp` | app/chat_with_notes.py:57-106 | the handler's new chats and result are those of `FollowUpSpec` |
| `ChatService.History` | app/chat_with_notes.py:108-117 | malformed id, missing session and foreign caller fail with their own kind; the owner gets the given id text, note ids, creation time and messages |
| `ChatService.GetChatHistory` | app/chat_with_notes.py:108-117 | returns `History` of the stored chats and changes nothing |
| `ChatProperties.FollowUpStores` | app/chat_with_notes.py:69-101 | without compaction the turn is appended and the summary kept; with it the turn follows the kept tail and the summary is replaced by the new or the combined summary |
| `ChatProperties.FollowUpAnswer` | app/chat_with_notes.py:86-101 | with or without compaction, the reply is the engine's stripped answer to the loaded summary frame, working messages and question; a failed reply leaves only what the compaction stored |
| `ChatProperties.FollowUpConserves` | app/chat_with_notes.py:69-101 | the evicted prefix followed by the stored messages is the old list followed by the new turn |
| `ChatProperties.FollowUpRestBound` | app/chat_with_notes.py:69-101 | with `TRIM_KEEP_LAST` >= 1 a successful follow-up leaves at most max(M, K) + 2 messages |
| `ChatProperties.RestBoundReached` | app/chat_with_notes.py:69 | a session holding exactly `MAX_MESSAGES` messages is not compacted and rests at `MAX_MESSAGES` + 2 |
| `ChatProperties.KeepNoneNeverShrinks` | app/chat_with_notes.py:70-71 | with `TRIM_KEEP_LAST` = 0 every successful follow-up appends a turn to the full list |
| `ChatProperties.FollowUpKeepsBound` | app/chat_with_notes.py:57-106 | every session stays within max(M, K) + 2 messages across follow-ups, whatever their outcome |
| `ChatProperties.StartKeepsBound` | app/chat_with_notes.py:50 | starting a chat keeps every session within the bound |
| `ChatProperties.CompletionUsesLoadedSummary` | app/chat_with_notes.py:83-91 | after a compaction the engine sees the summary loaded before it (none if there was none), the kept tail and the question |
| `ChatProperties.ReplyFailureKeepsCompaction` | app/chat_with_notes.py:83-101 | a failed reply after a compaction leaves the session compacted, without the new turn |
| `ChatProperties.SummaryFailureChangesNothing` | app/chat_with_notes.py:73-83 | a failed summary call fails the follow-up and stores nothing |
| `ChatProperties.StartThenHistory` | app/chat_with_notes.py:50-52 | reading a new chat through the returned id gives exactly [question, reply], its note ids and creation time |
| `ChatProperties.StartThenFollowUp` | app/chat_with_notes.py:60-101 | the first follow-up through the returned id answers from the first turn plus the new question and stores both turns in order |
| `ChatProperties.NotesMessageLines` | app/chat_with_notes.py:35-37 | the notes message lists each note on its own line, in store order, when notes contain no newline |
| `ChatProperties.SummaryPromptLines` | app/chat_with_notes.py:119-123 | the summariser sees each message as one `role: content` line, in order, when contents contain no newline |

## Left out

- The completion engine: network calls, model name, and how it reaches its answer. It is a function parameter. Temperature and token limits are passed along as data. A reply whose content is missing counts as `Unavailable`.
- Reading `MAX_MESSAGES` and `TRIM_KEEP_LAST` from the environment, and `int()` parsing them. A missing `MAX_MESSAGES` fails every follow-up at the size check; a missing `TRIM_KEEP_LAST` fails only the follow-ups that compact. They are the integer fields of `Config`.
- The mapping of error kinds to HTTP status codes. In `follow_up`, not-found and forbidden are re-raised as status 500. The model keeps the kinds distinct.
- FastAPI routing, request validation and token decoding. The caller's identity is the `user` parameter.
- `ObjectIds.Parse`: accepts exactly 24 hexadecimal digits. The driver's hex decoder is not part of this model, so its tolerance of whitespace between digit pairs is not represented.
- `ObjectIds.DecodeHex`: decodes digit pairs only; the whitespace between pairs that Python's `bytes.fromhex` skips is rejected.
- `ChatService.FollowUpSpec`: its result is the reply alone; the handler also returns the request's chat id text, unchanged, beside it.
- The driver's id generation and the clock. They are the parameters `newId` and `now`. An insert under an id that is already stored fails with `DuplicateKey`, as the store does.
- The order in which the store enumerates notes. The model fixes it as the order of the `notes` sequence.
- Concurrency: two follow-ups racing on one session, and atomicity beyond each single-record update. Handlers run to completion one at a time.
- In-place aliasing of the loaded message list when the question is appended. It is local to the handler and never written back, so it is modelled as a new list.
- Note CRUD, tagging, the GraphQL query layer, signup and login. These are outside the chat core.
