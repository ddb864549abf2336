# SocioMind core, modelled in Dafny

SocioMind is a Telegram bot. It gives a user a socionics personality type
(one of sixteen four-letter types such as INTJ) from eight free-text answers,
and analyses a group once enough of its members are typed. This project
models the sequential logic of the bot and proves properties of it:

- **Retrieval index** (`Rag`, services/rag.py). The class `SocioRag` holds the
  chunk list and the flat index.
  - `BuildIndex` cuts the knowledge text into heading-delimited chunks, one
    line at a time, as the source's loop does, and embeds every chunk in
    order.
  - `Search` maps the positions the index returns back to chunk text,
    including Python's negative indexing. Before that, FAISS's search
    refuses a query whose length is not the index dimension, or a `k`
    below 1.
  - Lemmas about the chunker: the round trip `'\n'.join(chunks) == text`,
    the heading rule, the shape of each chunk and the number of chunks.
- **Questionnaire** (`Questionnaire`, handlers/test.py). The class `TestFlow`
  holds the per-user FSM state (question 1..8) and the `user_answers`
  dictionary. It has one method per event: `/test`, an answer, a non-text
  message and `/cancel`.
  - The invariant `Valid` says that a user waiting for answer `n` has `n - 1`
    answers stored.
  - After the eighth answer the user leaves the questionnaire. Every message
    send is assumed to succeed.
- **Group report** (`Report`, handlers/report.py).
  - The bot must be an administrator (or creator).
  - The members are the group's administrators that are not bots.
  - The dedup loop counts every member id once and lists the typed members as
    `"• name: TYPE"`.
  - The 70% gate is stated exactly as `typed * 100 >= 70 * total`.
- **GigaChat service** (`GigaChat`, services/gigachat.py).
  - `enabled` is true iff a real token is configured.
  - The knowledge base is loaded lazily and cached.
  - The answers are formatted into a numbered block.
  - A classification reply is accepted only when it is four letters;
    otherwise a random type from the fixed list is used.
  - There are canned analyses and the fixed texts for the disabled and
    failing paths.
- **`PyText`**: the Python `str` operations the code relies on (`strip`,
  `startswith`, `split('\n')`, `'\n'.join`, `isalpha`, slicing).
- **`Outcomes`**: `Option` and `Result`.

Calls that leave the process are parameters of the methods that make them:

- The embedding service is `embed: string -> Option<Vector>`; `None` is a call
  that raised.
- The index's nearest-neighbour selection is `nearest`.
- The chat model is `giga: ChatRequest -> Option<string>`; `None` is a call
  that raised.
- The knowledge-base file is `file: Option<string>`.
- The Telegram answers are `botStatus` and `admins`.
- The database rows are `typedUsers`.
- `random.choice` is an unconstrained pick from the list.

Two details of the source show up in the proofs:

- The check at handlers/test.py:149-150 replaces a type whose stripped length
  is not 4 by `"INTJ"`. `determine_personality_type` always returns four
  letters (`GigaChat.GigaChatService.DeterminePersonalityType`), so
  `Questionnaire.CheckedTypeKeepsValid` shows that this check never changes
  the type.
- The report's refusal text asks for ">70%". The gate at
  handlers/report.py:82 lets exactly 70% through; `Report.GateIsPercentage`
  states this boundary.

## Model

| member | source | states |
|---|---|---|
| `PyText.TrimStartSpec` | services/rag.py:20 | `lstrip` removes only leading whitespace and keeps a suffix that does not start with whitespace |
| `PyText.TrimEndSpec` | services/rag.py:20 | `rstrip` removes only trailing whitespace and keeps a prefix that does not end with whitespace |
| `PyText.StripEmptyIffBlank` | services/rag.py:20 | `line.strip()` is empty exactly when every character is whitespace |
| `PyText.Split` | services/rag.py:19 | `split('\n')` yields at least one piece, and no piece holds a line feed |
| `PyText.JoinSplit` | services/rag.py:19-27 | joining the pieces of `split('\n')` with line feeds gives the text back |
| `PyText.SplitJoin` | services/gigachat.py:30 | splitting a join of pieces without line feeds gives the pieces back |
| `PyText.JoinAppend` | services/rag.py:22 | joining two non-empty runs puts exactly one line feed between their joins |
| `PyText.AlphaIsStripped` | services/gigachat.py:63-65 | an alphabetic string is its own `strip()` |
| `PyText.Decimal` | services/gigachat.py:30 | `str(n)` is a non-empty string of digits, with one digit exactly when `n < 10` |
| `PyText.DecimalValue` | services/gigachat.py:30 | `str(n)` reads back as `n` and has no leading zero, so it is the canonical decimal rendering |
| `PyText.DecimalInjective` | services/gigachat.py:30 | distinct numbers are rendered differently, so the `{i+1}.` labels of the answer block are distinct |
| `PyText.Prefix` | services/gigachat.py:37 | `s[:n]` is a prefix of `s` of length `min(n, len(s))` |
| `Rag.HeadingIff` | services/rag.py:20 | a line opens a chunk iff its `strip()` is non-empty and it does not start with a space; equivalently, it has a non-whitespace character and its first character is not a space |
| `Rag.TabIndentedIsHeading` | services/rag.py:20 | a non-blank line indented by a tab counts as a heading |
| `Rag.OpensChunk` | services/rag.py:20 | the loop's test `line.strip() and not line.startswith(' ')` computes the heading rule |
| `Rag.GroupsShaped` | services/rag.py:19-27 | the line groups are non-empty, only their first line can be a heading, every group but the first begins with a heading, and the first group begins with the first line |
| `Rag.GroupsPartition` | services/rag.py:19-27 | every line lands in exactly one group, in order |
| `Rag.GroupsDrawnFrom` | services/rag.py:19-24 | every line of a group is one of the input lines |
| `Rag.GroupsCount` | services/rag.py:19-27 | the number of groups is the number of heading lines, plus one when the first line is not a heading |
| `Rag.JoinFlatten` | services/rag.py:22-27 | joining the joined chunks equals joining all their lines |
| `Rag.ChunksRoundTrip` | services/rag.py:19-27 | `'\n'.join(chunks) == text` |
| `Rag.ChunksNonEmpty` | services/rag.py:16-27 | the chunk list is never empty; the empty text gives `[""]` |
| `Rag.ChunksCount` | services/rag.py:19-27 | `len(chunks)` is the number of heading lines, plus one when the first line is not a heading |
| `Rag.NoHeadingsCountZero` | services/rag.py:20 | lines without a heading contain zero headings |
| `Rag.NoHeadingsSingleChunk` | services/rag.py:19-27 | a text without heading lines is one chunk, the whole text |
| `Rag.ChunkLines` | services/rag.py:20-27 | splitting chunk `k` gives back its group of lines; only its first line can be a heading, and that line is one for every chunk but the first |
| `Rag.LaterChunksNonEmpty` | services/rag.py:20-24 | only the first chunk can be the empty string |
| `Rag.ChunksAt` | services/rag.py:56 | `[chunks[i] for i in ids]` succeeds iff every position is in Python's range `-n..n-1`; the result is then the chunk at each position, in order, and otherwise `IndexError` |
| `Rag.IndexPositionsResolve` | services/rag.py:53-56 | positions in `-1..n-1`, as a flat index reports them, always resolve to stored chunks, and a `-1` pad reads the last chunk |
| `Rag.EmbedChunks` | services/rag.py:30-37 | one embedding call per chunk, in order; the result is present iff every call returned, and it is then the chunks' embeddings in chunk order |
| `Rag.SocioRag.constructor` | services/rag.py:6-8 | no index and no chunks |
| `Rag.SocioRag.BuildIndex` | services/rag.py:10-42 | the prior chunks are replaced by the chunks of the text; an embedding call that raises, or vectors of different lengths, fail the build and leave the old index; a successful build stores one vector per chunk, in chunk order, with the first vector's dimension |
| `Rag.SocioRag.Search` | services/rag.py:44-56 | the query is embedded first; then a missing index fails; then FAISS refuses the query exactly when its length is not the index dimension or `k < 1`; otherwise the result is the chunks at the returned positions; every result is a stored chunk; `k` defaults to 3; nothing changes |
| `Questionnaire.StateNamesInGroup` | handlers/test.py:51 | every questionnaire state name starts with `"TestStates:"` |
| `Questionnaire.StateNamesDistinct` | handlers/test.py:61-131 | the eight states have distinct names |
| `Questionnaire.CheckedType` | handlers/test.py:149-150 | a type whose stripped length is 4 is kept, and any other becomes `"INTJ"`; the result always has stripped length 4 |
| `Questionnaire.CheckedTypeKeepsValid` | handlers/test.py:144-150 | a four-letter alphabetic type passes the check unchanged |
| `Questionnaire.TestFlow.constructor` | handlers/test.py:15-19 | no user is in the questionnaire and no answers are stored |
| `Questionnaire.TestFlow.Start` | handlers/test.py:22-46 | `/test` resets the user's answers to `[]` and enters state 1, whatever the user's state was; other users are untouched |
| `Questionnaire.TestFlow.Cancel` | handlers/test.py:48-58 | `/cancel` acts iff the user has a questionnaire state; it then drops the answers and clears the state; otherwise nothing changes |
| `Questionnaire.TestFlow.NonText` | handlers/test.py:195-209 | a non-text message gets a reminder iff the user is in the questionnaire, and changes nothing |
| `Questionnaire.TestFlow.Conclude` | handlers/test.py:144-156 | after the eighth answer the type is always four letters; with the assistant switched off it is one of the sixteen types and the analysis is that type's canned text; with it on, the knowledge base is loaded lazily and stays cached, the type is what the classification reply yields, and the analysis is the assistant's reply, or the canned text when there is no reply; with it off, the knowledge base is untouched |
| `Questionnaire.TestFlow.Answer` | handlers/test.py:61-193 | outside the questionnaire nothing happens; an answer over 500 characters changes nothing, while exactly 500 is accepted; answers 1..7 are appended and the state advances by one; the eighth hands the eight answers, in order, to classification and analysis, and the user leaves the questionnaire, with the knowledge base loaded and cached when the assistant is on; no other event touches the knowledge base; `Valid` is kept throughout |
| `GigaChat.LoadIsCached` | services/gigachat.py:27-28 | once a non-empty knowledge base is loaded, later guards keep it and do not read the file again |
| `GigaChat.LoadedKnowledgeEmpty` | services/gigachat.py:13-20 | after the guard the knowledge base is empty only when it was not loaded and the file is empty; a failed read gives `"Базовые знания соционики"` |
| `GigaChat.AnswerBlockLines` | services/gigachat.py:30 | line `i` of the answer block is `f"{i+1}. {answer}"`, one line per answer in order, when the answers hold no line feed |
| `GigaChat.TypesAreValid` | services/gigachat.py:145-148 | the sixteen fallback types are four letters each and already stripped |
| `GigaChat.StubTableCoversTypes` | services/gigachat.py:153-170 | the canned table has an entry for exactly the sixteen types |
| `GigaChat.StubAnalysis` | services/gigachat.py:151-171 | the canned analysis is never empty |
| `GigaChat.StubAnalysisCases` | services/gigachat.py:151-171 | a known type gets its table text; any other string gets the default text, which names it right after `"Тип "` |
| `GigaChat.RandomPersonalityType` | services/gigachat.py:143-149 | the random pick is one of the sixteen types |
| `GigaChat.ClassificationRequest` | services/gigachat.py:32-58 | the classification prompt quotes at most the first 4000 characters of the knowledge base, and all of it when it is shorter |
| `GigaChat.PersonalRequest` | services/gigachat.py:81-98 | the analysis prompt quotes at most the first 3000 characters of the knowledge base |
| `GigaChat.GroupRequest` | services/gigachat.py:117-133 | the group prompt quotes at most the first 3000 characters of the knowledge base |
| `GigaChat.ClassifiedIsValid` | services/gigachat.py:63-71 | whether the reply is accepted or replaced by a random type, the type is four letters |
| `GigaChat.GigaChatService.constructor` | services/gigachat.py:8-11 | no knowledge base; `enabled` iff the token is set, non-empty and not `"your_gigachat_api_key_here"` |
| `GigaChat.GigaChatService.LoadKnowledgeBase` | services/gigachat.py:13-20 | the knowledge base becomes the file's contents, or the fallback text when the read raised |
| `GigaChat.GigaChatService.EnsureKnowledgeBase` | services/gigachat.py:27-28 | the knowledge base is loaded only when it is unset or empty |
| `GigaChat.GigaChatService.DeterminePersonalityType` | services/gigachat.py:22-71 | disabled, a random type and no load; enabled, a lazy load, then the stripped reply to the classification request when it is four letters, and a random type otherwise or when the call raised; the result is always four letters |
| `GigaChat.GigaChatService.GeneratePersonalityAnalysis` | services/gigachat.py:73-106 | disabled, the canned analysis; enabled, a lazy load and the reply to a request that carries the type but not the answers, or the canned analysis when the call raised |
| `GigaChat.GigaChatService.GenerateGroupAnalysis` | services/gigachat.py:108-141 | disabled, the "temporarily unavailable" text without a request; enabled, the reply, or the failure text when the call raised |
| `Report.Humans` | handlers/report.py:113-115 | the filter keeps at most as many members as it is given |
| `Report.HumansMembers` | handlers/report.py:113-115 | exactly the administrators that are not bots are kept |
| `Report.HumansAppend` | handlers/report.py:113-115 | the filter keeps the administrators' order |
| `Report.NonBotAdmins` | handlers/report.py:107-124 | the non-bot administrators in order, or `[]` when asking for the administrators raised |
| `Report.IdsNonEmpty` | handlers/report.py:62-65 | a non-empty member list has a non-zero number of distinct ids |
| `Report.FirstSeenIds` | handlers/report.py:46-52 | dedup keeps exactly the set of member ids |
| `Report.FirstSeenDrawn` | handlers/report.py:48-52 | every member kept by dedup is one of the members |
| `Report.FirstSeenDistinct` | handlers/report.py:48-52 | a member id that appears more than once is processed only once |
| `Report.DistinctCount` | handlers/report.py:62 | a list with distinct ids has as many entries as ids |
| `Report.FirstSeenPositions` | handlers/report.py:46-59 | dedup keeps exactly the first record of each id, in list order: the kept records sit at strictly increasing positions, each is the first with its id, and every first occurrence is kept |
| `Report.FirstSeenCount` | handlers/report.py:62 | `len(member_ids)` is the number of distinct members processed |
| `Report.TypedIndexSpec` | handlers/report.py:41-42 | the typed-user dictionary has a key per stored id, holding the type of the last row with that id |
| `Report.TypedOf` | handlers/report.py:55-56 | there are at most as many typed members as members |
| `Report.TypedOfMembers` | handlers/report.py:55-56 | the typed members are exactly the members whose id has a stored type |
| `Report.TypedOfIds` | handlers/report.py:55-56 | the typed members' ids are the member ids that have a stored type |
| `Report.TypedOfDistinct` | handlers/report.py:55-56 | the typed members keep distinct ids |
| `Report.EntriesSpec` | handlers/report.py:55-59 | `members_info` has one line per typed member, in first-seen order, each `"• " + name + ": " + type` |
| `Report.Coverage` | handlers/report.py:44-62 | `total` is the number of distinct member ids; `typed` is the number of those with a stored type; `members_info` is the typed members' lines; and `len(members_info) == typed <= total` |
| `Report.GateIsPercentage` | handlers/report.py:67-82 | for a non-empty group, `typed * 100 >= 70 * total` iff `(typed / total) * 100 >= 70` over exact fractions, so exactly 70% proceeds |
| `Report.CmdReport` | handlers/report.py:14-89 | a failed bot check, a bot that is not an administrator or creator, no members, a failed read of the typed users, or a failed send of the statistics message before the gate each stop the report; otherwise the group proceeds iff `typed * 100 >= 70 * total`, with the counts and lines of `Coverage`, never reaching the division by zero |

## Left out

- File reads (`open('socio.txt')`, `aiofiles`) are left out; the contents are an input string or `file: Option<string>`.
- The embedding service and FAISS are parameters, because they are foreign calls. The model does not capture L2 distances, float32 conversion or the ordering of results.
- A vector list that cannot form a 2-d array is modelled as `RaggedEmbeddings`. What numpy and FAISS do with zero-length vectors is left out.
- `BuildIndex` is not atomic, and neither is the source. A failed build keeps the new chunks next to the old index.
- `Questionnaire.TestFlow.Answer` does not model `save_user_type`, `save_to_sheets` or the messages, because they are database, spreadsheet and Telegram I/O. An exception in the two saves, inside the `try`, changes only the reply text, and the `finally` still clears the state.
- `Questionnaire.TestFlow.Answer` assumes that message sends do not raise. In the source a send can raise after the answer is appended and before the state changes. For answers 1..7 that is the question sent before `set_state` (e.g. handlers/test.py:87-89). For answer 8 it is the notice at handlers/test.py:140, which is outside the `try`, so the `finally` does not run. The answer is then stored but the state neither advances nor clears, which breaks `Valid`. A later answer is then stored as an extra one, and classification can receive more than eight answers.
- `Questionnaire.TestFlow.Start` assumes that message sends do not raise. In the source a send between the reset at handlers/test.py:34 and `set_state` at handlers/test.py:46 can raise, leaving `[]` under the user's old state, which breaks `Valid`.
- Every reply text, including the existing-type notice of `start_test`, is left out.
- Each handler is modelled as one atomic event. aiogram runs updates as concurrent tasks, and each `await` in a handler is a point where another update of the same user can be handled. Those interleavings are not captured. One example in `start_test` (handlers/test.py:34-46): the list is emptied, then the handler awaits messages and `asyncio.sleep(1)`, and only then sets state 1. An answer that arrives in that window is handled under the old state and appended to the new empty list, so the state no longer matches the number of answers. `Valid` holds only for atomic events.
- `Questionnaire.TestFlow.Start` always resets, but in the source `start_test` first awaits `get_user_type` (handlers/test.py:24). If that database call raises, the command stops before the reset. Database failures are not modelled.
- Router filters are left out: `/test` only in private chats and `/report` only in groups. The `/test` and `/cancel` texts go to their own handlers before the answer handlers, which the model captures as separate events.
- aiogram keys FSM state by chat and user. The model keys it by user alone, so its events are the user's messages in their private chat. `/cancel` has no chat filter, and when it is sent in a group it sees that chat's empty state and does nothing. The model does not capture that case.
- States outside `TestStates` are left out; the repository defines none. So `Cancel` refuses only a user without a state.
- The question texts (`questions`) are left out; only their number, eight, matters. `config.py` defines neither `questions` nor `AU_TOKEN`, so the token is a constructor parameter.
- The fixed wording around the variable parts of each prompt is left out. Each request is modelled as its system message, its variable part, the knowledge excerpt, the temperature and the token limit.
- `analyze_group_messages`, `get_chat_history_last_7_days` and the `get_me` call of `cmd_report` are left out, because they build text and make Telegram calls after the gate. The statistics message, sent before the gate (handlers/report.py:80), is modelled only by whether its send succeeded (`statsSent`); its text is left out.
- `Report.CmdReport` does not say when the statistics send fails. One cause is a group title (handlers/report.py:71) or member name put unescaped into an HTML message. The model takes the outcome of the send as the input `statsSent`.
- `PyText.IsAlpha`: accepts only ASCII, Latin-1 and Cyrillic letters. Python's `isalpha` accepts every Unicode letter, so a reply in another script is refused here but accepted by the source.
- `Report.GateIsPercentage`: compares exact fractions, not the floating-point division of handlers/report.py:67. The two agree at the 70% boundary, but the model does not capture float rounding elsewhere.
- services/gemini.py is left out, because it is a prompt plus a foreign call. The database and spreadsheet modules, main.py, handlers/start.py and handlers/chat_monitor.py are glue and are not part of this model.
