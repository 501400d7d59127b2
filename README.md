# st_fast_rag backend, modelled in Dafny

This project models the backend of st_fast_rag. The backend is a FastAPI service. It forwards chat questions to an LLM provider (Claude, OpenAI or Gemini), streams the answer back in chunks, and stores the conversation and the user's notes in a SQL database. The model covers its sequential logic, with the ORM, the HTTP framework and the LLM libraries abstracted away:

- `crud.dfy` (module `Crud`, from `src/backend/crud.py`): the database as an in-memory store. A `Store` class holds the chat-history rows as a sequence and the notes as a map by id. It also holds one id counter per table and a clock that never goes back. The clock stands in for the `func.now()` column default. The create, update and delete operations are methods that change the store. The queries are functions: `GetChatHistory`, `GetNote` and `GetNotes`.
- `ordering.dfy` (module `Ordering`): the `ORDER BY` and `OFFSET/LIMIT` parts of those queries. SQL leaves the order of rows with equal timestamps unspecified. So a query result is stated to be a window of *some* sorted arrangement of the matching rows, not of one fixed permutation.
- `llm_abstraction.dfy` (module `LlmAbstraction`, from `src/backend/llm_abstraction.py`): `get_llm` as a pure dispatch. It goes from a provider name and an environment map to a client configuration or a `ValueError`. It also holds the `LLM_MODELS` table.
- `rag_core.dfy` (module `RagCore`, from `src/backend/rag_core.py`): `get_llm_chain`'s choice between the simple and the context prompt template, and the (role, content) messages each template produces.
- `api.dfy` (module `Api`, from `src/backend/main.py`): the `/generate_stream` endpoint in its two phases. `GenerateStream` is the endpoint body: it stores the user turn, builds the client and the chain, and maps setup errors to 400/500. `GenerateResponseChunks` is the response generator: it relays the chunks, accumulates them, and stores the assistant turn only once the stream is exhausted. The module also holds the note endpoints' 404 mapping and a worked example exchange (`ExampleExchange`).
- `wrappers.dfy` (module `Wrappers`): `Option` and `Result`.

Inputs that the real system gets from outside become parameters:
- The process environment is a `map<string, string>`.
- The time that passes before each insert is a `nat`.
- The model's answer is a `ChunkSource`: the chunks it yields, and whether it then raises instead of ending.
- A failure of the database write of the user turn is an optional error message.

The code as written behaves as follows, and the model does the same:
- The endpoint does no validation beyond the request types.
- Missing keys and unknown providers both raise `ValueError`, and both map to 400.
- An error inside the chunk stream happens after the streaming response has been returned. The endpoint's error mapping therefore never sees it. The stream just ends with the exception (`StreamEnd.Raised`) and no status code.
- `get_llm`'s default temperature is 0.3, as in its signature, not 0.7 as its docstring says.
- The history lists a turn's two rows by `ORDER BY timestamp` alone (`src/backend/crud.py:58`). With `func.now()` at one-second resolution, a user turn and its assistant turn can share a timestamp, and then their order in the history is left to the database. `Api.TwoTurnHistory` therefore requires the user row's timestamp to be strictly smaller, and `Api.ExampleExchange` lets time pass before the assistant write.

## Model

| member | source | states |
|---|---|---|
| Crud.Store.CreateChatMessage | src/backend/crud.py:48-54 | appends exactly one row carrying the given session, role, message, provider and model, with an id no existing row has and the current time; every existing row and the notes are unchanged |
| Crud.SessionRows | src/backend/crud.py:58 | the session filter keeps exactly the rows of that session, each as often as it is stored |
| Ordering.SortBy | src/backend/crud.py:58 | the ordering step returns a permutation of its input sorted by the key |
| Ordering.Window | src/backend/crud.py:58 | offset then limit: drops the first `skip` rows, keeps at most `limit`, in order |
| Crud.Store.GetChatHistory | src/backend/crud.py:56-58 | result is the skip/limit window of some timestamp-ascending arrangement of the session's rows; length at most `limit`; sorted ascending; only rows of that session; defaults 0 and 100 |
| Crud.ChatHistoryEmptyIffUnknown | src/backend/crud.py:56-58 | with no offset and a positive limit the history is empty exactly when the session has no rows (unknown session gives an empty list) |
| Crud.ChatHistoryComplete | src/backend/crud.py:56-58 | with no offset and a limit at least the session's row count, whatever other sessions hold, the history is a sorted permutation of all the session's rows |
| Crud.Store.CreateNote | src/backend/crud.py:62-68 | adds one note with the given title and content, a fresh id and the current time, other notes unchanged; get_note of the new id then returns it |
| Crud.Store.GetNote | src/backend/crud.py:70-72 | returns the note with that id, and None exactly when there is none |
| Crud.NotesInIdRangeSound | src/backend/crud.py:76 | the table scan yields only notes stored under their own ids, with ids in range and strictly increasing, so each note at most once |
| Crud.NotesInIdRangeMembers | src/backend/crud.py:76 | every note the scan yields is the note stored under its id |
| Crud.NotesInIdRangeComplete | src/backend/crud.py:76 | every stored note with an id in range is yielded by the scan |
| Crud.NotesInIdRangeFits | src/backend/crud.py:76 | the scan is no longer than the table |
| Crud.NotesWithDistinctIdsFit | src/backend/crud.py:76 | a scan of distinct stored ids is no longer than the table |
| Crud.Store.GetNotes | src/backend/crud.py:74-76 | result is the skip/limit window of some newest-first arrangement of all notes; length at most `limit`; timestamps non-increasing; only stored notes |
| Crud.NotesListingComplete | src/backend/crud.py:74-76 | with no offset and a limit at least the number of notes, every note is listed |
| Crud.Store.UpdateNote | src/backend/crud.py:78-86 | a missing id gives None and no change; an existing id gets the new title and content while its id, timestamp and every other note stay the same |
| Crud.Store.DeleteNote | src/backend/crud.py:88-94 | returns what get_note returned before; removes only that id, after which get_note gives None; a missing id changes nothing |
| LlmAbstraction.ParseProvider | src/backend/llm_abstraction.py:32-66 | the three provider names are recognised, and nothing else |
| LlmAbstraction.GetLlm | src/backend/llm_abstraction.py:8-66 | an unknown name gives the unsupported-provider error; a known provider with its key unset or empty gives the missing-key error naming its variable; otherwise the provider's client with that key, model, temperature, max tokens and streaming passed through, the token budget passed as max_output_tokens for gemini and max_tokens otherwise |
| LlmAbstraction.GetLlmReadsOnlyOwnKey | src/backend/llm_abstraction.py:32-64 | environments that agree on a provider's key give the same result for that provider, so a missing key affects only its own provider |
| LlmAbstraction.KnownProviderIsSupported | src/backend/llm_abstraction.py:65-66 | a request naming one of the three providers never gets the unsupported-provider error |
| LlmAbstraction.LlmModelsListsAcceptedProviders | src/backend/llm_abstraction.py:69-84 | the provider keys of LLM_MODELS are exactly the names the dispatch accepts |
| RagCore.GetLlmChain | src/backend/rag_core.py:16-54 | the context template, carrying the context string, is chosen exactly when use_rag_context is set and context_data is a non-empty string; the model is used as given |
| RagCore.DefaultChainIsSimple | src/backend/rag_core.py:16 | with default arguments the simple template is chosen and yields the fixed instruction and the question |
| RagCore.PromptMessages | src/backend/rag_core.py:32-52 | each template's prompt is exactly a system message then a user message; the system text starts with the fixed instruction; the user slot is the question (simple) or the whole chain input (context) |
| RagCore.ContextRecoverable | src/backend/rag_core.py:33-36 | the context system text is the instruction and preamble, then the context string intact, then the closing rule |
| Api.SetupErrorResponse | src/backend/main.py:115-121 | a ValueError becomes status 400 with its message; any other exception 500 with "Internal server error: " and its message |
| Api.UserMessage | src/backend/main.py:66-72 | the user turn carries role "user", the question, and the request's session, provider and model |
| Api.AssistantMessage | src/backend/main.py:102-108 | the assistant turn carries role "assistant", the full response text, and the request's session, provider and model; it is never the user turn |
| Api.ConcatGrows | src/backend/main.py:91-98 | the response buffer (`Concat` of the chunks so far) starts empty and only grows: each earlier buffer is a prefix of every later one, and it is empty exactly when every chunk so far was |
| Api.ConcatAppend | src/backend/main.py:98 | accumulating chunks is compositional: the buffer after a+b is the buffer of a followed by that of b |
| Api.ChunkAtItsOffset | src/backend/main.py:97-99 | each relayed chunk appears unchanged in the full buffer right after the chunks before it |
| Api.GenerateStream | src/backend/main.py:57-113 | the user turn (role user, the question, the request's session, provider and model) is stored before the client is built and stays stored when the key is missing (400); a failed user write gives 500 with nothing stored; on success the chain is the default one, whose prompt is the instruction and the question, whatever rag_enabled says |
| Api.GenerateResponseChunks | src/backend/main.py:93-109 | relays exactly the stream's chunks in order; the buffer after each chunk is the concatenation so far; on exhaustion exactly one assistant turn with the full text and the request's session, provider and model is stored; when the stream raises, nothing is stored |
| Api.TurnRowsShape | src/backend/main.py:64-109 | a request leaves at most a user turn then an assistant turn, both with the request's session, provider and model; the assistant turn exists exactly when setup succeeded and the stream was exhausted, and holds the concatenation of all chunks |
| Api.ServeGenerateStream | src/backend/main.py:57-113 | a whole request appends exactly the rows TurnRows describes and alters no earlier row; it is rejected exactly on a write fault or a missing key; otherwise the caller gets every chunk |
| Api.NoteOr404 | src/backend/main.py:149-150 | a crud result of None becomes 404 "Note not found"; a note is returned unchanged |
| Api.ReadNote | src/backend/main.py:145-151 | GET /notes/{id} answers 404 exactly when no note has that id, and the stored note exactly when it has |
| Api.UpdateExistingNote | src/backend/main.py:159-165 | PUT /notes/{id} answers 404 with nothing changed exactly when the id is unknown; and the note exactly when it is known: the new title and content, its id and timestamp kept, and every other note unchanged |
| Api.DeleteExistingNote | src/backend/main.py:167-173 | DELETE /notes/{id} answers 404 exactly when the id is unknown, and the removed note exactly when it is known; only that id is removed |
| Api.GetSessionChatHistory | src/backend/main.py:125-129 | the endpoint forwards no offset or limit, so it returns at most 100 rows: the crud defaults |
| Api.TwoTurnHistory | src/backend/crud.py:58 | a session of two rows with distinct timestamps is listed oldest first, whatever rows other sessions have |
| Ordering.TwoRowsOrdering | src/backend/crud.py:58 | two rows with distinct keys have only one sorted arrangement |
| Ordering.WindowOfOrdering | src/backend/crud.py:58 | a window of a sorted arrangement is sorted and holds only input rows |
| Ordering.WindowOfOrderingAll | src/backend/crud.py:58 | with no offset and a limit at least the input size the window is the whole arrangement and holds every input row |

## Left out

- Negative `skip` or `limit`: `skip` and `limit` are `nat` here. The endpoints accept any integer and hand it to the database engine, whose handling of negative values is not modelled.
- Id reuse: ids come from a per-table counter and are never reused. SQLite's rowid can hand out a deleted note's id again when it was the largest one. That is not modelled.
- Timestamps are integers on a clock that never goes back. Their resolution and time zone are not modelled.
- `Crud.Store.UpdateNote` writes the two fields of NoteUpdate directly. The source does this with a `setattr` loop over those same two fields.
- The `url`, `comments` and `tags` columns of the notes table. NoteCreate never supplies them, yet `src/backend/database.py:47-50` declares them NOT NULL with no default, so on a table built from that schema the insert of `src/backend/crud.py:64-66` is refused. `Crud.Store.CreateNote` models a table without those columns.
- The single-worker thread pool and `run_in_executor`: each store call is one atomic, sequential step.
- Request parsing and validation by FastAPI and pydantic (a provider outside the three names is turned away before the endpoint runs), JSON serialisation, and the StreamingResponse transport.
- The LangChain clients, the model call and `StrOutputParser`: the dispatch returns the constructor call as data, and the model's output is the `ChunkSource` input.
- A stream failure is modelled as an exception raised after the chunks of the `ChunkSource`. A failure after k chunks is the source holding those k chunks.
- Setup exceptions other than a failed user-turn write, such as a client constructor rejecting its arguments, are not modelled. A write failure leaves the store unchanged; the database session's rollback is not modelled. The `print` of an unexpected setup error to the server console (`src/backend/main.py:120`) is output only and is left out.
- Database failures while writing the assistant turn, or in the note and history endpoints.
- The string that the context template renders for the whole chain input, which is Python's text form of a dictionary: the user slot holds the input itself (`WholeInput`).
- The caller disconnecting mid-stream, and timeouts.
- Api.ServeGenerateStream: describes one request in isolation. In the running service, rows of other requests can be written between a request's user turn and its assistant turn while its stream is open; interleaved requests are not modelled.
- `GET /health`, `POST /chat_history/`, `POST /notes/` and `GET /notes/`: they only forward to the crud operations modelled above.
- `src/backend/database.py` beyond its columns; the Streamlit front end and its HTTP client (`src/frontend/`, `archive/utils-v1.0.py`); `dev/nonlocal.py`.
- Temperatures are Python floats. They are kept as `real` and only passed on.
