/**
 * The backend's HTTP endpoints: the streaming generation endpoint and the
 * note endpoints that answer 404 for an unknown id.
 *
 * Generation runs in two phases, as in the source. The endpoint body
 * (GenerateStream) stores the user turn, builds the client and the chain, and
 * returns a streaming response; setup errors become HTTP errors there. The
 * response's generator (GenerateResponseChunks) runs afterwards, while the
 * framework sends the body: it relays the chunks, accumulates them, and stores
 * the assistant turn only once the chunk stream is exhausted. The model's
 * chunk stream is an input: the chunks it yields, and whether it then raises
 * instead of ending.
 */
module Api {
  import opened Wrappers
  import opened Ordering
  import opened Crud
  import opened LlmAbstraction
  import opened RagCore

  /** The body of POST /generate_stream, with the source's defaults. */
  datatype GenerateRequest = GenerateRequest(
    question: string,
    llmProvider: Provider,
    llmModel: string,
    sessionId: string,
    temperature: real := 0.3,
    maxTokens: int := 1024,
    ragEnabled: bool := false)

  /** An HTTPException: status code and detail text. */
  datatype HttpError = HttpError(statusCode: int, detail: string)

  /** The exceptions the endpoint body can raise during setup. */
  datatype SetupFailure = ValueError(message: string) | Unexpected(message: string)

  /** A setup ValueError becomes a 400 with its message; anything else a 500. */
  function SetupErrorResponse(e: SetupFailure): (h: HttpError)
    ensures h.statusCode == 400 <==> e.ValueError?
    ensures h.statusCode == 500 <==> e.Unexpected?
    ensures e.ValueError? ==> h.detail == e.message
    ensures e.Unexpected? ==> h.detail == "Internal server error: " + e.message
  {
    match e
    case ValueError(m) => HttpError(400, m)
    case Unexpected(m) => HttpError(500, "Internal server error: " + m)
  }

  /** The stored user turn of a request. */
  function UserMessage(request: GenerateRequest): (m: ChatMessageCreate)
    ensures m.role == "user" && m.message == request.question
    ensures m.sessionId == request.sessionId
    ensures m.llmProvider == request.llmProvider.Name() && m.llmModel == request.llmModel
  {
    ChatMessageCreate(request.sessionId, "user", request.question, request.llmProvider.Name(), request.llmModel)
  }

  /** The stored assistant turn of a request, carrying the full response text. */
  function AssistantMessage(request: GenerateRequest, text: string): (m: ChatMessageCreate)
    ensures m.role == "assistant" && m.message == text
    ensures m.sessionId == request.sessionId
    ensures m.llmProvider == request.llmProvider.Name() && m.llmModel == request.llmModel
    ensures m != UserMessage(request)
  {
    ChatMessageCreate(request.sessionId, "assistant", text, request.llmProvider.Name(), request.llmModel)
  }

  /** The concatenation of the chunks, in order. */
  function Concat(chunks: seq<string>): string
  {
    if chunks == [] then "" else Concat(chunks[..|chunks| - 1]) + chunks[|chunks| - 1]
  }

  /**
   * The buffer only grows: after any further chunks, the earlier buffer is
   * a prefix of the new one, and the buffer is empty exactly when every
   * chunk so far was.
   */
  lemma {:induction false} ConcatGrows(chunks: seq<string>, more: seq<string>)
    ensures Concat(chunks) <= Concat(chunks + more)
    ensures Concat(chunks) == "" <==> forall k :: 0 <= k < |chunks| ==> chunks[k] == ""
    decreases |chunks|
  {
    ConcatAppend(chunks, more);
    if chunks != [] {
      var init := chunks[..|chunks| - 1];
      ConcatGrows(init, []);
      forall k | 0 <= k < |init| ensures init[k] == chunks[k] { }
    }
  }

  lemma {:induction false} ConcatAppend(a: seq<string>, b: seq<string>)
    ensures Concat(a + b) == Concat(a) + Concat(b)
  {
    if b == [] {
      assert a + b == a;
    } else {
      var b' := b[..|b| - 1];
      assert (a + b)[..|a + b| - 1] == a + b';
      ConcatAppend(a, b');
    }
  }

  /**
   * Every chunk appears in the concatenation, unchanged, right after the
   * chunks before it: nothing is dropped or reordered.
   */
  lemma ChunkAtItsOffset(chunks: seq<string>, k: nat)
    requires k < |chunks|
    ensures var start := |Concat(chunks[..k])|;
            start + |chunks[k]| <= |Concat(chunks)| &&
            Concat(chunks)[start..start + |chunks[k]|] == chunks[k]
  {
    assert chunks == chunks[..k] + [chunks[k]] + chunks[k + 1..];
    ConcatAppend(chunks[..k] + [chunks[k]], chunks[k + 1..]);
    ConcatAppend(chunks[..k], [chunks[k]]);
    assert [chunks[k]][..0] == [];
  }

  /** What the endpoint body hands to the streaming response: the client, the chain and the request. */
  datatype PreparedStream = PreparedStream(llm: ClientConfig, chain: Chain<ClientConfig>, request: GenerateRequest)

  /** The model's chunk stream: the chunks it yields, then an end or, when `failure` is set, an exception. */
  datatype ChunkSource = ChunkSource(chunks: seq<string>, failure: Option<string>)

  /** How the response body ended: the stream was exhausted, or it raised. */
  datatype StreamEnd = Exhausted | Raised(message: string)

  /**
   * generate_stream, the endpoint body: stores the user turn, then builds the
   * client (streaming on) and the chain. A failure of the user-turn write
   * (`dbFault`) is an unexpected exception and becomes a 500 with nothing
   * stored; a ValueError from the client dispatch becomes a 400, and the user
   * turn stays stored. The chain is always built without context: the
   * request's `ragEnabled` plays no part.
   */
  method GenerateStream(db: Store, request: GenerateRequest, env: Env, dbFault: Option<string>, elapsed: nat)
    returns (r: Result<PreparedStream, HttpError>)
    requires db.Valid()
    modifies db`chatHistory, db`nextChatId, db`clock
    ensures db.Valid()
    ensures dbFault.Some? ==>
              r == Err(HttpError(500, "Internal server error: " + dbFault.value)) && unchanged(db)
    ensures dbFault.None? ==>
              && |db.chatHistory| == |old(db.chatHistory)| + 1
              && db.chatHistory[..|old(db.chatHistory)|] == old(db.chatHistory)
              && db.chatHistory[|old(db.chatHistory)|].Payload() == UserMessage(request)
              && db.chatHistory[|old(db.chatHistory)|].timestamp == db.clock == old(db.clock) + elapsed
    ensures dbFault.None? ==>
              match GetLlm(env, request.llmProvider.Name(), request.llmModel, request.temperature, request.maxTokens, true)
              case Err(e) => r == Err(HttpError(400, e.Message()))
              case Ok(llm) => r == Ok(PreparedStream(llm, GetLlmChain(llm), request))
    ensures dbFault.None? ==>
              (r.Err? <==> !HasValue(env, request.llmProvider.KeyVariable()))
    ensures r.Ok? ==>
              PromptMessages(r.value.chain, ChainInput(request.question)) ==
              [Message("system", Text(Instruction)), Message("user", Text(request.question))]
  {
    if dbFault.Some? {
      return Err(SetupErrorResponse(Unexpected(dbFault.value)));
    }
    var _ := db.CreateChatMessage(UserMessage(request), elapsed);
    var llm := GetLlm(env, request.llmProvider.Name(), request.llmModel, request.temperature, request.maxTokens, true);
    ParseProviderName(request.llmProvider);
    if llm.Err? {
      return Err(SetupErrorResponse(ValueError(llm.error.Message())));
    }
    var chain := GetLlmChain(llm.value);
    DefaultChainIsSimple(llm.value, ChainInput(request.question));
    r := Ok(PreparedStream(llm.value, chain, request));
  }

  /**
   * generate_response_chunks: relays each chunk in arrival order while
   * appending it to the buffer (`buffers[k]` is the buffer after chunk k).
   * When the stream is exhausted, stores exactly one assistant turn whose text
   * is the whole buffer; when it raises, the exception reaches the caller
   * after the chunks already relayed, and nothing is stored.
   */
  method GenerateResponseChunks(db: Store, prepared: PreparedStream, source: ChunkSource, elapsed: nat)
    returns (relayed: seq<string>, buffer: string, ghost buffers: seq<string>, end: StreamEnd)
    requires db.Valid()
    modifies db`chatHistory, db`nextChatId, db`clock
    ensures db.Valid()
    ensures relayed == source.chunks
    ensures buffer == Concat(relayed)
    ensures |buffers| == |relayed|
    ensures forall k :: 0 <= k < |buffers| ==> buffers[k] == Concat(relayed[..k + 1])
    ensures source.failure.None? ==>
              && end == Exhausted
              && |db.chatHistory| == |old(db.chatHistory)| + 1
              && db.chatHistory[..|old(db.chatHistory)|] == old(db.chatHistory)
              && db.chatHistory[|old(db.chatHistory)|].Payload() == AssistantMessage(prepared.request, buffer)
              && db.chatHistory[|old(db.chatHistory)|].timestamp == db.clock == old(db.clock) + elapsed
    ensures source.failure.Some? ==> end == Raised(source.failure.value) && unchanged(db)
  {
    relayed, buffer, buffers := [], "", [];
    var i := 0;
    while i < |source.chunks|
      invariant 0 <= i <= |source.chunks|
      invariant relayed == source.chunks[..i]
      invariant buffer == Concat(relayed)
      invariant |buffers| == i
      invariant forall k :: 0 <= k < i ==> buffers[k] == Concat(source.chunks[..k + 1])
    {
      var chunk := source.chunks[i];
      assert source.chunks[..i + 1] == relayed + [chunk];
      buffer := buffer + chunk;
      relayed := relayed + [chunk];
      buffers := buffers + [buffer];
      i := i + 1;
    }
    assert source.chunks[..i] == source.chunks;
    if source.failure.Some? {
      end := Raised(source.failure.value);
      return;
    }
    var _ := db.CreateChatMessage(AssistantMessage(prepared.request, buffer), elapsed);
    end := Exhausted;
  }

  /** The caller-supplied columns of a run of rows. */
  function Payloads(rows: seq<ChatHistory>): (p: seq<ChatMessageCreate>)
    ensures |p| == |rows|
    ensures forall i :: 0 <= i < |rows| ==> p[i] == rows[i].Payload()
  {
    if rows == [] then [] else [rows[0].Payload()] + Payloads(rows[1..])
  }

  /**
   * The chat rows one generation request leaves behind, as a reference for
   * the two phases together: none when the user-turn write fails; the user
   * turn alone when setup fails or the stream raises; the user turn and then
   * the assistant turn with the full text when the stream is exhausted.
   */
  function TurnRows(request: GenerateRequest, env: Env, dbFault: Option<string>, source: ChunkSource)
    : seq<ChatMessageCreate>
  {
    if dbFault.Some? then []
    else if !HasValue(env, request.llmProvider.KeyVariable()) || source.failure.Some? then [UserMessage(request)]
    else [UserMessage(request), AssistantMessage(request, Concat(source.chunks))]
  }

  /**
   * Every request writes at most one user turn and at most one assistant
   * turn, user first; both carry the request's session, provider and model;
   * the assistant turn exists exactly when setup succeeded and the stream was
   * exhausted, and its text is the concatenation of every chunk.
   */
  lemma TurnRowsShape(request: GenerateRequest, env: Env, dbFault: Option<string>, source: ChunkSource)
    ensures var rows := TurnRows(request, env, dbFault, source);
            && |rows| <= 2
            && (rows != [] <==> dbFault.None?)
            && (rows != [] ==> rows[0] == UserMessage(request) && rows[0].message == request.question)
            && (|rows| == 2 <==> dbFault.None? && HasValue(env, request.llmProvider.KeyVariable()) && source.failure.None?)
            && (|rows| == 2 ==> rows[1].role == "assistant" && rows[1].message == Concat(source.chunks))
            && (forall m :: m in rows ==>
                  m.sessionId == request.sessionId && m.llmProvider == request.llmProvider.Name()
                  && m.llmModel == request.llmModel)
  {
  }

  /** The result of a whole generation request as its caller sees it. */
  datatype Generation = Rejected(error: HttpError) | Streamed(chunks: seq<string>, end: StreamEnd)

  /**
   * One generation request from start to finish: the endpoint body, then, if
   * it returned a streaming response, the framework draining its generator.
   * The rows it appends are exactly TurnRows. It describes one request in
   * isolation: no other request writes between its two phases.
   */
  method ServeGenerateStream(db: Store, request: GenerateRequest, env: Env, dbFault: Option<string>,
                             source: ChunkSource, setupElapsed: nat, streamElapsed: nat)
    returns (g: Generation)
    requires db.Valid()
    modifies db`chatHistory, db`nextChatId, db`clock
    ensures db.Valid()
    ensures |old(db.chatHistory)| <= |db.chatHistory|
    ensures db.chatHistory[..|old(db.chatHistory)|] == old(db.chatHistory)
    ensures Payloads(db.chatHistory[|old(db.chatHistory)|..]) == TurnRows(request, env, dbFault, source)
    ensures g.Rejected? <==> dbFault.Some? || !HasValue(env, request.llmProvider.KeyVariable())
    ensures g.Streamed? ==> g.chunks == source.chunks
    ensures g.Streamed? ==> (g.end == Exhausted <==> source.failure.None?)
  {
    var before := db.chatHistory;
    var setup := GenerateStream(db, request, env, dbFault, setupElapsed);
    if setup.Err? {
      g := Rejected(setup.error);
      return;
    }
    var afterSetup := db.chatHistory;
    var relayed, buffer, buffers, end := GenerateResponseChunks(db, setup.value, source, streamElapsed);
    g := Streamed(relayed, end);
    assert db.chatHistory[..|before|] == afterSetup[..|before|];
  }

  /** The 404 answer of the note endpoints. */
  const NoteNotFound := HttpError(404, "Note not found")

  /** A crud result of None becomes a 404; a note is returned as it is. */
  function NoteOr404(found: Option<Note>): (r: Result<Note, HttpError>)
    ensures r.Err? <==> found.None?
    ensures r.Err? ==> r.error == NoteNotFound
    ensures r.Ok? ==> r.value == found.value
  {
    match found
    case None => Err(NoteNotFound)
    case Some(n) => Ok(n)
  }

  /** GET /notes/{note_id}: the note, or 404 exactly when no note has that id. */
  function ReadNote(db: Store, noteId: int): (r: Result<Note, HttpError>)
    reads db
    ensures r == Err(NoteNotFound) <==> noteId !in db.notes
    ensures r.Ok? <==> noteId in db.notes
    ensures r.Ok? ==> r.value == db.notes[noteId]
  {
    NoteOr404(db.GetNote(noteId))
  }

  /** PUT /notes/{note_id}: the updated note, or 404 with nothing changed exactly when no note has that id. */
  method UpdateExistingNote(db: Store, noteId: int, note: NoteUpdate) returns (r: Result<Note, HttpError>)
    requires db.Valid()
    modifies db`notes
    ensures db.Valid()
    ensures r == Err(NoteNotFound) <==> noteId !in old(db.notes)
    ensures r.Ok? <==> noteId in old(db.notes)
    ensures r.Err? ==> db.notes == old(db.notes)
    ensures r.Ok? ==> noteId in db.notes && r.value == db.notes[noteId] && r.value.title == note.title && r.value.content == note.content
    ensures r.Ok? ==> && r.value.id == noteId
                      && r.value.timestamp == old(db.notes[noteId].timestamp)
                      && db.notes == old(db.notes)[noteId := r.value]
  {
    var updated := db.UpdateNote(noteId, note);
    r := NoteOr404(updated);
  }

  /** DELETE /notes/{note_id}: the removed note, or 404 with nothing changed exactly when no note has that id. */
  method DeleteExistingNote(db: Store, noteId: int) returns (r: Result<Note, HttpError>)
    requires db.Valid()
    modifies db`notes
    ensures db.Valid()
    ensures r == Err(NoteNotFound) <==> noteId !in old(db.notes)
    ensures r.Ok? <==> noteId in old(db.notes)
    ensures r.Ok? ==> r.value == old(db.notes[noteId])
    ensures db.notes == old(db.notes) - {noteId}
  {
    var deleted := db.DeleteNote(noteId);
    r := NoteOr404(deleted);
  }

  /**
   * GET /chat_history/{session_id}: the session's history with the crud
   * defaults, because the endpoint passes no offset or limit: at most the 100
   * oldest rows of the session.
   */
  function GetSessionChatHistory(db: Store, sessionId: string): (r: seq<ChatHistory>)
    reads db
    ensures |r| <= 100
    ensures r == db.GetChatHistory(sessionId, 0, 100)
  {
    db.GetChatHistory(sessionId)
  }

  /** A table of two rows of one session holds that session's rows and nothing else. */
  lemma OneSessionTable(rows: seq<ChatHistory>, sessionId: string, u: ChatHistory, a: ChatHistory)
    requires rows == [u, a]
    requires u.sessionId == sessionId && a.sessionId == sessionId
    ensures SessionRows(rows, sessionId) == [u, a]
  {
    assert rows[1..] == [a];
    assert [a][1..] == [];
  }

  /**
   * A session whose two rows have distinct timestamps is listed in timestamp
   * order, whatever rows other sessions have: the tie freedom of ORDER BY
   * does not apply.
   */
  lemma TwoTurnHistory(db: Store, sessionId: string, u: ChatHistory, a: ChatHistory)
    requires SessionRows(db.chatHistory, sessionId) == [u, a]
    requires u.timestamp < a.timestamp
    ensures db.GetChatHistory(sessionId) == [u, a]
  {
    ChatHistoryComplete(db, sessionId, 100);
    TwoRowsOrdering(db.GetChatHistory(sessionId), u, a, ChatTime);
  }

  /**
   * The example exchange: a claude request "Hi" in session "s1" whose model
   * streams "Hel" and "lo!" leaves the history user "Hi", then assistant
   * "Hello!".
   */
  method ExampleExchange()
  {
    var db := new Store(0);
    var env: Env := map["ANTHROPIC_API_KEY" := "key"];
    var request := GenerateRequest("Hi", Claude, "claude-3-5-sonnet", "s1", temperature := 0.7);
    assert HasValue(env, Claude.KeyVariable());
    var setup := GenerateStream(db, request, env, None, 0);
    var relayed, buffer, buffers, end := GenerateResponseChunks(db, setup.value, ChunkSource(["Hel", "lo!"], None), 1);
    assert Concat(["Hel", "lo!"]) == "Hello!" by {
      assert ["Hel", "lo!"][..1] == ["Hel"];
      assert ["Hel"][..0] == [];
    }
    assert relayed == ["Hel", "lo!"] && buffer == "Hello!";
    var u, a := db.chatHistory[0], db.chatHistory[1];
    assert db.chatHistory == [u, a];
    OneSessionTable(db.chatHistory, "s1", u, a);
    TwoTurnHistory(db, "s1", u, a);
    var history := db.GetChatHistory("s1");
    assert history[0].role == "user" && history[0].message == "Hi";
    assert history[1].role == "assistant" && history[1].message == "Hello!";
  }
}
