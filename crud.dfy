/**
 * The persistence layer of the backend: chat history and notes, kept as an
 * in-memory table instead of the SQL database behind the ORM.
 *
 * The two tables are a sequence of chat rows (in insertion order) and a map of
 * notes by id. Ids come from one counter per table, as an auto-increment
 * primary key would assign them. The `timestamp` column's `func.now()`
 * default becomes a clock that never goes back: each insert is given the time
 * that passed since the previous store operation, and several rows may share
 * one timestamp.
 */
module Crud {
  import opened Wrappers
  import opened Ordering

  /** The request body that creates a chat row (ChatMessageCreate). */
  datatype ChatMessageCreate = ChatMessageCreate(
    sessionId: string,
    role: string,
    message: string,
    llmProvider: string,
    llmModel: string)

  /** A stored chat row (the `chat_history` table, returned as ChatMessageResponse). */
  datatype ChatHistory = ChatHistory(
    id: int,
    timestamp: int,
    sessionId: string,
    role: string,
    message: string,
    llmProvider: string,
    llmModel: string)
  {
    /** The caller-supplied columns of the row. */
    function Payload(): ChatMessageCreate {
      ChatMessageCreate(sessionId, role, message, llmProvider, llmModel)
    }
  }

  /** The request body that creates or overwrites a note (NoteCreate and NoteUpdate). */
  datatype NoteCreate = NoteCreate(title: string, content: string)

  type NoteUpdate = NoteCreate

  /** A stored note (the `notes` table, returned as NoteResponse). */
  datatype Note = Note(id: int, timestamp: int, title: string, content: string)

  /** Sort key of `ORDER BY timestamp` (oldest first). */
  function ChatTime(m: ChatHistory): int { m.timestamp }

  /** Sort key of `ORDER BY timestamp DESC` (newest first). */
  function NoteAge(n: Note): int { -n.timestamp }

  /** The rows of `rows` whose session is `sessionId`, each as often as in `rows`. */
  function SessionRows(rows: seq<ChatHistory>, sessionId: string): (r: seq<ChatHistory>)
    ensures forall m :: multiset(r)[m] == if m.sessionId == sessionId then multiset(rows)[m] else 0
    ensures forall m :: m in r <==> m in rows && m.sessionId == sessionId
    ensures |r| <= |rows|
  {
    if rows == [] then []
    else
      assert rows == [rows[0]] + rows[1..];
      (if rows[0].sessionId == sessionId then [rows[0]] else []) + SessionRows(rows[1..], sessionId)
  }

  /** Every note is stored under its own id. */
  predicate KeyedById(m: map<int, Note>) {
    forall id :: id in m ==> m[id].id == id
  }

  /** The notes whose ids lie in [lo, hi), in increasing id order (a table scan). */
  function NotesInIdRange(m: map<int, Note>, lo: int, hi: int): seq<Note>
    decreases hi - lo
  {
    if lo >= hi then []
    else (if lo in m then [m[lo]] else []) + NotesInIdRange(m, lo + 1, hi)
  }

  /** `r` holds only notes stored under their ids in [lo, hi), in strictly increasing id order. */
  predicate ScanSound(m: map<int, Note>, lo: int, hi: int, r: seq<Note>) {
    && (forall i :: 0 <= i < |r| ==> lo <= r[i].id < hi && r[i].id in m && m[r[i].id] == r[i])
    && (forall i, j :: 0 <= i < j < |r| ==> r[i].id < r[j].id)
  }

  /** The scan yields only stored notes with ids in range, in strictly increasing id order. */
  lemma {:induction false} NotesInIdRangeSound(m: map<int, Note>, lo: int, hi: int)
    requires KeyedById(m)
    decreases hi - lo
    ensures ScanSound(m, lo, hi, NotesInIdRange(m, lo, hi))
  {
    if lo < hi {
      NotesInIdRangeSound(m, lo + 1, hi);
      var rest := NotesInIdRange(m, lo + 1, hi);
      if lo in m {
        var r := [m[lo]] + rest;
        assert NotesInIdRange(m, lo, hi) == r;
        assert forall i :: 1 <= i < |r| ==> r[i] == rest[i - 1];
      } else {
        assert NotesInIdRange(m, lo, hi) == rest;
      }
    }
  }

  /** Every note of the scan is the note stored under its id. */
  lemma NotesInIdRangeMembers(m: map<int, Note>, lo: int, hi: int)
    requires KeyedById(m)
    ensures forall n :: n in NotesInIdRange(m, lo, hi) ==> n.id in m && m[n.id] == n
  {
    NotesInIdRangeSound(m, lo, hi);
  }

  /** The scan yields every stored note whose id is in range. */
  lemma {:induction false} NotesInIdRangeComplete(m: map<int, Note>, lo: int, hi: int, id: int)
    requires lo <= id < hi && id in m
    decreases hi - lo
    ensures m[id] in NotesInIdRange(m, lo, hi)
  {
    if id > lo {
      NotesInIdRangeComplete(m, lo + 1, hi, id);
    }
  }

  /** A list of notes with strictly increasing ids, all of them keys of `m`, is no longer than `m`. */
  lemma {:induction false} NotesWithDistinctIdsFit(r: seq<Note>, keys: set<int>)
    requires forall i :: 0 <= i < |r| ==> r[i].id in keys
    requires forall i, j :: 0 <= i < j < |r| ==> r[i].id < r[j].id
    ensures |r| <= |keys|
  {
    if r != [] {
      var rest := keys - {r[0].id};
      forall i | 0 <= i < |r[1..]| ensures r[1..][i].id in rest {
        assert r[1..][i] == r[i + 1];
      }
      NotesWithDistinctIdsFit(r[1..], rest);
    }
  }

  /** A scan of the table is no longer than the table. */
  lemma NotesInIdRangeFits(m: map<int, Note>, lo: int, hi: int)
    requires KeyedById(m)
    ensures |NotesInIdRange(m, lo, hi)| <= |m|
  {
    NotesInIdRangeSound(m, lo, hi);
    NotesWithDistinctIdsFit(NotesInIdRange(m, lo, hi), m.Keys);
  }

  /** The database: the two tables, their id counters and the clock. */
  class Store {
    var chatHistory: seq<ChatHistory>
    var notes: map<int, Note>
    var nextChatId: int
    var nextNoteId: int
    var clock: int

    /** Ids are positive, below their counter and unique; no row is stamped in the future. */
    ghost predicate Valid()
      reads this
    {
      && 1 <= nextChatId
      && 1 <= nextNoteId
      && (forall i :: 0 <= i < |chatHistory| ==>
            1 <= chatHistory[i].id < nextChatId && chatHistory[i].timestamp <= clock)
      && (forall i, j :: 0 <= i < j < |chatHistory| ==> chatHistory[i].id < chatHistory[j].id)
      && KeyedById(notes)
      && (forall id :: id in notes ==> 1 <= id < nextNoteId && notes[id].timestamp <= clock)
    }

    /** An empty database whose clock reads `now`. */
    constructor (now: int)
      ensures Valid()
      ensures chatHistory == [] && notes == map[] && clock == now
    {
      chatHistory := [];
      notes := map[];
      nextChatId := 1;
      nextNoteId := 1;
      clock := now;
    }

    /** create_chat_message: appends one row carrying `message`, with a fresh id and the current time. */
    method CreateChatMessage(message: ChatMessageCreate, elapsed: nat) returns (row: ChatHistory)
      requires Valid()
      modifies this`chatHistory, this`nextChatId, this`clock
      ensures Valid()
      ensures row.Payload() == message
      ensures row.timestamp == clock == old(clock) + elapsed
      ensures forall m :: m in old(chatHistory) ==> m.id != row.id
      ensures chatHistory == old(chatHistory) + [row]
      ensures row.id == old(nextChatId) && nextChatId == old(nextChatId) + 1
    {
      clock := clock + elapsed;
      row := ChatHistory(nextChatId, clock, message.sessionId, message.role, message.message,
                         message.llmProvider, message.llmModel);
      chatHistory := chatHistory + [row];
      nextChatId := nextChatId + 1;
    }

    /**
     * get_chat_history: the rows of one session, oldest first, after skipping
     * `skip` of them and keeping at most `limit`. Rows with equal timestamps
     * may come in any order, so the result is stated as a window of SOME
     * ascending arrangement of the session's rows.
     */
    function GetChatHistory(sessionId: string, skip: nat := 0, limit: nat := 100): (r: seq<ChatHistory>)
      reads this
      ensures exists o :: IsOrdering(o, SessionRows(chatHistory, sessionId), ChatTime) && r == Window(o, skip, limit)
      ensures |r| <= limit
      ensures SortedBy(r, ChatTime)
      ensures forall m :: m in r ==> m in chatHistory && m.sessionId == sessionId
    {
      var ordered := SortBy(SessionRows(chatHistory, sessionId), ChatTime);
      WindowOfOrdering(ordered, SessionRows(chatHistory, sessionId), skip, limit, ChatTime);
      Window(ordered, skip, limit)
    }

    /** create_note: adds one note with `note`'s title and content, a fresh id and the current time. */
    method CreateNote(note: NoteCreate, elapsed: nat) returns (row: Note)
      requires Valid()
      modifies this`notes, this`nextNoteId, this`clock
      ensures Valid()
      ensures row.title == note.title && row.content == note.content
      ensures row.timestamp == clock == old(clock) + elapsed
      ensures row.id !in old(notes)
      ensures notes == old(notes)[row.id := row]
      ensures GetNote(row.id) == Some(row)
      ensures row.id == old(nextNoteId) && nextNoteId == old(nextNoteId) + 1
    {
      clock := clock + elapsed;
      row := Note(nextNoteId, clock, note.title, note.content);
      notes := notes[row.id := row];
      nextNoteId := nextNoteId + 1;
    }

    /** get_note: the note with id `noteId`, or None when there is none. */
    function GetNote(noteId: int): (r: Option<Note>)
      reads this
      ensures r.Some? <==> noteId in notes
      ensures r.Some? ==> r.value == notes[noteId]
    {
      if noteId in notes then Some(notes[noteId]) else None
    }

    /**
     * get_notes: all notes, newest first, after skipping `skip` and keeping at
     * most `limit`; notes with equal timestamps may come in any order.
     */
    function GetNotes(skip: nat := 0, limit: nat := 100): (r: seq<Note>)
      requires Valid()
      reads this
      ensures exists o :: IsOrdering(o, NotesInIdRange(notes, 1, nextNoteId), NoteAge) && r == Window(o, skip, limit)
      ensures |r| <= limit
      ensures forall i, j :: 0 <= i < j < |r| ==> r[i].timestamp >= r[j].timestamp
      ensures forall n :: n in r ==> n.id in notes && notes[n.id] == n
    {
      var all := NotesInIdRange(notes, 1, nextNoteId);
      var ordered := SortBy(all, NoteAge);
      WindowOfOrdering(ordered, all, skip, limit, NoteAge);
      NotesInIdRangeMembers(notes, 1, nextNoteId);
      Window(ordered, skip, limit)
    }

    /**
     * update_note: when note `noteId` exists, overwrites its title and content
     * and returns it; its id and timestamp and every other note stay as they
     * were. When it does not exist, returns None and changes nothing.
     */
    method UpdateNote(noteId: int, note: NoteUpdate) returns (r: Option<Note>)
      requires Valid()
      modifies this`notes
      ensures Valid()
      ensures noteId !in old(notes) ==> r == None && notes == old(notes)
      ensures noteId in old(notes) ==>
                && r.Some?
                && r.value.id == noteId && r.value.timestamp == old(notes[noteId].timestamp)
                && r.value.title == note.title && r.value.content == note.content
                && notes == old(notes)[noteId := r.value]
      ensures GetNote(noteId) == r
    {
      r := GetNote(noteId);
      if r.Some? {
        var updated := r.value.(title := note.title, content := note.content);
        notes := notes[noteId := updated];
        r := Some(updated);
      }
    }

    /**
     * delete_note: removes note `noteId` and returns it, leaving every other
     * note as it was; returns None and changes nothing when it is absent.
     */
    method DeleteNote(noteId: int) returns (r: Option<Note>)
      requires Valid()
      modifies this`notes
      ensures Valid()
      ensures r == old(GetNote(noteId))
      ensures notes == old(notes) - {noteId}
      ensures GetNote(noteId) == None
    {
      r := GetNote(noteId);
      if r.Some? {
        notes := notes - {noteId};
      }
    }
  }

  /**
   * With no offset and a nonzero limit, a session's history is empty exactly
   * when the session has no rows: an unknown session gives an empty list, not
   * an error.
   */
  lemma ChatHistoryEmptyIffUnknown(db: Store, sessionId: string, limit: nat)
    requires limit > 0
    ensures db.GetChatHistory(sessionId, 0, limit) == [] <==>
            forall m :: m in db.chatHistory ==> m.sessionId != sessionId
  {
    var rows := SessionRows(db.chatHistory, sessionId);
    var r := db.GetChatHistory(sessionId, 0, limit);
    var o :| IsOrdering(o, rows, ChatTime) && r == Window(o, 0, limit);
    if m :| m in db.chatHistory && m.sessionId == sessionId {
      assert m in rows;
      assert multiset(o)[m] > 0;
      assert |o| > 0;
      assert |r| > 0;
    }
  }

  /**
   * With no offset and a limit no smaller than the session's row count, its history
   * holds every row of that session, as often as it is stored, oldest first.
   */
  lemma ChatHistoryComplete(db: Store, sessionId: string, limit: nat)
    requires |SessionRows(db.chatHistory, sessionId)| <= limit
    ensures IsOrdering(db.GetChatHistory(sessionId, 0, limit), SessionRows(db.chatHistory, sessionId), ChatTime)
    ensures forall m :: m in db.chatHistory && m.sessionId == sessionId ==> m in db.GetChatHistory(sessionId, 0, limit)
  {
    var rows := SessionRows(db.chatHistory, sessionId);
    var r := db.GetChatHistory(sessionId, 0, limit);
    var o :| IsOrdering(o, rows, ChatTime) && r == Window(o, 0, limit);
    WindowOfOrderingAll(o, rows, limit, ChatTime);
  }

  /**
   * With no offset and a limit no smaller than the number of notes, the note
   * listing holds every stored note.
   */
  lemma NotesListingComplete(db: Store, limit: nat)
    requires db.Valid()
    requires |db.notes| <= limit
    ensures forall id :: id in db.notes ==> db.notes[id] in db.GetNotes(0, limit)
  {
    var all := NotesInIdRange(db.notes, 1, db.nextNoteId);
    var r := db.GetNotes(0, limit);
    var o :| IsOrdering(o, all, NoteAge) && r == Window(o, 0, limit);
    NotesInIdRangeFits(db.notes, 1, db.nextNoteId);
    WindowOfOrderingAll(o, all, limit, NoteAge);
    forall id | id in db.notes ensures db.notes[id] in all {
      NotesInIdRangeComplete(db.notes, 1, db.nextNoteId, id);
    }
  }
}
