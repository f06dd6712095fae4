/**
  The chat page's session store: the list of sessions kept under one key in
  the browser's local storage, the page state that mirrors it, and the
  handlers that read and write both (saving the current session, selecting a
  stored session, starting a new chat, initialising on mount). Storage is a
  value passed in and returned; a write that the browser refuses is a
  `canWrite == false` parameter; ids and timestamps are parameters.
 */
module ChatHistory {
  import opened Types
  import opened Text

  const MaxSessions := 50
  const TitleLimit := 50
  const TitleKeep := 47
  const NewChatTitle := "New Chat"

  /** What the storage key holds: nothing, text that does not parse, or a session list. */
  datatype StoredBlob = Absent | Corrupt | Saved(sessions: seq<Session>)

  /** The page's React state that the core reads and writes. */
  datatype UiState = UiState(sessionId: string, messages: seq<Message>, input: string,
                             loading: bool, sidebar: seq<Session>)

  /** The page state together with the storage key. */
  datatype World = World(ui: UiState, storage: StoredBlob)

  function Min(a: int, b: int): int {
    if a <= b then a else b
  }

  /** No two stored sessions share an id. */
  predicate UniqueIds(h: seq<Session>) {
    forall i, j :: 0 <= i < j < |h| ==> h[i].id != h[j].id
  }

  /** Some stored session has this id. */
  predicate HasId(h: seq<Session>, id: string) {
    exists k :: 0 <= k < |h| && h[k].id == id
  }

  /** `generateChatTitle`: line feeds become spaces, the text is trimmed, and long titles are cut to 47 characters plus `...`. */
  function GenerateChatTitle(first: string): (t: string)
    ensures |t| <= TitleLimit
    ensures '\n' !in t
    ensures var cleaned := Trim(NewlinesToSpaces(first));
            && (|cleaned| <= TitleLimit ==> t == cleaned)
            && (|cleaned| > TitleLimit ==>
                  |t| == TitleLimit && t[..TitleKeep] == cleaned[..TitleKeep] && t[TitleKeep..] == Ellipsis)
  {
    var spaced := NewlinesToSpaces(first);
    var cleaned := Trim(spaced);
    assert '\n' !in spaced;
    assert '\n' !in cleaned;
    if |cleaned| > TitleLimit then
      var head := cleaned[..TitleKeep];
      assert forall i :: 0 <= i < |head| ==> head[i] == cleaned[i];
      assert '\n' !in head;
      head + Ellipsis
    else cleaned
  }

  /** A generated title is already a title: generating again changes nothing. */
  lemma GenerateChatTitleIdempotent(first: string)
    ensures GenerateChatTitle(GenerateChatTitle(first)) == GenerateChatTitle(first)
  {
    var t := GenerateChatTitle(first);
    var cleaned := Trim(NewlinesToSpaces(first));
    NewlinesToSpacesFixesNewlineFree(t);
    if |cleaned| > TitleLimit {
      assert t[0] == cleaned[0];
      assert t[|t| - 1] == '.';
    }
    TrimOfTrimmed(t);
  }

  /** `loadChatHistory`: missing or unparsable storage reads as the empty list. */
  function LoadHistory(blob: StoredBlob): (h: seq<Session>)
    ensures blob.Saved? ==> h == blob.sessions
    ensures !blob.Saved? ==> h == []
  {
    match blob
    case Saved(sessions) => sessions
    case _ => []
  }

  /** `findIndex` by id. */
  function FindIndex(h: seq<Session>, id: string): (r: Option<nat>)
    ensures r.Some? ==> r.value < |h| && h[r.value].id == id
    ensures r.Some? ==> forall j :: 0 <= j < r.value ==> h[j].id != id
    ensures r.None? <==> !HasId(h, id)
  {
    if h == [] then None
    else if h[0].id == id then Some(0)
    else match FindIndex(h[1..], id)
      case None => None
      case Some(i) => Some(i + 1)
  }

  /** The first index holding `id` is the one `FindIndex` returns. */
  lemma FindIndexIs(h: seq<Session>, id: string, j: nat)
    requires j < |h| && h[j].id == id
    requires forall k :: 0 <= k < j ==> h[k].id != id
    ensures FindIndex(h, id) == Some(j)
  {
    assert HasId(h, id);
    var x := FindIndex(h, id).value;
    assert !(x < j);
    assert !(j < x);
  }

  /** `find` by id: the first stored session with that id. */
  function Find(h: seq<Session>, id: string): (r: Option<Session>)
    ensures r.Some? <==> HasId(h, id)
    ensures r.Some? ==> r.value in h && r.value.id == id
    ensures r.Some? ==> exists i :: 0 <= i < |h| && r.value == h[i] && forall j :: 0 <= j < i ==> h[j].id != id
  {
    match FindIndex(h, id)
    case None => None
    case Some(i) => Some(h[i])
  }

  /** The index of the first user message (`messages.filter(m => m.role === 'user')[0]`). */
  function FirstUserIndex(msgs: seq<Message>): (r: Option<nat>)
    ensures r.Some? ==> r.value < |msgs| && msgs[r.value].UserMessage?
    ensures r.Some? ==> forall j :: 0 <= j < r.value ==> !msgs[j].UserMessage?
    ensures r.None? <==> forall j :: 0 <= j < |msgs| ==> !msgs[j].UserMessage?
  {
    if msgs == [] then None
    else if msgs[0].UserMessage? then Some(0)
    else match FirstUserIndex(msgs[1..])
      case None => None
      case Some(i) => Some(i + 1)
  }

  /** Keep only the first fifty sessions (`history.splice(50)`). */
  function Cap(h: seq<Session>): (r: seq<Session>)
    ensures |r| == Min(|h|, MaxSessions)
    ensures r == h[..|r|]
  {
    if |h| > MaxSessions then h[..MaxSessions] else h
  }

  /**
    The list `saveCurrentSession` writes: the session for `id` replaces an existing
    entry in place (keeping its title and creation time) or is put at the front with
    `freshTitle`; then the list is cut to fifty entries.
   */
  function Upsert(h: seq<Session>, id: string, msgs: seq<Message>, freshTitle: string, now: string)
    : (r: seq<Session>)
    ensures |r| <= MaxSessions
    ensures FindIndex(h, id).Some? ==>
              var i := FindIndex(h, id).value;
              && |r| == Min(|h|, MaxSessions)
              && (i < MaxSessions ==> r[i] == Session(id, h[i].title, msgs, h[i].timestamp, now))
              && (forall j :: 0 <= j < |r| && j != i ==> r[j] == h[j])
    ensures FindIndex(h, id).None? ==>
              && |r| == Min(|h| + 1, MaxSessions)
              && r[0] == Session(id, freshTitle, msgs, now, now)
              && (forall j :: 1 <= j < |r| ==> r[j] == h[j - 1])
  {
    match FindIndex(h, id)
    case Some(i) => Cap(h[i := Session(id, h[i].title, msgs, h[i].timestamp, now)])
    case None => Cap([Session(id, freshTitle, msgs, now, now)] + h)
  }

  /** Saving keeps ids unique. */
  lemma UpsertKeepsIdsUnique(h: seq<Session>, id: string, msgs: seq<Message>, freshTitle: string, now: string)
    requires UniqueIds(h)
    ensures UniqueIds(Upsert(h, id, msgs, freshTitle, now))
  {
    var r := Upsert(h, id, msgs, freshTitle, now);
    match FindIndex(h, id)
    case Some(i) =>
      forall a, b | 0 <= a < b < |r| ensures r[a].id != r[b].id {
        assert r[a].id == h[a].id && r[b].id == h[b].id;
      }
    case None =>
      forall a, b | 0 <= a < b < |r| ensures r[a].id != r[b].id {
        if a == 0 {
          assert r[b] == h[b - 1];
        } else {
          assert r[a] == h[a - 1] && r[b] == h[b - 1];
        }
      }
  }

  /** Saving adds no id other than the saved one. */
  lemma UpsertAddsOnlyItsId(h: seq<Session>, id: string, msgs: seq<Message>, freshTitle: string,
                            now: string, other: string)
    requires other != id && !HasId(h, other)
    ensures !HasId(Upsert(h, id, msgs, freshTitle, now), other)
  {
  }

  /** An existing session that sits at index 50 or later is dropped by the save that updates it. */
  lemma UpsertDropsEntryBeyondCap(h: seq<Session>, id: string, msgs: seq<Message>, freshTitle: string, now: string)
    requires UniqueIds(h)
    requires FindIndex(h, id).Some? && FindIndex(h, id).value >= MaxSessions
    ensures !HasId(Upsert(h, id, msgs, freshTitle, now), id)
  {
  }

  /** A save proceeds only for a named session holding at least one user message. */
  predicate SaveProceeds(ui: UiState) {
    ui.sessionId != "" && |ui.messages| > 0 && FirstUserIndex(ui.messages).Some?
  }

  /** The title a new entry gets: from the first user message. */
  function FreshTitle(msgs: seq<Message>): string
    requires FirstUserIndex(msgs).Some?
  {
    GenerateChatTitle(msgs[FirstUserIndex(msgs).value].content)
  }

  /** `saveCurrentSession`. */
  function SaveCurrentSession(w: World, now: string, canWrite: bool): (r: World)
    ensures !SaveProceeds(w.ui) ==> r == w
    ensures SaveProceeds(w.ui) ==>
              && r.ui == w.ui.(sidebar := r.ui.sidebar)
              && r.ui.sidebar == Upsert(LoadHistory(w.storage), w.ui.sessionId, w.ui.messages,
                                        FreshTitle(w.ui.messages), now)
              && r.storage == (if canWrite then Saved(r.ui.sidebar) else w.storage)
  {
    if !SaveProceeds(w.ui) then w
    else
      var h := Upsert(LoadHistory(w.storage), w.ui.sessionId, w.ui.messages, FreshTitle(w.ui.messages), now);
      World(w.ui.(sidebar := h), if canWrite then Saved(h) else w.storage)
  }

  /** Upsert then look up, for an id that is new or stored among the first fifty. */
  lemma UpsertThenFind(h: seq<Session>, id: string, msgs: seq<Message>, freshTitle: string, now: string)
    requires var i := FindIndex(h, id); i.None? || i.value < MaxSessions
    ensures Find(Upsert(h, id, msgs, freshTitle, now), id) ==
              Some(if HasId(h, id)
                   then Session(id, Find(h, id).value.title, msgs, Find(h, id).value.timestamp, now)
                   else Session(id, freshTitle, msgs, now, now))
  {
    var saved := Upsert(h, id, msgs, freshTitle, now);
    match FindIndex(h, id)
    case Some(i) =>
      assert Find(h, id) == Some(h[i]);
      assert saved[i] == Session(id, h[i].title, msgs, h[i].timestamp, now);
      forall j | 0 <= j < i ensures saved[j].id != id {
        assert saved[j] == h[j];
      }
      FindIndexIs(saved, id, i);
      assert Find(saved, id) == Some(saved[i]);
    case None =>
      assert saved[0] == Session(id, freshTitle, msgs, now, now);
      FindIndexIs(saved, id, 0);
      assert Find(saved, id) == Some(saved[0]);
  }

  /**
    Save then look up: the stored entry for the current id holds the current
    messages, the title and creation time it already had (or a fresh title and
    `now` if it is new), unless the entry sat beyond the fiftieth place.
   */
  lemma SaveThenFind(w: World, now: string)
    requires SaveProceeds(w.ui)
    requires var i := FindIndex(LoadHistory(w.storage), w.ui.sessionId); i.None? || i.value < MaxSessions
    ensures var h := LoadHistory(w.storage);
            var saved := LoadHistory(SaveCurrentSession(w, now, true).storage);
            var id := w.ui.sessionId;
            Find(saved, id) ==
              Some(if HasId(h, id)
                   then Session(id, Find(h, id).value.title, w.ui.messages, Find(h, id).value.timestamp, now)
                   else Session(id, FreshTitle(w.ui.messages), w.ui.messages, now, now))
  {
    var h := LoadHistory(w.storage);
    var saved := Upsert(h, w.ui.sessionId, w.ui.messages, FreshTitle(w.ui.messages), now);
    assert SaveCurrentSession(w, now, true).storage == Saved(saved);
    UpsertThenFind(h, w.ui.sessionId, w.ui.messages, FreshTitle(w.ui.messages), now);
  }

  /** `loadChatSession`: switch to a stored session; an unknown id changes nothing. */
  function LoadChatSession(ui: UiState, blob: StoredBlob, id: string): (r: UiState)
    ensures !HasId(LoadHistory(blob), id) ==> r == ui
    ensures HasId(LoadHistory(blob), id) ==>
              && r == ui.(sessionId := id, messages := r.messages)
              && r.messages == Find(LoadHistory(blob), id).value.messages
  {
    match Find(LoadHistory(blob), id)
    case None => ui
    case Some(s) => ui.(sessionId := id, messages := s.messages)
  }

  /**
    `handleSelectChat`: flush the current session, then switch to the stored
    session `id`. Missing storage or an unknown id leave the flushed state as it is;
    unparsable storage makes the handler throw after the flush.
   */
  function SelectChat(w: World, id: string, now: string, canWrite: bool): (r: World)
    ensures var w1 := SaveCurrentSession(w, now, canWrite);
            && r.storage == w1.storage
            && r.ui.input == w.ui.input && r.ui.loading == w.ui.loading
    ensures var w1 := SaveCurrentSession(w, now, canWrite);
            w1.storage.Saved? && HasId(w1.storage.sessions, id) ==>
              && r.ui.sessionId == id
              && r.ui.messages == Find(w1.storage.sessions, id).value.messages
              && r.ui.sidebar == w1.storage.sessions
    ensures var w1 := SaveCurrentSession(w, now, canWrite);
            !(w1.storage.Saved? && HasId(w1.storage.sessions, id)) ==>
              && r == w1
              && r.ui.sessionId == w.ui.sessionId
              && r.ui.messages == w.ui.messages
  {
    var w1 := SaveCurrentSession(w, now, canWrite);
    match w1.storage
    case Absent => w1
    case Corrupt => w1
    case Saved(h) =>
      match Find(h, id)
      case None => w1
      case Some(s) => w1.(ui := w1.ui.(sessionId := id, messages := s.messages, sidebar := h))
  }

  /**
    Selecting an id that storage does not hold changes neither the current id nor
    the messages. This includes the current id itself when an earlier write was refused:
    the flush then either stores it with the current messages or leaves it unstored.
   */
  lemma SelectUnknownIsNoOp(w: World, id: string, now: string, canWrite: bool)
    requires !HasId(LoadHistory(w.storage), id)
    ensures var r := SelectChat(w, id, now, canWrite);
            r.ui.sessionId == w.ui.sessionId && r.ui.messages == w.ui.messages
  {
    if SaveProceeds(w.ui) && canWrite {
      var h := LoadHistory(w.storage);
      var saved := Upsert(h, w.ui.sessionId, w.ui.messages, FreshTitle(w.ui.messages), now);
      if id == w.ui.sessionId {
        assert saved[0] == Session(id, FreshTitle(w.ui.messages), w.ui.messages, now, now);
        FindIndexIs(saved, id, 0);
      } else {
        UpsertAddsOnlyItsId(h, w.ui.sessionId, w.ui.messages, FreshTitle(w.ui.messages), now, id);
      }
    }
  }

  /** A save into a list with fewer than fifty entries loses no stored session. */
  lemma UpsertUnderCapKeepsStored(h: seq<Session>, id: string, msgs: seq<Message>, freshTitle: string,
                                  now: string, other: string)
    requires |h| < MaxSessions && HasId(h, other)
    ensures HasId(Upsert(h, id, msgs, freshTitle, now), other)
  {
    var r := Upsert(h, id, msgs, freshTitle, now);
    var k :| 0 <= k < |h| && h[k].id == other;
    match FindIndex(h, id)
    case Some(i) =>
      if k == i {
        assert r[i].id == id == other;
      } else {
        assert r[k] == h[k];
      }
    case None =>
      assert r[k + 1] == h[k];
  }

  /** Updating a stored session in place leaves every other session's first index where it was. */
  lemma UpsertInPlaceKeepsOthers(h: seq<Session>, id: string, msgs: seq<Message>, freshTitle: string,
                                 now: string, other: string)
    requires other != id && FindIndex(h, id).Some?
    requires var j := FindIndex(h, other); j.Some? && j.value < MaxSessions
    ensures FindIndex(Upsert(h, id, msgs, freshTitle, now), other) == FindIndex(h, other)
  {
    var saved := Upsert(h, id, msgs, freshTitle, now);
    var i := FindIndex(h, id).value;
    var j := FindIndex(h, other).value;
    assert saved[j] == h[j];
    forall k | 0 <= k < j ensures saved[k].id != other {
      if k != i { assert saved[k] == h[k]; }
    }
    FindIndexIs(saved, other, j);
  }

  /**
    Switching from session A to session B (both stored within the first fifty):
    A's current messages are flushed to storage before B's messages
    are loaded.
   */
  lemma SwitchFlushesThenLoads(w: World, b: string, now: string)
    requires w.storage.Saved?
    requires SaveProceeds(w.ui) && b != w.ui.sessionId
    requires var i := FindIndex(w.storage.sessions, w.ui.sessionId); i.Some? && i.value < MaxSessions
    requires var j := FindIndex(w.storage.sessions, b); j.Some? && j.value < MaxSessions
    ensures var r := SelectChat(w, b, now, true);
            && r.ui.sessionId == b
            && r.ui.messages == Find(w.storage.sessions, b).value.messages
            && Find(LoadHistory(r.storage), w.ui.sessionId).value.messages == w.ui.messages
  {
    var h := w.storage.sessions;
    var a := w.ui.sessionId;
    var w1 := SaveCurrentSession(w, now, true);
    var saved := Upsert(h, a, w.ui.messages, FreshTitle(w.ui.messages), now);
    assert w1.storage == Saved(saved);
    SaveThenFind(w, now);
    UpsertInPlaceKeepsOthers(h, a, w.ui.messages, FreshTitle(w.ui.messages), now, b);
    assert Find(saved, b) == Some(h[FindIndex(h, b).value]);
  }

  /**
    `handleNewChat`: build a `New Chat` session stamped `created`, flush the current
    session (stamped `flushNow`; a refused write there is caught), then put the new
    session at the front of the stored list, without the fifty-entry cap, and switch
    to it. The two writes are separate: `flushWrite` says whether the browser accepts
    the flush's write, `createWrite` whether it accepts the new list. Unparsable
    storage, or a refused second write, makes the handler throw after the flush, so
    the page stays on the current session.
   */
  function NewChat(w: World, newId: string, created: string, flushNow: string,
                   flushWrite: bool, createWrite: bool): (r: World)
    ensures var w1 := SaveCurrentSession(w, flushNow, flushWrite);
            createWrite && !w1.storage.Corrupt? ==>
              && r.storage == Saved([Session(newId, NewChatTitle, [], created, created)] + LoadHistory(w1.storage))
              && |r.storage.sessions| == |LoadHistory(w1.storage)| + 1
              && r.ui == w1.ui.(sessionId := newId, messages := [], sidebar := r.storage.sessions)
    ensures var w1 := SaveCurrentSession(w, flushNow, flushWrite);
            !(createWrite && !w1.storage.Corrupt?) ==> r == w1
  {
    var w1 := SaveCurrentSession(w, flushNow, flushWrite);
    if w1.storage.Corrupt? || !createWrite then w1
    else
      var h := [Session(newId, NewChatTitle, [], created, created)] + LoadHistory(w1.storage);
      World(w1.ui.(sessionId := newId, messages := [], sidebar := h), Saved(h))
  }

  /** A new chat can grow the stored list past fifty entries. */
  lemma NewChatIgnoresCap(w: World, newId: string, created: string, flushNow: string, flushWrite: bool)
    requires w.storage.Saved? && |w.storage.sessions| == MaxSessions
    ensures |NewChat(w, newId, created, flushNow, flushWrite, true).storage.sessions| == MaxSessions + 1
  {
  }

  /**
    When the flush's write is refused but the new list is written, the unsaved
    session is lost: storage does not hold it and the page has left it.
   */
  lemma RefusedFlushLosesSession(w: World, newId: string, created: string, flushNow: string)
    requires SaveProceeds(w.ui) && !w.storage.Corrupt?
    requires !HasId(LoadHistory(w.storage), w.ui.sessionId) && newId != w.ui.sessionId
    ensures var r := NewChat(w, newId, created, flushNow, false, true);
            && r.ui.sessionId == newId && r.ui.messages == []
            && !HasId(LoadHistory(r.storage), w.ui.sessionId)
  {
    var w1 := SaveCurrentSession(w, flushNow, false);
    assert w1.storage == w.storage;
    var newSession := Session(newId, NewChatTitle, [], created, created);
    assert NewChat(w, newId, created, flushNow, false, true).storage == Saved([newSession] + LoadHistory(w.storage));
    PrependKeepsAbsent(LoadHistory(w.storage), newSession, w.ui.sessionId);
  }

  /** Putting a session with another id in front adds no entry for `id`. */
  lemma PrependKeepsAbsent(h: seq<Session>, s: Session, id: string)
    requires s.id != id && !HasId(h, id)
    ensures !HasId([s] + h, id)
  {
    forall k | 0 <= k < |[s] + h| ensures ([s] + h)[k].id != id {
      if k > 0 { assert ([s] + h)[k] == h[k - 1]; }
    }
  }

  /**
    When the flush is stored but the new list is refused, the handler stops: storage
    holds the flushed list and the page stays on the current session.
   */
  lemma RefusedCreateKeepsSession(w: World, newId: string, created: string, flushNow: string)
    ensures var r := NewChat(w, newId, created, flushNow, true, false);
            && r.ui.sessionId == w.ui.sessionId && r.ui.messages == w.ui.messages
            && r.storage == SaveCurrentSession(w, flushNow, true).storage
  {
  }

  /**
    After a new chat, the first save of that session keeps the title `New Chat`
    (the title is never regenerated for an id already stored).
   */
  lemma NewChatTitleSticks(w: World, newId: string, created: string, flushNow: string,
                           later: string, msgs: seq<Message>)
    requires newId != "" && FirstUserIndex(msgs).Some?
    requires !NewChat(w, newId, created, flushNow, true, true).storage.Corrupt?
    ensures var n := NewChat(w, newId, created, flushNow, true, true);
            var s := SaveCurrentSession(n.(ui := n.ui.(messages := msgs)), later, true);
            && Find(LoadHistory(s.storage), newId) == Some(Session(newId, NewChatTitle, msgs, created, later))
  {
    var n := NewChat(w, newId, created, flushNow, true, true);
    var n' := n.(ui := n.ui.(messages := msgs));
    assert FindIndex(LoadHistory(n'.storage), newId) == Some(0);
    SaveThenFind(n', later);
  }

  /**
    The mount effect: resume the first stored session (index 0), or start with a
    fresh id. Index 0 is the most recently created session, not the most recently
    updated one, because a save updates a stored session in place.
   */
  function Mount(blob: StoredBlob, freshId: string): (r: UiState)
    ensures r.sidebar == LoadHistory(blob) && r.input == "" && !r.loading
    ensures |LoadHistory(blob)| > 0 ==>
              r.sessionId == LoadHistory(blob)[0].id && r.messages == LoadHistory(blob)[0].messages
    ensures |LoadHistory(blob)| == 0 ==> r.sessionId == freshId && r.messages == []
  {
    var h := LoadHistory(blob);
    if |h| > 0 then UiState(h[0].id, h[0].messages, "", false, h)
    else UiState(freshId, [], "", false, h)
  }

  /**
    After the second of two stored sessions is updated, it holds the latest
    `lastUpdated`, yet mounting resumes the first one.
   */
  lemma MountIgnoresLastUpdate(a: Session, b: Session, msgs: seq<Message>, freshTitle: string,
                               now: string, freshId: string)
    requires a.id != b.id
    ensures var saved := Upsert([a, b], b.id, msgs, freshTitle, now);
            && saved[0] == a && saved[1].lastUpdated == now
            && Mount(Saved(saved), freshId).sessionId == a.id
  {
    FindIndexIs([a, b], b.id, 1);
  }
}
