/**
  One chat turn (`handleSubmit`): a non-blank input is appended as a user
  message and sent to the proxy; when the request settles, the assistant reply,
  or a fixed apology, is appended to the message list the handler captured when
  it started. The handler is asynchronous, so it is modelled as two steps,
  `SubmitStart` and `SubmitFinish`, between which other events may run: nothing
  stops a second submit while the first is loading.
 */
module ChatTurn {
  import opened Types
  import opened Text
  import opened ChatRoute
  import opened ChatHistory

  const Apology := "\U{274C} Maaf, terjadi kesalahan saat memproses pertanyaan Anda.\n\nSilakan coba lagi dalam beberapa saat atau hubungi administrator sistem."

  const FrontendTimeKey := "frontend_processing_time"
  const TotalTimeKey := "total_processing_time"
  const ResponseTimeKey := "response_time"

  /** What `fetch('/api/chat')` did: threw, or produced the proxy's response. */
  datatype ApiOutcome = FetchFailed | Received(response: ProxyResponse)

  /** The state after `SubmitStart`, and the message list the in-flight handler captured. */
  datatype Submission = Submission(ui: UiState, pending: Option<seq<Message>>)

  /** The assistant message shown when the request fails in any way. */
  function ApologyMessage(): Message {
    AssistantMessage(Apology, None, None, None)
  }

  /**
    `{...features, frontend_processing_time: elapsed + 's', total_processing_time: features.response_time}`;
    `elapsed` is the measured round trip already formatted with two decimals.
    A `total_processing_time` whose value is `undefined` is an absent key.
   */
  function WithTimings(f: Features, elapsed: string): (g: Features)
    ensures FrontendTimeKey in g && g[FrontendTimeKey] == Str(elapsed + "s")
    ensures ResponseTimeKey in f ==> TotalTimeKey in g && g[TotalTimeKey] == f[ResponseTimeKey]
    ensures ResponseTimeKey !in f ==> TotalTimeKey !in g
    ensures forall k :: k in f && k != FrontendTimeKey && k != TotalTimeKey ==> k in g && g[k] == f[k]
    ensures forall k :: k in g ==> k in f || k == FrontendTimeKey || k == TotalTimeKey
  {
    var g := f[FrontendTimeKey := Str(elapsed + "s")];
    if ResponseTimeKey in f then g[TotalTimeKey := f[ResponseTimeKey]] else g - {TotalTimeKey}
  }

  /**
    The message appended when the request settles. A thrown fetch, a status that is
    not ok, or an ok body without the answer's fields (reading its features throws)
    all give the apology.
   */
  function AssistantReply(outcome: ApiOutcome, elapsed: string): (m: Message)
    ensures m.AssistantMessage?
    ensures !(outcome.Received? && outcome.response.Answer?) ==> m == ApologyMessage()
    ensures outcome.Received? && outcome.response.Answer? ==>
              var a := outcome.response;
              && m != ApologyMessage()
              && m.content == a.content
              && m.sources == Some(a.sources)
              && m.totalSources == Some(a.totalSources)
              && m.features == Some(WithTimings(a.features, elapsed))
  {
    match outcome
    case FetchFailed => ApologyMessage()
    case Received(r) =>
      if !IsOk(r.Status()) then ApologyMessage()
      else match r
        case Failure(_, _, _) => ApologyMessage()
        case Answer(content, sources, total, features) =>
          AssistantMessage(content, Some(sources), Some(total), Some(WithTimings(features, elapsed)))
  }

  /**
    The synchronous part of `handleSubmit`: ignore blank input; otherwise give an
    unnamed empty conversation a fresh id, append the untrimmed input as a user
    message, clear the input and mark the page as loading. `loading` is not consulted.
   */
  function SubmitStart(ui: UiState, freshId: string): (s: Submission)
    ensures IsBlank(ui.input) ==> s == Submission(ui, None)
    ensures !IsBlank(ui.input) ==>
              && s.pending == Some(ui.messages + [UserMessage(ui.input)])
              && s.ui.messages == s.pending.value
              && s.ui.input == "" && s.ui.loading && s.ui.sidebar == ui.sidebar
              && s.ui.sessionId == (if |ui.messages| == 0 && ui.sessionId == "" then freshId else ui.sessionId)
  {
    TrimEmptyIffBlank(ui.input);
    if Trim(ui.input) == [] then Submission(ui, None)
    else
      var id := if |ui.messages| == 0 && ui.sessionId == "" then freshId else ui.sessionId;
      var request := ui.messages + [UserMessage(ui.input)];
      Submission(ui.(sessionId := id, messages := request, input := "", loading := true), Some(request))
  }

  /**
    The part of `handleSubmit` after the request settles: the message list becomes the
    captured `pending` list plus the reply, whatever the list is by then.
   */
  function SubmitFinish(ui: UiState, pending: seq<Message>, outcome: ApiOutcome, elapsed: string): (r: UiState)
    ensures r == ui.(messages := r.messages, loading := false)
    ensures |r.messages| == |pending| + 1 && r.messages[..|pending|] == pending
    ensures r.messages[|pending|] == AssistantReply(outcome, elapsed)
  {
    ui.(messages := pending + [AssistantReply(outcome, elapsed)], loading := false)
  }

  /** A whole turn with nothing in between: start, then finish with the request's outcome. */
  function HandleSubmit(ui: UiState, freshId: string, outcome: ApiOutcome, elapsed: string): (r: UiState)
    ensures IsBlank(ui.input) ==> r == ui
    ensures !IsBlank(ui.input) ==>
              && r.messages == ui.messages + [UserMessage(ui.input), AssistantReply(outcome, elapsed)]
              && r.input == "" && !r.loading
  {
    var s := SubmitStart(ui, freshId);
    match s.pending
    case None => s.ui
    case Some(p) =>
      assert p == ui.messages + [UserMessage(ui.input)];
      AppendPair(ui.messages, UserMessage(ui.input), AssistantReply(outcome, elapsed));
      SubmitFinish(s.ui, p, outcome, elapsed)
  }

  /**
    Two overlapping submits: whichever request settles last overwrites the list with
    the messages its handler captured, so one reply (and, if the first settles
    last, the second question too) is lost; the first to settle already clears `loading`.
   */
  lemma OverlappingSubmitsLoseMessages(ui: UiState, q1: string, q2: string, freshId: string,
                                       o1: ApiOutcome, o2: ApiOutcome, e1: string, e2: string)
    requires !IsBlank(q1) && !IsBlank(q2)
    ensures var s1 := SubmitStart(ui.(input := q1), freshId);
            var s2 := SubmitStart(s1.ui.(input := q2), freshId);
            && s2.pending.Some?
            && !SubmitFinish(s2.ui, s1.pending.value, o1, e1).loading
            && SubmitFinish(SubmitFinish(s2.ui, s1.pending.value, o1, e1), s2.pending.value, o2, e2).messages
               == ui.messages + [UserMessage(q1), UserMessage(q2), AssistantReply(o2, e2)]
            && SubmitFinish(SubmitFinish(s2.ui, s2.pending.value, o2, e2), s1.pending.value, o1, e1).messages
               == ui.messages + [UserMessage(q1), AssistantReply(o1, e1)]
  {
    var s1 := SubmitStart(ui.(input := q1), freshId);
    StartAppends(ui, q1, freshId);
    var s2 := SubmitStart(s1.ui.(input := q2), freshId);
    StartAppends(s1.ui, q2, freshId);
    var p1 := s1.pending.value;
    var p2 := s2.pending.value;
    LastToSettleWins(s2.ui, p1, p2, o1, o2, e1, e2);
    LastToSettleWins(s2.ui, p2, p1, o2, o1, e2, e1);
    SeqAssoc(ui.messages, UserMessage(q1), UserMessage(q2), AssistantReply(o2, e2));
    AppendPair(ui.messages, UserMessage(q1), AssistantReply(o1, e1));
  }

  /**
    Of two handlers settling one after the other, the later one decides the list:
    its captured messages plus its reply; the earlier one already cleared `loading`.
   */
  lemma LastToSettleWins(ui: UiState, p: seq<Message>, q: seq<Message>,
                         o1: ApiOutcome, o2: ApiOutcome, e1: string, e2: string)
    ensures !SubmitFinish(ui, p, o1, e1).loading
    ensures SubmitFinish(SubmitFinish(ui, p, o1, e1), q, o2, e2).messages == q + [AssistantReply(o2, e2)]
  {
    FinishAppends(SubmitFinish(ui, p, o1, e1), q, o2, e2);
  }

  /** A non-blank submit captures, and shows, the old list plus the question. */
  lemma StartAppends(ui: UiState, q: string, freshId: string)
    requires !IsBlank(q)
    ensures SubmitStart(ui.(input := q), freshId).pending == Some(ui.messages + [UserMessage(q)])
    ensures SubmitStart(ui.(input := q), freshId).ui.messages == ui.messages + [UserMessage(q)]
  {
  }

  /** Finishing replaces the list by the captured one plus the reply. */
  lemma FinishAppends(ui: UiState, p: seq<Message>, o: ApiOutcome, e: string)
    ensures SubmitFinish(ui, p, o, e).messages == p + [AssistantReply(o, e)]
    ensures !SubmitFinish(ui, p, o, e).loading
  {
  }

  /** Appending two singletons one by one is appending their list. */
  lemma AppendPair<T>(s: seq<T>, a: T, b: T)
    ensures s + [a] + [b] == s + [a, b]
  {
  }

  /** Appending three singletons one by one is appending their list. */
  lemma SeqAssoc<T>(s: seq<T>, a: T, b: T, c: T)
    ensures s + [a] + [b] + [c] == s + [a, b, c]
  {
  }

  /** Saving into a stored list with fewer than fifty entries keeps every stored session. */
  lemma SaveUnderCapKeepsStored(ui: UiState, storage: StoredBlob, now: string, canWrite: bool, b: string)
    requires storage.Saved? && |storage.sessions| < MaxSessions && HasId(storage.sessions, b)
    ensures var w1 := SaveCurrentSession(World(ui, storage), now, canWrite);
            w1.storage.Saved? && |w1.storage.sessions| <= MaxSessions && HasId(w1.storage.sessions, b)
  {
    if SaveProceeds(ui) {
      UpsertUnderCapKeepsStored(storage.sessions, ui.sessionId, ui.messages, FreshTitle(ui.messages), now, b);
    }
  }

  /** A reply settling on a named page, followed by a save: the stored entry holds the captured list plus the reply. */
  lemma FinishThenSaveStores(u: UiState, storage: StoredBlob, p: seq<Message>, o: ApiOutcome, e: string, later: string)
    requires u.sessionId != "" && storage.Saved? && |storage.sessions| <= MaxSessions
    requires |p| > 0 && p[|p| - 1].UserMessage?
    ensures var r := SubmitFinish(u, p, o, e);
            var next := SaveCurrentSession(World(r, storage), later, true);
            && r.sessionId == u.sessionId
            && r.messages == p + [AssistantReply(o, e)]
            && Find(LoadHistory(next.storage), u.sessionId).Some?
            && Find(LoadHistory(next.storage), u.sessionId).value.messages == r.messages
  {
    var r := SubmitFinish(u, p, o, e);
    FinishAppends(u, p, o, e);
    assert r.messages[|p| - 1].UserMessage?;
    assert FirstUserIndex(r.messages).Some?;
    assert SaveProceeds(r);
    SaveThenFind(World(r, storage), later);
  }

  /**
    A reply that settles after the user has switched to stored session `b` is shown
    under `b`, appended to the conversation it was asked in; the next save then
    stores that conversation as `b`'s messages.
   */
  lemma LateReplyLandsInSwitchedSession(ui: UiState, storage: StoredBlob, q: string, freshId: string,
                                        b: string, now: string, canWrite: bool,
                                        o: ApiOutcome, e: string, later: string)
    requires !IsBlank(q) && b != ""
    requires storage.Saved? && |storage.sessions| < MaxSessions && HasId(storage.sessions, b)
    ensures var s := SubmitStart(ui.(input := q), freshId);
            var sel := SelectChat(World(s.ui, storage), b, now, canWrite);
            var r := SubmitFinish(sel.ui, s.pending.value, o, e);
            var next := SaveCurrentSession(World(r, sel.storage), later, true);
            && r.sessionId == b
            && r.messages == ui.messages + [UserMessage(q), AssistantReply(o, e)]
            && Find(LoadHistory(next.storage), b).Some?
            && Find(LoadHistory(next.storage), b).value.messages == r.messages
  {
    var s := SubmitStart(ui.(input := q), freshId);
    StartAppends(ui, q, freshId);
    var w1 := SaveCurrentSession(World(s.ui, storage), now, canWrite);
    var sel := SelectChat(World(s.ui, storage), b, now, canWrite);
    SaveUnderCapKeepsStored(s.ui, storage, now, canWrite, b);
    assert sel.ui.sessionId == b && sel.storage == w1.storage;
    var p := s.pending.value;
    FinishThenSaveStores(sel.ui, sel.storage, p, o, e, later);
    AppendPair(ui.messages, UserMessage(q), AssistantReply(o, e));
  }

  /**
    A new chat followed by one question, with the backend answering with no
    sources: the conversation holds exactly the question and the answer.
   */
  lemma NewChatThenAnswer(w: World, newId: string, created: string, now: string, freshId: string, base: string,
                          fallback: FetchOutcome, elapsed: string)
    requires !SaveCurrentSession(w, now, true).storage.Corrupt?
    ensures var n := NewChat(w, newId, created, now, true, true);
            var q := "Apa itu DPMPTSP?";
            var data := BackendData("DPMPTSP adalah ...", Some([]), Some(0), Some(map[]));
            var x := Post(base, Parsed(Some([UserMessage(q)])), Responded(200, Json(data)), fallback);
            var r := HandleSubmit(n.ui.(input := q), freshId, Received(x.response), elapsed);
            && x.attempted == [base + ChatPath]
            && r.messages == [UserMessage(q), AssistantMessage("DPMPTSP adalah ...", Some([]), Some(0),
                                                               Some(map[FrontendTimeKey := Str(elapsed + "s")]))]
  {
    var n := NewChat(w, newId, created, now, true, true);
    assert n.ui.messages == [];
    FirstQuestionAnswered(n.ui, freshId, base, fallback, elapsed);
  }

  /** The turn of `NewChatThenAnswer`, on any page with no messages yet. */
  lemma FirstQuestionAnswered(ui: UiState, freshId: string, base: string, fallback: FetchOutcome, elapsed: string)
    requires ui.messages == []
    ensures var q := "Apa itu DPMPTSP?";
            var data := BackendData("DPMPTSP adalah ...", Some([]), Some(0), Some(map[]));
            var x := Post(base, Parsed(Some([UserMessage(q)])), Responded(200, Json(data)), fallback);
            var r := HandleSubmit(ui.(input := q), freshId, Received(x.response), elapsed);
            && x.attempted == [base + ChatPath]
            && r.messages == [UserMessage(q), AssistantMessage("DPMPTSP adalah ...", Some([]), Some(0),
                                                               Some(map[FrontendTimeKey := Str(elapsed + "s")]))]
  {
    var q := "Apa itu DPMPTSP?";
    assert !IsJsWhitespace(q[0]);
    assert !IsBlank(q);
    var data := BackendData("DPMPTSP adalah ...", Some([]), Some(0), Some(map[]));
    var x := Post(base, Parsed(Some([UserMessage(q)])), Responded(200, Json(data)), fallback);
    assert |x.attempted| == 1;
    var a := Answer("DPMPTSP adalah ...", [], 0, map[]);
    assert x.response == a;
    var g := WithTimings(map[], elapsed);
    assert g == map[FrontendTimeKey := Str(elapsed + "s")];
    var reply := AssistantReply(Received(a), elapsed);
    assert reply == AssistantMessage("DPMPTSP adalah ...", Some([]), Some(0), Some(g));
    var r := HandleSubmit(ui.(input := q), freshId, Received(a), elapsed);
    assert r.messages == [] + [UserMessage(q), reply];
  }
}
