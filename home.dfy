/** home.py, the SS IntelliGuide page: the travel-brochure assistant. One run of the page loads
    or clears the conversation, handles a click on a "Pin this response" button, and answers a
    submitted question from retrieved brochure chunks; the conversation and the pinned replies
    are kept in a JSON state file. */
module Home {
  import opened Wrappers
  import opened PyStr
  import opened Json
  import opened Chat

  /** The persona line of the answer prompt. */
  const Persona: string :=
    "You are SS IntelliGuide, a helpful AI assistant with access to APT PDF-based knowledge."

  /** The summariser's template before and after the formatted history. */
  const SummaryHead: string :=
    "\n    [INST]\n    You are an expert summarizer. Summarize the following chat conversation into 5-7 key bullet points that capture the main ideas and solutions shared by the assistant. Be concise, and do not repeat.\n    <chat_history>\n    "
  const SummaryTail: string :=
    "\n    </chat_history>\n    Your output should look like:\n    - Point 1\n    - Point 2\n    ...\n    [/INST]\n    "

  /** The fallback search column and the placeholders of a context entry. */
  const DefaultSearchColumn: string := "chunk"
  const MissingChunk: string := "[Missing chunk]"
  const UnknownFile: string := "unknown"

  // ---------------------------------------------------------------- retrieval context

  /** The selected service's search column, or "chunk" when no service has that name. */
  function SearchColumn(cfg: Config): (col: string)
    ensures (forall i :: 0 <= i < |cfg.metadata| ==> cfg.metadata[i].name != cfg.selectedService)
            ==> col == DefaultSearchColumn
    ensures (exists i :: 0 <= i < |cfg.metadata| && cfg.metadata[i].name == cfg.selectedService)
            ==> exists i :: 0 <= i < |cfg.metadata| && cfg.metadata[i].name == cfg.selectedService
                  && cfg.metadata[i].searchColumn == col
  {
    FindSearchColumn(cfg.metadata, cfg.selectedService).GetOr(DefaultSearchColumn)
  }

  /** `k.lower() == col.lower()`: two field names that agree up to ASCII case. */
  predicate SameName(k: string, col: string)
  {
    Lower(k) == Lower(col)
  }

  /** `next((v for k, v in r.items() if k.lower() == col.lower()), "[Missing chunk]")`: the value of
      the first field whose name equals the search column up to ASCII case. */
  function ChunkOf(r: Row, col: string): (v: string)
    ensures (forall j :: 0 <= j < |r| ==> !SameName(r[j].0, col)) ==> v == MissingChunk
    ensures (exists j :: 0 <= j < |r| && SameName(r[j].0, col))
            ==> exists j :: 0 <= j < |r| && SameName(r[j].0, col) && r[j].1 == v
                  && forall i :: 0 <= i < j ==> !SameName(r[i].0, col)
    decreases |r|
  {
    if r == [] then MissingChunk
    else if SameName(r[0].0, col) then r[0].1
    else
      var v := ChunkOf(r[1..], col);
      assert (exists j :: 1 <= j < |r| && SameName(r[j].0, col))
             ==> exists j :: 1 <= j < |r| && SameName(r[j].0, col) && r[j].1 == v
                   && forall i :: 0 <= i < j ==> !SameName(r[i].0, col);
      v
  }

  /** `r.get("relative_path", "unknown")`. */
  function FileOf(r: Row): string
  {
    RowGet(r, "relative_path").GetOr(UnknownFile)
  }

  /** `make_context(i, r)`. */
  function MakeContext(i: nat, r: Row, col: string): string
  {
    "Context " + NatToString(i + 1) + ": " + FileOf(r) + ":\n" + ChunkOf(r, col)
  }

  /** The list comprehension over `enumerate(results)`. */
  function ContextEntries(results: seq<Row>, col: string): (r: seq<string>)
    ensures |r| == |results|
    ensures forall i :: 0 <= i < |results| ==> r[i] == MakeContext(i, results[i], col)
  {
    seq(|results|, i requires 0 <= i < |results| => MakeContext(i, results[i], col))
  }

  /** The retrieved context: the entries separated by blank lines. */
  function HomeContext(results: seq<Row>, col: string): string
  {
    Join(ContextEntries(results, col), "\n\n")
  }

  /** Each entry names its hit's file and carries its chunk. */
  lemma MakeContextCarries(i: nat, r: Row, col: string)
    ensures Contains(MakeContext(i, r, col), ChunkOf(r, col))
    ensures Contains(MakeContext(i, r, col), FileOf(r))
  {
    var head := "Context " + NatToString(i + 1) + ": ";
    var withFile := head + FileOf(r) + ":\n";
    ContainsHalves(withFile, ChunkOf(r, col));
    ContainsHalves(head + FileOf(r), ":\n");
    ContainsHalves(head, FileOf(r));
    ContainsTrans(withFile, head + FileOf(r), FileOf(r));
    ContainsTrans(MakeContext(i, r, col), withFile, FileOf(r));
  }

  /** Every retrieved hit's chunk and file name reach the context. */
  lemma HomeContextCarries(results: seq<Row>, col: string, i: nat)
    requires i < |results|
    ensures Contains(HomeContext(results, col), ChunkOf(results[i], col))
    ensures Contains(HomeContext(results, col), FileOf(results[i]))
  {
    var entries := ContextEntries(results, col);
    JoinContainsPart(entries, "\n\n", i);
    MakeContextCarries(i, results[i], col);
    ContainsTrans(HomeContext(results, col), entries[i], ChunkOf(results[i], col));
    ContainsTrans(HomeContext(results, col), entries[i], FileOf(results[i]));
  }

  /** One more hit adds one more entry after a blank line. */
  lemma HomeContextSnoc(results: seq<Row>, r: Row, col: string)
    ensures HomeContext(results + [r], col)
            == if results == [] then MakeContext(0, r, col)
               else HomeContext(results, col) + "\n\n" + MakeContext(|results|, r, col)
  {
    assert ContextEntries(results + [r], col)
        == ContextEntries(results, col) + [MakeContext(|results|, r, col)];
    JoinSnoc(ContextEntries(results, col), MakeContext(|results|, r, col), "\n\n");
  }

  /** `svc.search(...)` as `query_cortex` calls it: the search column with the file fields, no
      filter, and the configured number of chunks. */
  function HomeRequest(cfg: Config, query: string): (req: SearchRequest)
    ensures req.columns == {SearchColumn(cfg), "file_url", "relative_path"}
    ensures req.query == query && req.service == cfg.selectedService
    ensures req.filter == Obj(map[]) && req.limit == cfg.numRetrievedChunks
  {
    SearchRequest(cfg.selectedService, query, {SearchColumn(cfg), "file_url", "relative_path"},
                  Obj(map[]), cfg.numRetrievedChunks)
  }

  /** `query_cortex(query)`. */
  function QueryCortex(cfg: Config, query: string, search: Search): string
  {
    HomeContext(search(HomeRequest(cfg, query)), SearchColumn(cfg))
  }

  /** `build_prompt(question)` on the conversation `messages`. */
  function BuildPrompt(cfg: Config, messages: seq<Message>, question: string, llm: Llm,
                       search: Search): string
  {
    var chatText := HistoryText(ChatHistory(cfg.useChatHistory, messages, cfg.numChatMessages));
    var query := RetrievalQuery(cfg.useChatHistory, messages, cfg.numChatMessages, question,
                                cfg.modelName, llm);
    AnswerPrompt(Persona, chatText, QueryCortex(cfg, query, search), question)
  }

  /** The prompt holds the question, the user history text and every chunk the search returned
      for the retrieval query. */
  lemma BuildPromptCarries(cfg: Config, messages: seq<Message>, question: string, llm: Llm,
                           search: Search, i: nat)
    requires i < |search(HomeRequest(cfg, RetrievalQuery(cfg.useChatHistory, messages,
                       cfg.numChatMessages, question, cfg.modelName, llm)))|
    ensures Contains(BuildPrompt(cfg, messages, question, llm, search), question)
    ensures Contains(BuildPrompt(cfg, messages, question, llm, search),
                     HistoryText(ChatHistory(cfg.useChatHistory, messages, cfg.numChatMessages)))
    ensures Contains(BuildPrompt(cfg, messages, question, llm, search),
                     ChunkOf(search(HomeRequest(cfg, RetrievalQuery(cfg.useChatHistory, messages,
                       cfg.numChatMessages, question, cfg.modelName, llm)))[i], SearchColumn(cfg)))
  {
    var chatText := HistoryText(ChatHistory(cfg.useChatHistory, messages, cfg.numChatMessages));
    var query := RetrievalQuery(cfg.useChatHistory, messages, cfg.numChatMessages, question,
                                cfg.modelName, llm);
    var results := search(HomeRequest(cfg, query));
    var context := QueryCortex(cfg, query, search);
    AnswerPromptCarries(Persona, chatText, context, question);
    HomeContextCarries(results, SearchColumn(cfg), i);
    ContainsTrans(BuildPrompt(cfg, messages, question, llm, search), context,
                  ChunkOf(results[i], SearchColumn(cfg)));
  }

  /** During a turn only the last `num_chat_messages - 1` messages before the question matter:
      older messages can be dropped without changing the prompt. */
  lemma BuildPromptRecentOnly(cfg: Config, older: seq<Message>, recent: seq<Message>,
                              question: string, llm: Llm, search: Search)
    requires cfg.numChatMessages >= 1 && |recent| >= cfg.numChatMessages - 1
    ensures BuildPrompt(cfg, older + recent + [Message(UserRole, question)], Sanitize(question), llm, search)
            == BuildPrompt(cfg, recent + [Message(UserRole, question)], Sanitize(question), llm, search)
  {
    TurnWindowRecentOnly(older, recent, Message(UserRole, question), cfg.numChatMessages);
  }

  // ---------------------------------------------------------------- the state file

  function MessageToJson(m: Message): Json
  {
    Obj(map["role" := Str(m.role), "content" := Str(m.content)])
  }

  /** A stored message: a dict whose "role" and "content" are strings. */
  function MessageFromJson(j: Json): Option<Message>
  {
    if j.Obj? && "role" in j.fields && "content" in j.fields
       && j.fields["role"].Str? && j.fields["content"].Str?
    then Some(Message(j.fields["role"].s, j.fields["content"].s))
    else None
  }

  function MessagesToJson(messages: seq<Message>): (j: Json)
    ensures j.Arr? && |j.items| == |messages|
    ensures forall i :: 0 <= i < |messages| ==> j.items[i] == MessageToJson(messages[i])
  {
    Arr(seq(|messages|, i requires 0 <= i < |messages| => MessageToJson(messages[i])))
  }

  function MessagesFromItems(items: seq<Json>): Option<seq<Message>>
    decreases |items|
  {
    if items == [] then Some([])
    else
      match (MessageFromJson(items[0]), MessagesFromItems(items[1..]))
      case (Some(m), Some(ms)) => Some([m] + ms)
      case _ => None
  }

  function MessagesFromJson(j: Json): Option<seq<Message>>
  {
    if j.Arr? then MessagesFromItems(j.items) else None
  }

  /** What `save_session_state` writes. */
  function StateToJson(messages: seq<Message>, pinned: seq<string>): Json
  {
    Obj(map["messages" := MessagesToJson(messages), "pinned_messages" := StringsToJson(pinned)])
  }

  /** What `load_session_state` reads back: a missing key counts as an empty list; anything that
      is not a dict of such lists fails. */
  function StateFromJson(j: Json): Option<(seq<Message>, seq<string>)>
  {
    if !j.Obj? then None
    else
      var ms := MessagesFromJson(Get(j.fields, "messages", Arr([])));
      var ps := StringsFromJson(Get(j.fields, "pinned_messages", Arr([])));
      if ms.Some? && ps.Some? then Some((ms.value, ps.value)) else None
  }

  lemma {:induction false} MessagesRoundTrip(messages: seq<Message>)
    ensures MessagesFromJson(MessagesToJson(messages)) == Some(messages)
    decreases |messages|
  {
    if messages != [] {
      MessagesRoundTrip(messages[1..]);
      assert MessagesToJson(messages).items[1..] == MessagesToJson(messages[1..]).items;
      assert MessageFromJson(MessageToJson(messages[0])) == Some(messages[0]);
      assert [messages[0]] + messages[1..] == messages;
    }
  }

  /** Loading what was saved gives back the conversation and the pinned replies. */
  lemma StateRoundTrip(messages: seq<Message>, pinned: seq<string>)
    ensures StateFromJson(StateToJson(messages, pinned)) == Some((messages, pinned))
  {
    MessagesRoundTrip(messages);
    StringsRoundTrip(pinned);
  }

  /** A state file without either key loads as an empty conversation with nothing pinned, and one
      that is not a dict fails to load. */
  lemma StateFromJsonDefaults(j: Json)
    ensures j == Obj(map[]) ==> StateFromJson(j) == Some(([], []))
    ensures !j.Obj? ==> StateFromJson(j) == None
  {
    if j == Obj(map[]) {
      assert MessagesFromJson(Arr([])) == Some([]);
      assert StringsFromJson(Arr([])) == Some([]);
    }
  }

  // ---------------------------------------------------------------- one run of the page

  /** The conversation `init_messages` starts from, before any clear: the session's own, else
      the state file's when it loads, else `[]`. */
  function StartMessages(messages: Option<seq<Message>>, file: Option<Json>): seq<Message>
  {
    if messages.Some? then messages.value
    else if file.Some? && StateFromJson(file.value).Some? then StateFromJson(file.value).value.0
    else []
  }

  /** The pinned list `init_messages` leaves: the session's own, else the state file's when it
      loads, else `[]`. */
  function StartPins(messages: Option<seq<Message>>, pinned: Option<seq<string>>,
                     file: Option<Json>): seq<string>
  {
    if messages.Some? then pinned.GetOr([])
    else if file.Some? && StateFromJson(file.value).Some? then StateFromJson(file.value).value.1
    else pinned.GetOr([])
  }

  /** How a run of the page ended. */
  datatype RunOutcome = LoadFailed | Rendered | Answered(reply: string)

  /** The page's `st.session_state` keys "messages" and "pinned_messages" (absent until the first
      run sets them) and the state file on disk (absent until first saved). */
  class HomeSession {
    var messages: Option<seq<Message>>
    var pinned: Option<seq<string>>
    var stateFile: Option<Json>

    /** A session either has not been initialised or has both lists. */
    predicate Consistent()
      reads this
    {
      messages.Some? ==> pinned.Some?
    }

    predicate Initialised()
      reads this
    {
      messages.Some? && pinned.Some?
    }

    /** A new browser session, with whatever state file an earlier session left. */
    constructor(file: Option<Json>)
      ensures messages == None && pinned == None && stateFile == file
      ensures Consistent()
    {
      messages := None;
      pinned := None;
      stateFile := file;
    }

    /** `save_session_state`: writes both lists, an absent one as `[]`. */
    method Save()
      modifies this
      ensures stateFile == Some(StateToJson(messages.GetOr([]), pinned.GetOr([])))
      ensures messages == old(messages) && pinned == old(pinned)
    {
      stateFile := Some(StateToJson(messages.GetOr([]), pinned.GetOr([])));
    }

    /** `load_session_state`: when the file exists, both lists are replaced by its contents; a
        file that does not decode ends the run (`ok` is false) and changes nothing. */
    method Load() returns (ok: bool)
      modifies this
      ensures stateFile == old(stateFile)
      ensures !ok <==> stateFile.Some? && StateFromJson(stateFile.value).None?
      ensures ok && stateFile.Some? ==>
                messages == Some(StateFromJson(stateFile.value).value.0)
                && pinned == Some(StateFromJson(stateFile.value).value.1)
      ensures !(ok && stateFile.Some?) ==> messages == old(messages) && pinned == old(pinned)
    {
      ok := true;
      if stateFile.Some? {
        var state := StateFromJson(stateFile.value);
        if state.None? {
          ok := false;
        } else {
          messages := Some(state.value.0);
          pinned := Some(state.value.1);
        }
      }
    }

    /** `init_messages`: on the first run, load the state file and default both lists to `[]`;
        when "Clear Chat" was pressed, empty the conversation (pins stay) and save. */
    method InitMessages(clear: bool) returns (ok: bool)
      requires Consistent()
      modifies this
      ensures Consistent()
      ensures ok ==> Initialised()
      ensures !ok <==> old(messages).None? && old(stateFile).Some?
                       && StateFromJson(old(stateFile).value).None?
      ensures !ok ==> messages == old(messages) && pinned == old(pinned) && stateFile == old(stateFile)
      ensures ok && old(messages).Some? ==>
                pinned == old(pinned) && messages == (if clear then Some([]) else old(messages))
      ensures ok && old(messages).None? && old(stateFile).Some? ==>
                messages == Some(if clear then [] else StateFromJson(old(stateFile).value).value.0)
                && pinned == Some(StateFromJson(old(stateFile).value).value.1)
      ensures ok && old(messages).None? && old(stateFile).None? ==>
                messages == Some([]) && pinned == Some(old(pinned).GetOr([]))
      ensures ok && clear ==> stateFile == Some(StateToJson([], pinned.value))
      ensures !clear ==> stateFile == old(stateFile)
      ensures ok ==>
                messages == Some(if clear then [] else StartMessages(old(messages), old(stateFile)))
                && pinned == Some(StartPins(old(messages), old(pinned), old(stateFile)))
    {
      ok := true;
      if messages.None? {
        ok := Load();
        if !ok {
          return;
        }
        messages := Some(messages.GetOr([]));
        pinned := Some(pinned.GetOr([]));
      }
      if clear {
        messages := Some([]);
        Save();
      }
    }

    /** The loop that shows each message with a pin button under each assistant reply: the
        clicked button's reply is appended to the pinned list, which is then saved. */
    method RenderPins(event: Event)
      requires Initialised()
      modifies this
      ensures Initialised() && messages == old(messages)
      ensures pinned == Some(old(pinned).value + PinsFor(messages.value, event))
      ensures stateFile == if PinsFor(messages.value, event) == [] then old(stateFile)
                           else Some(StateToJson(messages.value, pinned.value))
    {
      var ms := messages.value;
      var i := 0;
      SeqEmptyRight(pinned.value);
      while i < |ms|
        invariant 0 <= i <= |ms|
        invariant messages == Some(ms)
        invariant pinned == Some(old(pinned).value + PinsFor(ms[..i], event))
        invariant stateFile == if PinsFor(ms[..i], event) == [] then old(stateFile)
                               else Some(StateToJson(ms, pinned.value))
      {
        PinsForStep(ms, i, event);
        if PinPressed(ms, i, event) {
          pinned := Some(pinned.value + [ms[i].content]);
          SeqAssoc(old(pinned).value, PinsFor(ms[..i], event), [ms[i].content]);
          Save();
        } else {
          SeqEmptyRight(PinsFor(ms[..i], event));
        }
        i := i + 1;
      }
      assert ms[..i] == ms;
    }

    /** A submitted question: it joins the conversation, the prompt is built from it with its
        apostrophes removed, the reply joins the conversation, and the state is saved. */
    method ChatTurn(question: string, cfg: Config, llm: Llm, search: Search) returns (reply: string)
      requires Initialised()
      modifies this
      ensures Initialised() && pinned == old(pinned)
      ensures reply == Complete(llm, cfg.modelName,
                                BuildPrompt(cfg, old(messages).value + [Message(UserRole, question)],
                                            Sanitize(question), llm, search))
      ensures messages == Some(old(messages).value + [Message(UserRole, question),
                                                      Message(AssistantRole, reply)])
      ensures stateFile == Some(StateToJson(messages.value, pinned.value))
    {
      var asked := messages.value + [Message(UserRole, question)];
      var prompt := BuildPrompt(cfg, asked, Sanitize(question), llm, search);
      reply := Complete(llm, cfg.modelName, prompt);
      messages := Some(asked + [Message(AssistantRole, reply)]);
      assert asked + [Message(AssistantRole, reply)]
             == old(messages).value + [Message(UserRole, question), Message(AssistantRole, reply)];
      Save();
    }

    /** The part of a run after `init_messages`: the pin buttons under the shown messages, then
        the chat input, which is disabled when no search service exists. */
    method Respond(event: Event, cfg: Config, llm: Llm, search: Search) returns (outcome: RunOutcome)
      requires Initialised()
      modifies this
      ensures Initialised()
      ensures outcome.Answered? <==> event.Submitted? && cfg.metadata != []
      ensures !outcome.Answered? ==> outcome == Rendered
      ensures !event.Clicked? && !outcome.Answered? ==>
                messages == old(messages) && pinned == old(pinned) && stateFile == old(stateFile)
      ensures event.Clicked? ==>
                messages == old(messages)
                && pinned == Some(old(pinned).value + PinsFor(old(messages).value, event))
                && stateFile == if PinsFor(old(messages).value, event) == [] then old(stateFile)
                                else Some(StateToJson(messages.value, pinned.value))
      ensures outcome.Answered? ==>
                pinned == old(pinned)
                && outcome.reply
                   == Complete(llm, cfg.modelName,
                               BuildPrompt(cfg, old(messages).value + [Message(UserRole, event.question)],
                                           Sanitize(event.question), llm, search))
                && messages == Some(old(messages).value + [Message(UserRole, event.question),
                                                           Message(AssistantRole, outcome.reply)])
                && stateFile == Some(StateToJson(messages.value, pinned.value))
    {
      ghost var pinnedBefore := pinned.value;
      RenderPins(event);
      if !event.Clicked? {
        PinsForNoClick(old(messages).value, event);
        SeqEmptyRight(pinnedBefore);
      }
      if event.Submitted? && cfg.metadata != [] {
        var reply := ChatTurn(event.question, cfg, llm, search);
        outcome := Answered(reply);
      } else {
        outcome := Rendered;
      }
    }

    /** One run of the page for one interaction: "Clear Chat" clears while `init_messages` runs,
        which ends the run when the state file does not load. */
    method Run(event: Event, cfg: Config, llm: Llm, search: Search) returns (outcome: RunOutcome)
      requires Consistent()
      modifies this
      ensures Consistent()
      ensures outcome != LoadFailed ==> Initialised()
      ensures outcome == LoadFailed <==> old(messages).None? && old(stateFile).Some?
                                         && StateFromJson(old(stateFile).value).None?
      ensures outcome.Answered? <==> outcome != LoadFailed && event.Submitted? && cfg.metadata != []
      ensures event == ClearPressed && outcome != LoadFailed ==>
                var pins := StartPins(old(messages), old(pinned), old(stateFile));
                messages == Some([]) && pinned == Some(pins) && stateFile == Some(StateToJson([], pins))
      ensures (event == Idle || (event.Submitted? && cfg.metadata == [])) && outcome != LoadFailed ==>
                messages == Some(StartMessages(old(messages), old(stateFile)))
                && pinned == Some(StartPins(old(messages), old(pinned), old(stateFile)))
                && stateFile == old(stateFile)
      ensures event.Clicked? && outcome != LoadFailed ==>
                var start := StartMessages(old(messages), old(stateFile));
                messages == Some(start)
                && pinned == Some(StartPins(old(messages), old(pinned), old(stateFile))
                                  + PinsFor(start, event))
                && stateFile == if PinsFor(start, event) == [] then old(stateFile)
                                else Some(StateToJson(start, pinned.value))
      ensures outcome.Answered? ==>
                var start := StartMessages(old(messages), old(stateFile));
                var asked := start + [Message(UserRole, event.question)];
                pinned == Some(StartPins(old(messages), old(pinned), old(stateFile)))
                && outcome.reply
                   == Complete(llm, cfg.modelName,
                               BuildPrompt(cfg, asked, Sanitize(event.question), llm, search))
                && messages == Some(asked + [Message(AssistantRole, outcome.reply)])
                && stateFile == Some(StateToJson(messages.value, pinned.value))
    {
      var ok := InitMessages(event == ClearPressed);
      if !ok {
        return LoadFailed;
      }
      ghost var start := messages.value;
      outcome := Respond(event, cfg, llm, search);
      if outcome.Answered? {
        var asked := start + [Message(UserRole, event.question)];
        assert start + [Message(UserRole, event.question), Message(AssistantRole, outcome.reply)]
               == asked + [Message(AssistantRole, outcome.reply)];
      }
    }
  }

  /** The "Generate Insight Summary" button. */
  method Summarize(messages: seq<Message>, model: string, llm: Llm) returns (summary: string)
    ensures summary == Strip(Complete(llm, model, SummaryHead + SummaryText(messages) + SummaryTail))
    ensures NoEdgeSpace(summary)
  {
    summary := GenerateSummary(messages, SummaryHead, SummaryTail, model, llm);
  }
}
