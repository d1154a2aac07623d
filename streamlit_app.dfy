/** streamlit_app.py, the SS IntelliBot page: the same chat turn as home.py, but with English-only
    retrieval, context entries that carry only the search column's value, errors raised when the
    service or the column is missing, no state file, and a pin button offered during the turn. */
module StreamlitApp {
  import opened Wrappers
  import opened PyStr
  import opened Json
  import opened Chat
  import Home

  /** The persona line of the answer prompt. */
  const Persona: string :=
    "You are SS IntelliBot, a helpful AI assistant with access to PDF-based knowledge."

  /** The summariser's template before and after the formatted history (unlike home.py's, with
      blank lines around the history block). */
  const SummaryHead: string :=
    "\n    [INST]\n    You are an expert summarizer. Summarize the following chat conversation into 5-7 key bullet points that capture the main ideas and solutions shared by the assistant. Be concise, and do not repeat.\n\n    <chat_history>\n    "
  const SummaryTail: string :=
    "\n    </chat_history>\n\n    Your output should look like:\n    - Point 1\n    - Point 2\n    ...\n    [/INST]\n    "

  /** The columns `build_prompt` asks for and its filter `{"@and": [{"@eq": {"language": "English"}}]}`. */
  const Columns: set<string> := {"chunk", "file_url", "relative_path"}
  const EnglishOnly: Json :=
    Obj(map["@and" := Arr([Obj(map["@eq" := Obj(map["language" := Str("English")])])])])

  /** The exceptions `query_cortex` can raise: `next` without a default when no service has the
      selected name (StopIteration), and `r[search_col]` on a hit without that field (KeyError). */
  datatype ContextError = NoSuchService | MissingColumn(column: string)

  // ---------------------------------------------------------------- retrieval context

  /** The selected service's search column, lower-cased. */
  function AppSearchColumn(cfg: Config): (r: Result<string, ContextError>)
    ensures r == Err(NoSuchService) <==>
              forall i :: 0 <= i < |cfg.metadata| ==> cfg.metadata[i].name != cfg.selectedService
    ensures r.Ok? ==> r.value == Lower(FindSearchColumn(cfg.metadata, cfg.selectedService).value)
  {
    match FindSearchColumn(cfg.metadata, cfg.selectedService)
    case None => Err(NoSuchService)
    case Some(col) => Ok(Lower(col))
  }

  /** `f"Context {i+1}: {r[search_col]}"` for a hit that has the field. */
  function Entry(i: nat, value: string): string
  {
    "Context " + NatToString(i + 1) + ": " + value
  }

  /** Whether every hit has a field named exactly `col`. */
  predicate AllHave(results: seq<Row>, col: string)
  {
    forall i :: 0 <= i < |results| ==> RowGet(results[i], col).Some?
  }

  /** The list comprehension over `enumerate(results)`: it raises at the first hit without the
      field. */
  function AppEntries(results: seq<Row>, col: string): (r: Result<seq<string>, ContextError>)
    ensures r.Err? <==> !AllHave(results, col)
    ensures r.Err? ==> r.error == MissingColumn(col)
    ensures r.Ok? ==> |r.value| == |results|
                      && forall i :: 0 <= i < |results| ==>
                           r.value[i] == Entry(i, RowGet(results[i], col).value)
    decreases |results|
  {
    if results == [] then Ok([])
    else
      var k := |results| - 1;
      match AppEntries(results[..k], col)
      case Err(e) => Err(e)
      case Ok(es) =>
        match RowGet(results[k], col)
        case None => Err(MissingColumn(col))
        case Some(v) => Ok(es + [Entry(k, v)])
  }

  /** `svc.search(...)` as `build_prompt` calls it. */
  function AppRequest(cfg: Config, query: string): (req: SearchRequest)
    ensures req.columns == Columns && req.filter == EnglishOnly
    ensures req.query == query && req.service == cfg.selectedService
    ensures req.limit == cfg.numRetrievedChunks
  {
    SearchRequest(cfg.selectedService, query, Columns, EnglishOnly, cfg.numRetrievedChunks)
  }

  /** `query_cortex(query, columns=..., filter=...)`: the entries joined by blank lines. */
  function AppContext(cfg: Config, query: string, search: Search): Result<string, ContextError>
  {
    var results := search(AppRequest(cfg, query));
    match AppSearchColumn(cfg)
    case Err(e) => Err(e)
    case Ok(col) =>
      match AppEntries(results, col)
      case Err(e) => Err(e)
      case Ok(es) => Ok(Join(es, "\n\n"))
  }

  /** The context fails exactly when no service has the selected name, or when some hit lacks the
      lower-cased search column; a service without hits gives the empty context. */
  lemma AppContextErrors(cfg: Config, query: string, search: Search)
    ensures AppContext(cfg, query, search) == Err(NoSuchService) <==>
              forall i :: 0 <= i < |cfg.metadata| ==> cfg.metadata[i].name != cfg.selectedService
    ensures AppContext(cfg, query, search).Err? && AppContext(cfg, query, search) != Err(NoSuchService)
            <==> AppSearchColumn(cfg).Ok?
                 && !AllHave(search(AppRequest(cfg, query)), AppSearchColumn(cfg).value)
    ensures AppSearchColumn(cfg).Ok? && search(AppRequest(cfg, query)) == [] ==>
              AppContext(cfg, query, search) == Ok("")
  {
  }

  /** On success every hit's search-column value reaches the context. */
  lemma AppContextCarries(cfg: Config, query: string, search: Search, i: nat)
    requires AppContext(cfg, query, search).Ok?
    requires i < |search(AppRequest(cfg, query))|
    ensures AppSearchColumn(cfg).Ok?
    ensures Contains(AppContext(cfg, query, search).value,
                     RowGet(search(AppRequest(cfg, query))[i], AppSearchColumn(cfg).value).value)
  {
    var results := search(AppRequest(cfg, query));
    var col := AppSearchColumn(cfg).value;
    var es := AppEntries(results, col).value;
    var v := RowGet(results[i], col).value;
    JoinContainsPart(es, "\n\n", i);
    ContainsHalves("Context " + NatToString(i + 1) + ": ", v);
    ContainsTrans(AppContext(cfg, query, search).value, es[i], v);
  }

  /** The two pages read a hit's chunk alike when the hit's fields that match the search column
      up to case are all spelled in lower case: home.py's case-insensitive lookup then finds the
      same value as this page's exact lookup of the lower-cased name. */
  lemma {:induction false} ChunkLookupsAgree(r: Row, col: string)
    requires forall j :: 0 <= j < |r| && Lower(r[j].0) == Lower(col) ==> r[j].0 == Lower(col)
    ensures Home.ChunkOf(r, col) == RowGet(r, Lower(col)).GetOr(Home.MissingChunk)
    decreases |r|
  {
    LowerIdempotent(col);
    if r != [] {
      ChunkLookupsAgree(r[1..], col);
    }
  }

  /** `build_prompt(question)` on the conversation `messages`. */
  function BuildPrompt(cfg: Config, messages: seq<Message>, question: string, llm: Llm,
                       search: Search): Result<string, ContextError>
  {
    var chatText := HistoryText(ChatHistory(cfg.useChatHistory, messages, cfg.numChatMessages));
    var query := RetrievalQuery(cfg.useChatHistory, messages, cfg.numChatMessages, question,
                                cfg.modelName, llm);
    match AppContext(cfg, query, search)
    case Err(e) => Err(e)
    case Ok(context) => Ok(AnswerPrompt(Persona, chatText, context, question))
  }

  /** A prompt that is built holds the question and the user history text; it fails exactly when
      the retrieval context fails. */
  lemma BuildPromptCarries(cfg: Config, messages: seq<Message>, question: string, llm: Llm,
                           search: Search)
    ensures BuildPrompt(cfg, messages, question, llm, search).Err?
            <==> AppContext(cfg, RetrievalQuery(cfg.useChatHistory, messages, cfg.numChatMessages,
                                                question, cfg.modelName, llm), search).Err?
    ensures BuildPrompt(cfg, messages, question, llm, search).Ok? ==>
              Contains(BuildPrompt(cfg, messages, question, llm, search).value, question)
              && Contains(BuildPrompt(cfg, messages, question, llm, search).value,
                          HistoryText(ChatHistory(cfg.useChatHistory, messages, cfg.numChatMessages)))
  {
    var chatText := HistoryText(ChatHistory(cfg.useChatHistory, messages, cfg.numChatMessages));
    var query := RetrievalQuery(cfg.useChatHistory, messages, cfg.numChatMessages, question,
                                cfg.modelName, llm);
    if AppContext(cfg, query, search).Ok? {
      AnswerPromptCarries(Persona, chatText, AppContext(cfg, query, search).value, question);
    }
  }

  // ---------------------------------------------------------------- one run of the page

  /** How a run of the page ended: a question can fail while its context is built. */
  datatype RunOutcome = Rendered | Answered(reply: string) | Failed(error: ContextError)

  /** The page's `st.session_state` keys "messages" and "pinned_messages" (absent until the first
      run sets them). */
  class AppSession {
    var messages: Option<seq<Message>>
    var pinned: Option<seq<string>>

    predicate Initialised()
      reads this
    {
      messages.Some? && pinned.Some?
    }

    /** A new browser session. */
    constructor()
      ensures messages == None && pinned == None
    {
      messages := None;
      pinned := None;
    }

    /** `init_messages`: both lists default to `[]`, and "Clear Chat" empties the conversation
        (pins stay). */
    method InitMessages(clear: bool)
      modifies this
      ensures Initialised()
      ensures pinned == Some(old(pinned).GetOr([]))
      ensures messages == if clear then Some([]) else Some(old(messages).GetOr([]))
    {
      if pinned.None? {
        pinned := Some([]);
      }
      if clear || messages.None? {
        messages := Some([]);
      }
    }

    /** A submitted question as written: the question joins the conversation; when the prompt
        cannot be built the run ends there; otherwise the reply is shown with a pin button whose
        key is the index the reply is about to take, and then joins the conversation. The button
        reports a click only in a run started by that click. */
    method ChatTurn(question: string, cfg: Config, llm: Llm, search: Search, event: Event)
      returns (r: Result<string, ContextError>)
      requires Initialised()
      modifies this
      ensures Initialised()
      ensures BuildPrompt(cfg, old(messages).value + [Message(UserRole, question)],
                          Sanitize(question), llm, search).Err? ==>
                r.Err? && messages == Some(old(messages).value + [Message(UserRole, question)])
                && r.error == BuildPrompt(cfg, old(messages).value + [Message(UserRole, question)],
                                          Sanitize(question), llm, search).error
      ensures BuildPrompt(cfg, old(messages).value + [Message(UserRole, question)],
                          Sanitize(question), llm, search).Ok? ==>
                r.Ok?
                && r.value == Complete(llm, cfg.modelName,
                                       BuildPrompt(cfg, old(messages).value + [Message(UserRole, question)],
                                                   Sanitize(question), llm, search).value)
                && messages == Some(old(messages).value + [Message(UserRole, question),
                                                           Message(AssistantRole, r.value)])
      ensures pinned == Some(old(pinned).value
                             + if r.Ok? && event == Clicked(PinKey(|old(messages).value| + 1))
                               then [r.value] else [])
    {
      var asked := messages.value + [Message(UserRole, question)];
      messages := Some(asked);
      var prompt := BuildPrompt(cfg, asked, Sanitize(question), llm, search);
      if prompt.Err? {
        SeqEmptyRight(pinned.value);
        return Err(prompt.error);
      }
      var reply := Complete(llm, cfg.modelName, prompt.value);
      if event == Clicked(PinKey(|asked|)) {
        pinned := Some(pinned.value + [reply]);
      } else {
        SeqEmptyRight(pinned.value);
      }
      messages := Some(asked + [Message(AssistantRole, reply)]);
      assert asked + [Message(AssistantRole, reply)]
             == old(messages).value + [Message(UserRole, question), Message(AssistantRole, reply)];
      r := Ok(reply);
    }

    /** One run of the page as written. The pin button exists only in a run that handles a
        submitted question, and a click on it starts a run without one, so no run ever pins. */
    method Run(event: Event, cfg: Config, llm: Llm, search: Search) returns (outcome: RunOutcome)
      modifies this
      ensures Initialised()
      ensures pinned == Some(old(pinned).GetOr([]))
      ensures outcome != Rendered <==> event.Submitted? && cfg.metadata != []
      ensures !(event.Submitted? && cfg.metadata != []) ==>
                messages == if event == ClearPressed then Some([]) else Some(old(messages).GetOr([]))
      ensures outcome.Answered? ==>
                messages == Some(old(messages).GetOr([]) + [Message(UserRole, event.question),
                                                            Message(AssistantRole, outcome.reply)])
      ensures outcome.Failed? ==>
                messages == Some(old(messages).GetOr([]) + [Message(UserRole, event.question)])
    {
      InitMessages(event == ClearPressed);
      SeqEmptyRight(pinned.value);
      if event.Submitted? && cfg.metadata != [] {
        var r := ChatTurn(event.question, cfg, llm, search, event);
        outcome := if r.Ok? then Answered(r.value) else Failed(r.error);
      } else {
        outcome := Rendered;
      }
    }

    /** The evidently intended pin handling, placed as in home.py: each assistant message on show
        carries a pin button keyed by its index, and the run started by a click pins that reply. */
    method RenderPins(event: Event)
      requires Initialised()
      modifies this
      ensures Initialised() && messages == old(messages)
      ensures pinned == Some(old(pinned).value + PinsFor(messages.value, event))
    {
      var ms := messages.value;
      var i := 0;
      SeqEmptyRight(pinned.value);
      while i < |ms|
        invariant 0 <= i <= |ms|
        invariant messages == Some(ms)
        invariant pinned == Some(old(pinned).value + PinsFor(ms[..i], event))
      {
        assert ms[..i + 1][..i] == ms[..i];
        if PinPressed(ms[..i + 1], i, event) {
          pinned := Some(pinned.value + [ms[i].content]);
          SeqAssoc(old(pinned).value, PinsFor(ms[..i], event), [ms[i].content]);
        } else {
          SeqEmptyRight(PinsFor(ms[..i], event));
        }
        i := i + 1;
      }
      assert ms[..i] == ms;
    }

    /** One run of the page with the pin handling corrected: a click on the pin of the reply at
        index `k` pins that reply. */
    method RunCorrected(event: Event, cfg: Config, llm: Llm, search: Search)
      returns (outcome: RunOutcome)
      modifies this
      ensures Initialised()
      ensures forall k: nat :: event == Clicked(PinKey(k)) ==>
                messages == Some(old(messages).GetOr([]))
                && pinned == Some(old(pinned).GetOr([])
                                  + if k < |messages.value| && messages.value[k].role == AssistantRole
                                    then [messages.value[k].content] else [])
      ensures !event.Clicked? ==> pinned == Some(old(pinned).GetOr([]))
      ensures outcome != Rendered <==> event.Submitted? && cfg.metadata != []
      ensures outcome.Answered? ==>
                messages == Some(old(messages).GetOr([]) + [Message(UserRole, event.question),
                                                            Message(AssistantRole, outcome.reply)])
      ensures outcome.Failed? ==>
                messages == Some(old(messages).GetOr([]) + [Message(UserRole, event.question)])
    {
      InitMessages(event == ClearPressed);
      ghost var shown := messages.value;
      ghost var pinnedBefore := pinned.value;
      RenderPins(event);
      if event.Clicked? {
        forall k: nat | event == Clicked(PinKey(k))
          ensures PinsFor(shown, event)
                  == if k < |shown| && shown[k].role == AssistantRole then [shown[k].content] else []
        {
          PinsForClick(shown, k);
        }
      } else {
        PinsForNoClick(shown, event);
        SeqEmptyRight(pinnedBefore);
      }
      if event.Submitted? && cfg.metadata != [] {
        var r := ChatTurn(event.question, cfg, llm, search, event);
        outcome := if r.Ok? then Answered(r.value) else Failed(r.error);
      } else {
        outcome := Rendered;
      }
    }
  }

  /** The "Generate Insight Summary" button. */
  method Summarize(messages: seq<Message>, model: string, llm: Llm) returns (summary: string)
    ensures summary == Strip(Complete(llm, model, SummaryHead + SummaryText(messages) + SummaryTail))
    ensures NoEdgeSpace(summary)
  {
    summary := GenerateSummary(messages, SummaryHead, SummaryTail, model, llm);
  }
}
