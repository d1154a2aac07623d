/** The chat-turn logic that home.py and streamlit_app.py share word for word: the history window,
    the user-only history text, the summarise-or-pass-through rule, the `$` escaping of completions,
    the prompt pieces, and the two transcript renderers. The completion service is the parameter
    `llm` (model name and prompt to raw reply); the search service's request is a value. */
module Chat {
  import opened Wrappers
  import opened PyStr
  import opened Json

  const UserRole: string := "user"
  const AssistantRole: string := "assistant"

  /** One entry of `st.session_state.messages`: `{"role": role, "content": content}`. */
  datatype Message = Message(role: string, content: string)

  /** The hosted completion service `Complete(model, prompt)`, before post-processing. */
  type Llm = (string, string) -> string

  function Min(a: int, b: int): int { if a <= b then a else b }

  function Max(a: int, b: int): int { if a >= b then a else b }

  // ---------------------------------------------------------------- history window

  /** `get_chat_history`: `messages[-n:-1]`, with `n` the "Chat History Messages" setting. */
  function HistoryWindow(messages: seq<Message>, n: int): seq<Message>
  {
    PySlice(messages, -n, -1)
  }

  /** For a setting `n >= 1` the window is the contiguous run of up to `n - 1` messages that ends
      just before the last message, in the original order. */
  lemma HistoryWindowShape(messages: seq<Message>, n: int)
    requires n >= 1
    ensures |HistoryWindow(messages, n)| == Max(0, Min(n, |messages|) - 1)
    ensures messages != [] ==>
              HistoryWindow(messages, n) == messages[|messages| - Min(n, |messages|)..|messages| - 1]
    ensures messages == [] ==> HistoryWindow(messages, n) == []
  {
  }

  /** Python reads `-0` as `0`, so a setting of 0 gives every message but the last. */
  lemma HistoryWindowZero(messages: seq<Message>)
    requires messages != []
    ensures HistoryWindow(messages, 0) == messages[..|messages| - 1]
  {
  }

  /** The window is empty exactly when there is at most one message or the setting is 1. */
  lemma HistoryWindowEmpty(messages: seq<Message>, n: int)
    requires n >= 1
    ensures HistoryWindow(messages, n) == [] <==> |messages| <= 1 || n == 1
  {
    HistoryWindowShape(messages, n);
  }

  /** During a turn the window is taken after the question was appended, so it holds the last
      `n - 1` messages from before the question and never the question itself. */
  lemma TurnWindow(before: seq<Message>, question: Message, n: int)
    requires n >= 1
    ensures HistoryWindow(before + [question], n) == before[|before| - Min(n - 1, |before|)..]
  {
    HistoryWindowShape(before + [question], n);
    assert (before + [question])[..|before|] == before;
  }

  /** Messages older than the last `n - 1` before the question never enter the window. */
  lemma TurnWindowRecentOnly(older: seq<Message>, recent: seq<Message>, question: Message, n: int)
    requires n >= 1 && |recent| >= n - 1
    ensures HistoryWindow(older + recent + [question], n) == HistoryWindow(recent + [question], n)
  {
    TurnWindow(older + recent, question, n);
    TurnWindow(recent, question, n);
    var all := older + recent;
    assert all + [question] == older + recent + [question];
    assert all[|all| - (n - 1)..] == recent[|recent| - (n - 1)..];
  }

  // ---------------------------------------------------------------- history text

  /** `[msg["content"] for msg in chat_history if msg["role"] == "user"]`. */
  function UserContents(window: seq<Message>): (r: seq<string>)
    ensures |r| <= |window|
    decreases |window|
  {
    if window == [] then []
    else (if window[0].role == UserRole then [window[0].content] else []) + UserContents(window[1..])
  }

  /** The history text handed to the summariser and the prompt: user contents joined by newlines. */
  function HistoryText(window: seq<Message>): string
  {
    Join(UserContents(window), "\n")
  }

  /** Taking user contents commutes with concatenation. */
  lemma {:induction false} UserContentsAppend(a: seq<Message>, b: seq<Message>)
    ensures UserContents(a + b) == UserContents(a) + UserContents(b)
    decreases |a|
  {
    if a == [] {
      SeqEmptyLeft(b);
      SeqEmptyLeft(UserContents(b));
    } else {
      assert (a + b)[0] == a[0];
      assert (a + b)[1..] == a[1..] + b;
      UserContentsAppend(a[1..], b);
      var h := if a[0].role == UserRole then [a[0].content] else [];
      SeqAssoc(h, UserContents(a[1..]), UserContents(b));
    }
  }

  /** A message whose role is not "user" never contributes: removing it leaves the history text
      unchanged. */
  lemma HistoryTextIgnoresNonUser(window: seq<Message>, i: nat)
    requires i < |window| && window[i].role != UserRole
    ensures HistoryText(window[..i] + window[i + 1..]) == HistoryText(window)
  {
    assert window == window[..i] + ([window[i]] + window[i + 1..]);
    UserContentsAppend(window[..i], [window[i]] + window[i + 1..]);
    UserContentsAppend([window[i]], window[i + 1..]);
    UserContentsAppend(window[..i], window[i + 1..]);
    assert UserContents([window[i]]) == [];
    SeqEmptyLeft(UserContents(window[i + 1..]));
  }

  /** A window of user messages contributes all its contents, in order. */
  lemma {:induction false} UserContentsAllUsers(window: seq<Message>)
    requires forall i :: 0 <= i < |window| ==> window[i].role == UserRole
    ensures |UserContents(window)| == |window|
    ensures forall i :: 0 <= i < |window| ==> UserContents(window)[i] == window[i].content
    decreases |window|
  {
    if window != [] {
      UserContentsAllUsers(window[1..]);
    }
  }

  /** A window with no user message gives the empty history text. */
  lemma {:induction false} HistoryTextNoUsers(window: seq<Message>)
    requires forall i :: 0 <= i < |window| ==> window[i].role != UserRole
    ensures UserContents(window) == [] && HistoryText(window) == ""
    decreases |window|
  {
    if window != [] {
      HistoryTextNoUsers(window[1..]);
    }
  }

  // ---------------------------------------------------------------- completion

  /** `.replace("$", "\$")` applied to every completion (the backslash keeps the UI's markdown
      from reading `$` as mathematics). */
  function EscapeDollars(s: string): string
  {
    Replace(s, "$", "\\$")
  }

  /** `complete(model, prompt)`: the completion service's reply, escaped. */
  function Complete(llm: Llm, model: string, prompt: string): string
  {
    EscapeDollars(llm(model, prompt))
  }

  lemma EscapeDollarsCons(x: char, s: string)
    ensures EscapeDollars([x] + s) == (if x == '$' then "\\$" else [x]) + EscapeDollars(s)
  {
    ReplaceCharCons(x, s, '$', "\\$");
  }

  /** Every `$` of `t` has a backslash just before it. */
  predicate DollarsEscaped(t: string)
  {
    forall i :: 0 <= i < |t| && t[i] == '$' ==> i > 0 && t[i - 1] == '\\'
  }

  /** Two texts whose dollars are escaped stay so when joined. */
  lemma EscapedPrepend(p: string, e: string)
    requires DollarsEscaped(p) && DollarsEscaped(e)
    ensures DollarsEscaped(p + e)
  {
    forall i | 0 <= i < |p + e| && (p + e)[i] == '$'
      ensures i > 0 && (p + e)[i - 1] == '\\'
    {
      if i < |p| {
        assert p[i] == '$';
        assert (p + e)[i - 1] == p[i - 1];
      } else {
        assert e[i - |p|] == '$';
        assert (p + e)[i - 1] == e[i - |p| - 1];
      }
    }
  }

  /** Escaping keeps the number of `$` and puts a backslash before each of them. */
  lemma {:induction false} EscapeDollarsShape(s: string)
    ensures CountChar(EscapeDollars(s), '$') == CountChar(s, '$')
    ensures DollarsEscaped(EscapeDollars(s))
    ensures |EscapeDollars(s)| >= |s|
    decreases |s|
  {
    if s != [] {
      EscapeDollarsShape(s[1..]);
      EscapeDollarsCons(s[0], s[1..]);
      assert s == [s[0]] + s[1..];
      var e := EscapeDollars(s[1..]);
      var p: string := if s[0] == '$' then "\\$" else [s[0]];
      assert DollarsEscaped(p);
      EscapedPrepend(p, e);
      assert multiset(p)['$'] == multiset([s[0]])['$'];
      assert multiset(EscapeDollars(s)) == multiset(p) + multiset(e);
      assert multiset(s) == multiset([s[0]]) + multiset(s[1..]);
    }
  }

  /** Turning every `\$` back into `$` undoes the escaping, so no completion text is lost. */
  lemma {:induction false} EscapeDollarsRoundTrip(s: string)
    ensures Replace(EscapeDollars(s), "\\$", "$") == s
    decreases |s|
  {
    if s != [] {
      EscapeDollarsRoundTrip(s[1..]);
      EscapeDollarsCons(s[0], s[1..]);
      EscapeDollarsShape(s[1..]);
      assert s == [s[0]] + s[1..];
      var e := EscapeDollars(s[1..]);
      if s[0] == '$' {
        ReplaceAtHead("\\$", e, "$");
      } else {
        if |e| >= 1 {
          assert e[0] != '$';
          assert ([s[0]] + e)[..2] != "\\$" by {
            assert ([s[0]] + e)[1] == e[0];
          }
        }
        ReplaceKeepsHead(s[0], e, "\\$", "$");
      }
    }
  }

  // ---------------------------------------------------------------- prompts

  /** The fixed text of `summarize_chat`'s triple-quoted template (its line breaks and
      indentation included) around the history text and the question. */
  const SummarizeOpen: string :=
    "\n    [INST]\n    Extend the user question using the chat history.\n    <chat_history>"
  const SummarizeMiddle: string := "</chat_history>\n    <question>"
  const SummarizeClose: string := "</question>\n    [/INST]\n    "

  /** `summarize_chat`'s instruction. */
  function SummarizePrompt(chatText: string, question: string): string
  {
    SummarizeOpen + chatText + SummarizeMiddle + question + SummarizeClose
  }

  /** The fixed text of `build_prompt`'s template around the persona line, the history text, the
      retrieved context and the question. */
  const AnswerOpen: string := "\n    [INST]\n    "
  const AnswerRules: string :=
    "\n    Use the provided <context> and <chat_history> to answer user questions.\n    Respond clearly, briefly, and helpfully.\n\n    <chat_history>"
  const AnswerToContext: string := "</chat_history>\n    <context>"
  const AnswerToQuestion: string := "</context>\n    <question>"
  const AnswerClose: string := "</question>\n    [/INST]\n    Answer:\n    "

  /** `build_prompt`'s instruction. */
  function AnswerPrompt(persona: string, chatText: string, context: string, question: string): string
  {
    AnswerOpen + persona + AnswerRules + chatText + AnswerToContext + context + AnswerToQuestion
    + question + AnswerClose
  }

  /** The answer prompt carries the question, the retrieved context and the history text verbatim. */
  lemma AnswerPromptCarries(persona: string, chatText: string, context: string, question: string)
    ensures Contains(AnswerPrompt(persona, chatText, context, question), question)
    ensures Contains(AnswerPrompt(persona, chatText, context, question), context)
    ensures Contains(AnswerPrompt(persona, chatText, context, question), chatText)
  {
    var p := AnswerPrompt(persona, chatText, context, question);
    var h := AnswerOpen + persona + AnswerRules;
    var withChat := h + chatText + AnswerToContext;
    var withContext := withChat + context + AnswerToQuestion;
    var withQuestion := withContext + question;
    ContainsHalves(withQuestion, AnswerClose);
    ContainsHalves(withContext, question);
    ContainsTrans(p, withQuestion, question);
    ContainsHalves(withChat + context, AnswerToQuestion);
    ContainsHalves(withChat, context);
    ContainsTrans(withContext, withChat + context, context);
    ContainsTrans(withQuestion, withContext, context);
    ContainsTrans(p, withQuestion, context);
    ContainsHalves(h + chatText, AnswerToContext);
    ContainsHalves(h, chatText);
    ContainsTrans(withChat, h + chatText, chatText);
    ContainsTrans(withChat + context, withChat, chatText);
    ContainsTrans(withContext, withChat + context, chatText);
    ContainsTrans(withQuestion, withContext, chatText);
    ContainsTrans(p, withQuestion, chatText);
  }

  // ---------------------------------------------------------------- retrieval query

  /** `get_chat_history() if use_chat_history else []`. */
  function ChatHistory(useHistory: bool, messages: seq<Message>, n: int): seq<Message>
  {
    if useHistory then HistoryWindow(messages, n) else []
  }

  /** The retrieval query: the summariser's rewrite when the history window is non-empty, else
      the question. */
  function RetrievalQuery(useHistory: bool, messages: seq<Message>, n: int, question: string,
                          model: string, llm: Llm): string
  {
    var window := ChatHistory(useHistory, messages, n);
    if window != [] then Complete(llm, model, SummarizePrompt(HistoryText(window), question))
    else question
  }

  /** Without history, or with an empty window, the question passes through and the completion
      service is not consulted (any two services give the same query). */
  lemma RetrievalQueryPassThrough(useHistory: bool, messages: seq<Message>, n: int, question: string,
                                  model: string, llm: Llm, other: Llm)
    requires !useHistory || HistoryWindow(messages, n) == []
    ensures RetrievalQuery(useHistory, messages, n, question, model, llm) == question
    ensures RetrievalQuery(useHistory, messages, n, question, model, other) == question
  {
  }

  /** The test is on the window, not on the text: a window holding only assistant messages still
      calls the summariser, with an empty history text. */
  lemma RetrievalQueryAssistantOnly(useHistory: bool, messages: seq<Message>, n: int,
                                    question: string, model: string, llm: Llm)
    requires useHistory && HistoryWindow(messages, n) != []
    requires forall i :: 0 <= i < |HistoryWindow(messages, n)| ==>
               HistoryWindow(messages, n)[i].role != UserRole
    ensures RetrievalQuery(useHistory, messages, n, question, model, llm)
            == Complete(llm, model, SummarizePrompt("", question))
  {
    HistoryTextNoUsers(HistoryWindow(messages, n));
  }

  // ---------------------------------------------------------------- search service

  /** One entry of `st.session_state.service_metadata`. */
  datatype ServiceMeta = ServiceMeta(name: string, searchColumn: string)

  /** The search column of the first service named `selected`
      (`next(s["search_column"] for s in metadata if s["name"] == selected)`). */
  function FindSearchColumn(metadata: seq<ServiceMeta>, selected: string): (r: Option<string>)
    ensures r.None? <==> forall i :: 0 <= i < |metadata| ==> metadata[i].name != selected
    ensures r.Some? ==> (exists i :: 0 <= i < |metadata| && metadata[i].name == selected
                          && metadata[i].searchColumn == r.value
                          && forall j :: 0 <= j < i ==> metadata[j].name != selected)
    decreases |metadata|
  {
    if metadata == [] then None
    else if metadata[0].name == selected then Some(metadata[0].searchColumn)
    else
      var r := FindSearchColumn(metadata[1..], selected);
      assert r.Some? ==> (exists i :: 1 <= i < |metadata| && metadata[i].name == selected
                           && metadata[i].searchColumn == r.value
                           && forall j :: 0 <= j < i ==> metadata[j].name != selected);
      r
  }

  /** One search hit as the client returns it: its fields, in the dictionary's order. */
  type Row = seq<(string, string)>

  /** Python's `r[key]` on a hit: the value of the first field named `key`. */
  function RowGet(r: Row, key: string): (v: Option<string>)
    ensures v.None? <==> forall j :: 0 <= j < |r| ==> r[j].0 != key
    ensures v.Some? ==> (exists j :: 0 <= j < |r| && r[j] == (key, v.value)
                          && forall i :: 0 <= i < j ==> r[i].0 != key)
    decreases |r|
  {
    if r == [] then None
    else if r[0].0 == key then Some(r[0].1)
    else
      var v := RowGet(r[1..], key);
      assert v.Some? ==> (exists j :: 1 <= j < |r| && r[j] == (key, v.value)
                           && forall i :: 0 <= i < j ==> r[i].0 != key);
      v
  }

  /** A call `svc.search(query, columns=..., filter=..., limit=...)` on the selected service. */
  datatype SearchRequest = SearchRequest(service: string, query: string, columns: set<string>,
                                         filter: Json, limit: int)

  /** The search service: a request to its hits, in rank order. */
  type Search = SearchRequest -> seq<Row>

  /** The sidebar settings and the search services found at start-up. */
  datatype Config = Config(modelName: string, useChatHistory: bool, numChatMessages: int,
                           numRetrievedChunks: int, selectedService: string,
                           metadata: seq<ServiceMeta>)

  /** `question.replace("'", "")`: the question with its apostrophes removed. */
  function Sanitize(question: string): (q: string)
    ensures '\'' !in q
    ensures multiset(q) == multiset(question)['\'' := 0]
    ensures IsSubsequence(q, question)
  {
    RemoveChar(question, '\'');
    Replace(question, "'", "")
  }

  // ---------------------------------------------------------------- summaries and transcripts

  /** One line of `generate_summary`'s `formatted_history`. */
  function SummaryLine(m: Message): string
  {
    (if m.role == UserRole then "User" else "Assistant") + ": " + m.content + "\n"
  }

  /** `formatted_history` after the loop has gone through `messages`. */
  function SummaryText(messages: seq<Message>): string
    decreases |messages|
  {
    if messages == [] then ""
    else SummaryText(messages[..|messages| - 1]) + SummaryLine(messages[|messages| - 1])
  }

  /** `generate_summary`'s loop, which grows `formatted_history` one message at a time. */
  method FormatHistory(messages: seq<Message>) returns (formatted: string)
    ensures formatted == SummaryText(messages)
  {
    formatted := "";
    var i := 0;
    while i < |messages|
      invariant 0 <= i <= |messages|
      invariant formatted == SummaryText(messages[..i])
    {
      assert messages[..i + 1][..i] == messages[..i];
      formatted := formatted + SummaryLine(messages[i]);
      i := i + 1;
    }
    assert messages[..i] == messages;
  }

  /** `generate_summary`: the escaped completion of the summariser's template, whose text before
      and after the formatted history is `head` and `tail`, stripped. */
  method GenerateSummary(messages: seq<Message>, head: string, tail: string, model: string, llm: Llm)
    returns (summary: string)
    ensures summary == Strip(Complete(llm, model, head + SummaryText(messages) + tail))
    ensures NoEdgeSpace(summary)
  {
    var formatted := FormatHistory(messages);
    var reply := Complete(llm, model, head + formatted + tail);
    summary := Strip(reply);
  }

  /** One line of the downloadable transcript: `f"{m['role'].capitalize()}: {m['content']}"`. */
  function TranscriptLine(m: Message): string
  {
    Capitalize(m.role) + ": " + m.content
  }

  function TranscriptLines(messages: seq<Message>): (r: seq<string>)
    ensures |r| == |messages|
    ensures forall i :: 0 <= i < |messages| ==> r[i] == TranscriptLine(messages[i])
    decreases |messages|
  {
    if messages == [] then []
    else TranscriptLines(messages[..|messages| - 1]) + [TranscriptLine(messages[|messages| - 1])]
  }

  /** The "Download Chat History" text: the transcript lines joined by newlines. */
  function Transcript(messages: seq<Message>): string
  {
    Join(TranscriptLines(messages), "\n")
  }

  /** The capitalised role names, letter by letter. */
  lemma CapitalLetters()
    ensures ['U'] + "ser" == "User"
    ensures ['A'] + "ssistant" == "Assistant"
    ensures ['S'] + "ystem" == "System"
  {
  }

  lemma CapitalizeUser()
    ensures Capitalize(UserRole) == "User"
  {
    CapitalizeLowerTail(UserRole);
    assert UserRole[1..] == "ser";
    assert UpperChar('u') == 'U';
    CapitalLetters();
  }

  lemma CapitalizeAssistant()
    ensures Capitalize(AssistantRole) == "Assistant"
  {
    CapitalizeLowerTail(AssistantRole);
    assert AssistantRole[1..] == "ssistant";
    assert UpperChar('a') == 'A';
    CapitalLetters();
  }

  /** For the two roles the app writes, the summariser's line is the transcript line plus "\n". */
  lemma SummaryLineIsTranscriptLine(m: Message)
    requires m.role == UserRole || m.role == AssistantRole
    ensures SummaryLine(m) == TranscriptLine(m) + "\n"
  {
    if m.role == UserRole {
      CapitalizeUser();
    } else {
      CapitalizeAssistant();
    }
  }

  /** For messages whose role is "user" or "assistant" the summariser's input is the downloadable
      transcript plus a final newline. */
  lemma {:induction false} SummaryTextIsTranscript(messages: seq<Message>)
    requires forall i :: 0 <= i < |messages| ==>
               messages[i].role == UserRole || messages[i].role == AssistantRole
    ensures SummaryText(messages) == if messages == [] then "" else Transcript(messages) + "\n"
    decreases |messages|
  {
    if messages != [] {
      var init := messages[..|messages| - 1];
      var m := messages[|messages| - 1];
      SummaryTextIsTranscript(init);
      SummaryLineIsTranscriptLine(m);
      var ls := TranscriptLines(init);
      var t := TranscriptLine(m);
      assert TranscriptLines(messages) == ls + [t];
      JoinSnoc(ls, t, "\n");
      assert SummaryText(messages) == SummaryText(init) + (t + "\n");
      if init == [] {
        assert ls == [];
        assert Transcript(messages) == t;
        SeqEmptyLeft(t + "\n");
      } else {
        var j := Join(ls, "\n");
        assert SummaryText(init) == j + "\n";
        assert Transcript(messages) == j + "\n" + t;
        SeqAssoc(j + "\n", t, "\n");
      }
    }
  }

  /** Any other role is labelled "Assistant" by the summariser but keeps its own name in the
      transcript: a loaded message with role "system" shows the two renderers apart. */
  lemma SummaryAndTranscriptDisagree()
    ensures SummaryText([Message("system", "hi")]) == "Assistant: hi\n"
    ensures Transcript([Message("system", "hi")]) == "System: hi"
  {
    var m := Message("system", "hi");
    assert [m][..0] == [];
    assert SummaryText([m]) == SummaryLine(m);
    assert SummaryLine(m) == "Assistant" + ": " + "hi" + "\n";
    CapitalizeLowerTail("system");
    assert "system"[1..] == "ystem";
    assert UpperChar('s') == 'S';
    CapitalLetters();
    assert Transcript([m]) == TranscriptLine(m);
    assert TranscriptLine(m) == "System" + ": " + "hi";
    ExampleLines();
  }

  /** The two renderings of the example message, as single texts. */
  lemma ExampleLines()
    ensures "Assistant" + ": " + "hi" + "\n" == "Assistant: hi\n"
    ensures "System" + ": " + "hi" == "System: hi"
  {
  }

  // ---------------------------------------------------------------- page runs

  /** The user interaction that starts a Streamlit run: nothing, the "Clear Chat" button, a
      question submitted in the chat input, or the click of the button with widget key `key`.
      A run sees exactly one of them: `st.button(..., key=k)` returns true only in the run started
      by a click on `k`, and `st.chat_input` returns text only in the run started by submitting it. */
  datatype Event = Idle | ClearPressed | Submitted(question: string) | Clicked(key: string)

  /** The widget key `f"pin_{i}"`. */
  function PinKey(i: nat): string
  {
    "pin_" + NatToString(i)
  }

  /** Distinct indices give distinct pin keys. */
  lemma PinKeyInjective(i: nat, j: nat)
    requires PinKey(i) == PinKey(j)
    ensures i == j
  {
    assert PinKey(i)[4..] == NatToString(i);
    assert PinKey(j)[4..] == NatToString(j);
    NatToStringRoundTrip(i);
    NatToStringRoundTrip(j);
  }

  /** Whether the pin button under message `i` (shown only for assistant messages) is the one
      this run's event clicked. */
  predicate PinPressed(messages: seq<Message>, i: nat, event: Event)
    requires i < |messages|
  {
    messages[i].role == AssistantRole && event == Clicked(PinKey(i))
  }

  /** What the loop over the displayed messages appends to the pinned list, in display order. */
  function PinsFor(messages: seq<Message>, event: Event): seq<string>
    decreases |messages|
  {
    if messages == [] then []
    else
      var k := |messages| - 1;
      PinsFor(messages[..k], event)
      + (if PinPressed(messages, k, event) then [messages[k].content] else [])
  }

  /** Displaying one more message adds that message's pin, if its pin was clicked. */
  lemma PinsForStep(messages: seq<Message>, i: nat, event: Event)
    requires i < |messages|
    ensures PinsFor(messages[..i + 1], event)
            == PinsFor(messages[..i], event)
               + (if PinPressed(messages, i, event) then [messages[i].content] else [])
  {
    assert messages[..i + 1][..i] == messages[..i];
  }

  /** A click on the pin of message `i` pins that message's content once when it is an assistant
      message, and pins nothing otherwise. */
  lemma {:induction false} PinsForClick(messages: seq<Message>, i: nat)
    ensures PinsFor(messages, Clicked(PinKey(i)))
            == if i < |messages| && messages[i].role == AssistantRole then [messages[i].content] else []
    decreases |messages|
  {
    if messages != [] {
      var k := |messages| - 1;
      PinsForClick(messages[..k], i);
      if PinPressed(messages, k, Clicked(PinKey(i))) {
        PinKeyInjective(k, i);
      }
      assert forall j :: 0 <= j < k ==> messages[..k][j] == messages[j];
    }
  }

  /** Any other event pins nothing. */
  lemma {:induction false} PinsForNoClick(messages: seq<Message>, event: Event)
    requires !event.Clicked?
    ensures PinsFor(messages, event) == []
    decreases |messages|
  {
    if messages != [] {
      PinsForNoClick(messages[..|messages| - 1], event);
    }
  }
}
