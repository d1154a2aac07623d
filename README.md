# SS IntelliGuide / APT tours: a Dafny model

This project models the logic of a small travel-assistant repository in Dafny and proves
properties of that model. The repository has two Streamlit chat pages, a tour scraper, a tour
viewer/editor and a fleet scraper.

- **Chat pages** (`home.py`, `streamlit_app.py`)
  - the retrieval-augmented chat turn: history window, history text, retrieval query (summariser
    pass-through), context assembly from search hits, answer prompt, escaped completion;
  - the session state: conversation, pinned replies, the JSON state file of `home.py` with its
    save/load round trip;
  - the per-run handling of "Clear Chat", pin buttons and submitted questions;
  - the summary text and the downloadable transcript.
- **Tour scraper** (`scraper/tour_info.py`)
  - the derivation of one tour record from what a browser returns for a tour page: region and
    country from the URL, cleaned trip code, stripped texts, inclusions, the booking fields and the
    defaults each guarded step falls back to;
  - accumulating one record per URL of the list file.
- **Tour viewer** (`pages/view_tour.py`)
  - loading the JSON file (dict or list);
  - the four-field, lower-cased substring filter, including the `KeyError`/`TypeError` it raises
    on records that lack a field;
  - the cards loop that writes the edited booking fields back into the shared `tours` list, and
    the save button that writes the whole list.
- **Fleet scraper** (`scraper/get_all_fleet_links.py`, `scraper/fleet-data.py`)
  - the sitemap filter and the file of one URL per line;
  - reading that file back, the `ship_id` and PDF path of each URL;
  - the save loop, which goes on after a failed URL.

The modules, in dependency order:

| file | module | contents |
|---|---|---|
| `wrappers.dfy` | `Wrappers` | `Option`, `Result` |
| `pystr.dfy` | `PyStr` | Python string semantics used by the code: `strip` (the full `isspace` set), ASCII `lower`/`capitalize`, `in`, `count`, `split`/`join`/`replace` (left-to-right, non-overlapping), slicing with negative indices, `str(n)`, and reading a text file as stripped non-blank lines |
| `json.dfy` | `Json` | JSON values, `dict.get`, Python truthiness, lists of strings |
| `chat.dfy` | `Chat` | the pieces written identically in both chat pages |
| `home.dfy` | `Home` | `home.py`: context with fallbacks, request, prompt, state file, the session as a class |
| `streamlit_app.dfy` | `StreamlitApp` | `streamlit_app.py`: exact-key context, its errors, the session as a class |
| `tour_info.dfy` | `TourInfo` | `extract_tour_info` and `main` of the tour scraper |
| `view_tour.dfy` | `ViewTour` | the viewer page as a class over the file and `tours` |
| `fleet_links.dfy` | `FleetLinks` | the sitemap filter and the URL file |
| `fleet_data.dfy` | `FleetData` | `ship_id`, PDF paths, the save loop as a class over the output folder |

External services are parameters of the model.
- The completion service (`Complete`) is a function `Llm` from model name and prompt to text.
- The search service is a function `Search` from a request (service, query, columns, filter,
  limit) to a list of result rows.
- A result row is a list of key/value pairs in dict iteration order.
- The browser is a `TourPage` value. It holds, for each guarded step of `extract_tour_info`,
  whether that step raised (`Raised`) or what it returned.
- `page.goto`/`page.pdf` in the fleet scraper is a predicate `printed(i, url)`.
- A Streamlit script run is one `Event`: nothing, "Clear Chat", a submitted question, or a
  clicked button key.

Where the code and its description disagree, the model follows the code.
- `split("/tours/")[-1]` is the piece after the last *non-overlapping* cut, not the text after the
  last occurrence.
- `messages[-0:-1]` is every message but the last.
- `home.py` labels every role other than `"user"` as `Assistant` in the summary, but the
  transcript capitalises the role itself.
- `streamlit_app.py` indexes `r[search_col]` exactly and raises on a hit without that field, and
  its `next(...)` raises when no service has the selected name.

## Model

| member | source | states |
|---|---|---|
| Chat.HistoryWindowShape | home.py:75-76 | for a setting n ≥ 1 the window has max(0, min(n, len) − 1) messages and is exactly the contiguous run that ends just before the last message |
| Chat.HistoryWindowZero | home.py:76 | a setting of 0 gives every message but the last (`-0` is `0`) |
| Chat.HistoryWindowEmpty | home.py:76 | the window is empty exactly when there is at most one message or the setting is 1 |
| Chat.TurnWindow | home.py:508 | once the question is appended, the window is the last n − 1 messages before it and never the question itself |
| Chat.TurnWindowRecentOnly | home.py:75-76 | messages older than the last n − 1 before the question never reach the window |
| Chat.UserContents | home.py:92 | the comprehension yields at most one content per window message |
| Chat.UserContentsAppend | home.py:92 | taking user contents commutes with concatenating windows |
| Chat.HistoryTextIgnoresNonUser | home.py:92 | removing a non-user message from the window leaves the history text unchanged |
| Chat.UserContentsAllUsers | home.py:92 | a window of user messages contributes every content, in order |
| Chat.HistoryTextNoUsers | home.py:92 | a window without user messages gives the empty history text |
| Chat.EscapeDollarsCons | home.py:35 | `$` becomes `\$` and other characters stay, one character at a time |
| Chat.EscapeDollarsShape | home.py:35 | escaping keeps the number of `$`, puts a backslash before each, and only lengthens the text |
| Chat.EscapeDollarsRoundTrip | home.py:35 | replacing `\$` by `$` in an escaped completion gives back the completion |
| Chat.AnswerPromptCarries | home.py:95-107 | the answer prompt contains the question, the context and the history text |
| Chat.RetrievalQueryPassThrough | home.py:91-93 | with history off or an empty window the query is the question, and the completion service is not consulted |
| Chat.RetrievalQueryAssistantOnly | home.py:91-93 | a non-empty window with no user message still calls the summariser, with empty history text |
| Chat.FindSearchColumn | home.py:115-118 | `None` exactly when no service has the name; otherwise the search column of the first service with that name |
| Chat.RowGet | streamlit_app.py:105 | `None` exactly when no field has the key; otherwise the value of the first field with that key |
| Chat.Sanitize | home.py:510 | the question with every apostrophe removed and every other character kept, in order |
| Chat.FormatHistory | home.py:264-267 | the loop builds `SummaryText` of the messages |
| Chat.GenerateSummary | home.py:262-281 | the summary is the stripped completion of the template around the formatted history, and has no edge whitespace |
| Chat.TranscriptLines | home.py:527 | one transcript line per message, in order |
| Chat.CapitalizeUser | home.py:527 | the role `user` is written `User` |
| Chat.CapitalizeAssistant | home.py:527 | the role `assistant` is written `Assistant` |
| Chat.SummaryLineIsTranscriptLine | home.py:266-267 | for the two roles the app writes, a summary line is the transcript line plus a newline |
| Chat.SummaryTextIsTranscript | home.py:264-267 | for such messages the summariser's input is the transcript plus a final newline |
| Chat.SummaryAndTranscriptDisagree | home.py:266 | a message with role `system` is `Assistant: hi` in the summary but `System: hi` in the transcript |
| Chat.PinKeyInjective | home.py:501 | distinct message indices give distinct pin button keys |
| Chat.PinsForClick | home.py:497-503 | a click on the pin of message i pins its content once when it is an assistant message, and nothing otherwise |
| Chat.PinsForNoClick | home.py:497-503 | a run without a button click pins nothing |
| Home.SearchColumn | home.py:115-118 | the search column of the selected service, or `chunk` when no service has that name |
| Home.ChunkOf | home.py:126 | the value of the first field whose name equals the search column up to ASCII case, else `[Missing chunk]` |
| Home.ContextEntries | home.py:129 | one entry per hit, in order, numbered from 1 |
| Home.MakeContextCarries | home.py:123-127 | an entry contains its hit's chunk and its file name (`relative_path` or `unknown`) |
| Home.HomeContextCarries | home.py:129 | every hit's chunk and file name reach the context |
| Home.HomeContextSnoc | home.py:129 | one more hit appends a blank line and its entry; zero hits give the empty context |
| Home.HomeRequest | home.py:120-121 | the requested columns are exactly the search column, `file_url` and `relative_path`, with no filter and the configured limit |
| Home.BuildPromptCarries | home.py:90-107 | the prompt contains the question, the user history text and every chunk retrieved for the retrieval query |
| Home.BuildPromptRecentOnly | home.py:90-93 | messages older than the window can be dropped without changing the prompt |
| Home.MessagesToJson | home.py:40-43 | a conversation is stored as a list of message dicts, one per message, in order |
| Home.MessagesRoundTrip | home.py:38-51 | decoding a stored conversation gives it back |
| Home.StateRoundTrip | home.py:38-51 | loading the saved state gives back the conversation and the pinned replies |
| Home.StateFromJsonDefaults | home.py:50-51 | an empty dict loads as two empty lists; a value that is not a dict does not load |
| Home.HomeSession.constructor | home.py:55 | a new session has neither list and sees the state file left earlier |
| Home.HomeSession.Save | home.py:38-43 | the state file holds both lists, an absent one as `[]`, and nothing else changes |
| Home.HomeSession.Load | home.py:46-51 | with a file, both lists are replaced by its contents; a file that does not decode fails and changes nothing |
| Home.HomeSession.InitMessages | home.py:54-61 | first run loads then defaults both lists; "Clear Chat" empties the conversation, keeps the pins and saves |
| Home.HomeSession.RenderPins | home.py:497-503 | the clicked assistant reply is appended to the pins, which are then saved; nothing else changes |
| Home.HomeSession.ChatTurn | home.py:507-513 | question and reply join the conversation; the reply is the escaped completion of the sanitised prompt; the state is saved |
| Home.HomeSession.Respond | home.py:497-513 | a question is answered exactly when one was submitted and a search service exists; clicks only pin; other events change nothing |
| Home.HomeSession.Run | home.py:458-513 | one run, first runs included: a load failure ends it; otherwise the run starts from the session's lists, else the state file's, else `[]`; "Clear Chat" empties the conversation, keeps those pins and saves; an idle run changes nothing; a click pins the clicked reply; a submitted question is answered and saved |
| Home.Summarize | home.py:521-524 | the summary button's text is the stripped completion of the summary template |
| Json.StringsToJson | home.py:42 | a list of strings is stored item by item, in order |
| Json.StrItems | home.py:42 | one string item per string, in order |
| Json.StringsRoundTrip | home.py:51 | decoding a stored list of strings gives it back |
| StreamlitApp.AppSearchColumn | streamlit_app.py:104 | an error exactly when no service has the selected name; otherwise the lower-cased search column of the first one |
| StreamlitApp.AppEntries | streamlit_app.py:105 | raises exactly when some hit lacks the exact field; otherwise one numbered entry per hit holding that field's value |
| StreamlitApp.AppRequest | streamlit_app.py:130 | the request asks for `chunk`, `file_url`, `relative_path` with the English-only filter and the configured limit |
| StreamlitApp.AppContextErrors | streamlit_app.py:100-108 | the context fails exactly when the service is unknown or some hit lacks the column; no hits give the empty context |
| StreamlitApp.AppContextCarries | streamlit_app.py:105 | on success every hit's column value reaches the context |
| StreamlitApp.ChunkLookupsAgree | streamlit_app.py:104-105 | when every case-insensitive match is already lower-case, this page's exact lookup agrees with `home.py`'s |
| StreamlitApp.BuildPromptCarries | streamlit_app.py:126-143 | the prompt fails exactly when the context fails, and otherwise contains the question and the user history text |
| StreamlitApp.AppSession.constructor | streamlit_app.py:25-29 | a new session has neither list |
| StreamlitApp.AppSession.InitMessages | streamlit_app.py:25-29 | both lists default to `[]`; "Clear Chat" empties the conversation and keeps the pins |
| StreamlitApp.AppSession.ChatTurn | streamlit_app.py:284-299 | the question joins the conversation; if the context fails the turn raises, otherwise the escaped reply joins too; the pin appends the reply only when this run's event is that button's click |
| StreamlitApp.AppSession.Run | streamlit_app.py:235-299 | one run as written: no run ever adds a pin; the conversation changes as the event says |
| StreamlitApp.AppSession.RenderPins | streamlit_app.py:295-296 | intended pin handling: the clicked assistant reply on show is appended to the pins |
| StreamlitApp.AppSession.RunCorrected | streamlit_app.py:279-299 | one run with the pin handling corrected: a click on the pin of assistant reply k pins that reply |
| StreamlitApp.Summarize | streamlit_app.py:302-305 | the summary button's text is the stripped completion of the summary template |
| TourInfo.PathParts | scraper/tour_info.py:35 | the path after `/tours/` splits into at least one part |
| TourInfo.RegionCountry | scraper/tour_info.py:35-37 | region is the capitalised text before the first `/` of the tour path; country is the capitalised next segment, or empty without a `/`; neither contains `/` |
| TourInfo.CapitalizeKeepsSlash | scraper/tour_info.py:36-37 | capitalising adds no `/` |
| TourInfo.TourPathProperties | scraper/tour_info.py:35 | the tour path never contains `/tours/`, and a URL without it is its own tour path |
| TourInfo.CleanTripCode | scraper/tour_info.py:29 | the cleaned trip code contains no `:` and has no edge whitespace |
| TourInfo.TripCodeOf | scraper/tour_info.py:27-32 | the trip code field is cleaned, and `""` when the locator raised or found no text |
| TourInfo.TextOf | scraper/tour_info.py:20-24 | a guarded text field is the stripped text, and `""` when it raised or was empty |
| TourInfo.DateAt | scraper/tour_info.py:80-81 | the i-th date, stripped, or `""` when there are not that many |
| TourInfo.OrEmpty | scraper/tour_info.py:56-57 | a missing span text counts as blank, position by position |
| TourInfo.InclusionsSnoc | scraper/tour_info.py:55-58 | one more span adds exactly what its text contributes |
| TourInfo.CollectInclusions | scraper/tour_info.py:53-60 | the loop collects the stripped non-blank span texts in page order |
| TourInfo.InclusionKept | scraper/tour_info.py:57-59 | a span text is kept, stripped, exactly when it exists and is not blank |
| TourInfo.InclusionsShape | scraper/tour_info.py:55-58 | every inclusion is non-blank and stripped, none is invented, and spans that are already clean are all kept in order |
| TourInfo.FieldNameInjective | scraper/tour_info.py:17-92 | distinct record keys have distinct JSON names |
| TourInfo.RecordJson | scraper/tour_info.py:116-117 | the written object has one entry per record key, with its value, and no other entry |
| TourInfo.NamedFields | scraper/tour_info.py:116-117 | the written object's names are exactly the JSON names of the record's keys |
| TourInfo.NamedFieldsLookup | scraper/tour_info.py:116-117 | each record key's JSON name is written with that key's value |
| TourInfo.NamesCard | scraper/tour_info.py:117 | naming the keys loses none of them |
| TourInfo.HasBookingLinkTruthy | scraper/tour_info.py:72 | the booking step runs exactly when the booking link has a non-empty `href` |
| TourInfo.AssembleKeys | scraper/tour_info.py:17-92 | a record has the eight base keys, plus the four booking keys exactly when `booking_url` is truthy |
| TourInfo.AssembleBase | scraper/tour_info.py:17-69 | the base fields of an assembled record are the extracted ones |
| TourInfo.BaseRecordFields | scraper/tour_info.py:17-69 | the eight base fields hold the URL and the extracted values |
| TourInfo.WithBookingKeepsBase | scraper/tour_info.py:72-92 | the booking step leaves the base fields alone |
| TourInfo.AssembleBooking | scraper/tour_info.py:72-92 | with a truthy `booking_url` the record holds the booking page's dates, price and availability |
| TourInfo.WithBookingFields | scraper/tour_info.py:79-92 | the booking fields are the card's values, or all four defaults when the step raised |
| TourInfo.ExtractTourInfo | scraper/tour_info.py:8-97 | the field-by-field method returns the specified record |
| TourInfo.AddBookingInfo | scraper/tour_info.py:73-92 | the booking step's method adds the four specified booking fields |
| TourInfo.TourRecordKeys | scraper/tour_info.py:8-97 | a page that cannot be opened gives `{}`; otherwise the base keys, plus the booking keys exactly when the link has a non-empty `href` |
| TourInfo.TourRecordFields | scraper/tour_info.py:17-37 | an opened page's record holds its URL, the region and country derived from it, a trip code without `:` and a stripped trip name |
| TourInfo.TourRecordBooking | scraper/tour_info.py:72-92 | a raising booking step gives `""`, `""`, `""`, `false`; otherwise the stripped first and second dates and whether "Limited availability" occurs |
| TourInfo.ScrapeTours | scraper/tour_info.py:99-112 | the URLs are the stripped non-blank lines of the list file, and result i is the record of URL i |
| TourInfo.ResultsJson | scraper/tour_info.py:116-117 | the output file is a list holding each record's object, in order |
| ViewTour.LoadTours | pages/view_tour.py:7-14 | a dict is wrapped in a list, a list is taken as it is, and a missing file or any other value gives no tours |
| ViewTour.FieldLower | pages/view_tour.py:26 | lowering a field succeeds exactly on a dict holding that key as a string, and gives its lowered text |
| ViewTour.MatchesFromStrings | pages/view_tour.py:26-29 | over string fields the `or` chain is true exactly when some lowered field contains the term |
| ViewTour.MatchesIff | pages/view_tour.py:24-30 | a dict with the four fields as strings is kept exactly when its lowered trip name, trip code, region or country contains the term |
| ViewTour.EmptyTermMatches | pages/view_tour.py:26 | an empty search keeps a tour on its trip name alone |
| ViewTour.MatchesErrors | pages/view_tour.py:26 | a record without `trip_name` (such as `{}`) raises `KeyError` whatever the term; a non-dict raises `TypeError` |
| ViewTour.KeepPrefixOk | pages/view_tour.py:24-30 | the comprehension succeeds exactly when no condition raises |
| ViewTour.KeepPrefixKept | pages/view_tour.py:24-30 | on success it keeps, in increasing order, exactly the positions whose condition holds |
| ViewTour.FilteredSpec | pages/view_tour.py:24-30 | the filter over all tours: succeeds iff nothing raises; keeps exactly the matching positions, in order, each once |
| ViewTour.KeepPrefixAllTrue | pages/view_tour.py:24-30 | conditions that all hold keep every position, in order |
| ViewTour.FilteredEmptyTerm | pages/view_tour.py:21-30 | an empty search keeps every tour when every trip name is a string |
| ViewTour.FilteredKeepsDicts | pages/view_tour.py:24-30 | every kept position is in range and holds a dict |
| ViewTour.FilteredKeepsOk | pages/view_tour.py:24-30 | kept positions are in range, hold dicts, and are pairwise distinct |
| ViewTour.ApplyEditSpec | pages/view_tour.py:47-50 | an edit sets the four booking fields to the widgets' values and leaves every other field as it was |
| ViewTour.EditedTours | pages/view_tour.py:33-50 | the edits keep the number of tours |
| ViewTour.EditedToursStep | pages/view_tour.py:47-50 | card m edits the tour it shows, from that tour's current fields |
| ViewTour.EditedToursOthers | pages/view_tour.py:33-50 | a tour no shown card points at is unchanged |
| ViewTour.EditedToursShown | pages/view_tour.py:33-50 | a shown tour gets exactly its own card's edit, made from its loaded fields |
| ViewTour.EditedToursEffect | pages/view_tour.py:33-50 | both of the above for every tour: edits reach shown tours only, through the shared dicts |
| ViewTour.FirstWithoutCode | pages/view_tour.py:34 | the first card whose tour lacks `trip_code`, where its title raises; all earlier ones have it |
| ViewTour.TourViewer.constructor | pages/view_tour.py:6-7 | the page starts with the file as found and no tours |
| ViewTour.TourViewer.Run | pages/view_tour.py:7-55 | a raising filter ends the run. Otherwise the cards run in order and stop with a failure at the first tour without `trip_code` (the only raise inside the loop that the model follows), editing the shared list. A pressed save writes the whole list as it was when that card ran |
| ViewTour.TourViewer.ShowCards | pages/view_tour.py:33-55 | the cards loop leaves the specified list and file; among the raises in the loop it follows only the missing `trip_code`, and it fails at the first tour without one |
| ViewTour.TourViewer.EditCard | pages/view_tour.py:47-55 | one card: the widget values overwrite its tour's four booking fields, and the file holds the whole edited list exactly when this card's button was pressed |
| FleetLinks.FleetDetailPages | scraper/get_all_fleet_links.py:18 | every kept URL contains `/our-fleet/` and more than four `/` |
| FleetLinks.FleetDetailPagesMembers | scraper/get_all_fleet_links.py:18 | a URL is kept exactly when it is a sitemap URL satisfying both conditions |
| FleetLinks.FleetDetailPagesSubsequence | scraper/get_all_fleet_links.py:18 | the kept URLs are an order-preserving subsequence of the sitemap URLs |
| FleetLinks.FleetDetailPagesAppend | scraper/get_all_fleet_links.py:18 | filtering distributes over concatenation, so each URL is judged on its own |
| FleetLinks.UrlsFileText | scraper/get_all_fleet_links.py:21-23 | the file is empty exactly for no URLs and otherwise ends with a line feed |
| FleetLinks.UrlsFileLines | scraper/get_all_fleet_links.py:21-23 | its lines are the URLs, in order, then the empty text after the last line feed |
| FleetLinks.UrlsFileReadBack | scraper/fleet-data.py:15-16 | the fleet scraper reads back the stripped non-blank URLs in order |
| FleetLinks.UrlsFileRoundTrip | scraper/fleet-data.py:15-16 | clean URLs survive the write and the read unchanged |
| FleetData.ShipIdSuffix | scraper/fleet-data.py:23 | the ship id is the text after the last `/` of the stripped URL: a suffix with no `/`, preceded by `/`, and the whole URL when there is none |
| FleetData.LastPieceFree | scraper/fleet-data.py:23 | the last piece of a split at `/` holds no `/` |
| FleetData.LastPieceSuffix | scraper/fleet-data.py:23 | the last piece ends the text |
| FleetData.LastPieceAfterSlash | scraper/fleet-data.py:23 | when the text has a `/`, the last piece follows one |
| FleetData.SplitSlashCuts | scraper/fleet-data.py:23 | a text with a `/` splits into several pieces |
| FleetData.JoinSlashBeforeLast | scraper/fleet-data.py:23 | joining several pieces puts `/` just before the last |
| FleetData.LastPieceWhole | scraper/fleet-data.py:23 | a text without `/` is its own last piece |
| FleetData.ShipIdTrailingSlash | scraper/fleet-data.py:23-31 | a URL ending in `/` has the empty ship id and so the file `Fleet_pdfs/.pdf` |
| FleetData.PdfPathShape | scraper/fleet-data.py:31 | for a ship id the POSIX join is `Fleet_pdfs/` + id + `.pdf` |
| FleetData.PdfPathInjective | scraper/fleet-data.py:31 | two URLs write the same file exactly when their ship ids are equal |
| FleetData.AttemptOf | scraper/fleet-data.py:26-36 | a URL is logged as saved, with its PDF path, exactly when it printed, and as failed with its URL otherwise |
| FleetData.AttemptLogStep | scraper/fleet-data.py:22-36 | each URL appends its attempt to the log |
| FleetData.AttemptLogEntries | scraper/fleet-data.py:22-36 | a failure does not stop the loop: one log entry per URL, in order |
| FleetData.SavedFilesStep | scraper/fleet-data.py:31-32 | a printed URL writes its file and a failed one writes nothing |
| FleetData.SavedFilesKeys | scraper/fleet-data.py:22-36 | afterwards a file exists exactly when it existed before or some printed URL wrote it |
| FleetData.SavedFilesLast | scraper/fleet-data.py:31-32 | a printed URL that no later printed URL overwrites holds its page at the end |
| FleetData.SavedPdfLast | scraper/fleet-data.py:23-32 | with the scraper's naming, a printed page survives unless a later printed URL has the same ship id |
| FleetData.FleetScraper.constructor | scraper/fleet-data.py:11 | the output folder starts with the files already in it |
| FleetData.FleetScraper.SaveFleetPages | scraper/fleet-data.py:13-36 | the URLs are the stripped non-blank lines; the log and the folder are the specified ones after every URL has been tried |
| FleetData.FleetScraper.SaveAll | scraper/fleet-data.py:22-36 | after the loop over the URLs, the log holds every attempt in URL order and the folder holds the PDF of every URL whose page printed |
| FleetData.FleetScraper.SaveOne | scraper/fleet-data.py:23-36 | one attempt: a printed page adds its PDF path, mapped to its URL, and is logged as saved; a failed one leaves the folder as it was and is logged as failed |
| PyStr.Strip | scraper/tour_info.py:22 | the result has no whitespace at either end |
| PyStr.StripTrims | scraper/tour_info.py:22 | the text is whitespace, then the stripped text, then whitespace |
| PyStr.StripNoEdgeSpace | scraper/tour_info.py:57-58 | a text with no edge whitespace is left as it is |
| PyStr.StripFixedPoint | scraper/tour_info.py:57-58 | `strip()` leaves a text alone exactly when neither end is whitespace |
| PyStr.StripIdempotent | scraper/tour_info.py:57-58 | stripping twice is stripping once |
| PyStr.StripKeepsAbsent | scraper/tour_info.py:29 | stripping adds no character |
| PyStr.Lower | pages/view_tour.py:21 | every character lowered, the length kept, no ASCII capital left |
| PyStr.LowerIdempotent | pages/view_tour.py:26 | lowering twice is lowering once |
| PyStr.Capitalize | scraper/tour_info.py:36 | the same letters up to case, the first not lower-case, the rest not upper-case |
| PyStr.ContainsChar | scraper/fleet-data.py:23 | a one-character `in` is character membership |
| PyStr.Split | scraper/tour_info.py:35 | `split` gives at least one piece |
| PyStr.SplitJoin | scraper/tour_info.py:35 | joining the pieces with the separator gives back the text |
| PyStr.SplitPiecesFree | scraper/tour_info.py:35 | no piece contains the separator |
| PyStr.SplitAbsent | scraper/tour_info.py:35 | a text without the separator is one piece |
| PyStr.FirstIndex | scraper/tour_info.py:35 | the index of the first occurrence of a character, or the length |
| PyStr.SplitCharFirst | scraper/tour_info.py:35 | the first piece runs to the first separator; a second piece exists exactly when it occurs |
| PyStr.SplitCharAppend | scraper/fleet-data.py:23 | a separator at the very end adds an empty last piece |
| PyStr.JoinContainsPart | home.py:129 | every joined part appears in the joined text |
| PyStr.JoinSnoc | home.py:129 | joining one more part appends the separator and the part |
| PyStr.JoinLast | scraper/fleet-data.py:23 | the last part ends the joined text, after a separator when there are several parts |
| PyStr.RemoveChar | home.py:510 | removing a character keeps all others, in order, and leaves none of it |
| PyStr.SliceIndex | home.py:76 | a normalised slice bound lies within the sequence |
| PyStr.NatToString | home.py:501 | `str(n)` is decimal digits without a leading zero |
| PyStr.NatToStringRoundTrip | home.py:501 | the decimal text of n reads back as n |
| PyStr.Lines | scraper/tour_info.py:102-103 | a file has at least one line piece |
| PyStr.LinesCons | scraper/get_all_fleet_links.py:23 | a line without terminators followed by a line feed is read as itself |
| PyStr.KeepStrippedNonBlank | scraper/tour_info.py:103 | every kept line is non-blank and stripped, and there are no more than the lines |
| PyStr.KeepStrippedNonBlankMembers | scraper/fleet-data.py:16 | a text is kept exactly when it is non-blank and is some line stripped |
| PyStr.KeepStrippedNonBlankAppend | scraper/tour_info.py:103 | keeping lines commutes with concatenation, so the order of lines is kept |
| PyStr.KeepStrippedNonBlankBlankLast | scraper/fleet-data.py:16 | an empty last line is dropped |
| PyStr.KeepStrippedNonBlankIdentity | scraper/fleet-data.py:16 | lines that are already non-blank and stripped are kept as they are |
| PyStr.ReadStrippedLines | scraper/fleet-data.py:16 | every URL read from the file is non-blank and stripped |

## Left out

- Snowflake sessions, Cortex search, the `Complete` call and the `SHOW`/`DESC` SQL are foreign calls. They are the parameters `Llm` and `Search` and the configuration's service list.
- `upload_to_snowflake_stage` and `handle_uploaded_pdf` (PDF text extraction with `fitz`, temporary files, `PUT`, `INSERT`, `CREATE SERVICE`) are I/O with no logic the model could check.
- All Streamlit rendering, CSS, HTML, theming and widget layout are left out. So are the exact whitespace of the prompt templates: prompts are the ordered concatenation of their parts.
- Module-level execution of both chat pages is left out. `streamlit_app.py`'s connection-parameter literal is not valid Python, and `home.py` has an unindented block under `with col2:`. The model covers the functions and the per-run logic.
- Playwright navigation, waits, selectors, `asyncio`, HTTP requests and sitemap XML parsing are left out. Their results are inputs (`TourPage`, the URL list, `printed`).
- Home.HomeSession.ChatTurn: the completion service and the search service are total functions, so the model assumes neither raises. In home.py:507-513 a raise from `svc.search` or `Complete` ends the run after the question was appended, with no reply and no save; that aborted turn is not modelled (nor in `Home.HomeSession.Respond`, `Home.HomeSession.Run` and `Home.Summarize`).
- StreamlitApp.AppSession.ChatTurn: likewise, only the context errors (no matching service, a hit without the search column) end a turn; a raise from the search call at streamlit_app.py:103 or from `Complete` is assumed not to happen, so the turn that keeps the question with no reply is not modelled (nor in `StreamlitApp.AppSession.Run`, `StreamlitApp.AppSession.RunCorrected` and `StreamlitApp.Summarize`).
- Reading and writing JSON files are modelled as JSON values. Parse errors of `json.load` on a malformed file are not modelled.
- Home.HomeSession.Load: a state file whose lists do not have the stored shape (a pinned item or a message content that is not a string, a message without `role`/`content`) is refused as a failed load. Python loads such a file and may go on using it, because the page only formats these values into f-strings and dumps them back; the model does not follow those runs.
- Home.HomeRequest: the requested columns are a set, because `list(set(...))` has hash-dependent order.
- Status messages, `print` output, spinners and the debug sidebar are left out.
- Case handling is ASCII only. Python's Unicode `lower`/`capitalize` mappings are not modelled.
- `\r\n` line endings are read as a line break plus an empty line. That empty line is dropped like any blank line.
- ViewTour.TourViewer.Run: the pressed save button is given by the card's display position, not its `trip_code` key. Two cards with the same key (Streamlit's duplicate widget error) are not modelled.
- ViewTour.TourViewer.Run: the four booking widgets of pages/view_tour.py:47-50 have no `key`, so their widget identity comes from label and value. A card whose start date, end date, price or availability widget repeats an earlier card's label and value raises Streamlit's duplicate-widget error. The run then ends before that card's edits and its save button; with three or more cards the availability checkbox alone forces such a repeat. The widgets (the `entry` parameter) are assumed never to raise, so neither this method nor `ViewTour.TourViewer.ShowCards` follows that raise: both go on editing every card up to the first tour without `trip_code`.
- ViewTour.TourViewer.Run: the display-only fields of a card (`get` with defaults, the inclusions list) are left out. A `trip_inclusions` value that cannot be iterated (`null`, a number) makes pages/view_tour.py:44 raise a `TypeError` before that card's edits; that raise is not modelled, and the model goes on to the card's edits.
- FleetData.FleetScraper.SaveFleetPages: `printed(i, url)` stands for the whole navigate–scroll–wait–print step. A partly written PDF after a failure is not modelled.
- FleetData.FleetScraper.SaveFleetPages: the "Saving PDF for" line printed before each attempt is output only. The log records each attempt's outcome instead.
- `PDF Viewer.py` is not part of this model.

## Findings

| source | as written | input that shows it | evidently intended | confidence | as-written member | corrected member |
|---|---|---|---|---|---|---|
| streamlit_app.py:295-296 | The pin button is created only inside the branch that handles a freshly submitted question. A click on it starts a new run in which `st.chat_input` returns nothing, so the branch and the button are not rendered again and the click is never seen. | submit any question, then press "Pin this response" | pressing the pin under a reply appends that reply to the pinned list, as `home.py` does with its per-message pin buttons | not executed | StreamlitApp.AppSession.Run | StreamlitApp.AppSession.RunCorrected |
