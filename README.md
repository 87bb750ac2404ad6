# Battlecard orchestration, modelled in Dafny

The system generates competitive-research documents ("battlecards") for a company against its
competitors with a hosted text-generation model. Its logic lives in `app.py`. This project models
the part of it that has behaviour:

- **Prompts** (`prompts.dfy`). The three prompt builders: the sales and marketing comparison
  prompts, with their fixed metric lists rendered as Python writes a list inside an f-string, and
  the SWOT prompt.
- **Generation** (`generation.dfy`). `get_gemini_response` and the three `generate_*` wrappers. The
  class `Service` logs every prompt it sends. Its answer is a fallible oracle
  `reply(call index, prompt): Option<string>`, where None is the caught exception.
- **OrderedDict** (`ordered_dict.dfy`). Python's insertion-ordered `dict` as a sequence of pairs.
  Assigning to a present key replaces the value where it stands; assigning to a new key appends.
  The class `Dict` is the `battlecards` object that the Analyze step updates in place.
- **Analyze** (`analyze.dfy`). The Analyze button:
  - the URL list handed to the fetcher;
  - the skip when the company name or URL is empty;
  - the competitor-count rule of each objective;
  - the SWOT loop and the single Marketing or Sales generation.

  The methods are proved against pure functions of the request: `PlanFor`, `SentPrompts`, `Cards`
  and `Alerts`.
- **Outcomes** (`outcomes.dfy`). What a run promises, stated over those functions:
  - which runs make no generation call;
  - the single card of a Marketing or Sales run;
  - the order of SWOT prompts;
  - last-write-wins for repeated names;
  - one entry per distinct name;
  - the reporting of every failed call.
- **Export** (`export.dfy`). `save_battlecards_to_file`: a loop over the dict that builds the
  file's text block by block, `--- <label> ---\n<content>\n\n`. `ParseBlock` reads a block back.
- **Session** (`session.dfy`). The `st.session_state` entries `<label>_text`:
  - stored for each shown card;
  - overwritten by the editor;
  - exported by the single download, while the download of all cards exports the unedited dict.
- **Feedback** (`feedback.dfy`). `save_feedback_to_file` appending to the feedback file, and the
  submit button that refuses empty feedback.

What app.py does at the edges, which the model keeps:

- A failed generation is stored in the dict as None under its label (app.py:28-30, 135-136).
- The URL list is fetched before the competitor count is checked (app.py:120-121, 143-161), so a
  rejected run still fetches; only generation is skipped.
- An empty company name or URL skips the run silently: no error, no call, no card (app.py:132).
- A repeated subject name overwrites the earlier SWOT entry, without an error (app.py:136, 141).
- Exporting a card that holds None raises `TypeError` at `card_data + "\n\n"` (app.py:97).
  `Written.TypeError` keeps the file as written up to the failing header.
- The single download reads `st.session_state["<label>_text"]`, and a label with no entry raises
  `KeyError` (app.py:192), modelled as `Download.MissingKey`. The download of all cards reads the
  dict (app.py:184), so it never shows an edit.

## Model

| member | source | states |
|---|---|---|
| Prompts.SalesPromptContents | app.py:32-50 | the sales prompt contains "sales", both company names, both URLs, the rendered metric list and each of the seven sales metrics |
| Prompts.SalesMetricsReadBack | app.py:33-45 | the sales metric list as rendered into the prompt parses back to exactly the seven sales metrics, in order |
| Prompts.MarketingPromptContents | app.py:60-79 | the marketing prompt contains "marketing", both names, both URLs, the rendered metric list and each of the eight marketing metrics |
| Prompts.MarketingMetricsReadBack | app.py:61-74 | the marketing metric list as rendered parses back to exactly the eight marketing metrics, in order |
| Prompts.ComparisonPromptMentions | app.py:43-50 | any comparison prompt of the shared template mentions its kind, both names, both URLs and every metric of its list |
| Prompts.ListReprInverse | app.py:45 | the f-string rendering of a list of printable strings without quote or backslash is inverted by `ReadList` |
| Prompts.ReadItemsInverse | app.py:45 | the comma-separated quoted items of the rendering read back as the original items whenever no item holds a quote |
| Prompts.SwotPromptShape | app.py:89-90 | the SWOT prompt is exactly "Conduct a SWOT analysis for " then the name then "." (length name + 29) |
| Prompts.SwotPromptInjective | app.py:89-90 | different company names give different SWOT prompts |
| Generation.Service.Generate | app.py:14-30 | each call sends its prompt once (appended to the log) and returns the oracle's answer for that call, None standing for the caught exception |
| Generation.Service.GenerateSales | app.py:32-58 | one call, carrying the sales prompt of the two companies |
| Generation.Service.GenerateMarketing | app.py:60-87 | one call, carrying the marketing prompt of the two companies |
| Generation.Service.GenerateSwot | app.py:89-91 | one call, carrying the SWOT prompt of the name |
| OrderedDict.PutFacts | app.py:136-141 | dict assignment: a new key is appended, a present key keeps the key order, the key then maps to the new value and every other key keeps its value |
| OrderedDict.Dict.Set | app.py:136-141 | `battlecards[k] = v` updates the object's items by that assignment |
| OrderedDict.Dict.constructor | app.py:130 | `battlecards = {}` starts empty |
| OrderedDict.PutAllKeys | app.py:133-141 | after a series of assignments to an empty dict the keys are the assigned keys without repeats, in first-assignment order |
| OrderedDict.PutAllGet | app.py:133-141 | after a series of assignments every key holds the value of its last assignment |
| OrderedDict.PutAllDistinct | app.py:133-141 | assignments with pairwise distinct keys leave exactly the assigned pairs, in order |
| OrderedDict.DedupFacts | app.py:133-141 | removing repeated keys keeps every key once, is the identity on distinct keys and shortens the sequence exactly when a key repeats |
| Analyze.Urls | app.py:120 | the URL list has one entry more than there are competitors: the company's URL, then each competitor's URL in entry order |
| Analyze.SwotRequests | app.py:133-141 | a SWOT run requests the company's analysis first and then each competitor's, in entry order |
| Analyze.SwotTurn | app.py:135-141 | one SWOT generation extends the prompt log, the dict and the error list by exactly the next request of the run |
| Analyze.SwotCompetitors | app.py:139-141 | the loop over the competitors makes competitor i's SWOT request as request i + 1 of the run, in entry order, extending the log, the dict and the error list accordingly |
| Analyze.AnalyzeSwot | app.py:133-141 | the SWOT branch sends every SWOT prompt in order and leaves the dict of all answers assigned in order, with one error per failed call |
| Analyze.AnalyzePair | app.py:143-159 | the Marketing or Sales branch sends one prompt and leaves one card holding that call's answer |
| Analyze.SingleRequestOutcome | app.py:144-159 | a one-request run makes one call and leaves one card holding that call's answer |
| Analyze.Analyze | app.py:119-161 | the Analyze button returns the URL list, and its calls, dict and errors are those of the plan its inputs select |
| Outcomes.CallCount | app.py:130-161 | no call is made exactly when the name or URL is empty or a Marketing/Sales run lacks exactly one competitor; then the dict is empty, a skipped run shows no error and a rejected one shows exactly the count error, and otherwise SWOT makes competitors + 1 calls and Marketing/Sales one |
| Outcomes.PairOutcome | app.py:143-161 | a Marketing or Sales run with one competitor sends that objective's prompt once, leaves exactly the key "… Battlecard for A vs B" holding the answer, and shows an error exactly when the call failed |
| Outcomes.SwotPromptsSent | app.py:133-141 | a SWOT run sends competitors + 1 prompts: the company's SWOT prompt, then each competitor's in order |
| Outcomes.SwotLastWriteWins | app.py:133-141 | each name's SWOT entry holds the answer to the last request for that name (None when that call failed), so a repeated name overwrites the earlier entry |
| Outcomes.SwotEntries | app.py:133-141 | the SWOT dict has one key per distinct name in first-appearance order, and competitors + 1 entries exactly when all names are distinct |
| Outcomes.DistinctKeysCards | app.py:130-161 | a run whose keys are pairwise distinct leaves each request's answer in the dict, in request order |
| Outcomes.SwotDistinctNames | app.py:133-141 | with distinct names the SWOT dict is exactly "SWOT Analysis for <name>" paired with that name's answer, company first, in entry order |
| Outcomes.SwotKeysDistinct | app.py:133-141 | the keys a SWOT run assigns repeat exactly when two subjects share a name |
| Outcomes.SwotKeyInjective | app.py:136-141 | two subjects share a SWOT entry exactly when their names are equal |
| Outcomes.AnswersAt | app.py:133-141 | request i of a run is answered by call number start + i |
| Outcomes.FailuresReported | app.py:14-30 | an error is recorded for every failed call of the run (tagged in the model with its prompt) and for no other, so a failure does not stop the later requests |
| Outcomes.NoFailures | app.py:28-30 | no error is shown exactly when every call of the run succeeded |
| Outcomes.CardsDistinct | app.py:130-161 | a run's dict never holds a key twice |
| Export.SaveBattlecards | app.py:93-97 | the export loop produces exactly `Serialize` of the dict (so exporting the same dict twice gives the same file) |
| Export.SerializeCompletes | app.py:93-97 | the export completes exactly when every card holds text, and then the file is the concatenation of the cards' blocks in insertion order |
| Export.SerializeFirstFailure | app.py:95-97 | when card j is the first holding None, the export raises TypeError at its label with the blocks before it and its header already written |
| Export.ParseBlockInverse | app.py:96-97 | a block whose label is one line reads back as exactly its label and content |
| Feedback.FeedbackFile.Write | app.py:100-102 | a write to the append-mode file adds its text at the end |
| Feedback.FeedbackFile.SaveFeedback | app.py:99-102 | a saved feedback appends exactly "--- Feedback ---\n<text>\n\n" |
| Feedback.FeedbackFile.Submit | app.py:199-205 | a submission is accepted exactly when the feedback is non-empty; an accepted one appends its block and a refused one leaves the file unchanged |
| Feedback.FeedbackReadBack | app.py:99-102 | after a submission the earlier contents are untouched and the appended tail reads back as the feedback text |
| Session.Store.Remember | app.py:166-169 | storing the shown cards sets each card's `<label>_text` entry, in dict order |
| Session.Store.Edit | app.py:174-175 | the editor's text replaces the selected card's `<label>_text` entry and nothing else |
| Session.Store.DownloadSingle | app.py:188-194 | the single download exports the stored entry of the selected label, or raises KeyError when there is none |
| Session.TextKeyInjective | app.py:169 | different labels are stored under different session keys |
| Session.RememberedFacts | app.py:166-169 | after storing a dict's cards each card's entry holds its content and every other session entry is as it was |
| Session.SingleDownloadUnedited | app.py:169-192 | without an edit the single download of a shown card is its block (or TypeError when it holds None); a never-shown label raises KeyError |
| Session.EditedSingleDownload | app.py:174-192 | after an edit the single download of that label is exactly "--- <label> ---\n<edited text>\n\n", whatever the card held before (None included), and a one-line label reads back as the edit |
| Session.AllDownloadHoldsGenerated | app.py:184 | the download of all cards is built from the dict, so when every card holds text it contains each card's generated block, edited or not |

## Left out

- `fetch_data` (app.py:5, 121) and the display of its results (app.py:123-128): the scraper's source is not part of this model, and it does network I/O. `Analyze.Analyze` returns the URL list the fetcher would receive.
- The Gemini client (app.py:12, 17-23): a foreign network call, replaced by the `reply` oracle. The oracle is a function of the call's position and prompt. Each call's fresh, history-free chat is what makes this sound.
- Failure messages: a failure is recorded as `GenerationError(prompt)`. The text of the exception that `st.error` shows (app.py:29) is not modelled.
- The `try`/`except` blocks of the sales and marketing wrappers (app.py:52-58, 81-87) are not modelled, because `get_gemini_response` already catches every exception and they can never fire.
- Streamlit widgets and rendering (app.py:105-117, 124-128, 163-168, 171-174, 178-194): form values are parameters, and the selected labels are parameters of the store's methods. The `st.write` of each card is left out.
- The bound of 0 to 10 competitors on `number_input` (app.py:112): `competitors` may have any length.
- Streamlit's rerun of the whole script on every click is not modelled. In particular, the Download button is nested inside the Analyze button's branch, so the rerun that its click triggers does not enter that branch. The downloads are modelled as operations on the dict and the session store as they stand.
- The editor's initial value, `st.session_state.get("<label>_text", "")` (app.py:174): `Session.Store.Edit` accepts any text.
- `tempfile`, `open`, `seek`, `download_button`, `load_dotenv` and the debug `print` (app.py:9, 26, 94, 100, 183-186, 191-194): files are strings. The export file is opened in write mode, so it starts empty. The feedback file is the `FeedbackFile` object's `contents`.
- The rendering of the metric lists: Python's `repr` is modelled exactly only for items of printable ASCII without a quote or backslash, which `repr` writes unescaped. Every fixed metric name is such an item.
- `st.session_state` is modelled only through its `<label>_text` entries. The widget keys (`competitor_name_i`, `competitor_url_i`) are not modelled.
