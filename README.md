# Jarvix dispatch core in Dafny

Jarvix is a small assistant server. A browser opens a websocket and sends commands
`{"id", "prompt"}`. Each connection has a FIFO queue of commands, registered in a
`ConnectionManager`. A background consumer takes queued commands one at a time. For each one
it sends `start_processing`, then a `log` per non-empty message the router yields, then
`end_processing`. The router tries an ordered list of keyword-matched agents and falls back
to a conversational agent:

- The data-science agent finds a CSV or Excel file named in the prompt and runs an
  AI-planned analysis pipeline that ends in a PDF report.
- The calendar agent is a placeholder.
- The conversational agent streams a Gemini reply.

This project models that core and proves properties of the model.

| file | module | models |
|---|---|---|
| `wrappers.dfy` | `Wrappers` | `Option` and `Result` |
| `json.dfy` | `Json` | decoded JSON values, Python truthiness, `dict.get` |
| `text.dfy` | `Text` | the `str` operations used: `lower`, `find`, `in`, `replace`, `strip`, `title` |
| `paths.dfy` | `Paths` | `os.path.join` and the `name` and `stem` of a POSIX path |
| `prompt_scan.dfy` | `PromptScan` | the two regular expressions of the data-science agent, as scanners that follow `re.search` |
| `data_scientist.dfy` | `DataScientist` | `agents/data_scientist.py`: JSON extraction, report naming, template variables, the staged pipeline and its result messages |
| `agents.dfy` | `Agents` | `jarvix_logic.py`: keyword matching, the three agents and the router |
| `server.dfy` | `Server` | `main.py`: the registry, the consumer loop and the endpoint |

**Imperative parts.** `main.py` has classes:

- `WebSocket` records what is sent on it.
- `CommandQueue` holds its items as a sequence.
- `ConnectionManager` holds a map from socket to queue.

The consumer and the endpoint are methods with loops. Each is proved equal to a
specification function: `Drain` for the consumer, and `Session` over a schedule of receive,
consumer-turn and close events for the endpoint. The properties are lemmas about those
functions. The router's loop, the conversational agent's chunk loop and the analysis
clean-up loop are also methods, each proved against its function.

**Agent runs.** An agent's generator becomes a `Run`:

- the messages it yields;
- the stream messages it sends itself;
- whether an exception escaped it.

The file system's existing paths are a set of strings, threaded through the agents. Foreign
collaborators are parameters:

- Gemini's replies;
- pandas loading;
- `json.loads`;
- `exec` of the generated code;
- the template and the PDF writer;
- `datetime.now`.

## Where the model follows the code over the documented behaviour

- **Malformed message.** A message that is not an object, or that lacks `id` or `prompt`,
  makes `data["id"]` raise inside the endpoint (main.py:85). That exception is not
  `WebSocketDisconnect`, so the handler ends without removing the registry entry. The
  session ends as `Crashed`, with the entry left in place. It is not a dropped message on a
  connection that stays open.
- **Connect.** `connect` overwrites an existing entry with a fresh queue rather than
  refusing a second registration.
- **Failed command.** When a command's agent raises, the consumer sends no `end_processing`
  for it (main.py:57-61), and it moves on to the next command.
- **Non-string prompt.** A prompt that is not a string makes `prompt.lower()` raise in
  `can_handle` before any agent runs. The command gets `start_processing` and nothing else.
- **Mis-decoded marks.** `agents/data_scientist.py` holds the UTF-8 bytes of its emojis and of
  the middle dot decoded as Mac Roman text, so its error messages open with
  `\u201A\u00F9\u00E5` rather than a cross mark, and the custom title holds `\u00AC\u2211` rather than `·`. The
  model uses these characters exactly as the file holds them.
- **Bare file name capture.** The bare-file-name pattern includes `\s`, so the words before
  a name are captured with it: `analyze sales.csv` yields the file name `analyze sales.csv`.

## Model

| member | source | states |
|---|---|---|
| Text.LowerIdempotent | jarvix_logic.py:22 | lower-casing twice is lower-casing once |
| Text.FindChar | agents/data_scientist.py:84 | the index of the first occurrence, or none exactly when the character does not occur |
| Text.RFind | agents/data_scientist.py:107-108 | the index of the last occurrence, or none exactly when the character does not occur |
| Text.FindFrom | agents/data_scientist.py:81 | the first occurrence of a pattern at or after the start, none before it, none at all when absent |
| Text.FindFromFirst | agents/data_scientist.py:81 | an occurrence with none before it is the one `find` returns |
| Text.ContainsIff | jarvix_logic.py:22 | `pat in s` holds exactly when the pattern occurs at some index |
| Text.Replace | agents/data_scientist.py:89 | `replace` leaves a text without the pattern unchanged, keeps the length for an equally long replacement, and shortens a text that holds the pattern when the replacement is shorter |
| Text.TrimStart | jarvix_logic.py:40 | `lstrip` removes only leading whitespace and leaves a non-space first character |
| Text.TrimEnd | jarvix_logic.py:40 | `rstrip` removes only trailing whitespace and leaves a non-space last character |
| Text.StripSpec | jarvix_logic.py:40 | `strip` gives a contiguous slice of the input, with no outer whitespace, after removing only whitespace |
| Text.StripNoSpace | jarvix_logic.py:58 | a string without whitespace is unchanged by `strip` |
| Text.TitleAt | agents/data_scientist.py:109 | `title` upper-cases a letter exactly when the character before it is not a letter, lower-cases other letters, and keeps other characters |
| Text.TitleIdempotent | agents/data_scientist.py:109 | title-casing a title-cased string changes nothing |
| Paths.Name | agents/data_scientist.py:116 | a path's name holds no `/` and is never `.` |
| Paths.Join | jarvix_logic.py:59 | `os.path.join` gives an absolute second part alone; otherwise both parts in order, with one `/` between them unless the first is empty or already ends in `/` |
| Paths.Stem | agents/data_scientist.py:108 | the stem is a prefix of the name; when shorter, it is cut at the name's last `.`, which is neither its first nor its last character |
| Paths.NameOfJoin | agents/data_scientist.py:124 | joining the output folder with a plain file name gives a path whose name is that file name |
| Paths.StemOfName | agents/data_scientist.py:108 | the stem of `base.ext` is `base` |
| PromptScan.ExtensionEndSpec | jarvix_logic.py:38 | an extension matches at a dot exactly when `csv` or `xls` follows it; the match is `.xlsx` exactly when `xlsx` follows, else `.csv` or `.xls` |
| PromptScan.RunEnd | jarvix_logic.py:53 | the end of the longest run of class characters from a start |
| PromptScan.LastExtension | jarvix_logic.py:38 | the greedy backtrack: the largest dot in a range where an extension matches, none above it |
| PromptScan.DotAtSpec | jarvix_logic.py:38 | from one start, the longest match is taken, and none is reported only when no match starts there |
| PromptScan.LeftmostSpec | jarvix_logic.py:53 | no match starts before the one found, from its start no later dot matches, and nothing is found only when no match exists |
| PromptScan.SearchSpec | jarvix_logic.py:38 | a search fails exactly when no match of the pattern's shape exists; otherwise it captures the leftmost-start, longest match |
| PromptScan.CapturedParts | jarvix_logic.py:38 | a capture is the text before the dot followed by `.csv`, `.xlsx` or `.xls` |
| PromptScan.FullPathShape | jarvix_logic.py:38 | a captured full path starts with `/`, holds no whitespace or quote, and ends in a supported extension |
| PromptScan.FileNameShape | jarvix_logic.py:53 | a captured file name holds only word characters, whitespace, `-` and `.`, and ends in a supported extension |
| PromptScan.FileNameSpansWords | jarvix_logic.py:53 | the file name captured from `analyze sales.csv` is the whole prompt |
| DataScientist.FencedBlock | agents/data_scientist.py:81 | a found block is an opening fence followed by a closing fence |
| DataScientist.FencedBlockSpec | agents/data_scientist.py:81 | it is the leftmost opening fence with the earliest closing fence after it, and exists whenever such a pair exists |
| DataScientist.BraceSpan | agents/data_scientist.py:84 | a found span runs from a `{` to a later `}` |
| DataScientist.BraceSpanSpec | agents/data_scientist.py:84 | the span runs from the first `{` to the last `}`, and exists exactly when some `{` precedes some `}` |
| DataScientist.ExtractJsonText | agents/data_scientist.py:81-89 | extraction fails, with the source's message, exactly when neither pattern matches |
| DataScientist.StripFences | agents/data_scientist.py:89 | removing the fences of `FENCE_OPEN + body + FENCE` gives back `body`, when `body` holds no fence |
| DataScientist.FenceBodyClean | agents/data_scientist.py:81 | the text between the fences of a found block holds no fence |
| DataScientist.ExtractFenced | agents/data_scientist.py:81-89 | with a fenced block, the extracted JSON is exactly the text between the fences |
| DataScientist.ExtractBraces | agents/data_scientist.py:84-89 | without a fenced block, the brace span is extracted with every fence removed, and taken as it stands when it holds no backtick |
| DataScientist.ExtractJsonTextClean | agents/data_scientist.py:81-89 | whatever is extracted holds no fence |
| DataScientist.RemoveFencesClean | agents/data_scientist.py:89 | removing every fence from any text leaves no fence, even across the removed ones |
| DataScientist.GetAiPlan | agents/data_scientist.py:78-93 | the plan is obtained exactly when the reply exists, a JSON block is extracted and it parses; it is the parse of that block |
| DataScientist.Timestamp | agents/data_scientist.py:110 | the timestamp is 15 characters: eight digits, `_`, six digits |
| DataScientist.TimestampFields | agents/data_scientist.py:110 | year, month, day, hour, minute and second read back from their positions in the timestamp |
| DataScientist.TimestampInjective | agents/data_scientist.py:110 | two times with the same timestamp are equal |
| DataScientist.GenerationDate | agents/data_scientist.py:115 | the generation date is 19 characters with `-`, `-`, space, `:` and `:` at their places |
| DataScientist.GenerationDateFields | agents/data_scientist.py:115 | every field of the time reads back from its position in the generation date |
| DataScientist.DatasetLabelSpec | agents/data_scientist.py:107-109 | the label has the stem's length, no `_` or `-`, the stem's letters with separators turned into spaces up to case, and capitals exactly at the starts of words |
| DataScientist.ReportFilenameParts | agents/data_scientist.py:123 | the report name is `Jarvix_Report_`, then the stem, then `_`, then the timestamp, then `.pdf` |
| DataScientist.ReportFilenameInjective | agents/data_scientist.py:108-123 | two reports share a file name only if their stems are equal and they were made at the same second |
| DataScientist.ReportNameIsPlain | agents/data_scientist.py:123-124 | the report name is a plain file name: non-empty, not `.`, no `/` |
| DataScientist.MakeTemplateVars | agents/data_scientist.py:112-121 | the recommendations are popped from the summary (an empty list when absent); the summary keeps every other key; name, path and charts are passed through; the report title names the file, the custom title carries the dataset label after the file's middle-dot text, and the date is the generation date |
| DataScientist.GeneratePdfReport | agents/data_scientist.py:96-126 | fails exactly when the template is missing or the PDF cannot be written; otherwise gives the report file name joined to the Desktop folder, with the template variables of this dataset, summary, charts and time |
| DataScientist.PlanStage | agents/data_scientist.py:135-146 | continues exactly when the file exists, loads, and the plan is a JSON object; otherwise the catch-all error |
| DataScientist.FeatureStage | agents/data_scientist.py:163-176 | a feature-engineering error arises only from code that is present; absent code leaves the initial scope, holding only the recommendations and an empty chart list |
| DataScientist.FeatureStageExec | agents/data_scientist.py:168-176 | present feature code run on the initial scope gives the scope it leaves, or the feature error with the exception's kind and text |
| DataScientist.VisualizationStage | agents/data_scientist.py:179-190 | absent visualization code leaves the scope as it was; an error arises only from code that is present |
| DataScientist.VisualizationStageExec | agents/data_scientist.py:179-190 | present visualization code, run with `chart_paths` defaulted to an empty list, gives the scope it leaves, or the visualization error with the exception's kind and text |
| DataScientist.ReportStage | agents/data_scientist.py:195-201 | no chart paths give the no-charts warning; with charts, a report is written exactly when the template and PDF succeed, into the Desktop folder under the report file name, and every other failure is the catch-all error; the charts to clean up are the chart paths |
| DataScientist.AnalysisOutcome | agents/data_scientist.py:129-211 | only success changes the files; a missing file gives the catch-all error; a success names its report after the dataset and time |
| DataScientist.RunDynamicAnalysis | agents/data_scientist.py:129-211 | the pipeline's result and the files afterwards are those of `AnalysisOutcome` |
| DataScientist.RemoveCharts | agents/data_scientist.py:204-205 | after the clean-up loop the files are the old ones minus every chart path |
| DataScientist.NoCodeNoCharts | agents/data_scientist.py:168-198 | with neither piece of code present, the result is the no-charts warning and no file changes |
| DataScientist.NoChartsWarns | agents/data_scientist.py:195-198 | whenever the code steps pass without leaving a chart path, the result is the no-charts warning and no file changes |
| DataScientist.VisualizationFailureStops | agents/data_scientist.py:179-190 | a failing visualization step returns its error, with the exception's kind and text, and no file changes |
| DataScientist.FeatureFailureStops | agents/data_scientist.py:168-179 | a failing feature step returns its error before the visualization runs, and no file changes |
| DataScientist.AnalysisResultCauses | agents/data_scientist.py:135-211 | each result arises only once every earlier step has passed, in the source's order |
| DataScientist.SuccessCleansUp | agents/data_scientist.py:124-207 | after a success the report lies in the Desktop folder under the report file name and exists (unless it is a chart path), no chart image exists, every other file is kept, and no file but the report appears |
| DataScientist.ResultMessageLead | agents/data_scientist.py:173-211 | every message opens with the mark of its kind, as the file's text holds it: `\uF8FF` exactly for success, `\u201A` for every failure, and then `\u00F6` exactly for the no-charts warning |
| DataScientist.Mark | agents/data_scientist.py:173-211 | the three marks: the cross and the warning sign both open with `\u201A` and differ at the next character; the thumbs-up opens with `\uF8FF` |
| DataScientist.HeadlineLead | agents/data_scientist.py:173-211 | each heading opens with its result's mark |
| DataScientist.ResultMessageCarries | agents/data_scientist.py:170-211 | the message of a success holds the report's path; that of a feature or visualization error the error's text; that of the catch-all error the traceback |
| Agents.AnyKeywordSpec | jarvix_logic.py:22 | `any(k in lowered …)` holds exactly when some keyword is a substring |
| Agents.CanHandleSpec | jarvix_logic.py:19-22 | an agent claims a prompt exactly when one of its keywords occurs in the lower-cased prompt |
| Agents.ConversationalNeverHandles | jarvix_logic.py:84 | the conversational agent never claims a prompt |
| Agents.CanHandleIgnoresCase | jarvix_logic.py:22 | a prompt and its lower-cased form are claimed by the same agents |
| Agents.FirstMatch | jarvix_logic.py:117-118 | the first agent in order that claims the prompt, none before it, none at all when none claims it |
| Agents.Selected | jarvix_logic.py:113-127 | a specific agent runs only if it claims the prompt; the fallback runs exactly when neither claims it; data science wins when it claims the prompt |
| Agents.RouteOneAgent | jarvix_logic.py:115-127 | a prompt with a data-science keyword gets the data-science run; else one with a calendar keyword the calendar run; else the conversational run; only the data-science run changes the files |
| Agents.DataScienceWins | jarvix_logic.py:113-122 | a prompt both specific agents claim goes to the data-science agent |
| Agents.Route | jarvix_logic.py:115-127 | the router's loop with early return computes `RouteSpec`, including the raise on a non-string prompt |
| Agents.Locate | jarvix_logic.py:58-64 | the result exists; the Downloads copy is preferred, the name as given is the second choice, and none is found exactly when neither exists |
| Agents.DataScienceRunShape | jarvix_logic.py:33-72 | every data-science run yields the activation message first, then one or two more non-empty messages, and never raises |
| Agents.AnalyseShape | jarvix_logic.py:66-72 | an analysis yields the activation, the found message, then the result message |
| Agents.FullPathFirst | jarvix_logic.py:38-50 | a missing full path ends the run with its error, without the file-name fallback, and changes no file |
| Agents.FullPathStripped | jarvix_logic.py:40 | stripping a captured full path changes nothing |
| Agents.AnalysedFile | jarvix_logic.py:37-72 | the analysis runs exactly on an existing file: the full path first, then the Downloads copy, then the name as given; without it no file changes |
| Agents.FileNameErrors | jarvix_logic.py:52-64 | without a full path, a prompt with no file name yields the no-file error and one whose name exists in neither place yields the not-found error for that name; neither changes a file |
| Agents.DataScienceExecute | jarvix_logic.py:33-72 | the agent's generator computes `DataScienceRun` |
| Agents.CalendarRun | jarvix_logic.py:77-80 | the calendar agent yields exactly two messages and does not raise |
| Agents.ChunkStreams | jarvix_logic.py:103-106 | the streams are the non-empty chunks; there are none exactly when every chunk is empty |
| Agents.StreamsCarryReply | jarvix_logic.py:103-106 | the streamed texts joined are the whole reply |
| Agents.ConversationalRunSpec | jarvix_logic.py:99-110 | banner first, then the streams; the error on failure; the placeholder exactly when nothing had text and nothing failed; no raise |
| Agents.ConversationalExecute | jarvix_logic.py:94-110 | the agent's loop with its `has_sent_content` flag computes `ConversationalRun` |
| Server.WebSocket.SendJson | main.py:45 | a send appends one message |
| Server.CommandQueue.Put | main.py:85 | a put appends at the back |
| Server.CommandQueue.Get | main.py:44 | a get removes and returns the front |
| Server.ConnectionManager.constructor | main.py:16-17 | the registry starts empty |
| Server.ConnectionManager.Connect | main.py:19-21 | the socket maps to a fresh empty queue; no other entry changes |
| Server.ConnectionManager.Disconnect | main.py:23-25 | the socket's entry is removed, a no-op when absent; no other entry changes |
| Server.ConnectionManager.GetQueue | main.py:27-28 | the stored queue, or none exactly when the socket is not registered |
| Server.RenderSpec | main.py:48-53 | at most one message per emit, each a log or stream with the command's id, and no empty log |
| Server.LoggedRender | main.py:50-53 | the logged texts are exactly the non-empty yields, in order |
| Server.CommandRecordsSpec | main.py:44-55 | a command's messages open with its `start_processing`, all carry its id, log the non-empty yields in order, and end with `end_processing` exactly when the run did not raise |
| Server.SendEmits | main.py:48-53 | the consumer's `async for` sends the rendering of the emits |
| Server.ProcessCommand | main.py:44-61 | one command sends its records; a raising run is absorbed |
| Server.ConsumeNext | main.py:42-61 | one turn takes the oldest command and sends what processing it gives |
| Server.CommandConsumer | main.py:34-61 | without a queue nothing is sent and nothing changes; otherwise the whole queue is processed in order and left empty; no other connection's queue and no registry entry changes |
| Server.DrainQueue | main.py:42-61 | the loop sends the records of `Drain` and empties the queue |
| Server.DrainStartsInOrder | main.py:42-56 | commands are started in queue order, each exactly once |
| Server.DrainIsolates | main.py:57-61 | a command whose agent raises gets no `end_processing`, and the commands after it are still started, in queue order, on the files it left |
| Server.AsCommand | main.py:85 | a message gives a command exactly when it is an object with `id` and `prompt`, and the command holds those two fields |
| Server.WebSocketEndpoint | main.py:73-89 | the endpoint sends what `Session` gives; the entry is removed only on close; the queue is that of `Session`; no other entry changes |
| Server.SessionEnded | main.py:86-89 | once the endpoint has ended, further events change nothing |
| Server.SessionInOrder | main.py:42-85 | started commands are the received ones in order, and the rest wait in the queue in order |
| Server.SessionFifo | main.py:81-85 | from a fresh connection, started ids followed by queued ids are the received ids |
| Server.ClosedIsFinal | main.py:86-89 | events after the client has left have no effect |
| Server.NonStringPrompt | main.py:44-61 | a non-string prompt yields only `start_processing` and leaves the files as they were |
| Server.StringPromptEnds | main.py:44-55 | a string prompt always ends with `end_processing`, except a conversational one whose model cannot be created |

## Left out

- asyncio concurrency is not modelled. The consumer and the endpoint interleave only at the
  events of a schedule, and a command is processed atomically within one consumer turn.
  Cancellation mid-command, `asyncio.sleep`, `run_in_executor` and `queue.task_done` are not
  modelled.
- `CommandQueue.Get` requires a non-empty queue in place of blocking. A consumer turn on an
  empty queue is a no-op event.
- After the endpoint crashes, the consumer task is left running in the source. The model
  treats the session as ended.
- Transport is not modelled: `accept`, `receive_json`, the HTTP route for the index page and
  the static mount. Received data is an event parameter; sends are appends.
- Gemini, pandas, matplotlib/seaborn, `exec`, Jinja rendering and WeasyPrint are foreign.
  Their outcomes are fields of `AnalysisWorld` and `GeminiReply`. Receiving the model's
  reply is either `None` or its text, and the kind of exception on failure is not
  distinguished.
- The effects of the generated code on the real file system are not modelled. The only file
  changes are the written report and the removed chart paths. Chart images written by
  `exec` do not enter the file set.
- Generated code that rebinds `chart_paths` or `analysis_summary` to a non-list or non-dict
  value is not modelled. The scope holds only a list of paths or a map, or the key is
  deleted.
- The regular expressions are modelled as hand scanners for these two specific patterns, not
  as a regex engine. Lower- and title-casing are over ASCII letters only. `\w` is ASCII.
- The traceback text of the catch-all error is a parameter.
- JSON numbers are modelled as integers. Fractional and floating-point numbers are not
  represented.
- `Server` is parametric in the router. `Deployed` plugs in the agents' `RouteSpec`, and the
  two `Server` lemmas about prompts use it.
- `config.py` (environment loading and the API-key check) is not part of this model.
- AnalysisOutcome: its own contract states only that success alone changes files, the missing
  file and the report name. The no-charts warning after code ran, the visualization error and
  the report's folder are stated beside it, by NoChartsWarns, VisualizationFailureStops and
  SuccessCleansUp, because the function is unfolded by every lemma about a run.
- VisualizationStage and FeatureStage: what present code gives is stated by VisualizationStageExec
  and FeatureStageExec, not by their own contracts, for the same reason.
- `Agents.CalendarRun`: the contract states the count and the absence of a raise. The two
  fixed texts are only in the body.
