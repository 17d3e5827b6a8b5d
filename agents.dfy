/**
 * The agents and the router: which agent a prompt goes to, and the messages each agent
 * produces. An agent is an asynchronous generator; here its run is the list of what it emits
 * (the messages it yields and the stream messages it sends on the socket itself) and whether
 * an exception escaped it.
 */
module Agents {
  import opened Wrappers
  import opened Json
  import opened Text
  import opened Paths
  import opened PromptScan
  import opened DataScientist

  datatype AgentKind = DataScience | Calendar | Conversational

  /** The class-level `keywords` of each agent. */
  function Keywords(a: AgentKind): seq<string> {
    match a
    case DataScience => ["analyze", "analysis", "process", "visualize", "report", ".csv", ".xlsx"]
    case Calendar => ["calendar", "event", "meeting", "schedule"]
    case Conversational => []
  }

  /** The agents the router tries, in order, before falling back to the conversational one. */
  const SPECIFIC_AGENTS: seq<AgentKind> := [DataScience, Calendar]

  /** `any(keyword in lowered for keyword in keywords)`. */
  function AnyKeyword(keywords: seq<string>, lowered: string): bool {
    if keywords == [] then false
    else Contains(lowered, keywords[0]) || AnyKeyword(keywords[1..], lowered)
  }

  lemma {:induction false} AnyKeywordSpec(keywords: seq<string>, lowered: string)
    ensures AnyKeyword(keywords, lowered) <==> exists k :: k in keywords && Contains(lowered, k)
  {
    if keywords != [] {
      AnyKeywordSpec(keywords[1..], lowered);
      assert forall k :: k in keywords <==> k == keywords[0] || k in keywords[1..];
    }
  }

  /** `can_handle`: some keyword of the agent is a substring of the lower-cased prompt. */
  function CanHandle(a: AgentKind, prompt: string): bool {
    AnyKeyword(Keywords(a), Lower(prompt))
  }

  /** An agent claims a prompt exactly when one of its keywords occurs in the lower-cased prompt. */
  lemma CanHandleSpec(a: AgentKind, prompt: string)
    ensures CanHandle(a, prompt) <==> exists k :: k in Keywords(a) && Contains(Lower(prompt), k)
  {
    AnyKeywordSpec(Keywords(a), Lower(prompt));
  }

  /** Having no keywords, the conversational agent never claims a prompt. */
  lemma ConversationalNeverHandles(prompt: string)
    ensures !CanHandle(Conversational, prompt)
  {
  }

  /** The keyword test ignores case: a prompt and its lower-cased form go to the same agents. */
  lemma CanHandleIgnoresCase(a: AgentKind, prompt: string)
    ensures CanHandle(a, Lower(prompt)) == CanHandle(a, prompt)
  {
    LowerIdempotent(prompt);
  }

  /** The index of the first agent of `agents` that can handle the prompt. */
  function FirstMatch(agents: seq<AgentKind>, prompt: string): (r: Option<nat>)
    ensures r.Some? ==> r.value < |agents| && CanHandle(agents[r.value], prompt)
    ensures r.Some? ==> forall j :: 0 <= j < r.value ==> !CanHandle(agents[j], prompt)
    ensures r.None? ==> forall j :: 0 <= j < |agents| ==> !CanHandle(agents[j], prompt)
  {
    if agents == [] then None
    else if CanHandle(agents[0], prompt) then Some(0)
    else match FirstMatch(agents[1..], prompt)
      case None => None
      case Some(j) => Some(j + 1)
  }

  /** The one agent that runs for a prompt. */
  function Selected(prompt: string): (a: AgentKind)
    ensures a != Conversational ==> CanHandle(a, prompt)
    ensures a == Conversational <==> !CanHandle(DataScience, prompt) && !CanHandle(Calendar, prompt)
    ensures CanHandle(DataScience, prompt) ==> a == DataScience
  {
    match FirstMatch(SPECIFIC_AGENTS, prompt)
    case Some(i) =>
      assert i == 1 ==> !CanHandle(SPECIFIC_AGENTS[0], prompt);
      SPECIFIC_AGENTS[i]
    case None =>
      assert !CanHandle(SPECIFIC_AGENTS[0], prompt) && !CanHandle(SPECIFIC_AGENTS[1], prompt);
      Conversational
  }

  // ---------------------------------------------------------------------------------------
  // What a run emits

  /** A message the agent yields (sent by the consumer as a log) or sends itself as a stream. */
  datatype Emit = Yield(text: string) | Stream(text: string)

  /** Everything a run of an agent emits, and whether it ended by raising. */
  datatype Run = Run(emits: seq<Emit>, raised: bool)

  /** What the foreign services and the host give one command. */
  datatype World = World(home: string, gemini: GeminiReply, analysis: AnalysisWorld)

  // ---------------------------------------------------------------------------------------
  // The data-science agent

  const ACTIVATED := "🔬 **Autonomous AI Analyst**: Activated."
  const NO_FILE_GIVEN := "❌ **Error:** " + "Please specify a `.csv` or `.xlsx` file name or full path."

  function FoundMessage(path: string): string {
    "🔍 File found at `" + path + "`. Engaging AI..."
  }

  function PathMissingMessage(path: string): string {
    "❌ **Error:** File path `" + path + "` does not exist."
  }

  function NotFoundMessage(filename: string): string {
    "❌ **Error:** File `" + filename + "` not found in Downloads or project directory."
  }

  /** `DOWNLOADS_DIR`. */
  function DownloadsDir(home: string): string {
    Join(home, "Downloads")
  }

  /** The first of the two candidate locations of a bare file name that exists. */
  function Locate(filename: string, home: string, files: set<string>): (r: Option<string>)
    ensures r.None? <==> Join(DownloadsDir(home), filename) !in files && filename !in files
    ensures Join(DownloadsDir(home), filename) in files ==> r == Some(Join(DownloadsDir(home), filename))
    ensures r.Some? && r.value != Join(DownloadsDir(home), filename) ==> r.value == filename
    ensures r.Some? ==> r.value in files
  {
    var candidates := [Join(DownloadsDir(home), filename), filename];
    if candidates[0] in files then Some(candidates[0])
    else if candidates[1] in files then Some(candidates[1])
    else None
  }

  /** The analysis of an existing file: the found message, then the pipeline's result. */
  function Analyse(path: string, world: World, files: set<string>): (Run, set<string>) {
    var (result, after) := AnalysisOutcome(files, path, world.home, world.analysis);
    (Run([Yield(ACTIVATED), Yield(FoundMessage(path)), Yield(ResultMessage(result, world.analysis.traceback))], false),
     after)
  }

  /** `DataScienceAgent.execute`: its messages and the files that exist after it. */
  function DataScienceRun(prompt: string, world: World, files: set<string>): (r: (Run, set<string>)) {
    match Search(prompt, FullPath)
    case Some(m) =>
      var path := Strip(m);
      if path in files then Analyse(path, world, files)
      else (Run([Yield(ACTIVATED), Yield(PathMissingMessage(path))], false), files)
    case None =>
      match Search(prompt, FileName)
      case None => (Run([Yield(ACTIVATED), Yield(NO_FILE_GIVEN)], false), files)
      case Some(m) =>
        var filename := Strip(m);
        match Locate(filename, world.home, files)
        case None => (Run([Yield(ACTIVATED), Yield(NotFoundMessage(filename))], false), files)
        case Some(path) => Analyse(path, world, files)
  }

  /** The data-science agent's runs: two or three non-empty yields, the activation first, and no exception. */
  predicate AnnouncedRun(run: Run) {
    && !run.raised && 2 <= |run.emits| <= 3
    && run.emits[0] == Yield(ACTIVATED)
    && forall e :: e in run.emits ==> e.Yield? && e.text != []
  }

  /** Every data-science run has that shape, whichever way the file is looked for. */
  lemma DataScienceRunShape(prompt: string, world: World, files: set<string>)
    ensures AnnouncedRun(DataScienceRun(prompt, world, files).0)
  {
    match Search(prompt, FullPath) {
      case Some(m) =>
        var path := Strip(m);
        if path in files {
          AnalyseShape(path, world, files);
        } else {
          ShortRun(PathMissingMessage(path));
        }
      case None =>
        FileNameRunShape(prompt, world, files);
    }
  }

  lemma FileNameRunShape(prompt: string, world: World, files: set<string>)
    requires Search(prompt, FullPath).None?
    ensures AnnouncedRun(DataScienceRun(prompt, world, files).0)
  {
    match Search(prompt, FileName) {
      case None =>
        ShortRun(NO_FILE_GIVEN);
      case Some(m) =>
        var filename := Strip(m);
        match Locate(filename, world.home, files) {
          case None => ShortRun(NotFoundMessage(filename));
          case Some(path) => AnalyseShape(path, world, files);
        }
    }
  }

  /** The activation and one more message. */
  lemma ShortRun(message: string)
    requires message != []
    ensures AnnouncedRun(Run([Yield(ACTIVATED), Yield(message)], false))
  {
  }

  lemma AnalyseShape(path: string, world: World, files: set<string>)
    ensures var run := Analyse(path, world, files).0;
      && AnnouncedRun(run) && |run.emits| == 3 && run.emits[1] == Yield(FoundMessage(path))
  {
    var (result, _) := AnalysisOutcome(files, path, world.home, world.analysis);
    ResultMessageLead(result, world.analysis.traceback);
  }

  /** A full path that does not exist ends the run, whatever the file-name fallback would find. */
  lemma FullPathFirst(prompt: string, world: World, files: set<string>)
    requires Search(prompt, FullPath).Some?
    requires Strip(Search(prompt, FullPath).value) !in files
    ensures var path := Search(prompt, FullPath).value;
      DataScienceRun(prompt, world, files) == (Run([Yield(ACTIVATED), Yield(PathMissingMessage(path))], false), files)
  {
    FullPathStripped(prompt);
  }

  /** A captured full path has no surrounding whitespace, so stripping it changes nothing. */
  lemma FullPathStripped(prompt: string)
    requires Search(prompt, FullPath).Some?
    ensures Strip(Search(prompt, FullPath).value) == Search(prompt, FullPath).value
  {
    FullPathShape(prompt);
    StripNoSpace(Search(prompt, FullPath).value);
  }

  /**
   * Which file is analysed: the full path when it exists; otherwise the copy in Downloads
   * before the name as given. The analysis runs only on a file that exists, and the files
   * change only when it runs.
   */
  lemma AnalysedFile(prompt: string, world: World, files: set<string>)
    ensures var (run, after) := DataScienceRun(prompt, world, files);
      && (|run.emits| == 3 <==> exists path :: path in files && (run, after) == Analyse(path, world, files))
      && (|run.emits| == 2 ==> after == files)
      && (Search(prompt, FullPath).Some? && Search(prompt, FullPath).value in files ==>
            (run, after) == Analyse(Search(prompt, FullPath).value, world, files))
      && (Search(prompt, FullPath).None? && Search(prompt, FileName).Some?
          && Join(DownloadsDir(world.home), Strip(Search(prompt, FileName).value)) in files ==>
            (run, after) == Analyse(Join(DownloadsDir(world.home), Strip(Search(prompt, FileName).value)), world, files))
      && (Search(prompt, FullPath).None? && Search(prompt, FileName).Some?
          && Join(DownloadsDir(world.home), Strip(Search(prompt, FileName).value)) !in files
          && Strip(Search(prompt, FileName).value) in files ==>
            (run, after) == Analyse(Strip(Search(prompt, FileName).value), world, files))
  {
    var (run, after) := DataScienceRun(prompt, world, files);
    match Search(prompt, FullPath)
    case Some(m) =>
      FullPathStripped(prompt);
      if m in files {
        AnalyseShape(m, world, files);
      } else {
        NoAnalysis(run, world, files);
      }
    case None =>
      match Search(prompt, FileName)
      case None =>
        NoAnalysis(run, world, files);
      case Some(m) =>
        match Locate(Strip(m), world.home, files)
        case None =>
          NoAnalysis(run, world, files);
        case Some(path) =>
          AnalyseShape(path, world, files);
  }

  /**
   * The two errors after the activation when no full path is given: no file name in the prompt,
   * or a file name that exists neither in Downloads nor as given. Neither changes a file.
   */
  lemma FileNameErrors(prompt: string, world: World, files: set<string>)
    requires Search(prompt, FullPath).None?
    ensures var (run, after) := DataScienceRun(prompt, world, files);
      && (Search(prompt, FileName).None? ==>
            run == Run([Yield(ACTIVATED), Yield(NO_FILE_GIVEN)], false) && after == files)
      && (Search(prompt, FileName).Some?
          && Join(DownloadsDir(world.home), Strip(Search(prompt, FileName).value)) !in files
          && Strip(Search(prompt, FileName).value) !in files ==>
            run == Run([Yield(ACTIVATED), Yield(NotFoundMessage(Strip(Search(prompt, FileName).value)))], false)
            && after == files)
  {
  }

  /** A run of two messages is not an analysis. */
  lemma NoAnalysis(run: Run, world: World, files: set<string>)
    requires |run.emits| == 2
    ensures forall path :: (run, files) != Analyse(path, world, files)
  {
    forall path ensures (run, files) != Analyse(path, world, files) {
      AnalyseShape(path, world, files);
    }
  }

  // ---------------------------------------------------------------------------------------
  // The calendar agent

  function CalendarRun(): (r: Run)
    ensures !r.raised && |r.emits| == 2
  {
    Run([Yield("📅 **Calendar Agent**: Simulating..."), Yield("👍 **Success:** Event scheduled (simulation).")], false)
  }

  // ---------------------------------------------------------------------------------------
  // The conversational agent

  const BANNER := "🤖 **Jarvix ✅ Completed** - Powered by Gemini"
  const EMPTY_REPLY := "[Response was empty or blocked]"

  function ApiErrorMessage(e: string): string {
    "❌ **Gemini API Error:** " + e
  }

  /**
   * What Gemini gives the conversational agent: the model object could not be built (before
   * the agent's `try`), or the texts of the chunks received, followed by the message of the
   * exception that ended the call or the stream, if any.
   */
  datatype GeminiReply = ClientFailed | Reply(chunks: seq<string>, failure: Option<string>)

  /** The stream messages for the chunks that carry text, in order. */
  function ChunkStreams(chunks: seq<string>): (r: seq<Emit>)
    ensures |r| <= |chunks|
    ensures forall e :: e in r ==> e.Stream? && e.text != []
    ensures r == [] <==> forall i :: 0 <= i < |chunks| ==> chunks[i] == []
  {
    if chunks == [] then []
    else (if chunks[0] == [] then [] else [Stream(chunks[0])]) + ChunkStreams(chunks[1..])
  }

  /** Everything streamed, joined. */
  function StreamedText(emits: seq<Emit>): string {
    if emits == [] then [] else emits[0].text + StreamedText(emits[1..])
  }

  function Concat(chunks: seq<string>): string {
    if chunks == [] then [] else chunks[0] + Concat(chunks[1..])
  }

  /** The streams carry the whole reply: empty chunks add nothing to it. */
  lemma {:induction false} StreamsCarryReply(chunks: seq<string>)
    ensures StreamedText(ChunkStreams(chunks)) == Concat(chunks)
  {
    if chunks != [] {
      StreamsCarryReply(chunks[1..]);
      StreamedTextAppend(if chunks[0] == [] then [] else [Stream(chunks[0])], ChunkStreams(chunks[1..]));
    }
  }

  lemma {:induction false} StreamedTextAppend(a: seq<Emit>, b: seq<Emit>)
    ensures StreamedText(a + b) == StreamedText(a) + StreamedText(b)
  {
    if a != [] {
      assert (a + b)[1..] == a[1..] + b;
      assert StreamedText(a + b) == a[0].text + StreamedText(a[1..] + b);
      StreamedTextAppend(a[1..], b);
      assert StreamedText(a) == a[0].text + StreamedText(a[1..]);
    } else {
      assert a + b == b;
    }
  }

  /** `ConversationalAgent.execute`. */
  function ConversationalRun(reply: GeminiReply): (r: Run) {
    match reply
    case ClientFailed => Run([], true)
    case Reply(chunks, failure) =>
      var streams := ChunkStreams(chunks);
      var ending :=
        if failure.Some? then [Yield(ApiErrorMessage(failure.value))]
        else if streams == [] then [Stream(EMPTY_REPLY)]
        else [];
      Run([Yield(BANNER)] + streams + ending, false)
  }

  /**
   * Once the model exists the agent never raises and yields the banner first. After it come
   * stream messages that together carry the whole reply, then: the error message if the call
   * failed, the placeholder if it did not and no chunk carried text, and nothing otherwise.
   */
  lemma ConversationalRunSpec(chunks: seq<string>, failure: Option<string>)
    ensures var r := ConversationalRun(Reply(chunks, failure));
      var streams := ChunkStreams(chunks);
      && !r.raised
      && r.emits[..1 + |streams|] == [Yield(BANNER)] + streams
      && (forall e :: e in streams ==> e.Stream?)
      && StreamedText(streams) == Concat(chunks)
      && (failure.Some? ==> r.emits[1 + |streams|..] == [Yield(ApiErrorMessage(failure.value))])
      && (failure.None? && (forall i :: 0 <= i < |chunks| ==> chunks[i] == []) ==>
            r.emits == [Yield(BANNER), Stream(EMPTY_REPLY)])
      && (failure.None? && (exists i :: 0 <= i < |chunks| && chunks[i] != []) ==>
            |r.emits| == 1 + |streams|)
  {
    StreamsCarryReply(chunks);
    var r := ConversationalRun(Reply(chunks, failure));
    var streams := ChunkStreams(chunks);
    assert r.emits[..1 + |streams|] == [Yield(BANNER)] + streams;
  }

  /** The agent's loop, with the `has_sent_content` flag. */
  method ConversationalExecute(reply: GeminiReply) returns (run: Run)
    ensures run == ConversationalRun(reply)
  {
    if reply.ClientFailed? {
      return Run([], true);
    }
    var chunks := reply.chunks;
    var streams: seq<Emit> := [];
    var hasSentContent := false;
    for i := 0 to |chunks|
      invariant streams == ChunkStreams(chunks[..i])
      invariant hasSentContent <==> streams != []
    {
      ChunkStreamsSnoc(chunks[..i], chunks[i]);
      assert chunks[..i + 1] == chunks[..i] + [chunks[i]];
      if chunks[i] != [] {
        hasSentContent := true;
        streams := streams + [Stream(chunks[i])];
      }
    }
    assert chunks[..|chunks|] == chunks;
    var ending: seq<Emit> := [];
    if reply.failure.Some? {
      ending := [Yield(ApiErrorMessage(reply.failure.value))];
    } else if !hasSentContent {
      ending := [Stream(EMPTY_REPLY)];
    }
    run := Run([Yield(BANNER)] + streams + ending, false);
  }

  lemma {:induction false} ChunkStreamsSnoc(chunks: seq<string>, c: string)
    ensures ChunkStreams(chunks + [c]) == ChunkStreams(chunks) + (if c == [] then [] else [Stream(c)])
  {
    if chunks != [] {
      assert (chunks + [c])[1..] == chunks[1..] + [c];
      ChunkStreamsSnoc(chunks[1..], c);
    } else {
      assert ChunkStreams([c]) == (if c == [] then [] else [Stream(c)]) + ChunkStreams([]);
    }
  }

  // ---------------------------------------------------------------------------------------
  // The router

  /** What one agent does with a prompt. */
  function AgentRun(a: AgentKind, prompt: string, world: World, files: set<string>): (Run, set<string>) {
    match a
    case DataScience => DataScienceRun(prompt, world, files)
    case Calendar => (CalendarRun(), files)
    case Conversational => (ConversationalRun(world.gemini), files)
  }

  /**
   * `jarvix_main_router`: the run of the selected agent. A prompt that is not a string makes
   * `can_handle` raise before any agent runs.
   */
  function RouteSpec(prompt: Value, world: World, files: set<string>): (r: (Run, set<string>)) {
    if !prompt.JString? then (Run([], true), files)
    else AgentRun(Selected(prompt.s), prompt.s, world, files)
  }

  /**
   * The run a string prompt gets, by the keywords it holds: the data-science agent's when one of
   * its keywords occurs, otherwise the calendar agent's when one of its keywords occurs, otherwise
   * the conversational agent's; only the data-science agent touches the files.
   */
  lemma RouteOneAgent(prompt: string, world: World, files: set<string>)
    ensures var r := RouteSpec(JString(prompt), world, files);
      && (CanHandle(DataScience, prompt) ==> r == DataScienceRun(prompt, world, files))
      && (!CanHandle(DataScience, prompt) && CanHandle(Calendar, prompt) ==> r == (CalendarRun(), files))
      && (!CanHandle(DataScience, prompt) && !CanHandle(Calendar, prompt) ==>
            r == (ConversationalRun(world.gemini), files))
      && (!CanHandle(DataScience, prompt) ==> r.1 == files)
  {
  }

  /** A prompt that matches both agents' keywords goes to the data-science agent. */
  lemma DataScienceWins(prompt: string, world: World, files: set<string>)
    requires CanHandle(DataScience, prompt) && CanHandle(Calendar, prompt)
    ensures RouteSpec(JString(prompt), world, files) == DataScienceRun(prompt, world, files)
  {
  }

  /** The data-science agent's generator, running the pipeline with its clean-up loop. */
  method DataScienceExecute(prompt: string, world: World, files: set<string>) returns (run: Run, after: set<string>)
    ensures (run, after) == DataScienceRun(prompt, world, files)
  {
    var path: string;
    match Search(prompt, FullPath) {
      case Some(m) =>
        path := Strip(m);
        if path !in files {
          return Run([Yield(ACTIVATED), Yield(PathMissingMessage(path))], false), files;
        }
      case None =>
        match Search(prompt, FileName) {
          case None =>
            return Run([Yield(ACTIVATED), Yield(NO_FILE_GIVEN)], false), files;
          case Some(m) =>
            var filename := Strip(m);
            match Locate(filename, world.home, files) {
              case None =>
                return Run([Yield(ACTIVATED), Yield(NotFoundMessage(filename))], false), files;
              case Some(p) =>
                path := p;
            }
        }
    }
    var result;
    result, after := RunDynamicAnalysis(files, path, world.home, world.analysis);
    run := Run([Yield(ACTIVATED), Yield(FoundMessage(path)), Yield(ResultMessage(result, world.analysis.traceback))], false);
  }

  /** The router's loop over the specific agents, with its early return. */
  method Route(prompt: Value, world: World, files: set<string>) returns (run: Run, after: set<string>)
    ensures (run, after) == RouteSpec(prompt, world, files)
  {
    if !prompt.JString? {
      return Run([], true), files;
    }
    var text := prompt.s;
    var i := 0;
    while i < |SPECIFIC_AGENTS|
      invariant 0 <= i <= |SPECIFIC_AGENTS|
      invariant forall j :: 0 <= j < i ==> !CanHandle(SPECIFIC_AGENTS[j], text)
    {
      if CanHandle(SPECIFIC_AGENTS[i], text) {
        if SPECIFIC_AGENTS[i] == DataScience {
          run, after := DataScienceExecute(text, world, files);
        } else {
          run, after := CalendarRun(), files;
        }
        return;
      }
      i := i + 1;
    }
    run := ConversationalExecute(world.gemini);
    after := files;
  }
}
