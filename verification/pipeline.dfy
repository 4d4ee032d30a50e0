/**
 * `startResearchProcess` (services/researchService.ts) as a sequential state machine.
 *
 * What the process does that the rest of the application can observe is an append-only
 * trace of events: the active agent is set, the abort signal is checked, a log entry is
 * added, a model or search call leaves, the final report is handed over. The model
 * backends, the searches, `JSON.parse` and the abort signal are oracles in a `Backends`
 * record, consulted at the number of events so far, so that two consultations at
 * different moments may answer differently.
 *
 * The research tasks that the source starts together and collects with `Promise.all`
 * run here one after the other in topic order; the notes come out in the same order
 * either way, and a rejection is the first failing task's.
 */
module Pipeline {
  import opened Wrappers
  import opened Text
  import opened Types
  import Constants
  import opened PlanParser
  import opened Prompts
  import opened Routing
  import opened Citations

  /** One observable step of the process. */
  datatype Event =
    | Activate(agent: AgentName)       // setActiveAgent
    | Check                            // checkAborted
    | Logged(entry: LogEntry)          // addLog
    | Invoked(call: Call)              // a model call leaves
    | Searched(search: SearchCall)     // a search call leaves
    | Reported(report: string)         // setFinalReport

  /** What a model backend answers: the reply text, or what it throws. */
  datatype Reply = Answered(text: string) | Raised(err: Error)

  /** What a search answers: its results, or what it throws. */
  datatype Found = Found(results: seq<ResearchResult>) | SearchRaised(err: Error)

  /** The outside world, each oracle consulted at the current number of events. */
  datatype Backends = Backends(
    model: (nat, Call) -> Reply,
    search: (nat, SearchCall) -> Found,
    parse: JsonParser,
    aborted: nat -> bool)

  // ---------------------------------------------------------------------------
  // Traces

  /**
   * The events so far, with a running record of each kind: the agents made active, the
   * model calls, the search calls, the result sets logged by "Found N sources", the notes
   * carried by "new source found" entries, and the reports handed over. `Emit` is the
   * only way a trace grows, and it keeps the records in step with the events
   * (`EmitKeepsRecords`).
   */
  datatype Trace = Trace(
    events: seq<Event>,
    actives: seq<AgentName>,
    calls: seq<Call>,
    searches: seq<SearchCall>,
    resultSets: seq<seq<ResearchResult>>,
    notes: seq<SourceNote>,
    reports: seq<string>)
  {
    /** The moment an oracle is consulted. */
    function Now(): nat {
      |events|
    }
  }

  const Start: Trace := Trace([], [], [], [], [], [], [])

  /** The note a "new source found" log entry carries. */
  function NoteOf(d: SourceData): SourceNote {
    SourceNote(d.title, d.url, d.summary)
  }

  function Emit(t: Trace, e: Event): (t': Trace)
    ensures t'.events == t.events + [e]
  {
    var t1 := t.(events := t.events + [e]);
    match e
    case Activate(a) => t1.(actives := t.actives + [a])
    case Check => t1
    case Logged(entry) =>
      (match entry.data
       case Results(rs) => t1.(resultSets := t.resultSets + [rs])
       case SourceDocument(d) => t1.(notes := t.notes + [NoteOf(d)])
       case NoData => t1)
    case Invoked(c) => t1.(calls := t.calls + [c])
    case Searched(c) => t1.(searches := t.searches + [c])
    case Reported(r) => t1.(reports := t.reports + [r])
  }

  /** The agents made active in a list of events, in order. */
  function ActivesIn(es: seq<Event>): seq<AgentName>
    decreases |es|
  {
    if es == [] then []
    else ActivesIn(es[..|es| - 1]) + (if es[|es| - 1].Activate? then [es[|es| - 1].agent] else [])
  }

  /** The model calls in a list of events, in order. */
  function CallsIn(es: seq<Event>): seq<Call>
    decreases |es|
  {
    if es == [] then []
    else CallsIn(es[..|es| - 1]) + (if es[|es| - 1].Invoked? then [es[|es| - 1].call] else [])
  }

  /** The reports in a list of events, in order. */
  function ReportsIn(es: seq<Event>): seq<string>
    decreases |es|
  {
    if es == [] then []
    else ReportsIn(es[..|es| - 1]) + (if es[|es| - 1].Reported? then [es[|es| - 1].report] else [])
  }

  /** The records the claims below rest on agree with the events. */
  predicate InStep(t: Trace) {
    t.actives == ActivesIn(t.events) && t.calls == CallsIn(t.events) && t.reports == ReportsIn(t.events)
  }

  /** Emitting an event keeps the records in step with the events. */
  lemma EmitKeepsRecords(t: Trace, e: Event)
    requires InStep(t)
    ensures InStep(Emit(t, e))
  {
    var es := t.events + [e];
    assert es[..|es| - 1] == t.events;
  }

  /** Between `t0` and `t1` no agent became active and no report was handed over. */
  predicate Quiet(t0: Trace, t1: Trace) {
    t1.actives == t0.actives && t1.reports == t0.reports
  }

  /** Every Gemini call carries the configured, non-empty key. */
  predicate Keyed(s: Settings, calls: seq<Call>) {
    forall k | 0 <= k < |calls| && calls[k].GeminiCall? :: calls[k].apiKey == s.apiKey && s.apiKey != ""
  }

  /** The search results of several topics, one after the other. */
  function Flatten(rss: seq<seq<ResearchResult>>): (rs: seq<ResearchResult>)
    decreases |rss|
  {
    if rss == [] then [] else Flatten(rss[..|rss| - 1]) + rss[|rss| - 1]
  }

  lemma FlattenStep(rss: seq<seq<ResearchResult>>, rs: seq<ResearchResult>)
    ensures Flatten(rss + [rs]) == Flatten(rss) + rs
  {
    assert (rss + [rs])[..|rss|] == rss;
  }

  /** One note per result, in result order, each naming its result's title and URL. */
  predicate Describes(notes: seq<SourceNote>, results: seq<ResearchResult>) {
    && |notes| == |results|
    && forall k | 0 <= k < |notes| :: notes[k].title == results[k].title && notes[k].url == results[k].url
  }

  lemma DescribesAppend(n1: seq<SourceNote>, r1: seq<ResearchResult>, n2: seq<SourceNote>, r2: seq<ResearchResult>)
    ensures Describes(n1, r1) && Describes(n2, r2) ==> Describes(n1 + n2, r1 + r2)
  {
    if Describes(n1, r1) && Describes(n2, r2) {
      forall k | 0 <= k < |n1 + n2|
        ensures (n1 + n2)[k].title == (r1 + r2)[k].title && (n1 + n2)[k].url == (r1 + r2)[k].url
      {
        if k >= |n1| {
          assert (n1 + n2)[k] == n2[k - |n1|] && (r1 + r2)[k] == r2[k - |r1|];
        }
      }
    }
  }

  // ---------------------------------------------------------------------------
  // Queries, messages and the calls they make

  /** The model call summarizing one search result, as `runAgent` routes it. */
  function SummaryCall(s: Settings, topic: string, result: ResearchResult): Result<Call, Error> {
    RouteAgent(s, Researcher, SummaryRequest(topic, s.researchTopic, result.snippet))
  }

  /**
   * The summary calls for a list of results, in result order; the missing-key error if
   * the researcher cannot be routed.
   */
  function SummaryCalls(s: Settings, topic: string, results: seq<ResearchResult>): (r: Result<seq<Call>, Error>)
    ensures r.Success? ==> |r.value| == |results|
    decreases |results|
  {
    if results == [] then Success([])
    else
      match SummaryCalls(s, topic, results[..|results| - 1])
      case Failure(e) => Failure(e)
      case Success(cs) =>
        match SummaryCall(s, topic, results[|results| - 1])
        case Failure(e) => Failure(e)
        case Success(c) => Success(cs + [c])
  }

  /** Every summary call is the routed call for its own result. */
  lemma {:induction false} SummaryCallsAt(s: Settings, topic: string, results: seq<ResearchResult>, k: nat)
    requires SummaryCalls(s, topic, results).Success? && k < |results|
    ensures SummaryCall(s, topic, results[k]) == Success(SummaryCalls(s, topic, results).value[k])
    decreases |results|
  {
    var init := results[..|results| - 1];
    if k < |results| - 1 {
      SummaryCallsAt(s, topic, init, k);
      assert init[k] == results[k];
    }
  }

  /** The supervisor call as `runAgent` routes it. */
  function PlanCall(s: Settings): Result<Call, Error> {
    RouteAgent(s, Supervisor, PlanRequest(s.researchTopic))
  }

  /** The writer call for a set of notes, as `runAgent` routes it. */
  function ReportCall(s: Settings, notes: seq<SourceNote>): Result<Call, Error> {
    RouteAgent(s, Writer, ReportRequest(s.researchTopic, notes))
  }

  /** The searches of the research tasks, one per topic. */
  function TopicSearches(s: Settings, topics: seq<string>): (cs: seq<SearchCall>)
    ensures |cs| == |topics|
    decreases |topics|
  {
    if topics == [] then []
    else TopicSearches(s, topics[..|topics| - 1]) + [RouteSearch(s, topics[|topics| - 1])]
  }

  /** The k-th search is the one for the k-th topic. */
  lemma {:induction false} TopicSearchesAt(s: Settings, topics: seq<string>, k: nat)
    requires k < |topics|
    ensures TopicSearches(s, topics)[k] == RouteSearch(s, topics[k])
    decreases |topics|
  {
    if k < |topics| - 1 {
      var init := topics[..|topics| - 1];
      TopicSearchesAt(s, init, k);
      assert init[k] == topics[k];
    }
  }

  // ---------------------------------------------------------------------------
  // Steps

  /** A step of the process either goes on with a value or halts with what was thrown. */
  datatype Flow<+T> = Go(value: T, trace: Trace) | Halt(err: Error, trace: Trace)

  function Log(t: Trace, agent: AgentName, message: Message, data: LogData): Trace {
    Emit(t, Logged(LogEntry(agent, message, data)))
  }

  /** `createResearcherLog`: a researcher line under the task's topic. */
  function TopicLog(t: Trace, topic: string, step: TopicStep, data: LogData): Trace {
    Log(t, Researcher, OnTopic(topic, step), data)
  }

  /** `checkAborted`: an abort check, which throws the abort error once the signal is set. */
  function CheckAborted(b: Backends, t: Trace): (r: Flow<()>)
    ensures r.trace == Emit(t, Check)
    ensures r.Halt? <==> b.aborted(t.Now())
    ensures r.Halt? ==> r.err == Abort
  {
    var t' := Emit(t, Check);
    if b.aborted(t.Now()) then Halt(Abort, t') else Go((), t')
  }

  /**
   * `runAgent`: the missing-key error leaves no call behind; otherwise exactly the routed
   * call leaves and its backend's answer is the result.
   */
  function RunAgent(b: Backends, s: Settings, agent: AgentName, prompt: Prompt, t: Trace): (r: Flow<string>)
    ensures var route := RouteAgent(s, agent, prompt);
      r.trace == if route.Failure? then t else Emit(t, Invoked(route.value))
    ensures var route := RouteAgent(s, agent, prompt);
      r.Go? <==> route.Success? && b.model(t.Now(), route.value).Answered?
    ensures var route := RouteAgent(s, agent, prompt);
      r.Go? ==> r.value == b.model(t.Now(), route.value).text
    ensures var route := RouteAgent(s, agent, prompt);
      r.Halt? ==> r.err == if route.Failure? then route.error else b.model(t.Now(), route.value).err
    ensures Keyed(s, t.calls) ==> Keyed(s, r.trace.calls)
  {
    match RouteAgent(s, agent, prompt)
    case Failure(e) => Halt(e, t)
    case Success(call) =>
      var t' := Emit(t, Invoked(call));
      match b.model(t.Now(), call)
      case Answered(text) => Go(text, t')
      case Raised(e) => Halt(e, t')
  }

  /**
   * One pass of the loop over search results: abort check, the summary call, the note,
   * and the "new source found" log entry carrying the note's fields.
   */
  function SummarizeOne(b: Backends, s: Settings, topic: string, result: ResearchResult, t: Trace)
    : (r: Flow<SourceNote>)
    ensures Quiet(t, r.trace)
    ensures Keyed(s, t.calls) ==> Keyed(s, r.trace.calls)
    ensures var t1 := r.trace;
      r.Go? ==>
        && r.value.title == result.title && r.value.url == result.url
        && SummaryCall(s, topic, result).Success?
        && b.model(t.Now() + 1, SummaryCall(s, topic, result).value) == Answered(r.value.summary)
        && t1.calls == t.calls + [SummaryCall(s, topic, result).value]
        && t1.notes == t.notes + [r.value]
        && t1.searches == t.searches && t1.resultSets == t.resultSets
        && |t1.events| > 0
        && t1.events[|t1.events| - 1] == Logged(LogEntry(Researcher, NewSource(result.title),
             SourceDocument(SourceData(result.title, result.url, result.snippet, r.value.summary, topic))))
  {
    match CheckAborted(b, t)
    case Halt(e, t1) => Halt(e, t1)
    case Go(_, t1) =>
      match RunAgent(b, s, Researcher, SummaryRequest(topic, s.researchTopic, result.snippet), t1)
      case Halt(e, t2) => Halt(e, t2)
      case Go(summary, t2) =>
        var data := SourceData(result.title, result.url, result.snippet, summary, topic);
        var t3 := Log(t2, Researcher, NewSource(result.title), SourceDocument(data));
        Go(SourceNote(result.title, result.url, summary), t3)
  }

  /** The model backend answered `call` with `text` at some moment. */
  ghost predicate CallAnswered(b: Backends, call: Call, text: string) {
    exists n: nat :: b.model(n, call) == Answered(text)
  }

  /** Each note's summary is the model's answer to the call at the same position. */
  ghost predicate SummariesAnswer(b: Backends, calls: seq<Call>, notes: seq<SourceNote>) {
    |calls| == |notes| && forall k | 0 <= k < |calls| :: CallAnswered(b, calls[k], notes[k].summary)
  }

  /** Answered summaries of two lists of calls, one after the other. */
  lemma SummariesAnswerAppend(b: Backends, c1: seq<Call>, n1: seq<SourceNote>, c2: seq<Call>, n2: seq<SourceNote>)
    requires SummariesAnswer(b, c1, n1) && SummariesAnswer(b, c2, n2)
    ensures SummariesAnswer(b, c1 + c2, n1 + n2)
  {
    forall k | 0 <= k < |c1| + |c2|
      ensures CallAnswered(b, (c1 + c2)[k], (n1 + n2)[k].summary)
    {
      if k < |c1| {
        assert (c1 + c2)[k] == c1[k] && (n1 + n2)[k] == n1[k];
      } else {
        assert (c1 + c2)[k] == c2[k - |c1|] && (n1 + n2)[k] == n2[k - |c1|];
      }
    }
  }

  /**
   * What the summaries of `results` did when they all went through, starting from `t`:
   * one note per result in result order, one routed call per note, nothing else recorded.
   */
  ghost predicate Summarized(b: Backends, s: Settings, topic: string, results: seq<ResearchResult>, t: Trace,
                             r: Flow<seq<SourceNote>>) {
    && Quiet(t, r.trace)
    && (Keyed(s, t.calls) ==> Keyed(s, r.trace.calls))
    && (r.Go? ==>
      && Describes(r.value, results)
      && r.trace.notes == t.notes + r.value
      && r.trace.searches == t.searches && r.trace.resultSets == t.resultSets
      && SummaryCalls(s, topic, results).Success?
      && r.trace.calls == t.calls + SummaryCalls(s, topic, results).value
      && SummariesAnswer(b, SummaryCalls(s, topic, results).value, r.value))
  }

  /** The `for` loop over the search results, in result order. */
  function Summarize(b: Backends, s: Settings, topic: string, results: seq<ResearchResult>, t: Trace)
    : (r: Flow<seq<SourceNote>>)
    ensures Summarized(b, s, topic, results, t, r)
    decreases |results|
  {
    if results == [] then Go([], t)
    else
      var init, last := results[..|results| - 1], results[|results| - 1];
      assert results == init + [last];
      SummarizeNext(b, s, topic, init, last, t, Summarize(b, s, topic, init, t))
  }

  /** One more turn of the loop, after the turns for `init`. */
  function SummarizeNext(b: Backends, s: Settings, topic: string, init: seq<ResearchResult>, last: ResearchResult,
                         t: Trace, sofar: Flow<seq<SourceNote>>): (r: Flow<seq<SourceNote>>)
    requires Summarized(b, s, topic, init, t, sofar)
    ensures Summarized(b, s, topic, init + [last], t, r)
  {
    assert (init + [last])[..|init|] == init;
    match sofar
    case Halt(e, t1) => Halt(e, t1)
    case Go(notes, t1) =>
      match SummarizeOne(b, s, topic, last, t1)
      case Halt(e, t2) => Halt(e, t2)
      case Go(note, t2) =>
        DescribesAppend(notes, init, [note], [last]);
        assert CallAnswered(b, SummaryCall(s, topic, last).value, note.summary);
        SummariesAnswerAppend(b, SummaryCalls(s, topic, init).value, notes, [SummaryCall(s, topic, last).value], [note]);
        Go(notes + [note], t2)
  }

  /** What one research task found and wrote. */
  datatype TopicOutcome = TopicOutcome(results: seq<ResearchResult>, notes: seq<SourceNote>)

  /**
   * The part of a research task after its search answered: the "Found N sources" entry
   * carrying the results, an abort check, the summaries, the closing entry.
   */
  function ReadResults(b: Backends, s: Settings, topic: string, results: seq<ResearchResult>, t: Trace)
    : (r: Flow<TopicOutcome>)
    ensures Quiet(t, r.trace)
    ensures Keyed(s, t.calls) ==> Keyed(s, r.trace.calls)
    ensures var t1 := r.trace;
      r.Go? ==>
        && r.value.results == results
        && Describes(r.value.notes, results)
        && t1.searches == t.searches
        && t1.resultSets == t.resultSets + [results]
        && t1.notes == t.notes + r.value.notes
        && SummaryCalls(s, topic, results).Success?
        && t1.calls == t.calls + SummaryCalls(s, topic, results).value
        && SummariesAnswer(b, SummaryCalls(s, topic, results).value, r.value.notes)
  {
    var t1 := TopicLog(t, topic, FoundSources(|results|), Results(results));
    match CheckAborted(b, t1)
    case Halt(e, t2) => Halt(e, t2)
    case Go(_, t2) =>
      var t3 := if |results| > 0 then TopicLog(t2, topic, Summarizing, NoData) else t2;
      match Summarize(b, s, topic, results, t3)
      case Halt(e, t4) => Halt(e, t4)
      case Go(notes, t4) =>
        Go(TopicOutcome(results, notes), TopicLog(t4, topic, TopicComplete, NoData))
  }

  /**
   * One research task: abort check, then what `Search` does.
   */
  function ResearchTopic(b: Backends, s: Settings, topic: string, t: Trace): (r: Flow<TopicOutcome>)
    ensures Quiet(t, r.trace)
    ensures Keyed(s, t.calls) ==> Keyed(s, r.trace.calls)
    ensures var t1 := r.trace;
      r.Go? ==>
        && b.search(t.Now() + 3, RouteSearch(s, topic)).Found?
        && r.value.results == b.search(t.Now() + 3, RouteSearch(s, topic)).results
        && Describes(r.value.notes, r.value.results)
        && t1.searches == t.searches + [RouteSearch(s, topic)]
        && t1.resultSets == t.resultSets + [r.value.results]
        && t1.notes == t.notes + r.value.notes
        && SummaryCalls(s, topic, r.value.results).Success?
        && t1.calls == t.calls + SummaryCalls(s, topic, r.value.results).value
        && SummariesAnswer(b, SummaryCalls(s, topic, r.value.results).value, r.value.notes)
  {
    match CheckAborted(b, t)
    case Halt(e, t1) => Halt(e, t1)
    case Go(_, t1) => Search(b, s, topic, t1)
  }

  /**
   * The body of a research task after its abort check: the opening entries, the one
   * search, and what `ReadResults` does with its answer.
   */
  function Search(b: Backends, s: Settings, topic: string, t: Trace): (r: Flow<TopicOutcome>)
    ensures Quiet(t, r.trace)
    ensures Keyed(s, t.calls) ==> Keyed(s, r.trace.calls)
    ensures var t1 := r.trace;
      r.Go? ==>
        && b.search(t.Now() + 2, RouteSearch(s, topic)).Found?
        && r.value.results == b.search(t.Now() + 2, RouteSearch(s, topic)).results
        && Describes(r.value.notes, r.value.results)
        && t1.searches == t.searches + [RouteSearch(s, topic)]
        && t1.resultSets == t.resultSets + [r.value.results]
        && t1.notes == t.notes + r.value.notes
        && SummaryCalls(s, topic, r.value.results).Success?
        && t1.calls == t.calls + SummaryCalls(s, topic, r.value.results).value
        && SummariesAnswer(b, SummaryCalls(s, topic, r.value.results).value, r.value.notes)
  {
    var call := RouteSearch(s, topic);
    var t2 := AnnounceSearch(topic, call, t);
    var t3 := Emit(t2, Searched(call));
    match b.search(t.Now() + 2, call)
    case SearchRaised(e) => Halt(e, t3)
    case Found(results) => ReadResults(b, s, topic, results, t3)
  }

  /** The two entries a research task logs before it searches. */
  function AnnounceSearch(topic: string, call: SearchCall, t: Trace): (t': Trace)
    ensures t' == t.(events := t'.events) && t'.Now() == t.Now() + 2
  {
    var t1 := TopicLog(t, topic, StartingResearch, NoData);
    TopicLog(t1, topic, if call.TavilyApi? then ExecutingTavily else ExecutingSimulated, NoData)
  }

  /** The search backend answered `call` with `results` at some moment. */
  ghost predicate SearchAnswered(b: Backends, call: SearchCall, results: seq<ResearchResult>) {
    exists n: nat :: b.search(n, call) == Found(results)
  }

  /** Each search of `calls` was answered with the result set at the same position. */
  ghost predicate AnsweredAll(b: Backends, calls: seq<SearchCall>, rss: seq<seq<ResearchResult>>) {
    |calls| == |rss| && forall k | 0 <= k < |calls| :: SearchAnswered(b, calls[k], rss[k])
  }

  /** One more answered search. */
  lemma AnsweredAllStep(b: Backends, calls: seq<SearchCall>, rss: seq<seq<ResearchResult>>,
                        call: SearchCall, rs: seq<ResearchResult>)
    requires AnsweredAll(b, calls, rss) && SearchAnswered(b, call, rs)
    ensures AnsweredAll(b, calls + [call], rss + [rs])
  {
    forall k | 0 <= k < |calls| + 1
      ensures SearchAnswered(b, (calls + [call])[k], (rss + [rs])[k])
    {
      if k < |calls| {
        assert (calls + [call])[k] == calls[k] && (rss + [rs])[k] == rss[k];
      }
    }
  }

  /**
   * The summary calls of the research tasks, topic after topic: for each topic, one
   * routed call per result of its result set. `None` when the lists do not pair up or a
   * call cannot be routed.
   */
  function TaskCalls(s: Settings, topics: seq<string>, rss: seq<seq<ResearchResult>>): Option<seq<Call>>
    decreases |topics|
  {
    if |topics| != |rss| then None
    else if topics == [] then Some([])
    else
      var n := |topics| - 1;
      match TaskCalls(s, topics[..n], rss[..n])
      case None => None
      case Some(cs) =>
        match SummaryCalls(s, topics[n], rss[n])
        case Failure(_) => None
        case Success(c) => Some(cs + c)
  }

  /** One more task's calls follow the calls of the tasks before it. */
  lemma TaskCallsStep(s: Settings, init: seq<string>, last: string, rss: seq<seq<ResearchResult>>,
                      rs: seq<ResearchResult>, cs: seq<Call>, c: seq<Call>)
    requires TaskCalls(s, init, rss) == Some(cs) && SummaryCalls(s, last, rs) == Success(c)
    ensures TaskCalls(s, init + [last], rss + [rs]) == Some(cs + c)
  {
    assert |init| == |rss|;
    assert (init + [last])[..|init|] == init;
    assert (rss + [rs])[..|rss|] == rss;
  }

  /**
   * What the research tasks for `topics` added to `t` when they all went through: the
   * routed search of each topic, in topic order; for each topic a result set the search
   * backend answered that search with; the notes in topic order; and for each topic one
   * summary call per result of its set, topic after topic. Notes still match results one
   * to one.
   */
  ghost predicate Collected(b: Backends, s: Settings, topics: seq<string>, t: Trace, notes: seq<SourceNote>, t1: Trace) {
    && t1.searches == t.searches + TopicSearches(s, topics)
    && |t1.resultSets| == |t.resultSets| + |topics| && t1.resultSets[..|t.resultSets|] == t.resultSets
    && AnsweredAll(b, TopicSearches(s, topics), t1.resultSets[|t.resultSets|..])
    && t1.notes == t.notes + notes
    && |t1.calls| == |t.calls| + |notes| && t1.calls[..|t.calls|] == t.calls
    && TaskCalls(s, topics, t1.resultSets[|t.resultSets|..]) == Some(t1.calls[|t.calls|..])
    && SummariesAnswer(b, t1.calls[|t.calls|..], notes)
    && (Describes(t.notes, Flatten(t.resultSets)) ==> Describes(t1.notes, Flatten(t1.resultSets)))
  }

  /** The research tasks for `topics`, whether or not they went through. */
  ghost predicate Researched(b: Backends, s: Settings, topics: seq<string>, t: Trace, r: Flow<seq<SourceNote>>) {
    && Quiet(t, r.trace)
    && (Keyed(s, t.calls) ==> Keyed(s, r.trace.calls))
    && (r.Go? ==> Collected(b, s, topics, t, r.value, r.trace))
  }

  /**
   * `Promise.all(researchTasks)` followed by `.flat()`: the tasks in topic order, their
   * notes concatenated in the same order.
   */
  function ResearchAll(b: Backends, s: Settings, topics: seq<string>, t: Trace): (r: Flow<seq<SourceNote>>)
    ensures Researched(b, s, topics, t, r)
    decreases |topics|
  {
    if topics == [] then
      assert t.resultSets[|t.resultSets|..] == [] && t.calls[|t.calls|..] == [];
      assert TopicSearches(s, topics) == [];
      Go([], t)
    else
      var init, last := topics[..|topics| - 1], topics[|topics| - 1];
      assert topics == init + [last];
      ResearchNext(b, s, init, last, t, ResearchAll(b, s, init, t))
  }

  /** The task for one more topic, after the tasks for `init`. */
  function ResearchNext(b: Backends, s: Settings, init: seq<string>, last: string, t: Trace,
                        sofar: Flow<seq<SourceNote>>): (r: Flow<seq<SourceNote>>)
    requires Researched(b, s, init, t, sofar)
    ensures Researched(b, s, init + [last], t, r)
  {
    match sofar
    case Halt(e, t1) => Halt(e, t1)
    case Go(notes, t1) =>
      match ResearchTopic(b, s, last, t1)
      case Halt(e, t2) => Halt(e, t2)
      case Go(o, t2) =>
        assert b.search(t1.Now() + 3, RouteSearch(s, last)) == Found(o.results);
        ResearchStep(b, s, init, last, t, notes, t1, o, t2);
        Go(notes + o.notes, t2)
  }

  /** What one more finished task adds to what the tasks for `init` did. */
  lemma ResearchStep(b: Backends, s: Settings, init: seq<string>, last: string, t: Trace, notes: seq<SourceNote>,
                     t1: Trace, o: TopicOutcome, t2: Trace)
    requires Collected(b, s, init, t, notes, t1)
    requires Describes(o.notes, o.results)
    requires SearchAnswered(b, RouteSearch(s, last), o.results)
    requires t2.searches == t1.searches + [RouteSearch(s, last)]
    requires t2.resultSets == t1.resultSets + [o.results]
    requires t2.notes == t1.notes + o.notes
    requires SummaryCalls(s, last, o.results).Success?
    requires t2.calls == t1.calls + SummaryCalls(s, last, o.results).value
    requires SummariesAnswer(b, SummaryCalls(s, last, o.results).value, o.notes)
    ensures Collected(b, s, init + [last], t, notes + o.notes, t2)
  {
    assert (init + [last])[..|init|] == init;
    FlattenStep(t1.resultSets, o.results);
    DescribesAppend(t1.notes, Flatten(t1.resultSets), o.notes, o.results);
    CallsCollected(s, init, last, |t.resultSets|, |t.calls|, t1.resultSets, t1.calls, o.results,
                   SummaryCalls(s, last, o.results).value, t2.resultSets, t2.calls);
    AnsweredAllStep(b, TopicSearches(s, init), t1.resultSets[|t.resultSets|..], RouteSearch(s, last), o.results);
    SummariesAnswerAppend(b, t1.calls[|t.calls|..], notes, SummaryCalls(s, last, o.results).value, o.notes);
  }

  /** The calls of one more task extend the calls of the tasks before it. */
  lemma CallsCollected(s: Settings, init: seq<string>, last: string, i: nat, j: nat,
                       rss1: seq<seq<ResearchResult>>, calls1: seq<Call>, rs: seq<ResearchResult>, c: seq<Call>,
                       rss2: seq<seq<ResearchResult>>, calls2: seq<Call>)
    requires i <= |rss1| && j <= |calls1|
    requires TaskCalls(s, init, rss1[i..]) == Some(calls1[j..])
    requires SummaryCalls(s, last, rs) == Success(c)
    requires rss2 == rss1 + [rs] && calls2 == calls1 + c
    ensures rss2[..i] == rss1[..i] && calls2[..j] == calls1[..j] && calls2[j..] == calls1[j..] + c
    ensures TaskCalls(s, init + [last], rss2[i..]) == Some(calls2[j..])
  {
    AppendSlices(rss1, [rs], i);
    AppendSlices(calls1, c, j);
    TaskCallsStep(s, init, last, rss1[i..], rs, calls1[j..], c);
  }

  /** Cutting a concatenation inside its first part. */
  lemma AppendSlices<T>(xs: seq<T>, ys: seq<T>, i: nat)
    requires i <= |xs|
    ensures (xs + ys)[..i] == xs[..i] && (xs + ys)[i..] == xs[i..] + ys
  {
  }

  /** Tasks that start from traces with the same records collect the same way. */
  lemma CollectedFromSameRecords(b: Backends, s: Settings, topics: seq<string>, t: Trace, t1: Trace,
                                 notes: seq<SourceNote>, t2: Trace)
    requires t1.searches == t.searches && t1.resultSets == t.resultSets && t1.notes == t.notes && t1.calls == t.calls
    requires Collected(b, s, topics, t1, notes, t2)
    ensures Collected(b, s, topics, t, notes, t2)
  {
  }

  // ---------------------------------------------------------------------------
  // Stages

  /** The log entries the plan-parsing block adds: two on success, one on the fallback. */
  function PlanLogs(plan: Plan, reply: string, t: Trace): (t': Trace)
    ensures t' == t.(events := t'.events)
  {
    match plan
    case FromJson(topics) =>
      var t1 := Log(t, Supervisor, AssignmentsGenerated(|topics|), NoData);
      Log(t1, Supervisor, FullPlan(reply), NoData)
    case FromPhases(_, reason) =>
      Log(t, Supervisor, PhaseFallback(reason), NoData)
  }

  /** The body of stage 1 after its abort check: ask for a plan and read the topics from it. */
  function AskForPlan(b: Backends, s: Settings, t: Trace): (r: Flow<seq<string>>)
    ensures Quiet(t, r.trace)
    ensures Keyed(s, t.calls) ==> Keyed(s, r.trace.calls)
    ensures r.Go? ==>
      && PlanCall(s).Success?
      && r.trace == t.(events := r.trace.events, calls := t.calls + [PlanCall(s).value])
      && b.model(t.Now() + 1, PlanCall(s).value).Answered?
      && r.value == ParsePlan(b.model(t.Now() + 1, PlanCall(s).value).text, b.parse).topics
  {
    var t1 := Log(t, Supervisor, Decomposing, NoData);
    match RunAgent(b, s, Supervisor, PlanRequest(s.researchTopic), t1)
    case Halt(e, t2) => Halt(e, t2)
    case Go(reply, t2) => ReadPlan(b, reply, t2)
  }

  /** The plan in the supervisor's reply: its log lines, then the abort check. */
  function ReadPlan(b: Backends, reply: string, t: Trace): (r: Flow<seq<string>>)
    ensures r.trace == t.(events := r.trace.events)
    ensures r.Go? ==> r.value == ParsePlan(reply, b.parse).topics
  {
    var plan := ParsePlan(reply, b.parse);
    match CheckAborted(b, PlanLogs(plan, reply, t))
    case Halt(e, t1) => Halt(e, t1)
    case Go(_, t1) => Go(plan.topics, t1)
  }

  /** The opening of every stage: the agent becomes active and the signal is checked. */
  function Enter(b: Backends, agent: AgentName, t: Trace): (r: Flow<()>)
    ensures r.trace == Emit(Emit(t, Activate(agent)), Check)
    ensures r.trace.events == t.events + [Activate(agent), Check]
    ensures r.Halt? <==> b.aborted(t.Now() + 1)
    ensures r.Halt? ==> r.err == Abort
  {
    CheckAborted(b, Emit(t, Activate(agent)))
  }

  /**
   * Stage 1: the supervisor becomes active, asks for a research plan and turns the
   * reply into topics.
   */
  function SupervisorStage(b: Backends, s: Settings, t: Trace): (r: Flow<seq<string>>)
    ensures r.trace.actives == t.actives + [Supervisor] && r.trace.reports == t.reports
    ensures Keyed(s, t.calls) ==> Keyed(s, r.trace.calls)
    ensures r.Go? ==>
      && PlanCall(s).Success?
      && r.trace.calls == t.calls + [PlanCall(s).value]
      && r.trace.searches == t.searches && r.trace.resultSets == t.resultSets && r.trace.notes == t.notes
      && b.model(t.Now() + 3, PlanCall(s).value).Answered?
      && r.value == ParsePlan(b.model(t.Now() + 3, PlanCall(s).value).text, b.parse).topics
  {
    match Enter(b, Supervisor, t)
    case Halt(e, t1) => Halt(e, t1)
    case Go(_, t1) => AskForPlan(b, s, t1)
  }

  /** The body of stage 2 after its abort check: dispatch the tasks and collect the notes. */
  function Dispatch(b: Backends, s: Settings, topics: seq<string>, t: Trace): (r: Flow<seq<SourceNote>>)
    ensures Researched(b, s, topics, t, r)
  {
    var t1 := Log(t, Researcher, Dispatching(|topics|), NoData);
    match ResearchAll(b, s, topics, t1)
    case Halt(e, t2) => Halt(e, t2)
    case Go(notes, t2) =>
      var t3 := Log(t2, Researcher, AllTasksDone(|notes|), NoData);
      match CheckAborted(b, t3)
      case Halt(e, t4) => Halt(e, t4)
      case Go(_, t4) => Go(notes, t4)
  }

  /**
   * Stage 2: the researcher becomes active, one research task runs per topic, and the
   * notes of all tasks are collected in topic order.
   */
  function ResearcherStage(b: Backends, s: Settings, topics: seq<string>, t: Trace): (r: Flow<seq<SourceNote>>)
    ensures r.trace.actives == t.actives + [Researcher] && r.trace.reports == t.reports
    ensures Keyed(s, t.calls) ==> Keyed(s, r.trace.calls)
    ensures r.Go? ==> Collected(b, s, topics, t, r.value, r.trace)
  {
    match Enter(b, Researcher, t)
    case Halt(e, t1) => Halt(e, t1)
    case Go(_, t1) =>
      var r := Dispatch(b, s, topics, t1);
      if r.Go? then
        CollectedFromSameRecords(b, s, topics, t, t1, r.value, r.trace);
        r
      else r
  }

  /** The body of stage 3 after its abort check: the report is written and handed over. */
  function Write(b: Backends, s: Settings, notes: seq<SourceNote>, t: Trace): (r: Flow<string>)
    ensures r.trace.actives == t.actives
    ensures r.Halt? ==> r.trace.reports == t.reports
    ensures Keyed(s, t.calls) ==> Keyed(s, r.trace.calls)
    ensures r.Go? ==>
      && ReportCall(s, notes).Success?
      && r.trace == t.(events := r.trace.events, calls := t.calls + [ReportCall(s, notes).value],
                       reports := t.reports + [r.value])
      && |r.trace.events| > 0 && r.trace.events[|r.trace.events| - 1] == Reported(r.value)
      && b.model(t.Now() + 1, ReportCall(s, notes).value).Answered?
      && r.value == b.model(t.Now() + 1, ReportCall(s, notes).value).text
  {
    var t1 := Log(t, Writer, Synthesizing, NoData);
    match RunAgent(b, s, Writer, ReportRequest(s.researchTopic, notes), t1)
    case Halt(e, t2) => Halt(e, t2)
    case Go(report, t2) =>
      var t3 := Log(t2, Writer, ReportGenerated, NoData);
      Go(report, Emit(t3, Reported(report)))
  }

  /**
   * Stage 3: the writer becomes active and turns the notes into the report, which is
   * handed over as the last event.
   */
  function WriterStage(b: Backends, s: Settings, notes: seq<SourceNote>, t: Trace): (r: Flow<string>)
    ensures r.trace.actives == t.actives + [Writer]
    ensures r.Halt? ==> r.trace.reports == t.reports
    ensures Keyed(s, t.calls) ==> Keyed(s, r.trace.calls)
    ensures r.Go? ==>
      && ReportCall(s, notes).Success?
      && r.trace.calls == t.calls + [ReportCall(s, notes).value]
      && r.trace.reports == t.reports + [r.value]
      && r.trace.notes == t.notes && r.trace.searches == t.searches && r.trace.resultSets == t.resultSets
      && |r.trace.events| > 0 && r.trace.events[|r.trace.events| - 1] == Reported(r.value)
      && b.model(t.Now() + 3, ReportCall(s, notes).value).Answered?
      && r.value == b.model(t.Now() + 3, ReportCall(s, notes).value).text
  {
    match Enter(b, Writer, t)
    case Halt(e, t1) => Halt(e, t1)
    case Go(_, t1) => Write(b, s, notes, t1)
  }

  /** `startResearchProcess`: the three stages in order, from an empty trace. */
  function StartResearchProcess(b: Backends, s: Settings): Flow<string> {
    match SupervisorStage(b, s, Start)
    case Halt(e, t1) => Halt(e, t1)
    case Go(topics, t1) =>
      match ResearcherStage(b, s, topics, t1)
      case Halt(e, t2) => Halt(e, t2)
      case Go(notes, t2) => WriterStage(b, s, notes, t2)
  }

  // ---------------------------------------------------------------------------
  // What a whole run does

  /** The topics the supervisor's reply yields, when the plan call answers. */
  function PlannedTopics(b: Backends, s: Settings): seq<string>
    requires PlanCall(s).Success? && b.model(3, PlanCall(s).value).Answered?
  {
    ParsePlan(b.model(3, PlanCall(s).value).text, b.parse).topics
  }

  /**
   * The first stage of a run, read off the empty trace: the supervisor is active, and
   * when the stage goes on, the plan call is the only call and the topics are the plan's.
   */
  lemma SupervisorFromStart(b: Backends, s: Settings)
    ensures var r1 := SupervisorStage(b, s, Start);
      && r1.trace.actives == [Supervisor] && r1.trace.reports == []
      && (r1.Go? ==>
        && PlanCall(s).Success? && b.model(3, PlanCall(s).value).Answered?
        && r1.value == PlannedTopics(b, s)
        && r1.trace.calls == [PlanCall(s).value]
        && r1.trace.searches == [] && r1.trace.resultSets == [] && r1.trace.notes == [])
  {
    assert Start.Now() + 3 == 3;
  }

  /** The agents become active in workflow order, the supervisor first. */
  lemma StagesRunInOrder(b: Backends, s: Settings)
    ensures var r := StartResearchProcess(b, s);
      |r.trace.actives| > 0 && r.trace.actives <= Constants.AgentNames
  {
    var r1 := SupervisorStage(b, s, Start);
    if r1.Go? {
      var r2 := ResearcherStage(b, s, r1.value, r1.trace);
      if r2.Go? {
        var r3 := WriterStage(b, s, r2.value, r2.trace);
        assert StartResearchProcess(b, s) == r3;
        ActivesInOrder(Start.actives, r1.trace.actives, r2.trace.actives, r3.trace.actives);
      } else {
        assert StartResearchProcess(b, s).trace == r2.trace;
        ActivesInOrder(Start.actives, r1.trace.actives, r2.trace.actives, r2.trace.actives + [Writer]);
      }
    } else {
      assert StartResearchProcess(b, s).trace == r1.trace;
      ActivesInOrder(Start.actives, r1.trace.actives, r1.trace.actives + [Researcher], r1.trace.actives + [Researcher, Writer]);
    }
  }

  /** The records of the three stage openings, one after the other. */
  lemma ActivesInOrder(a0: seq<AgentName>, a1: seq<AgentName>, a2: seq<AgentName>, a3: seq<AgentName>)
    requires a0 == [] && a1 == a0 + [Supervisor] && a2 == a1 + [Researcher] && a3 == a2 + [Writer]
    ensures a3 == Constants.AgentNames
    ensures a1 <= a3 && a2 <= a3 && |a1| > 0
  {
  }

  /** A run that completes has made all three agents active, once each, in order. */
  lemma CompletedRunActivatesEveryAgent(b: Backends, s: Settings)
    ensures var r := StartResearchProcess(b, s);
      r.Go? ==> r.trace.actives == Constants.AgentNames
  {
    var r1 := SupervisorStage(b, s, Start);
    if r1.Go? {
      var r2 := ResearcherStage(b, s, r1.value, r1.trace);
      if r2.Go? {
        var r3 := WriterStage(b, s, r2.value, r2.trace);
        assert StartResearchProcess(b, s) == r3;
        ActivesInOrder(Start.actives, r1.trace.actives, r2.trace.actives, r3.trace.actives);
      }
    }
  }

  /** A completed run hands over exactly one report, its result, as its last event. */
  lemma CompletedRunReportsOnceAndLast(b: Backends, s: Settings)
    ensures var r := StartResearchProcess(b, s);
      r.Go? ==> r.trace.reports == [r.value] && r.trace.events[|r.trace.events| - 1] == Reported(r.value)
  {
    SupervisorFromStart(b, s);
    var r1 := SupervisorStage(b, s, Start);
    if r1.Go? {
      var r2 := ResearcherStage(b, s, r1.value, r1.trace);
      if r2.Go? {
        var r3 := WriterStage(b, s, r2.value, r2.trace);
        assert StartResearchProcess(b, s) == r3;
        if r3.Go? {
          OneReportAfterNone(r2.trace.reports, r3.trace.reports, r3.value);
        }
      }
    }
  }

  lemma OneReportAfterNone(before: seq<string>, after: seq<string>, report: string)
    requires before == [] && after == before + [report]
    ensures after == [report]
  {
  }

  /** A run that halts hands over no report. */
  lemma HaltedRunReportsNothing(b: Backends, s: Settings)
    ensures var r := StartResearchProcess(b, s);
      r.Halt? ==> r.trace.reports == []
  {
    SupervisorFromStart(b, s);
    var r1 := SupervisorStage(b, s, Start);
    if r1.Halt? {
      assert StartResearchProcess(b, s) == Halt(r1.err, r1.trace);
    } else {
      var r2 := ResearcherStage(b, s, r1.value, r1.trace);
      if r2.Halt? {
        assert StartResearchProcess(b, s) == Halt(r2.err, r2.trace);
      } else {
        assert StartResearchProcess(b, s) == WriterStage(b, s, r2.value, r2.trace);
      }
    }
  }

  /** An abort signal set before the first check halts the run before any call leaves. */
  lemma AbortAtOnce(b: Backends, s: Settings)
    requires b.aborted(1)
    ensures StartResearchProcess(b, s) == Halt(Abort, Trace([Activate(Supervisor), Check], [Supervisor], [], [], [], [], []))
  {
  }

  /** A completed run searched once per planned topic, in topic order. */
  lemma SearchesFollowThePlan(b: Backends, s: Settings)
    ensures var r := StartResearchProcess(b, s);
      r.Go? ==>
        && PlanCall(s).Success? && b.model(3, PlanCall(s).value).Answered?
        && r.trace.searches == TopicSearches(s, PlannedTopics(b, s))
        && |r.trace.resultSets| == |r.trace.searches|
  {
    SupervisorFromStart(b, s);
    var r1 := SupervisorStage(b, s, Start);
    if r1.Go? {
      var r2 := ResearcherStage(b, s, r1.value, r1.trace);
      if r2.Go? {
        var r3 := WriterStage(b, s, r2.value, r2.trace);
        assert StartResearchProcess(b, s) == r3;
        if r3.Go? {
          SearchesOfStages(s, r1.value, r1.trace, r2.trace, r3.trace);
        }
      }
    }
  }

  /** The searches and result sets of three completed stages, from the empty trace. */
  lemma SearchesOfStages(s: Settings, topics: seq<string>, t1: Trace, t2: Trace, t3: Trace)
    requires t1.searches == [] && t1.resultSets == []
    requires t2.searches == t1.searches + TopicSearches(s, topics) && |t2.resultSets| == |t1.resultSets| + |topics|
    requires t3.searches == t2.searches && t3.resultSets == t2.resultSets
    ensures t3.searches == TopicSearches(s, topics) && |t3.resultSets| == |t3.searches|
  {
    assert t2.searches == [] + TopicSearches(s, topics);
  }

  /** In a completed run the k-th result set is what the search backend answered the k-th search with. */
  lemma ResultSetsAnswerTheSearches(b: Backends, s: Settings)
    ensures var r := StartResearchProcess(b, s);
      r.Go? ==> AnsweredAll(b, r.trace.searches, r.trace.resultSets)
  {
    SupervisorFromStart(b, s);
    var r1 := SupervisorStage(b, s, Start);
    if r1.Go? {
      var r2 := ResearcherStage(b, s, r1.value, r1.trace);
      if r2.Go? {
        var r3 := WriterStage(b, s, r2.value, r2.trace);
        assert StartResearchProcess(b, s) == r3;
        if r3.Go? {
          AnsweredOfStages(b, s, r1.value, r1.trace, r2.trace, r3.trace);
        }
      }
    }
  }

  /** The searches of three completed stages, from the empty trace, were answered in order. */
  lemma AnsweredOfStages(b: Backends, s: Settings, topics: seq<string>, t1: Trace, t2: Trace, t3: Trace)
    requires t1.searches == [] && t1.resultSets == []
    requires t2.searches == t1.searches + TopicSearches(s, topics)
    requires |t2.resultSets| >= |t1.resultSets| && AnsweredAll(b, TopicSearches(s, topics), t2.resultSets[|t1.resultSets|..])
    requires t3.searches == t2.searches && t3.resultSets == t2.resultSets
    ensures AnsweredAll(b, t3.searches, t3.resultSets)
  {
    assert t2.searches == TopicSearches(s, topics);
    assert t2.resultSets[|t1.resultSets|..] == t2.resultSets;
  }

  /**
   * A completed run wrote one note per search result, in result order, each naming its
   * result's title and URL; its first call asked for the plan, its last call asked for
   * the report on those notes, and the calls between are the summary calls of the
   * planned topics' result sets, topic after topic and result after result.
   */
  lemma OneNotePerResultOneCallPerNote(b: Backends, s: Settings)
    ensures var r := StartResearchProcess(b, s);
      r.Go? ==>
        && Describes(r.trace.notes, Flatten(r.trace.resultSets))
        && |r.trace.calls| == 2 + |r.trace.notes|
        && PlanCall(s).Success? && b.model(3, PlanCall(s).value).Answered?
        && ReportCall(s, r.trace.notes).Success?
        && r.trace.calls[0] == PlanCall(s).value
        && r.trace.calls[|r.trace.calls| - 1] == ReportCall(s, r.trace.notes).value
        && TaskCalls(s, PlannedTopics(b, s), r.trace.resultSets) == Some(r.trace.calls[1..|r.trace.calls| - 1])
  {
    SupervisorFromStart(b, s);
    var r1 := SupervisorStage(b, s, Start);
    if r1.Go? {
      assert Describes(r1.trace.notes, Flatten(r1.trace.resultSets));
      var r2 := ResearcherStage(b, s, r1.value, r1.trace);
      if r2.Go? {
        var r3 := WriterStage(b, s, r2.value, r2.trace);
        assert StartResearchProcess(b, s) == r3;
        if r3.Go? {
          CallsOfStages(s, r1.value, r2.value, r1.trace, r2.trace, r3.trace);
        }
      }
    }
  }

  /** The calls of three completed stages, from the empty trace. */
  lemma CallsOfStages(s: Settings, topics: seq<string>, notes: seq<SourceNote>, t1: Trace, t2: Trace, t3: Trace)
    requires PlanCall(s).Success? && t1.calls == [PlanCall(s).value] && t1.resultSets == [] && t1.notes == []
    requires |t2.calls| == |t1.calls| + |notes| && t2.calls[..|t1.calls|] == t1.calls && t2.notes == t1.notes + notes
    requires |t2.resultSets| >= |t1.resultSets| && t2.resultSets[..|t1.resultSets|] == t1.resultSets
    requires TaskCalls(s, topics, t2.resultSets[|t1.resultSets|..]) == Some(t2.calls[|t1.calls|..])
    requires ReportCall(s, notes).Success? && t3.calls == t2.calls + [ReportCall(s, notes).value]
    requires t3.resultSets == t2.resultSets && t3.notes == t2.notes
    ensures ReportCall(s, t3.notes).Success?
    ensures t3.calls[0] == PlanCall(s).value
    ensures t3.calls[|t3.calls| - 1] == ReportCall(s, t3.notes).value
    ensures TaskCalls(s, topics, t3.resultSets) == Some(t3.calls[1..|t3.calls| - 1])
  {
    assert t3.notes == notes;
    assert t2.calls[0] == t2.calls[..1][0];
    assert t3.resultSets == t2.resultSets[0..];
    assert t3.calls[1..|t3.calls| - 1] == t2.calls[1..];
  }

  /**
   * In a completed run every note's summary is the researcher model's answer to the
   * summary call at the same position among the calls between the plan call and the
   * report call; those notes are what the report call hands the writer (`ReportCallLast`).
   */
  lemma NotesCarryTheAnswers(b: Backends, s: Settings)
    ensures var r := StartResearchProcess(b, s);
      r.Go? ==>
        && |r.trace.calls| >= 2
        && SummariesAnswer(b, r.trace.calls[1..|r.trace.calls| - 1], r.trace.notes)
  {
    SupervisorFromStart(b, s);
    var r1 := SupervisorStage(b, s, Start);
    if r1.Go? {
      var r2 := ResearcherStage(b, s, r1.value, r1.trace);
      if r2.Go? {
        var r3 := WriterStage(b, s, r2.value, r2.trace);
        assert StartResearchProcess(b, s) == r3;
        if r3.Go? {
          SummariesOfStages(b, s, r2.value, r1.trace, r2.trace, r3.trace);
        }
      }
    }
  }

  /** The summaries of three completed stages, from the empty trace. */
  lemma SummariesOfStages(b: Backends, s: Settings, notes: seq<SourceNote>, t1: Trace, t2: Trace, t3: Trace)
    requires |t1.calls| == 1 && t1.notes == []
    requires |t2.calls| >= |t1.calls| && t2.calls[..|t1.calls|] == t1.calls && t2.notes == t1.notes + notes
    requires SummariesAnswer(b, t2.calls[|t1.calls|..], notes)
    requires ReportCall(s, notes).Success? && t3.calls == t2.calls + [ReportCall(s, notes).value]
    requires t3.notes == t2.notes
    ensures |t3.calls| >= 2 && SummariesAnswer(b, t3.calls[1..|t3.calls| - 1], t3.notes)
  {
    assert t3.notes == notes;
    assert t3.calls[1..|t3.calls| - 1] == t2.calls[1..];
  }

  /** In a completed run the first call asks for the plan. */
  lemma PlanCallFirst(b: Backends, s: Settings)
    ensures var r := StartResearchProcess(b, s);
      r.Go? ==> |r.trace.calls| >= 2 && r.trace.calls[0].prompt == PlanRequest(s.researchTopic)
  {
    SupervisorFromStart(b, s);
    var r1 := SupervisorStage(b, s, Start);
    if r1.Go? {
      var r2 := ResearcherStage(b, s, r1.value, r1.trace);
      assert r1.trace.calls == [PlanCall(s).value];
      if r2.Go? {
        assert r2.trace.calls[0] == r2.trace.calls[..1][0];
        var r3 := WriterStage(b, s, r2.value, r2.trace);
        assert StartResearchProcess(b, s) == r3;
        if r3.Go? {
          assert r3.trace.calls[0] == r2.trace.calls[0];
        }
      }
    }
  }

  /** In a completed run the last call hands the writer every note the run wrote. */
  lemma ReportCallLast(b: Backends, s: Settings)
    ensures var r := StartResearchProcess(b, s);
      r.Go? ==>
        && |r.trace.calls| > 0
        && r.trace.calls[|r.trace.calls| - 1].prompt == ReportRequest(s.researchTopic, r.trace.notes)
  {
    SupervisorFromStart(b, s);
    var r1 := SupervisorStage(b, s, Start);
    if r1.Go? {
      var r2 := ResearcherStage(b, s, r1.value, r1.trace);
      if r2.Go? {
        var r3 := WriterStage(b, s, r2.value, r2.trace);
        assert StartResearchProcess(b, s) == r3;
        if r3.Go? {
          LastCallHandsOver(s, r2.value, r1.trace, r2.trace, r3.trace);
        }
      }
    }
  }

  /** The writer's call, appended last, carries the notes the trace holds. */
  lemma LastCallHandsOver(s: Settings, notes: seq<SourceNote>, t1: Trace, t2: Trace, t3: Trace)
    requires t1.notes == [] && t2.notes == t1.notes + notes && t3.notes == t2.notes
    requires ReportCall(s, notes).Success? && t3.calls == t2.calls + [ReportCall(s, notes).value]
    ensures |t3.calls| > 0 && t3.calls[|t3.calls| - 1].prompt == ReportRequest(s.researchTopic, t3.notes)
  {
    assert t3.calls[|t3.calls| - 1] == ReportCall(s, notes).value;
    assert t3.notes == notes;
  }

  /** No run sends a Gemini call without the configured key, and never an empty one. */
  lemma GeminiCallsKeyed(b: Backends, s: Settings)
    ensures Keyed(s, StartResearchProcess(b, s).trace.calls)
  {
    SupervisorFromStart(b, s);
    var r1 := SupervisorStage(b, s, Start);
    if r1.Go? {
      var r2 := ResearcherStage(b, s, r1.value, r1.trace);
      if r2.Go? {
        var r3 := WriterStage(b, s, r2.value, r2.trace);
        assert StartResearchProcess(b, s) == r3;
      }
    }
  }
}
