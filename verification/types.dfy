/**
 * The application's data: the three agents, the run state shown in the UI, per-agent
 * model settings, the settings record, log entries and search results.
 */
module Types {

  /** The three agents, in workflow order. */
  datatype AgentName = Supervisor | Researcher | Writer

  /** The lifecycle state of a research run as the UI shows it; `Errored` is `'error'`. */
  datatype ResearchState = Idle | Running | Stopped | Completed | Errored

  /** The two model backends: Gemini (hosted) and Ollama (local). */
  datatype ModelProvider = Gemini | Ollama

  datatype SearchMode = Tavily | LocalSearch

  datatype AgentSettings = AgentSettings(model: string, provider: ModelProvider)

  /** `Record<AgentName, AgentSettings>`: one entry per agent, so lookup is total. */
  datatype AgentTable = AgentTable(supervisor: AgentSettings, researcher: AgentSettings, writer: AgentSettings)
  {
    function Get(agent: AgentName): AgentSettings {
      match agent
      case Supervisor => supervisor
      case Researcher => researcher
      case Writer => writer
    }

    /** `{ ...agents, [agent]: value }`. */
    function Set(agent: AgentName, value: AgentSettings): (t: AgentTable)
      ensures t.Get(agent) == value
      ensures forall other: AgentName | other != agent :: t.Get(other) == Get(other)
    {
      match agent
      case Supervisor => this.(supervisor := value)
      case Researcher => this.(researcher := value)
      case Writer => this.(writer := value)
    }
  }

  datatype Settings = Settings(
    apiKey: string,         // Gemini key
    tavilyApiKey: string,
    researchTopic: string,
    agents: AgentTable,
    searchMode: SearchMode,
    iterations: int)

  datatype ResearchResult = ResearchResult(title: string, url: string, snippet: string)

  /** The payload of a "new source found" log entry (its timestamp is left out). */
  datatype SourceData = SourceData(title: string, url: string, snippet: string, summary: string, topic: string)

  /** The optional `data` of a log entry. */
  datatype LogData = NoData | Results(results: seq<ResearchResult>) | SourceDocument(source: SourceData)

  /**
   * What a log line says, kept as the values it interpolates; `Prompts.MessageText`
   * spells out the text.
   */
  datatype Message =
    | Decomposing                           // the supervisor starts planning
    | AssignmentsGenerated(count: nat)      // the plan parsed as JSON
    | FullPlan(reply: string)
    | PhaseFallback(reason: string)         // the plan did not parse
    | Dispatching(count: nat)               // one research task per topic
    | OnTopic(topic: string, step: TopicStep) // a research task's own line
    | NewSource(title: string)              // a search result was summarized
    | AllTasksDone(notes: nat)
    | Synthesizing                          // the writer starts
    | ReportGenerated
    | StoppedByUser                         // written by the UI on an abort
    | Failed(message: string)               // written by the UI on any other error

  /** The lines a research task writes under its topic. */
  datatype TopicStep =
    | StartingResearch
    | ExecutingTavily
    | ExecutingSimulated
    | FoundSources(count: nat)
    | Summarizing
    | TopicComplete

  /** A log line; its ISO timestamp is left out. */
  datatype LogEntry = LogEntry(agent: AgentName, message: Message, data: LogData)

  /**
   * What a failed call throws. The UI tells the two apart by `err.name === 'AbortError'`;
   * every other error carries its `message`.
   */
  datatype Error = Abort | Fault(message: string)
}

/** The application's constants. */
module Constants {
  import opened Types

  const AgentNames: seq<AgentName> := [Supervisor, Researcher, Writer]

  const OllamaModels: seq<string> := ["llama3.2", "mistral", "gemma3"]

  const GeminiModels: seq<string> := ["gemini-2.5-flash"]

  const DefaultAgent: AgentSettings := AgentSettings("llama3.2", Ollama)

  const DefaultSettings: Settings := Settings(
    "",
    "",
    "The future of AI in renewable energy",
    AgentTable(DefaultAgent, DefaultAgent, DefaultAgent),
    Tavily,
    3)

  /** Every agent appears exactly once in the workflow order. */
  lemma AgentNamesListEveryAgentOnce(a: AgentName)
    ensures a in AgentNames
    ensures forall i, j | 0 <= i < j < |AgentNames| :: AgentNames[i] != AgentNames[j]
  {
  }
}
