/**
 * The three prompts of the research process (services/researchService.ts), kept as the
 * values they interpolate. `Render` spells out the text sent to the model; the rest of
 * the model works on the structured value, so that every fact about a prompt is a fact
 * about what was put into it.
 */
module Prompts {
  import opened Text
  import opened Types
  import opened Citations

  datatype Prompt =
    | PlanRequest(researchTopic: string)                                  // the supervisor's
    | SummaryRequest(topic: string, researchTopic: string, snippet: string) // one per search result
    | ReportRequest(researchTopic: string, notes: seq<SourceNote>)       // the writer's

  /** The text of a prompt, as the template literals build it. */
  function Render(p: Prompt): string {
    match p
    case PlanRequest(researchTopic) =>
      "Based on the overall research domain \"" + researchTopic
        + "\", break it down into 3 to 5 distinct, self-contained **research sub-topics**. These sub-topics should represent fundamental areas of inquiry or investigation within the main domain, suitable for specialized academic researchers.\n\nYour output **MUST** be a JSON array of strings, where each string is a detailed, self-contained research assignment. Do not include any other tasks, text, or explanation.\n\nExample for \"The Future of Electric Vehicles\":\n[\n  \"Investigate the technological advancements and limitations of next-generation battery chemistries (e.g., solid-state, lithium-sulfur) and their projected impact on EV performance metrics.\",\n  \"Analyze the socio-economic and infrastructural challenges hindering the widespread adoption of EV charging networks, including policy interventions and innovative business models.\",\n  \"Evaluate the cradle-to-grave environmental footprint of electric vehicles, specifically focusing on critical mineral extraction, battery manufacturing, recycling processes, and comparison with internal combustion engine vehicles.\",\n  \"Research the ethical and regulatory considerations surrounding the integration of autonomous driving capabilities in EVs, including liability frameworks, public acceptance, and data privacy concerns.\"\n]"
    case SummaryRequest(topic, researchTopic, snippet) =>
      "For the research topic: \"" + topic
        + "\", summarize the following text concisely.\n          Start the summary by integrating 1-3 direct, impactful quotes from the source that best capture its main thrust.\n          Ensure the entire summary, including the quotes, is directly relevant to \""
        + researchTopic
        + "\" and extracts only the most critical information.\n          Aim for a summary of approximately 5-7 sentences.\n\n"
        + snippet
    case ReportRequest(researchTopic, notes) =>
      ReportHead(researchTopic, NotesBlock(notes)) + SourceListAsWritten(NoteTexts(notes))
  }

  /** The query a research task searches for. */
  function SearchQuery(topic: string): string {
    "Comprehensive analysis and sources on: " + topic
  }

  /** The writer's prompt up to its allowed-sources block. */
  function ReportHead(researchTopic: string, notesBlock: string): string {
    "You are a professional research writer. Your task is to write a comprehensive, well-structured final report in Markdown format on the topic \""
      + researchTopic
      + "\".\n\nYou must create a report using the information from the **Collected Research Notes** provided below. Structure your report logically, addressing the different sub-topics covered by the research agents.\n\n**Collected Research Notes:**\n```\n"
      + notesBlock
      + "\n```\n\n**Instructions:**\n- Write in clear, well-structured Markdown. Use headings, topics, and sub-topics to organize the content. Aim for a report length of approximately 1500-2000 words.\n- **Crucially, you must cite your sources.** When you use information from a research note, add an inline citation using the source index at the end of the paragraph\".\n- At the end of the report, you **MUST** include a \"## Sources\" section. This section must **ONLY** contain the following sources, formatted as the bulleted list provided.\n\n**Allowed Sources:**\n"
  }

  /**
   * The text of a log line. A research task's own lines start with its topic in
   * brackets, cut to 22 characters and `...` when longer than 25. The four characters in
   * front of "New source found" are the ones the source file holds: a document emoji's
   * UTF-8 bytes, each read as a character of its own.
   */
  function MessageText(m: Message): string {
    match m
    case Decomposing => "Breaking down research topic into sub-assignments..."
    case AssignmentsGenerated(count) => "Research assignments generated: " + NatToString(count) + " tasks."
    case FullPlan(reply) => "Full plan received:\n" + reply
    case PhaseFallback(reason) =>
      "Could not parse JSON from supervisor, falling back to phase-based research. Error: " + reason
    case Dispatching(count) => "Dispatching " + NatToString(count) + " research agents to work in parallel..."
    case OnTopic(topic, step) => "[" + Ellipsize(topic, 25, 22) + "] " + StepText(step)
    case NewSource(title) => "\U{00F0}\U{0178}\U{201C}\U{201E} New source found: \"" + title + "\""
    case AllTasksDone(notes) =>
      "All research agents have completed their tasks. Total notes collected: " + NatToString(notes) + "."
    case Synthesizing => "Synthesizing all research notes into the final report..."
    case ReportGenerated => "Final report has been generated."
    case StoppedByUser => "Process stopped by user."
    case Failed(message) => "Error: " + message
  }

  function StepText(step: TopicStep): string {
    match step
    case StartingResearch => "Starting research..."
    case ExecutingTavily => "Executing Tavily search..."
    case ExecutingSimulated => "Executing simulated search..."
    case FoundSources(count) => "Found " + NatToString(count) + " sources."
    case Summarizing => "Summarizing relevant information from sources..."
    case TopicComplete => "Research on this topic is complete."
  }
}
