/**
 * Which backend a call goes to (services/researchService.ts): `runAgent` chooses Gemini,
 * Ollama or a missing-key error per agent; the researcher's search goes to the Tavily
 * API or to one of the two simulated result sets (services/mockApiService.ts).
 */
module Routing {
  import opened Wrappers
  import opened Types
  import Constants
  import opened Prompts

  /** A model call as it leaves the application: the backend, its arguments. */
  datatype Call =
    | GeminiCall(apiKey: string, model: string, prompt: Prompt)
    | OllamaCall(model: string, prompt: Prompt)

  /**
   * A search call for a research task's topic: the real Tavily API, which is sent
   * `Prompts.SearchQuery(topic)`, or one of the two simulated searches.
   */
  datatype SearchCall =
    | TavilyApi(apiKey: string, topic: string)
    | SimulatedTavily(topic: string)
    | SimulatedLocal(topic: string)

  function MissingKeyMessage(model: string): string {
    "Model '" + model + "' is a Gemini model, but no Gemini API key was provided. "
      + "Please provide a key or select an Ollama model."
  }

  /**
   * `runAgent(agent, prompt)`: Gemini when the agent's provider is Gemini and a key is
   * set; otherwise an error when the model is a Gemini model and there is no key;
   * otherwise Ollama, whatever the provider says.
   */
  function RouteAgent(settings: Settings, agent: AgentName, prompt: Prompt): (r: Result<Call, Error>)
    ensures var a := settings.agents.Get(agent);
      r.Success? && r.value.GeminiCall? <==> a.provider == Gemini && settings.apiKey != ""
    ensures var a := settings.agents.Get(agent);
      r.Failure? <==> a.model in Constants.GeminiModels && settings.apiKey == ""
    ensures r.Failure? ==> r.error == Fault(MissingKeyMessage(settings.agents.Get(agent).model))
    ensures r.Success? ==> r.value.model == settings.agents.Get(agent).model && r.value.prompt == prompt
    ensures r.Success? && r.value.GeminiCall? ==> r.value.apiKey == settings.apiKey
  {
    var a := settings.agents.Get(agent);
    if a.provider == Gemini && settings.apiKey != "" then
      Success(GeminiCall(settings.apiKey, a.model, prompt))
    else if a.model in Constants.GeminiModels && settings.apiKey == "" then
      Failure(Fault(MissingKeyMessage(a.model)))
    else
      Success(OllamaCall(a.model, prompt))
  }

  /** A Gemini call never leaves without a key. */
  lemma GeminiCallsCarryTheKey(settings: Settings, agent: AgentName, prompt: Prompt)
    ensures var r := RouteAgent(settings, agent, prompt);
      r.Success? && r.value.GeminiCall? ==> r.value.apiKey != ""
  {
  }

  /**
   * The Ollama provider sends even a Gemini model to Ollama when a key is set; without
   * a key the same agent fails instead.
   */
  lemma OllamaProviderWithGeminiModel(settings: Settings, agent: AgentName, prompt: Prompt)
    requires settings.agents.Get(agent) == AgentSettings("gemini-2.5-flash", Ollama)
    ensures settings.apiKey != "" ==>
      RouteAgent(settings, agent, prompt) == Success(OllamaCall("gemini-2.5-flash", prompt))
    ensures settings.apiKey == "" ==> RouteAgent(settings, agent, prompt).Failure?
  {
  }

  /** With the default settings every agent talks to the local `llama3.2`. */
  lemma DefaultSettingsUseOllama(agent: AgentName, prompt: Prompt)
    ensures RouteAgent(Constants.DefaultSettings, agent, prompt) == Success(OllamaCall("llama3.2", prompt))
  {
  }

  /**
   * The search a research task runs: the Tavily API only in Tavily mode with a Tavily
   * key; the simulated Tavily results in Tavily mode without one; the simulated local
   * results in local mode.
   */
  function RouteSearch(settings: Settings, topic: string): (c: SearchCall)
    ensures c.TavilyApi? <==> settings.searchMode == Tavily && settings.tavilyApiKey != ""
    ensures c.SimulatedLocal? <==> settings.searchMode == LocalSearch
    ensures c.topic == topic
    ensures c.TavilyApi? ==> c.apiKey == settings.tavilyApiKey
  {
    if settings.searchMode.Tavily? && settings.tavilyApiKey != "" then
      TavilyApi(settings.tavilyApiKey, topic)
    else if settings.searchMode.Tavily? then
      SimulatedTavily(topic)
    else
      SimulatedLocal(topic)
  }

  /** The stand-in results of the simulated Tavily search. */
  const SimulatedTavilyResults: seq<ResearchResult> := [
    ResearchResult(
      "AI-Powered Smart Grids for Renewable Energy",
      "https://example.com/ai-smart-grids",
      "Artificial intelligence is revolutionizing energy distribution by creating smart grids that can balance supply and demand from intermittent renewable sources like solar and wind in real-time."),
    ResearchResult(
      "Predictive Maintenance for Wind Turbines using AI",
      "https://example.com/ai-wind-turbines",
      "AI algorithms analyze sensor data from wind turbines to predict maintenance needs, reducing downtime and increasing the efficiency and lifespan of wind farms."),
    ResearchResult(
      "Optimizing Solar Panel Output with Machine Learning",
      "https://example.com/ml-solar-panels",
      "Machine learning models help optimize the placement and angle of solar panels and forecast energy output based on weather patterns, maximizing the electricity generated.")
  ]

  /** The stand-in results of the simulated local search. */
  const SimulatedLocalResults: seq<ResearchResult> := [
    ResearchResult(
      "Local Doc: Report on Energy Storage Solutions (PDF)",
      "file:///local/docs/energy_storage.pdf",
      "This internal report details the growing importance of battery storage systems to complement AI-managed renewable energy grids, ensuring a stable power supply."),
    ResearchResult(
      "Local Doc: Meeting Notes on Grid Modernization (TXT)",
      "file:///local/notes/grid_modernization.txt",
      "Discussion points from the Q3 planning meeting focused on the capital investment required for AI-driven grid upgrades and the projected ROI over the next decade.")
  ]
}
