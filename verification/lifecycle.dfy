/**
 * The application state and its handlers (App.tsx): settings updates, the start of a
 * research run with its re-entrancy guard and reset, the effects the running process
 * has through its callbacks, how the run's outcome settles the state, and stop.
 *
 * The run itself is `Pipeline.StartResearchProcess`; here it is represented by what
 * the application sees of it: its events, in order, and how it ended.
 */
module Lifecycle {
  import opened Wrappers
  import opened Types
  import Constants
  import opened Pipeline

  /** `abortControllerRef.current`: absent, or a controller and whether it was aborted. */
  datatype Controller = NoController | Controller(aborted: bool)

  /** The state `App` keeps. */
  datatype App = App(
    settings: Settings,
    state: ResearchState,
    activeAgent: Option<AgentName>,
    logs: seq<LogEntry>,
    finalReport: string,
    error: Option<string>,
    controller: Controller)

  const Initial: App := App(Constants.DefaultSettings, Idle, None, [], "", None, NoController)

  /** How the awaited process ended: it returned, or it threw. */
  datatype Outcome = Finished | Threw(err: Error)

  function OutcomeOf(r: Flow<string>): (o: Outcome)
    ensures o.Finished? <==> r.Go?
    ensures o.Threw? ==> o.err == r.err
  {
    match r
    case Go(_, _) => Finished
    case Halt(e, _) => Threw(e)
  }

  /**
   * Outside a run no agent is active. Every handler keeps this, and the stale
   * attribution below rests on it.
   */
  predicate Consistent(app: App) {
    app.state != Running ==> app.activeAgent.None?
  }

  // ---------------------------------------------------------------------------
  // Settings

  /** One argument pair of `handleSettingsChange(key, value)`. */
  datatype SettingUpdate =
    | ApiKey(apiKey: string)
    | TavilyApiKey(tavilyApiKey: string)
    | ResearchTopic(topic: string)
    | Agents(agents: AgentTable)
    | SearchModeTo(mode: SearchMode)
    | Iterations(iterations: int)

  /** The current value of the field an update targets, as an update of that field. */
  function Read(s: Settings, field: SettingUpdate): SettingUpdate {
    match field
    case ApiKey(_) => ApiKey(s.apiKey)
    case TavilyApiKey(_) => TavilyApiKey(s.tavilyApiKey)
    case ResearchTopic(_) => ResearchTopic(s.researchTopic)
    case Agents(_) => Agents(s.agents)
    case SearchModeTo(_) => SearchModeTo(s.searchMode)
    case Iterations(_) => Iterations(s.iterations)
  }

  /** Two updates target the same field. */
  predicate SameField(u: SettingUpdate, v: SettingUpdate) {
    Read(Constants.DefaultSettings, u) == Read(Constants.DefaultSettings, v)
  }

  /** `handleSettingsChange`: `{ ...prev, [key]: value }`. */
  function ChangeSetting(s: Settings, u: SettingUpdate): (r: Settings)
    ensures Read(r, u) == u
    ensures forall v: SettingUpdate | !SameField(u, v) :: Read(r, v) == Read(s, v)
  {
    match u
    case ApiKey(k) => s.(apiKey := k)
    case TavilyApiKey(k) => s.(tavilyApiKey := k)
    case ResearchTopic(t) => s.(researchTopic := t)
    case Agents(a) => s.(agents := a)
    case SearchModeTo(m) => s.(searchMode := m)
    case Iterations(n) => s.(iterations := n)
  }

  /** Reading every field tells settings apart. */
  lemma SettingsAreTheirFields(s: Settings, t: Settings)
    requires forall v: SettingUpdate :: Read(s, v) == Read(t, v)
    ensures s == t
  {
    assert Read(s, ApiKey("")) == Read(t, ApiKey(""));
    assert Read(s, TavilyApiKey("")) == Read(t, TavilyApiKey(""));
    assert Read(s, ResearchTopic("")) == Read(t, ResearchTopic(""));
    assert Read(s, Agents(s.agents)) == Read(t, Agents(s.agents));
    assert Read(s, SearchModeTo(Tavily)) == Read(t, SearchModeTo(Tavily));
    assert Read(s, Iterations(0)) == Read(t, Iterations(0));
  }

  /** Setting a field to the value it holds changes nothing. */
  lemma ChangeToCurrentValue(s: Settings, field: SettingUpdate)
    ensures ChangeSetting(s, Read(s, field)) == s
  {
    var r := ChangeSetting(s, Read(s, field));
    forall v: SettingUpdate
      ensures Read(r, v) == Read(s, v)
    {
      if SameField(field, v) {
        assert SameField(Read(s, field), v);
      }
    }
    SettingsAreTheirFields(r, s);
  }

  /**
   * `handleAgentSettingsChange(agent, partial)`: the fields the partial record holds
   * replace the agent's, the agent's other field and the other agents stay.
   */
  function ChangeAgentSettings(s: Settings, agent: AgentName, model: Option<string>, provider: Option<ModelProvider>)
    : (r: Settings)
    ensures r.agents.Get(agent).model == model.GetOr(s.agents.Get(agent).model)
    ensures r.agents.Get(agent).provider == provider.GetOr(s.agents.Get(agent).provider)
    ensures forall other: AgentName | other != agent :: r.agents.Get(other) == s.agents.Get(other)
    ensures r == s.(agents := r.agents)
  {
    var current := s.agents.Get(agent);
    var merged := AgentSettings(model.GetOr(current.model), provider.GetOr(current.provider));
    s.(agents := s.agents.Set(agent, merged))
  }

  /** `handleModelChange`: the agent gets the model and the provider, nothing else changes. */
  function ChangeModel(s: Settings, agent: AgentName, model: string, provider: ModelProvider): (r: Settings)
    ensures r.agents.Get(agent) == AgentSettings(model, provider)
    ensures forall other: AgentName | other != agent :: r.agents.Get(other) == s.agents.Get(other)
    ensures r == s.(agents := r.agents)
  {
    ChangeAgentSettings(s, agent, Some(model), Some(provider))
  }

  /** The settings handlers act on the settings alone. */
  function ChangeSettingsOf(app: App, s: Settings): (r: App)
    ensures r.settings == s && r == app.(settings := s)
    ensures Consistent(app) ==> Consistent(r)
  {
    app.(settings := s)
  }

  // ---------------------------------------------------------------------------
  // A run

  /** `clearResearch`: logs, report, active agent and error back to empty. */
  function ClearResearch(app: App): (r: App)
    ensures r.logs == [] && r.finalReport == "" && r.activeAgent.None? && r.error.None?
    ensures r.settings == app.settings && r.state == app.state && r.controller == app.controller
  {
    app.(logs := [], finalReport := "", activeAgent := None, error := None)
  }

  /** The synchronous part of `handleStartResearch` past its guard. */
  function Begin(app: App): (r: App)
    ensures r.logs == [] && r.finalReport == "" && r.activeAgent.None? && r.error.None?
    ensures r.state == Running && r.controller == Controller(false) && r.settings == app.settings
  {
    ClearResearch(app).(state := Running, controller := Controller(false))
  }

  /** What one event of the process does to the application through its callbacks. */
  function Apply(app: App, e: Event): App {
    match e
    case Activate(a) => app.(activeAgent := Some(a))
    case Logged(entry) => app.(logs := app.logs + [entry])
    case Reported(report) => app.(finalReport := report)
    case _ => app
  }

  /** The callbacks' effects of a run's events, in order. */
  function Replay(app: App, events: seq<Event>): App
    decreases |events|
  {
    if events == [] then app else Apply(Replay(app, events[..|events| - 1]), events[|events| - 1])
  }

  /** The entries the events log, in order. */
  function LoggedIn(events: seq<Event>): seq<LogEntry>
    decreases |events|
  {
    if events == [] then []
    else LoggedIn(events[..|events| - 1]) + (if events[|events| - 1].Logged? then [events[|events| - 1].entry] else [])
  }

  /** The agent of the last `Activate` event, or `current` when there is none. */
  function LastActive(events: seq<Event>, current: Option<AgentName>): Option<AgentName>
    decreases |events|
  {
    if events == [] then current
    else if events[|events| - 1].Activate? then Some(events[|events| - 1].agent)
    else LastActive(events[..|events| - 1], current)
  }

  /** The report of the last `Reported` event, or `current` when there is none. */
  function LastReport(events: seq<Event>, current: string): string
    decreases |events|
  {
    if events == [] then current
    else if events[|events| - 1].Reported? then events[|events| - 1].report
    else LastReport(events[..|events| - 1], current)
  }

  /**
   * Replaying a run appends exactly the logged entries, leaves the agent last made
   * active and the report last handed over, and touches nothing else.
   */
  lemma {:induction false} ReplayEffects(app: App, events: seq<Event>)
    ensures var r := Replay(app, events);
      && r.logs == app.logs + LoggedIn(events)
      && r.activeAgent == LastActive(events, app.activeAgent)
      && r.finalReport == LastReport(events, app.finalReport)
      && r == app.(logs := r.logs, activeAgent := r.activeAgent, finalReport := r.finalReport)
    decreases |events|
  {
    if events != [] {
      ReplayEffects(app, events[..|events| - 1]);
    }
  }

  const UnknownErrorText: string := "An unknown error occurred."

  /** The text shown for a failure that is not an abort: never empty. */
  function ErrorText(message: string): (t: string)
    ensures t != ""
    ensures message != "" ==> t == message
    ensures message == "" ==> t == UnknownErrorText
  {
    if message != "" then message else UnknownErrorText
  }

  const StoppedText: string := "Research process was stopped by the user."

  /**
   * The `try`/`catch`/`finally` after the process settles, with the terminal entry
   * attributed to `agent`: nothing logged on completion, one entry on an abort or a
   * failure, and no agent active afterwards.
   */
  function SettleWith(app: App, outcome: Outcome, agent: AgentName): (r: App)
    ensures r.activeAgent.None?
    ensures r.settings == app.settings && r.finalReport == app.finalReport && r.controller == app.controller
    ensures outcome.Finished? ==> r.state == Completed && r.logs == app.logs && r.error == app.error
    ensures outcome == Threw(Abort) ==>
      && r.state == Stopped && r.error == Some(StoppedText)
      && r.logs == app.logs + [LogEntry(agent, StoppedByUser, NoData)]
    ensures outcome.Threw? && outcome.err.Fault? ==>
      && r.state == Errored && r.error == Some(ErrorText(outcome.err.message))
      && r.logs == app.logs + [LogEntry(agent, Failed(outcome.err.message), NoData)]
  {
    var settled :=
      match outcome
      case Finished => app.(state := Completed)
      case Threw(Abort) =>
        app.(state := Stopped, error := Some(StoppedText),
             logs := app.logs + [LogEntry(agent, StoppedByUser, NoData)])
      case Threw(Fault(message)) =>
        app.(state := Errored, error := Some(ErrorText(message)),
             logs := app.logs + [LogEntry(agent, Failed(message), NoData)]);
    settled.(activeAgent := None)
  }

  /**
   * The settling as written: the handler reads `activeAgent` from the render it was
   * created in, so the agent is the one active before the run started, or the
   * supervisor.
   */
  function SettleAsWritten(app: App, outcome: Outcome, captured: Option<AgentName>): (r: App)
    ensures r.state != Running && r.activeAgent.None? && r.settings == app.settings
    ensures outcome.Threw? ==> |r.logs| > 0 && r.logs[|r.logs| - 1].agent == captured.GetOr(Supervisor)
  {
    SettleWith(app, outcome, captured.GetOr(Supervisor))
  }

  /** The settling with the agent active when the process ended, or the supervisor. */
  function Settle(app: App, outcome: Outcome): (r: App)
    ensures r.state != Running && r.activeAgent.None? && r.settings == app.settings
    ensures outcome.Threw? ==> |r.logs| > 0 && r.logs[|r.logs| - 1].agent == app.activeAgent.GetOr(Supervisor)
  {
    SettleWith(app, outcome, app.activeAgent.GetOr(Supervisor))
  }

  /**
   * `handleStartResearch` as written, given what the process did: nothing while a run
   * is going on; otherwise reset, run, settle.
   */
  function HandleStartResearchAsWritten(app: App, events: seq<Event>, outcome: Outcome): (r: App)
    ensures app.state == Running ==> r == app
    ensures app.state != Running ==> r.state != Running && r.activeAgent.None? && r.settings == app.settings
  {
    if app.state == Running then app
    else
      ReplayEffects(Begin(app), events);
      SettleAsWritten(Replay(Begin(app), events), outcome, app.activeAgent)
  }

  /**
   * `handleStartResearch` corrected: the terminal entry is attributed to the agent active
   * at the end rather than to the one captured when the run began.
   */
  function HandleStartResearch(app: App, events: seq<Event>, outcome: Outcome): (r: App)
    ensures app.state == Running ==> r == app
    ensures app.state != Running ==> r.state != Running && r.activeAgent.None? && r.settings == app.settings
  {
    if app.state == Running then app
    else
      ReplayEffects(Begin(app), events);
      Settle(Replay(Begin(app), events), outcome)
  }

  /** `handleStopResearch`: abort the controller if there is one. */
  function HandleStop(app: App): (r: App)
    ensures app.controller.NoController? ==> r == app
    ensures app.controller.Controller? ==> r == app.(controller := Controller(true))
  {
    match app.controller
    case NoController => app
    case Controller(_) => app.(controller := Controller(true))
  }

  // ---------------------------------------------------------------------------
  // Properties of a run

  /** Starting while a run is going on changes nothing. */
  lemma StartWhileRunningChangesNothing(app: App, events: seq<Event>, outcome: Outcome)
    requires app.state == Running
    ensures HandleStartResearch(app, events, outcome) == app
    ensures HandleStartResearchAsWritten(app, events, outcome) == app
  {
  }

  /**
   * A run that is let through starts from cleared state: its logs are exactly the
   * entries the process logged, plus one terminal entry when it did not complete; the
   * report is the one handed over (empty if none); the settings are untouched; no agent
   * is active afterwards.
   */
  lemma RunStartsClean(app: App, events: seq<Event>, outcome: Outcome)
    requires app.state != Running
    ensures var r := HandleStartResearch(app, events, outcome);
      && r.settings == app.settings
      && r.activeAgent.None?
      && r.finalReport == LastReport(events, "")
      && (outcome.Finished? <==> r.logs == LoggedIn(events))
      && (outcome.Threw? ==> |r.logs| == |LoggedIn(events)| + 1 && r.logs[..|LoggedIn(events)|] == LoggedIn(events))
      && (outcome.Finished? ==> r.state == Completed && r.error.None?)
      && (outcome == Threw(Abort) ==> r.state == Stopped)
      && (outcome.Threw? && outcome.err.Fault? ==> r.state == Errored)
  {
    var b := Begin(app);
    ReplayEffects(b, events);
    var ran := Replay(b, events);
    assert ran.logs == LoggedIn(events);
    assert ran.error.None?;
  }

  /**
   * The same for the handler as written, which differs only in the agent its terminal
   * entry names.
   */
  lemma RunStartsCleanAsWritten(app: App, events: seq<Event>, outcome: Outcome)
    requires app.state != Running
    ensures var r := HandleStartResearchAsWritten(app, events, outcome);
      && r.settings == app.settings
      && r.activeAgent.None?
      && r.finalReport == LastReport(events, "")
      && (outcome.Finished? <==> r.logs == LoggedIn(events))
      && (outcome.Threw? ==> |r.logs| == |LoggedIn(events)| + 1 && r.logs[..|LoggedIn(events)|] == LoggedIn(events))
      && (outcome.Finished? ==> r.state == Completed && r.error.None?)
      && (outcome == Threw(Abort) ==> r.state == Stopped)
      && (outcome.Threw? && outcome.err.Fault? ==> r.state == Errored)
  {
    var b := Begin(app);
    ReplayEffects(b, events);
    var ran := Replay(b, events);
    assert ran.logs == LoggedIn(events);
    assert ran.error.None?;
  }

  /** The corrected settling names the agent that was active when the process ended. */
  lemma TerminalEntryNamesTheEndingAgent(app: App, events: seq<Event>, err: Error)
    requires app.state != Running
    ensures var r := HandleStartResearch(app, events, Threw(err));
      |r.logs| > 0 && r.logs[|r.logs| - 1].agent == LastActive(events, None).GetOr(Supervisor)
  {
    var b := Begin(app);
    ReplayEffects(b, events);
  }

  /**
   * As written, the terminal entry of every run started from a consistent state is the
   * supervisor's, whatever agent was active when the process stopped or failed.
   */
  lemma TerminalEntryAlwaysSupervisorAsWritten(app: App, events: seq<Event>, err: Error)
    requires app.state != Running && Consistent(app)
    ensures var r := HandleStartResearchAsWritten(app, events, Threw(err));
      |r.logs| > 0 && r.logs[|r.logs| - 1].agent == Supervisor
  {
  }

  /** Events without a `Logged` one log nothing. */
  lemma {:induction false} NothingLogged(events: seq<Event>)
    requires forall i | 0 <= i < |events| :: !events[i].Logged?
    ensures LoggedIn(events) == []
    decreases |events|
  {
    if events != [] {
      NothingLogged(events[..|events| - 1]);
    }
  }

  /** A writer-stage abort: the entry as written blames the supervisor, the corrected one the writer. */
  lemma WriterAbortBlamesSupervisorAsWritten()
    ensures var events := [Activate(Supervisor), Check, Activate(Researcher), Check, Activate(Writer), Check];
      var asWritten := HandleStartResearchAsWritten(Initial, events, Threw(Abort));
      var corrected := HandleStartResearch(Initial, events, Threw(Abort));
      && asWritten.logs == [LogEntry(Supervisor, StoppedByUser, NoData)]
      && corrected.logs == [LogEntry(Writer, StoppedByUser, NoData)]
  {
    var events := [Activate(Supervisor), Check, Activate(Researcher), Check, Activate(Writer), Check];
    ReplayEffects(Begin(Initial), events);
    NothingLogged(events);
    assert LastActive(events, None) == Some(Writer) by {
      assert events[..5][..4] == events[..4];
    }
  }

  /** Every handler keeps `Consistent`. */
  lemma HandlersKeepConsistent(app: App, events: seq<Event>, outcome: Outcome, u: SettingUpdate)
    requires Consistent(app)
    ensures Consistent(HandleStartResearch(app, events, outcome))
    ensures Consistent(HandleStartResearchAsWritten(app, events, outcome))
    ensures Consistent(HandleStop(app))
    ensures Consistent(ChangeSettingsOf(app, ChangeSetting(app.settings, u)))
  {
  }

  /** The application starts consistent, idle, and with the default settings. */
  lemma InitialIsConsistent()
    ensures Consistent(Initial) && Initial.state == Idle
  {
  }
}
