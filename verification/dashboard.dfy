/**
 * What the dashboard shows for a state of the application (components/Dashboard.tsx):
 * the agent workflow strip, the error banner, the idle prompt, the three per-agent log
 * columns and the report.
 */
module Dashboard {
  import opened Wrappers
  import opened Types
  import Constants

  /** `logs.filter(log => log.agent === agent)`. */
  function LogsOf(logs: seq<LogEntry>, agent: AgentName): (r: seq<LogEntry>)
    ensures |r| <= |logs|
    ensures forall k | 0 <= k < |r| :: r[k].agent == agent
  {
    if logs == [] then []
    else (if logs[0].agent == agent then [logs[0]] else []) + LogsOf(logs[1..], agent)
  }

  /** Filtering keeps order: the entries of a prefix come before those of the rest. */
  lemma {:induction false} LogsOfAppend(a: seq<LogEntry>, b: seq<LogEntry>, agent: AgentName)
    ensures LogsOf(a + b, agent) == LogsOf(a, agent) + LogsOf(b, agent)
    decreases |a|
  {
    if a == [] {
      assert a + b == b;
    } else {
      var x := if a[0].agent == agent then [a[0]] else [];
      calc {
        LogsOf(a + b, agent);
      == { assert a + b == [a[0]] + (a[1..] + b); LogsOfCons(a[0], a[1..] + b, agent); }
        x + LogsOf(a[1..] + b, agent);
      == { LogsOfAppend(a[1..], b, agent); }
        x + (LogsOf(a[1..], agent) + LogsOf(b, agent));
      ==
        (x + LogsOf(a[1..], agent)) + LogsOf(b, agent);
      == { assert a == [a[0]] + a[1..]; LogsOfCons(a[0], a[1..], agent); }
        LogsOf(a, agent) + LogsOf(b, agent);
      }
    }
  }

  /** The filter of a list with a first entry. */
  lemma LogsOfCons(e: LogEntry, rest: seq<LogEntry>, agent: AgentName)
    ensures LogsOf([e] + rest, agent) == (if e.agent == agent then [e] else []) + LogsOf(rest, agent)
  {
    var l := [e] + rest;
    assert l[0] == e && l[1..] == rest;
  }

  /** An entry lands in an agent's column exactly when it is that agent's. */
  lemma {:induction false} InColumnIffOwnAgent(logs: seq<LogEntry>, agent: AgentName, e: LogEntry)
    ensures e in LogsOf(logs, agent) <==> e in logs && e.agent == agent
    decreases |logs|
  {
    if logs != [] {
      InColumnIffOwnAgent(logs[1..], agent, e);
      assert logs == [logs[0]] + logs[1..];
    }
  }

  /**
   * The three columns split the logs: every entry is counted in exactly one of them, as
   * often as it occurs.
   */
  lemma {:induction false} ColumnsPartitionTheLogs(logs: seq<LogEntry>)
    ensures multiset(LogsOf(logs, Supervisor)) + multiset(LogsOf(logs, Researcher)) + multiset(LogsOf(logs, Writer))
      == multiset(logs)
    ensures |LogsOf(logs, Supervisor)| + |LogsOf(logs, Researcher)| + |LogsOf(logs, Writer)| == |logs|
    decreases |logs|
  {
    if logs != [] {
      ColumnsPartitionTheLogs(logs[1..]);
      var e := logs[0];
      assert logs == [e] + logs[1..];
      HeadInItsColumn(e, logs[1..]);
    }
  }

  /** The first entry goes to its own agent's column and to no other. */
  lemma HeadInItsColumn(e: LogEntry, rest: seq<LogEntry>)
    ensures multiset(LogsOf([e] + rest, Supervisor)) + multiset(LogsOf([e] + rest, Researcher))
        + multiset(LogsOf([e] + rest, Writer))
      == multiset{e} + multiset(LogsOf(rest, Supervisor)) + multiset(LogsOf(rest, Researcher))
        + multiset(LogsOf(rest, Writer))
    ensures |LogsOf([e] + rest, Supervisor)| + |LogsOf([e] + rest, Researcher)| + |LogsOf([e] + rest, Writer)|
      == 1 + |LogsOf(rest, Supervisor)| + |LogsOf(rest, Researcher)| + |LogsOf(rest, Writer)|
  {
    LogsOfCons(e, rest, Supervisor);
    LogsOfCons(e, rest, Researcher);
    LogsOfCons(e, rest, Writer);
  }

  /** One node of the workflow strip, and whether an arrow follows it. */
  datatype Node = Node(name: AgentName, isActive: bool, arrowAfter: bool)

  /** `agentNames.map(...)`: the node for each name, active when it is `activeAgent`. */
  function Nodes(names: seq<AgentName>, activeAgent: Option<AgentName>): (nodes: seq<Node>)
    ensures |nodes| == |names|
    ensures forall i | 0 <= i < |nodes| :: nodes[i].name == names[i]
  {
    seq(|names|, i requires 0 <= i < |names| =>
      Node(names[i], activeAgent == Some(names[i]), i < |names| - 1))
  }

  /** The number of arrows drawn. */
  function Arrows(nodes: seq<Node>): nat {
    if nodes == [] then 0 else (if nodes[0].arrowAfter then 1 else 0) + Arrows(nodes[1..])
  }

  /** With no agent active no node is; with one active, exactly the nodes of that name are. */
  lemma ActiveNodeIsTheActiveAgent(names: seq<AgentName>, activeAgent: Option<AgentName>)
    ensures activeAgent.None? ==> forall i | 0 <= i < |names| :: !Nodes(names, activeAgent)[i].isActive
    ensures activeAgent.Some? ==>
      forall i | 0 <= i < |names| :: Nodes(names, activeAgent)[i].isActive <==> names[i] == activeAgent.value
  {
  }

  /** On the app's strip an active agent lights exactly one node. */
  lemma OneNodeLit(a: AgentName)
    ensures var nodes := Nodes(Constants.AgentNames, Some(a));
      exists i | 0 <= i < |nodes| :: nodes[i].isActive && forall j | 0 <= j < |nodes| && j != i :: !nodes[j].isActive
  {
    Constants.AgentNamesListEveryAgentOnce(a);
    var nodes := Nodes(Constants.AgentNames, Some(a));
    var i :| 0 <= i < 3 && Constants.AgentNames[i] == a;
    assert nodes[i].isActive;
  }

  /** An arrow follows every node but the last one: `|names| - 1` of them. */
  lemma {:induction false} ArrowsBetweenNeighbours(names: seq<AgentName>, activeAgent: Option<AgentName>)
    ensures var nodes := Nodes(names, activeAgent);
      && (forall i | 0 <= i < |nodes| :: nodes[i].arrowAfter <==> i + 1 < |nodes|)
      && Arrows(nodes) == if names == [] then 0 else |names| - 1
    decreases |names|
  {
    var nodes := Nodes(names, activeAgent);
    if names != [] {
      ArrowsBetweenNeighbours(names[1..], activeAgent);
      var rest := Nodes(names[1..], activeAgent);
      if |names| > 1 {
        assert nodes[1..] == rest;
      } else {
        assert nodes[1..] == [];
      }
    }
  }

  /** Everything the dashboard decides. */
  datatype View = View(
    nodes: seq<Node>,
    errorBanner: Option<string>,
    idlePrompt: bool,
    columns: Option<(seq<LogEntry>, seq<LogEntry>, seq<LogEntry>)>,
    report: Option<string>)

  /** The dashboard for a state of the application. */
  function Render(agentNames: seq<AgentName>, activeAgent: Option<AgentName>, logs: seq<LogEntry>,
                  finalReport: string, state: ResearchState, error: Option<string>): (v: View)
    ensures v.nodes == Nodes(agentNames, activeAgent)
    ensures v.errorBanner.Some? <==> error.Some? && error.value != ""
    ensures v.errorBanner.Some? ==> v.errorBanner == error
    ensures v.idlePrompt <==> state == Idle
    ensures v.columns.Some? <==> state != Idle
    ensures v.columns.Some? ==>
      v.columns.value == (LogsOf(logs, Supervisor), LogsOf(logs, Researcher), LogsOf(logs, Writer))
    ensures v.report.Some? <==> state == Completed && finalReport != ""
    ensures v.report.Some? ==> v.report.value == finalReport
    ensures v.report.Some? ==> v.columns.Some? && !v.idlePrompt
  {
    var showLogs := state != Idle;
    var showReport := state == Completed && finalReport != "";
    View(
      Nodes(agentNames, activeAgent),
      if error.Some? && error.value != "" then error else None,
      state == Idle,
      if showLogs then Some((LogsOf(logs, Supervisor), LogsOf(logs, Researcher), LogsOf(logs, Writer))) else None,
      if showLogs && showReport then Some(finalReport) else None)
  }

  /** The idle prompt and the log columns never show together, and one of them always does. */
  lemma PromptOrColumns(agentNames: seq<AgentName>, activeAgent: Option<AgentName>, logs: seq<LogEntry>,
                        finalReport: string, state: ResearchState, error: Option<string>)
    ensures var v := Render(agentNames, activeAgent, logs, finalReport, state, error);
      v.idlePrompt != v.columns.Some?
    ensures var v := Render(agentNames, activeAgent, logs, finalReport, state, error);
      v.report.Some? ==> v.columns.Some?
  {
  }
}
