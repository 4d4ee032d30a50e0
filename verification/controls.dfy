/**
 * The control panel's decisions (components/ControlPanel.tsx): which of Start and Stop
 * is enabled, the Start label, the `provider:model` values of the model selects and
 * how a chosen value is taken apart, and the search-mode select.
 */
module Controls {
  import opened Wrappers
  import opened Text
  import opened Types
  import Constants
  import Lifecycle

  /** The two buttons. */
  datatype Buttons = Buttons(startEnabled: bool, stopEnabled: bool, startLabel: string)

  function ButtonsFor(state: ResearchState): (b: Buttons)
    ensures b.startEnabled <==> state != Running
    ensures b.stopEnabled <==> state == Running
    ensures b.startEnabled != b.stopEnabled
    ensures b.startLabel == (if state == Running then "Running..." else "Start Research")
  {
    var isRunning := state == Running;
    Buttons(!isRunning, isRunning, if isRunning then "Running..." else "Start Research")
  }

  /** How a provider is spelled in a select value. */
  function ProviderName(p: ModelProvider): (name: string)
    ensures ':' !in name && name != ""
  {
    match p
    case Gemini => "gemini"
    case Ollama => "ollama"
  }

  /** The select value of a provider and a model: `${provider}:${model}`. */
  function Encode(p: ModelProvider, model: string): string {
    ProviderName(p) + ":" + model
  }

  /**
   * `const [provider, model] = value.split(':')`: the first two pieces; `model` is
   * `undefined` (here `None`) when the value holds no colon.
   */
  datatype Selection = Selection(provider: string, model: Option<string>)

  function Decode(value: string): Selection {
    var pieces := Split(value, ":");
    Selection(pieces[0], if |pieces| > 1 then Some(pieces[1]) else None)
  }

  /**
   * `provider as ModelProvider` does not check anything; every later reading of the
   * provider compares it with `'gemini'`, so any other spelling acts as Ollama.
   */
  function ProviderOf(name: string): (p: ModelProvider)
    ensures p == Gemini <==> name == "gemini"
  {
    if name == "gemini" then Gemini else Ollama
  }

  lemma ProviderNameRoundTrip(p: ModelProvider)
    ensures ProviderOf(ProviderName(p)) == p
  {
  }

  /** A split at the first occurrence of a one-character separator. */
  lemma SplitAtFirst(a: string, c: char, b: string)
    requires c !in a
    ensures Split(a + [c] + b, [c]) == [a] + Split(b, [c])
  {
    var s := a + [c] + b;
    ContainsChar(a, c);
    assert Occurs(s, [c], |a|) by {
      assert s[|a|..|a| + 1] == [c];
    }
    forall j | 0 <= j < |a|
      ensures !Occurs(s, [c], j)
    {
      assert s[j..j + 1] == [a[j]];
    }
    assert s[..|a|] == a;
    assert s[|a| + 1..] == b;
  }

  /** A colon-free string is a single piece. */
  lemma SplitWithoutSeparator(s: string, c: char)
    requires c !in s
    ensures Split(s, [c]) == [s]
  {
    ContainsChar(s, c);
  }

  /** Without a colon the whole value is the provider and the model is `undefined`. */
  lemma DecodeWithoutColon(value: string)
    requires ':' !in value
    ensures Decode(value) == Selection(value, None)
  {
    SplitWithoutSeparator(value, ':');
  }

  /**
   * Decoding keeps the text before the first colon and the text between the first and
   * the second colon; whatever follows the second colon is dropped.
   */
  lemma DecodeKeepsTwoPieces(provider: string, model: string, rest: string)
    requires ':' !in provider && ':' !in model
    ensures Decode(provider + ":" + model) == Selection(provider, Some(model))
    ensures Decode(provider + ":" + model + ":" + rest) == Selection(provider, Some(model))
  {
    SplitAtFirst(provider, ':', model);
    SplitWithoutSeparator(model, ':');
    assert provider + ":" + model + ":" + rest == provider + [':'] + (model + [':'] + rest);
    SplitAtFirst(provider, ':', model + [':'] + rest);
    SplitAtFirst(model, ':', rest);
  }

  /** Encoding then decoding gives back the provider and a colon-free model. */
  lemma EncodeDecode(p: ModelProvider, model: string)
    requires ':' !in model
    ensures Decode(Encode(p, model)) == Selection(ProviderName(p), Some(model))
    ensures ProviderOf(Decode(Encode(p, model)).provider) == p
  {
    DecodeKeepsTwoPieces(ProviderName(p), model, "");
  }

  /** The options of every model select: the Ollama models, then the Gemini models. */
  function ModelOptions(): (options: seq<string>)
    ensures |options| == |Constants.OllamaModels| + |Constants.GeminiModels|
  {
    seq(|Constants.OllamaModels|, i requires 0 <= i < |Constants.OllamaModels| => Encode(Ollama, Constants.OllamaModels[i]))
      + seq(|Constants.GeminiModels|, i requires 0 <= i < |Constants.GeminiModels| => Encode(Gemini, Constants.GeminiModels[i]))
  }

  /** No model the app offers holds a colon, so each of its options decodes back. */
  lemma OptionsDecode()
    ensures forall m | m in Constants.OllamaModels :: Decode(Encode(Ollama, m)) == Selection("ollama", Some(m))
    ensures forall m | m in Constants.GeminiModels :: Decode(Encode(Gemini, m)) == Selection("gemini", Some(m))
  {
    forall m | m in Constants.OllamaModels
      ensures Decode(Encode(Ollama, m)) == Selection("ollama", Some(m))
    {
      EncodeDecode(Ollama, m);
    }
    forall m | m in Constants.GeminiModels
      ensures Decode(Encode(Gemini, m)) == Selection("gemini", Some(m))
    {
      EncodeDecode(Gemini, m);
    }
  }

  /** The select's `value` for an agent. */
  function SelectValue(s: Settings, agent: AgentName): string {
    Encode(s.agents.Get(agent).provider, s.agents.Get(agent).model)
  }

  /**
   * `handleModelSelection(agent, value)` for a value the select offers: the agent gets
   * the option's provider and model.
   */
  function SelectModel(s: Settings, agent: AgentName, value: string): (r: Settings)
    requires value in ModelOptions()
    ensures r == s.(agents := r.agents)
    ensures forall other: AgentName | other != agent :: r.agents.Get(other) == s.agents.Get(other)
    ensures SelectValue(r, agent) == value
    ensures r.agents.Get(agent).model in Constants.OllamaModels + Constants.GeminiModels
  {
    OptionsDecode();
    var sel := Decode(value);
    Lifecycle.ChangeModel(s, agent, sel.model.GetOr(""), ProviderOf(sel.provider))
  }

  /** The search-mode select's option values. */
  const SearchModeOptions: seq<string> := ["tavily", "local_search"]

  function SearchModeValue(m: SearchMode): (v: string)
    ensures v in SearchModeOptions
  {
    match m
    case Tavily => "tavily"
    case LocalSearch => "local_search"
  }

  /** What the search-mode select can hand to `onSettingsChange`: one of its two options. */
  function SearchModeOf(value: string): (m: Option<SearchMode>)
    ensures m.Some? <==> value in SearchModeOptions
    ensures m.Some? ==> SearchModeValue(m.value) == value
  {
    if value == "tavily" then Some(Tavily)
    else if value == "local_search" then Some(LocalSearch)
    else None
  }

  lemma SearchModeRoundTrip(m: SearchMode)
    ensures SearchModeOf(SearchModeValue(m)) == Some(m)
  {
  }
}
