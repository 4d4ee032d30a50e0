/**
 * Turning the supervisor's reply into research topics (services/researchService.ts):
 * the text from the first `[` through the last `]` is handed to `JSON.parse`; if that
 * yields an array of strings it is used as is, otherwise the reply is split on
 * `"### Phase"` headings, with `"Overall Research"` as the last resort.
 *
 * `JSON.parse` is not modelled: it is a function parameter returning the parsed value
 * or the message of the `SyntaxError` it threw.
 */
module PlanParser {
  import opened Wrappers
  import opened Text

  /** The shape of a parsed JSON value, as far as the plan check looks at it. */
  datatype Json = JString(text: string) | JArray(items: seq<Json>) | JOther

  /** What `JSON.parse` did with a text. */
  datatype Parsed = Parsed(value: Json) | SyntaxError(message: string)

  type JsonParser = string -> Parsed

  /** How the topics were obtained; the fallback also records the message it logs. */
  datatype Plan = FromJson(topics: seq<string>) | FromPhases(topics: seq<string>, reason: string)

  const PhaseMarker: string := "### Phase"
  const OverallResearch: string := "Overall Research"
  const NotAStringArray: string := "Response is not a valid array of strings."

  // ---------------------------------------------------------------------------
  // Text fallback

  /** The topic derived from the text after one marker: `Phase` + first line of the trimmed text. */
  function PhaseTopic(phase: string): (topic: string)
    ensures |topic| >= 5 && topic[..5] == "Phase"
    ensures topic[5..] <= Trim(phase)
    ensures |topic| - 5 < |Trim(phase)| ==> Trim(phase)[|topic| - 5] == '\n'
    ensures '\n' !in topic
  {
    var line := FirstLine(Trim(phase));
    NoNewlineAfterWord("Phase", line);
    "Phase" + line
  }

  /** A word without a line feed, followed by a line, has no line feed. */
  lemma NoNewlineAfterWord(word: string, line: string)
    requires word == "Phase" && '\n' !in line
    ensures (word + line)[..|word|] == word && (word + line)[|word|..] == line
    ensures '\n' !in word + line
  {
    assert '\n' !in word by {
      assert word == ['P', 'h', 'a', 's', 'e'];
    }
    forall k | 0 <= k < |word + line|
      ensures (word + line)[k] != '\n'
    {
      if k < |word| {
        assert (word + line)[k] == word[k];
      } else {
        assert (word + line)[k] == line[k - |word|];
      }
    }
  }

  /**
   * `extractResearchTopicsFromPlan`: one topic per `"### Phase"` occurrence, in order,
   * each built from the text that follows that occurrence; `["Overall Research"]` when
   * there is none.
   */
  function ExtractTopicsFromPlan(plan: string): (topics: seq<string>)
    ensures |topics| >= 1
    ensures !Contains(plan, PhaseMarker) <==> topics == [OverallResearch]
    ensures Contains(plan, PhaseMarker) ==>
      var phases := Split(plan, PhaseMarker);
      && |topics| == |phases| - 1
      && forall j | 0 <= j < |topics| :: topics[j] == PhaseTopic(phases[j + 1])
    ensures forall j | 0 <= j < |topics| :: '\n' !in topics[j]
  {
    var phases := Split(plan, PhaseMarker);
    SplitManyIffContains(plan, PhaseMarker);
    if Contains(plan, PhaseMarker) then
      var topics := PhaseTopics(phases[1..]);
      assert topics[0][..5] == "Phase";
      assert OverallResearch[0] == 'O' != topics[0][0];
      topics
    else
      [OverallResearch]
  }

  /** One topic per phase text, in order. */
  function PhaseTopics(phases: seq<string>): (topics: seq<string>)
    ensures |topics| == |phases|
    ensures forall j | 0 <= j < |phases| :: topics[j] == PhaseTopic(phases[j])
  {
    seq(|phases|, j requires 0 <= j < |phases| => PhaseTopic(phases[j]))
  }

  // ---------------------------------------------------------------------------
  // JSON slice

  /**
   * `reply.substring(reply.indexOf('['), reply.lastIndexOf(']') + 1)`, with the
   * clamping and argument swapping of `substring` when a bracket is missing.
   */
  function JsonCandidate(reply: string): string
  {
    Substring(reply, IndexOfChar(reply, '['), LastIndexOfChar(reply, ']') + 1)
  }

  /** The candidate brackets are there and in order. */
  predicate HasBracketPair(reply: string) {
    var first, last := IndexOfChar(reply, '['), LastIndexOfChar(reply, ']');
    0 <= first && 0 <= last && first < last
  }

  /**
   * The candidate contains a `[` exactly when the reply has a `[` before its last `]`,
   * and then it runs from the first `[` through the last `]`; otherwise it is a piece of
   * text in front of the first `[` (or of the whole reply when there is none).
   */
  lemma CandidateShape(reply: string)
    ensures '[' in JsonCandidate(reply) <==> HasBracketPair(reply)
    ensures HasBracketPair(reply) ==>
      JsonCandidate(reply) == reply[IndexOfChar(reply, '[')..LastIndexOfChar(reply, ']') + 1]
  {
    if HasBracketPair(reply) {
      var c := JsonCandidate(reply);
      assert c == reply[IndexOfChar(reply, '[')..LastIndexOfChar(reply, ']') + 1];
      assert c[0] == '[';
    } else if IndexOfChar(reply, '[') == -1 {
      CandidateWithoutOpening(reply);
    } else {
      CandidateBeforeOpening(reply);
    }
  }

  /** Without a `[` the candidate is a prefix of the reply, so it has none either. */
  lemma CandidateWithoutOpening(reply: string)
    requires IndexOfChar(reply, '[') == -1
    ensures '[' !in JsonCandidate(reply)
  {
    var c := JsonCandidate(reply);
    assert c == reply[..Clamp(LastIndexOfChar(reply, ']') + 1, |reply|)];
    assert forall k | 0 <= k < |c| :: c[k] == reply[k];
  }

  /** With a `[` after the last `]`, the candidate is text in front of the first `[`. */
  lemma CandidateBeforeOpening(reply: string)
    requires !HasBracketPair(reply) && IndexOfChar(reply, '[') != -1
    ensures '[' !in JsonCandidate(reply)
  {
    var first, last := IndexOfChar(reply, '['), LastIndexOfChar(reply, ']');
    assert last < first;
    CandidateIsSlice(reply, first, last);
    SuffixKeepsOut(reply[..first], last + 1, '[');
  }

  /** When the last `]` comes before the first `[`, `substring` swaps its arguments. */
  lemma CandidateIsSlice(reply: string, first: int, last: int)
    requires first == IndexOfChar(reply, '[') && last == LastIndexOfChar(reply, ']')
    requires 0 <= first && last < first
    ensures JsonCandidate(reply) == reply[..first][last + 1..]
  {
  }

  lemma SuffixKeepsOut(s: string, i: nat, x: char)
    requires i <= |s| && x !in s
    ensures x !in s[i..]
  {
    assert forall k | 0 <= k < |s| - i :: s[i..][k] == s[i + k];
  }

  /** A JSON array of strings, read back as its strings. */
  function StringItems(j: Json): (r: Option<seq<string>>)
    ensures r.Some? <==> j.JArray? && forall k | 0 <= k < |j.items| :: j.items[k].JString?
    ensures r.Some? ==> |r.value| == |j.items| && forall k | 0 <= k < |r.value| :: j.items[k] == JString(r.value[k])
  {
    if j.JArray? && forall k | 0 <= k < |j.items| :: j.items[k].JString? then
      Some(seq(|j.items|, k requires 0 <= k < |j.items| => j.items[k].text))
    else None
  }

  /**
   * The plan-parsing block of the supervisor stage. It never fails: a syntax error or a
   * value that is not an array of strings sends the reply to the phase fallback.
   */
  function ParsePlan(reply: string, parse: JsonParser): (plan: Plan)
    ensures plan.FromJson? <==>
      parse(JsonCandidate(reply)).Parsed? && StringItems(parse(JsonCandidate(reply)).value).Some?
    ensures plan.FromJson? ==> plan.topics == StringItems(parse(JsonCandidate(reply)).value).value
    ensures plan.FromPhases? ==> plan.topics == ExtractTopicsFromPlan(reply) && |plan.topics| >= 1
  {
    match parse(JsonCandidate(reply))
    case SyntaxError(message) => FromPhases(ExtractTopicsFromPlan(reply), message)
    case Parsed(value) =>
      match StringItems(value)
      case Some(topics) => FromJson(topics)
      case None => FromPhases(ExtractTopicsFromPlan(reply), NotAStringArray)
  }

  /** Any JSON parser: the text of an array contains its opening bracket. */
  ghost predicate ArraysNeedBracket(parse: JsonParser) {
    forall s: string :: parse(s).Parsed? && parse(s).value.JArray? ==> '[' in s
  }

  /**
   * A reply without a `[` before its last `]` always takes the phase fallback, so the
   * supervisor stage gets at least one topic.
   */
  lemma NoBracketPairTakesFallback(reply: string, parse: JsonParser)
    requires ArraysNeedBracket(parse)
    requires !HasBracketPair(reply)
    ensures ParsePlan(reply, parse).FromPhases?
    ensures |ParsePlan(reply, parse).topics| >= 1
  {
    CandidateShape(reply);
  }
}
