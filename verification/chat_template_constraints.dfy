/**
 Inference of chat-template restrictions by probing: eight fixed
 conversations are rendered, each failure is recorded per pattern, and the
 failures are mapped to a sparse set of restrictions.
 */
module ChatConstraints {
  import opened Base
  import opened Tokenizers

  /** A probe conversation and the name its result is filed under. */
  datatype Pattern = Pattern(name: string, messages: seq<Message>)

  /** The recorded outcome of one probe: `{'success': True}` or
      `{'error': str(e)}`. */
  datatype ProbeResult = Succeeded | Failed(error: string)

  /** The sparse restriction map: a field is `None` when its key is absent,
      which means "no restriction detected", not "false". */
  datatype Restrictions = Restrictions(
    singleSystemAtStart: Option<bool>,
    maxSystemMessages: Option<int>,
    alternatingTurns: Option<bool>,
    requiresUserLast: Option<bool>,
    allowEmptyMessages: Option<bool>)

  /** The empty map `{}`. */
  const NoRestrictions := Restrictions(None, None, None, None, None)

  /** The eight probe conversations, in the order they are run. */
  const TestPatterns: seq<Pattern> := [
    Pattern("basic", [Message("user", "Hello")]),
    Pattern("with-system", [
      Message("system", "You are a helpful assistant."),
      Message("user", "Hello")]),
    Pattern("multi-system", [
      Message("system", "First system message."),
      Message("system", "Second system message."),
      Message("user", "Hello")]),
    Pattern("consecutive-user", [
      Message("user", "First question"),
      Message("user", "Second question")]),
    Pattern("assistant-last", [
      Message("user", "Hello"),
      Message("assistant", "Hi there!")]),
    Pattern("alternating", [
      Message("user", "Question 1"),
      Message("assistant", "Answer 1"),
      Message("user", "Question 2")]),
    Pattern("empty-message", [Message("user", "")]),
    Pattern("system-middle", [
      Message("user", "First"),
      Message("system", "System in middle"),
      Message("user", "Second")])
  ]

  predicate NamesDistinct(patterns: seq<Pattern>) {
    forall i, j :: 0 <= i < j < |patterns| ==> patterns[i].name != patterns[j].name
  }

  ghost function Names(patterns: seq<Pattern>): set<string> {
    set p | p in patterns :: p.name
  }

  /** The eight probes are filed under eight different names. */
  lemma TestPatternNamesDistinct()
    ensures |TestPatterns| == 8
    ensures NamesDistinct(TestPatterns)
  {
  }

  /** One probe, with its exception caught: rendering never adds the
      generation prompt. */
  function Probe(render: Renderer, p: Pattern): (r: ProbeResult)
    ensures r.Succeeded? <==> render(p.messages, false).Rendered?
    ensures r.Failed? ==> r.error == render(p.messages, false).message
  {
    match render(p.messages, false)
    case Rendered(_) => Succeeded
    case Raised(e) => Failed(e)
  }

  /** The result dictionary: every pattern is probed in turn and its outcome
      stored under its name, a later store overwriting an earlier one. */
  function RunProbes(patterns: seq<Pattern>, render: Renderer): (r: map<string, ProbeResult>)
    decreases |patterns|
    ensures forall i :: 0 <= i < |patterns| ==> patterns[i].name in r
    ensures NamesDistinct(patterns) ==>
              forall i :: 0 <= i < |patterns| ==> r[patterns[i].name] == Probe(render, patterns[i])
  {
    if patterns == [] then map[]
    else
      var init := patterns[..|patterns| - 1];
      var last := patterns[|patterns| - 1];
      assert patterns == init + [last];
      RunProbes(init, render)[last.name := Probe(render, last)]
  }

  /** The result dictionary has exactly one key per pattern name. */
  lemma {:induction false} RunProbesKeys(patterns: seq<Pattern>, render: Renderer)
    decreases |patterns|
    ensures RunProbes(patterns, render).Keys == Names(patterns)
  {
    if patterns != [] {
      var init := patterns[..|patterns| - 1];
      var last := patterns[|patterns| - 1];
      assert patterns == init + [last];
      assert Names(patterns) == Names(init) + {last.name};
      RunProbesKeys(init, render);
    }
  }

  /** The pattern `name` is in the results and recorded an error
      (`x and 'error' in x`); a missing pattern reads as a success. */
  predicate Errored(results: map<string, ProbeResult>, name: string) {
    name in results && results[name].Failed?
  }

  /** The restrictions a result map yields, reading `None` as `{}`. */
  function Found(r: Option<Restrictions>): Restrictions {
    if r.Some? then r.value else NoRestrictions
  }

  /** `_infer_restrictions_from_results`. */
  function InferRestrictions(results: map<string, ProbeResult>): (r: Option<Restrictions>)
    ensures r != Some(NoRestrictions)
    ensures r.None? <==>
              && !Errored(results, "with-system") && !Errored(results, "multi-system")
              && !Errored(results, "consecutive-user") && !Errored(results, "assistant-last")
              && !Errored(results, "empty-message")
    ensures Errored(results, "with-system") ==>
              Found(r).maxSystemMessages == Some(0) && Found(r).singleSystemAtStart.None?
    ensures !Errored(results, "with-system") && Errored(results, "multi-system") ==>
              Found(r).maxSystemMessages == Some(1) && Found(r).singleSystemAtStart == Some(true)
    ensures !Errored(results, "with-system") && !Errored(results, "multi-system") ==>
              Found(r).maxSystemMessages.None? && Found(r).singleSystemAtStart.None?
    ensures Found(r).alternatingTurns.Some? <==> Errored(results, "consecutive-user")
    ensures Found(r).requiresUserLast.Some? <==> Errored(results, "assistant-last")
    ensures Found(r).allowEmptyMessages.Some? <==> Errored(results, "empty-message")
    ensures Found(r).alternatingTurns != Some(false) && Found(r).requiresUserLast != Some(false)
    ensures Found(r).allowEmptyMessages != Some(true)
  {
    var system :=
      if Errored(results, "with-system") then (None, Some(0))
      else if Errored(results, "multi-system") then (Some(true), Some(1))
      else (None, None);
    var found := Restrictions(
      singleSystemAtStart := system.0,
      maxSystemMessages := system.1,
      alternatingTurns := if Errored(results, "consecutive-user") then Some(true) else None,
      requiresUserLast := if Errored(results, "assistant-last") then Some(true) else None,
      allowEmptyMessages := if Errored(results, "empty-message") then Some(false) else None);
    if found == NoRestrictions then None else Some(found)
  }

  /** The `basic`, `alternating` and `system-middle` probes feed no rule:
      whatever they recorded, or whether they ran at all, the inference is
      the same. */
  lemma UnusedProbesIgnored(results: map<string, ProbeResult>, name: string, v: ProbeResult)
    requires name in {"basic", "alternating", "system-middle"}
    ensures InferRestrictions(results[name := v]) == InferRestrictions(results)
    ensures InferRestrictions(results - {name}) == InferRestrictions(results)
  {
    forall key | key in {"with-system", "multi-system", "consecutive-user", "assistant-last", "empty-message"}
      ensures Errored(results[name := v], key) == Errored(results, key)
      ensures Errored(results - {name}, key) == Errored(results, key)
    {
      assert key != name;
    }
  }

  /** A pattern missing from the results counts as a success. */
  lemma MissingMeansSucceeded(results: map<string, ProbeResult>, name: string)
    ensures InferRestrictions(results - {name}) == InferRestrictions(results[name := Succeeded])
  {
    forall key ensures Errored(results - {name}, key) == Errored(results[name := Succeeded], key) {
    }
  }

  /** `detect_chat_restrictions`: `None` when there is no renderer at all,
      otherwise the inference over the eight probe results. */
  function DetectChatRestrictions(tok: Tokenizer): (r: Option<Restrictions>)
    ensures tok.applyChatTemplate.None? ==> r.None?
    ensures r != Some(NoRestrictions)
  {
    match tok.applyChatTemplate
    case None => None
    case Some(render) => InferRestrictions(RunProbes(TestPatterns, render))
  }

  /** Distinct names give one result entry per pattern. */
  lemma {:induction false} DistinctNamesCount(patterns: seq<Pattern>)
    requires NamesDistinct(patterns)
    ensures |Names(patterns)| == |patterns|
    decreases |patterns|
  {
    if patterns != [] {
      var init := patterns[..|patterns| - 1];
      var last := patterns[|patterns| - 1];
      assert patterns == init + [last];
      assert Names(patterns) == Names(init) + {last.name};
      forall i | 0 <= i < |init| ensures init[i].name != last.name {
        assert init[i] == patterns[i];
      }
      assert last.name !in Names(init);
      DistinctNamesCount(init);
    }
  }

  /** With a renderer, all eight patterns are probed, each outcome is kept
      under its own name, and the result is the inference over them. */
  lemma DetectProbesEveryPattern(tok: Tokenizer)
    requires tok.applyChatTemplate.Some?
    ensures var results := RunProbes(TestPatterns, tok.applyChatTemplate.value);
            && |results.Keys| == 8
            && (forall i :: 0 <= i < 8 ==>
                  && TestPatterns[i].name in results
                  && results[TestPatterns[i].name] == Probe(tok.applyChatTemplate.value, TestPatterns[i]))
            && DetectChatRestrictions(tok) == InferRestrictions(results)
  {
    TestPatternNamesDistinct();
    DistinctNamesCount(TestPatterns);
    RunProbesKeys(TestPatterns, tok.applyChatTemplate.value);
  }

  /** A probe that raises is recorded as an error under its own name. */
  lemma ErroredWhenRaised(patterns: seq<Pattern>, render: Renderer, i: nat)
    requires NamesDistinct(patterns) && i < |patterns|
    requires render(patterns[i].messages, false).Raised?
    ensures Errored(RunProbes(patterns, render), patterns[i].name)
  {
  }

  /** The system-message rule read straight off the renderer: a renderer
      that rejects a leading system message yields `max_system_messages = 0`
      whatever it does with two of them. */
  lemma SystemRejectedMeansNoSystem(tok: Tokenizer)
    requires tok.applyChatTemplate.Some?
    requires tok.applyChatTemplate.value(TestPatterns[1].messages, false).Raised?
    ensures DetectChatRestrictions(tok).Some?
    ensures DetectChatRestrictions(tok).value.maxSystemMessages == Some(0)
    ensures DetectChatRestrictions(tok).value.singleSystemAtStart.None?
  {
    TestPatternNamesDistinct();
    ErroredWhenRaised(TestPatterns, tok.applyChatTemplate.value, 1);
  }
}
