/**
 How the driver turns a conversation into a prompt: through the tokenizer's
 chat template when one is configured (optionally forcing the reply to start
 with a primer), or through the driver's own HTML-comment block format
 otherwise. Also the `format_test` report, which runs the same formatting
 without generating.
 */
module PromptFormat {
  import opened Base
  import opened PyStr
  import opened Tokenizers

  /** A chat template is used only when the tokenizer has a renderer AND a
      configured `chat_template`; a renderer alone would raise. */
  predicate SupportsChatTemplate(tok: Tokenizer) {
    tok.applyChatTemplate.Some? && tok.chatTemplate.Some?
  }

  // ---------------------------------------------------------------------
  // Fallback block format

  /** The role as written in the block markers: `system` is upper-cased,
      every other role is written as given. */
  function Label(role: string): string {
    if role == "system" then "SYSTEM" else role
  }

  function BeginMarker(role: string): string {
    "<!-- begin of " + Label(role) + " -->"
  }

  function EndMarker(role: string): string {
    "<!-- end of " + Label(role) + " -->"
  }

  /** The three lines contributed by one message, in order. */
  function Lines(m: Message): seq<string> {
    [BeginMarker(m.role), Strip(m.content), EndMarker(m.role)]
  }

  /** The lines of all messages, in order. */
  function Parts(messages: seq<Message>): seq<string> {
    if messages == [] then []
    else Parts(messages[..|messages| - 1]) + Lines(messages[|messages| - 1])
  }

  /** `generate_merged_prompt`: all lines joined by newlines, which is the
      messages' three-line blocks joined by newlines. */
  function MergedPrompt(messages: seq<Message>): (r: string)
    ensures r == Join(Blocks(messages), "\n")
  {
    JoinedPartsAreBlocks(messages);
    Join(Parts(messages), "\n")
  }

  /** One message as a block of three lines. */
  function Block(m: Message): string {
    BeginMarker(m.role) + "\n" + Strip(m.content) + "\n" + EndMarker(m.role)
  }

  /** The blocks of the messages, in order. */
  function Blocks(messages: seq<Message>): (r: seq<string>)
    ensures |r| == |messages|
    ensures forall i :: 0 <= i < |messages| ==> r[i] == Block(messages[i])
  {
    seq(|messages|, i requires 0 <= i < |messages| => Block(messages[i]))
  }

  lemma PartsAppend(messages: seq<Message>, m: Message)
    ensures Parts(messages + [m]) == Parts(messages) + Lines(m)
  {
    assert (messages + [m])[..|messages|] == messages;
  }

  lemma BlocksAppend(init: seq<Message>, last: Message)
    ensures Blocks(init + [last]) == Blocks(init) + [Block(last)]
  {
    var messages := init + [last];
    var bs := Blocks(messages);
    var want := Blocks(init) + [Block(last)];
    assert |bs| == |want|;
    forall i | 0 <= i < |bs| ensures bs[i] == want[i] {
      if i < |init| {
        assert messages[i] == init[i];
        assert want[i] == Blocks(init)[i];
      } else {
        assert messages[i] == last;
        assert want[i] == Block(last);
      }
    }
    assert bs == want;
  }

  /** The lines joined by newlines are the blocks joined by newlines. */
  lemma {:induction false} JoinedPartsAreBlocks(messages: seq<Message>)
    ensures Join(Parts(messages), "\n") == Join(Blocks(messages), "\n")
    decreases |messages|
  {
    if |messages| == 1 {
      var m := messages[0];
      assert Parts(messages) == Lines(m) by {
        assert messages[..0] == [];
      }
      JoinThree(BeginMarker(m.role), Strip(m.content), EndMarker(m.role), "\n");
      assert Blocks(messages) == [Block(m)];
    } else if |messages| > 1 {
      var init := messages[..|messages| - 1];
      var last := messages[|messages| - 1];
      assert messages == init + [last];
      JoinedPartsAreBlocks(init);
      PartsAppend(init, last);
      JoinConcat(Parts(init), Lines(last), "\n");
      JoinThree(BeginMarker(last.role), Strip(last.content), EndMarker(last.role), "\n");
      BlocksAppend(init, last);
      JoinConcat(Blocks(init), [Block(last)], "\n");
    }
  }

  /** The merged prompt of no messages is empty. */
  lemma MergedPromptEmpty()
    ensures MergedPrompt([]) == ""
  {
  }

  /** Appending a message appends a newline and that message's block. */
  lemma MergedPromptAppend(messages: seq<Message>, m: Message)
    requires messages != []
    ensures MergedPrompt(messages + [m]) == MergedPrompt(messages) + "\n" + Block(m)
  {
    BlocksAppend(messages, m);
    JoinConcat(Blocks(messages), [Block(m)], "\n");
  }

  // ---------------------------------------------------------------------
  // Primer

  /** The primer as the driver sees it: absent (missing or `null`), a
      string, or some other JSON value. */
  datatype Primer = Absent | Given(text: string) | NotText

  function PrimerOf(j: Json): (r: Primer)
    ensures r == Absent <==> j.Null?
    ensures r.Given? <==> j.Str?
    ensures r.Given? ==> r.text == j.text
  {
    match j
    case Null => Absent
    case Str(s) => Given(s)
    case _ => NotText
  }

  /** Why formatting raised. */
  datatype Failure =
    | RendererRaised(message: string)  // the chat template raised
    | EmptySeparator                   // `split("")` on an empty primer
    | NotTextPrimer                    // a primer that is not a string

  /** `str(e)` for each failure. The last is a stand-in: for a primer that
      is not a string, the fallback path raises a `TypeError` from `+=`;
      the template path raises the renderer's own exception if rendering
      the non-string turn raises, and otherwise an `AttributeError` from
      `primer.join`. The model does not render in this case. */
  function ErrorText(f: Failure): string {
    match f
    case RendererRaised(m) => m
    case EmptySeparator => "empty separator"
    case NotTextPrimer => "primer must be a string"
  }

  /** `primer.join(prompt.split(primer)[0:-1]) + primer`: cut the rendered
      prompt at the last match of the primer and end it with the primer, so
      that generation continues right after it. */
  function SplicePrimer(prompt: string, primer: string): (r: Result<string, Failure>)
    ensures r.Err? <==> primer == ""
    ensures r.Err? ==> r.error == EmptySeparator
  {
    if primer == "" then Err(EmptySeparator)
    else
      var pieces := Split(prompt, primer);
      Ok(Join(pieces[..|pieces| - 1], primer) + primer)
  }

  /** What the splice produces. Without a match it is the primer alone;
      otherwise it is the prompt up to the last match of the left-to-right
      scan, followed by the primer, and no match of the primer starts after
      that one ends. */
  lemma SplicePrimerSpec(prompt: string, primer: string)
    requires primer != ""
    ensures SplicePrimer(prompt, primer).Ok?
    ensures !Contains(prompt, primer) ==> SplicePrimer(prompt, primer).value == primer
    ensures Contains(prompt, primer) ==>
              && LastMatch(prompt, primer).Some?
              && Occurs(prompt, primer, LastMatch(prompt, primer).value)
              && SplicePrimer(prompt, primer).value
                 == prompt[..LastMatch(prompt, primer).value] + primer
              && (forall k: nat :: LastMatch(prompt, primer).value + |primer| <= k ==>
                    !Occurs(prompt, primer, k))
  {
    LastMatchSpec(prompt, primer);
    SplitAtLast(prompt, primer);
    var pieces := Split(prompt, primer);
    if |pieces| == 1 {
      assert pieces[..0] == [];
    } else {
      var head := Join(pieces[..|pieces| - 1], primer);
      assert prompt[..|head|] == head;
    }
  }

  /** Splicing keeps the whole primer at the end, and what precedes it is a
      prefix of the rendered prompt. */
  lemma SplicePrimerEndsWithPrimer(prompt: string, primer: string)
    requires primer != ""
    ensures var r := SplicePrimer(prompt, primer).value;
            && |primer| <= |r|
            && r[|r| - |primer|..] == primer
            && r[..|r| - |primer|] <= prompt
  {
    SplicePrimerSpec(prompt, primer);
    LastMatchSpec(prompt, primer);
  }

  /** The scan that `split` performs does not find the last occurrence when
      matches overlap: with primer `aa` in `aaa` the match at index 1 is
      skipped, so the prompt is cut to `aa`, not `aaa`. */
  lemma SpliceSkipsOverlappingMatch()
    ensures Occurs("aaa", "aa", 1)
    ensures SplicePrimer("aaa", "aa") == Ok("aa")
  {
    assert Find("aaa", "aa", 0) == Some(0);
    assert Find("a", "aa", 0) == None;
    assert Split("aaa", "aa") == ["", "a"];
  }

  // ---------------------------------------------------------------------
  // Prompt construction

  function RenderResult(o: RenderOutcome): (r: Result<string, Failure>)
    ensures r.Ok? <==> o.Rendered?
    ensures r.Ok? ==> r.value == o.text
    ensures r.Err? ==> r.error == RendererRaised(o.message)
  {
    match o
    case Rendered(t) => Ok(t)
    case Raised(e) => Err(RendererRaised(e))
  }

  /** The template path. Without a primer the generation prompt is added;
      with one, the primer is appended as an assistant turn, rendered
      without the generation prompt, and the result is cut after the
      primer. */
  function TemplatePrompt(render: Renderer, messages: seq<Message>, primer: Primer): (r: Result<string, Failure>)
    ensures primer == Absent ==> r == RenderResult(render(messages, true))
    ensures primer == NotText ==> r == Err(NotTextPrimer)
    ensures primer.Given? ==>
              var o := render(messages + [Message("assistant", primer.text)], false);
              && (r.Ok? <==> o.Rendered? && primer.text != "")
              && (o.Raised? ==> r == Err(RendererRaised(o.message)))
              && (o.Rendered? && primer.text == "" ==> r == Err(EmptySeparator))
              && (r.Ok? ==> r.value == SplicePrimer(o.text, primer.text).value)
  {
    match primer
    case Absent => RenderResult(render(messages, true))
    case NotText => Err(NotTextPrimer)
    case Given(p) =>
      match render(messages + [Message("assistant", p)], false)
      case Raised(e) => Err(RendererRaised(e))
      case Rendered(t) => SplicePrimer(t, p)
  }

  /** The fallback path: the merged prompt, with the primer appended
      verbatim. */
  function FallbackPrompt(messages: seq<Message>, primer: Primer): (r: Result<string, Failure>)
    ensures r.Err? <==> primer == NotText
    ensures r.Err? ==> r.error == NotTextPrimer
    ensures primer == Absent ==> r == Ok(MergedPrompt(messages))
    ensures primer.Given? ==>
              && r.Ok? && |r.value| == |MergedPrompt(messages)| + |primer.text|
              && r.value[..|MergedPrompt(messages)|] == MergedPrompt(messages)
              && r.value[|MergedPrompt(messages)|..] == primer.text
  {
    match primer
    case Absent => Ok(MergedPrompt(messages))
    case Given(p) => Ok(MergedPrompt(messages) + p)
    case NotText => Err(NotTextPrimer)
  }

  /** The prompt `chat` generates from. */
  function ChatPrompt(tok: Tokenizer, messages: seq<Message>, primer: Primer): (r: Result<string, Failure>)
    ensures SupportsChatTemplate(tok) ==> r == TemplatePrompt(tok.applyChatTemplate.value, messages, primer)
    ensures !SupportsChatTemplate(tok) ==> r == FallbackPrompt(messages, primer)
  {
    if SupportsChatTemplate(tok) then TemplatePrompt(tok.applyChatTemplate.value, messages, primer)
    else FallbackPrompt(messages, primer)
  }

  /** A renderer without a configured template is never called: the
      fallback format is used even though the tokenizer can render. */
  lemma RendererWithoutTemplateFallsBack(tok: Tokenizer, messages: seq<Message>, primer: Primer)
    requires tok.applyChatTemplate.Some? && tok.chatTemplate.None?
    ensures ChatPrompt(tok, messages, primer) == FallbackPrompt(messages, primer)
  {
  }

  // ---------------------------------------------------------------------
  // format_test

  /** `{formatted_prompt, template_applied, model_specific_processing,
      error}`. */
  datatype FormatTestResult = FormatTestResult(
    formattedPrompt: Option<string>,
    templateApplied: bool,
    modelSpecific: Option<seq<Message>>,
    error: Option<string>)

  /** The primer turn the template path appends to the caller's list. */
  function PrimerTurn(primer: Primer): seq<Message> {
    if primer.Given? then [Message("assistant", primer.text)] else []
  }

  /** `handle_format_test`. The primer is read from `options["primer"]`.
      On the template path `model_specific_processing` is the caller's list,
      which by the time the report is written also holds the appended primer
      turn, and it is reported even when formatting raised. */
  function FormatTest(tok: Tokenizer, messages: seq<Message>, options: map<string, Json>): (r: FormatTestResult)
    ensures r.formattedPrompt.Some? <==> r.error.None?
    ensures r.templateApplied <==> SupportsChatTemplate(tok) && r.error.None?
    ensures r.modelSpecific.Some? <==> SupportsChatTemplate(tok)
    ensures r.modelSpecific.Some? ==>
              r.modelSpecific.value == messages + PrimerTurn(PrimerOf(Get(options, "primer")))
  {
    var primer := PrimerOf(Get(options, "primer"));
    var prompt := ChatPrompt(tok, messages, primer);
    var specific := if SupportsChatTemplate(tok) then Some(messages + PrimerTurn(primer)) else None;
    match prompt
    case Ok(text) => FormatTestResult(Some(text), SupportsChatTemplate(tok), specific, None)
    case Err(f) => FormatTestResult(None, false, specific, Some(ErrorText(f)))
  }

  /** `format_test` reports exactly the prompt `chat` would generate from
      when given the same primer, or the error `chat` would hit. */
  lemma FormatTestAgreesWithChat(tok: Tokenizer, messages: seq<Message>, options: map<string, Json>)
    ensures var r := FormatTest(tok, messages, options);
            var c := ChatPrompt(tok, messages, PrimerOf(Get(options, "primer")));
            && (r.formattedPrompt.Some? <==> c.Ok?)
            && (c.Ok? ==> r.formattedPrompt.value == c.value)
            && (c.Err? ==> r.error == Some(ErrorText(c.error)))
  {
  }
}
