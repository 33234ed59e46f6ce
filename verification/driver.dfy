/**
 The driver's request loop: requests are read from standard input as JSON
 documents spanning one or more lines, each is answered on standard output,
 and every answer ends with a NUL character (the frame delimiter). Generated
 text is streamed chunk by chunk until the first end-of-document chunk.
 */
module Driver {
  import opened Base
  import opened PyStr
  import opened Tokenizers
  import opened TokenUtils
  import opened PromptFormat

  // ---------------------------------------------------------------------
  // Generation

  /** `stream_generate(model, tokenizer, prompt, **options)`, as the finite
      list of chunks it yields for a prompt and the final options. */
  type Generator = (string, map<string, Json>) -> seq<Chunk>

  /** The default generation options. */
  const DefaultMaxTokens: Json := Int(1000)

  /** `{**{'max_tokens': 1000}, **options}`: the caller's options, with
      `max_tokens` defaulting to 1000 when the caller did not set it. */
  function FinalOptions(options: map<string, Json>): (r: map<string, Json>)
    ensures r.Keys == options.Keys + {"max_tokens"}
    ensures forall k :: k in options ==> r[k] == options[k]
    ensures "max_tokens" !in options ==> r["max_tokens"] == DefaultMaxTokens
  {
    map["max_tokens" := DefaultMaxTokens] + options
  }

  /** The frame delimiter written after a generation, an error or a
      rejected request: `print('\n', end='\0')`. */
  const EndOfReply: string := "\n\0"

  /** The writes `generate_text` makes for a chunk stream: the text of every
      chunk before the first end-of-document chunk, with NUL characters
      removed, and then the delimiter, whether the stream stopped at an
      end-of-document chunk or simply ran out. */
  function StreamWrites(chunks: seq<Chunk>, tok: Tokenizer): (r: seq<string>)
    decreases |chunks|
    ensures 1 <= |r| <= |chunks| + 1
    ensures r[|r| - 1] == EndOfReply
  {
    if chunks == [] then [EndOfReply]
    else if IsEod(chunks[0], tok) then [EndOfReply]
    else [RemoveChar(chunks[0].text, '\0')] + StreamWrites(chunks[1..], tok)
  }

  /** Writes are made exactly for the chunks before the first end of
      document, one per chunk and in order, each the chunk's text without
      NUL characters; the stream stops at that chunk or at the end. */
  lemma {:induction false} StreamWritesSpec(chunks: seq<Chunk>, tok: Tokenizer)
    decreases |chunks|
    ensures var r := StreamWrites(chunks, tok);
            && (forall i :: 0 <= i < |r| - 1 ==>
                  !IsEod(chunks[i], tok) && r[i] == RemoveChar(chunks[i].text, '\0'))
            && (|r| - 1 < |chunks| ==> IsEod(chunks[|r| - 1], tok))
  {
    if chunks != [] && !IsEod(chunks[0], tok) {
      StreamWritesSpec(chunks[1..], tok);
      var r := StreamWrites(chunks, tok);
      var rest := StreamWrites(chunks[1..], tok);
      assert r == [RemoveChar(chunks[0].text, '\0')] + rest;
      forall i | 0 < i < |r| - 1
        ensures !IsEod(chunks[i], tok) && r[i] == RemoveChar(chunks[i].text, '\0')
      {
        assert r[i] == rest[i - 1];
        assert chunks[i] == chunks[1..][i - 1];
      }
      if |r| - 1 < |chunks| {
        assert chunks[|r| - 1] == chunks[1..][|rest| - 1];
      }
    }
  }

  /** One step of the stream: an end-of-document chunk ends it, any other
      chunk writes its text and the stream goes on. */
  lemma StreamWritesStep(chunks: seq<Chunk>, i: nat, tok: Tokenizer)
    requires i < |chunks|
    ensures IsEod(chunks[i], tok) ==> StreamWrites(chunks[i..], tok) == [EndOfReply]
    ensures !IsEod(chunks[i], tok) ==>
              StreamWrites(chunks[i..], tok)
              == [RemoveChar(chunks[i].text, '\0')] + StreamWrites(chunks[i + 1..], tok)
  {
    assert chunks[i..][0] == chunks[i];
    assert chunks[i..][1..] == chunks[i + 1..];
  }

  /** `generate_text`, written as the loop it is: stop at the first
      end-of-document chunk, otherwise write the chunk's text, and write the
      delimiter once at the end. */
  method GenerateText(chunks: seq<Chunk>, tok: Tokenizer) returns (writes: seq<string>)
    ensures writes == StreamWrites(chunks, tok)
  {
    writes := [];
    var eosDetected := false;
    var i := 0;
    assert chunks[0..] == chunks;
    while i < |chunks|
      invariant 0 <= i <= |chunks|
      invariant !eosDetected
      invariant writes + StreamWrites(chunks[i..], tok) == StreamWrites(chunks, tok)
      decreases |chunks| - i
    {
      StreamWritesStep(chunks, i, tok);
      if IsEod(chunks[i], tok) {
        eosDetected := true;
        writes := writes + [EndOfReply];
        break;
      }
      writes := writes + [RemoveChar(chunks[i].text, '\0')];
      i := i + 1;
    }
    if !eosDetected {
      assert chunks[i..] == [];
      writes := writes + [EndOfReply];
    }
  }

  /** All writes run together. */
  function Flatten(ws: seq<string>): string {
    if ws == [] then "" else ws[0] + Flatten(ws[1..])
  }

  lemma {:induction false} FlattenAppend(ws: seq<string>, w: string)
    ensures Flatten(ws + [w]) == Flatten(ws) + w
    decreases |ws|
  {
    if ws == [] {
      assert ws + [w] == [w];
    } else {
      assert (ws + [w])[0] == ws[0];
      assert (ws + [w])[1..] == ws[1..] + [w];
      FlattenAppend(ws[1..], w);
    }
  }

  lemma {:induction false} FlattenNoNul(ws: seq<string>)
    requires forall i :: 0 <= i < |ws| ==> '\0' !in ws[i]
    ensures '\0' !in Flatten(ws)
    decreases |ws|
  {
    if ws != [] {
      FlattenNoNul(ws[1..]);
      CountAbsent(ws[0], '\0');
      CountAbsent(Flatten(ws[1..]), '\0');
      CountConcat(ws[0], Flatten(ws[1..]), '\0');
      CountAbsent(Flatten(ws), '\0');
    }
  }

  /** The generated text of one reply holds exactly one NUL, its last
      character, so the reader can split replies on NUL. */
  lemma StreamOutputHasOneNul(chunks: seq<Chunk>, tok: Tokenizer)
    ensures var out := Flatten(StreamWrites(chunks, tok));
            && |out| >= 2
            && out[|out| - 2..] == EndOfReply
            && Count(out, '\0') == 1
  {
    var ws := StreamWrites(chunks, tok);
    StreamWritesSpec(chunks, tok);
    var body := ws[..|ws| - 1];
    assert ws == body + [EndOfReply];
    FlattenAppend(body, EndOfReply);
    forall i | 0 <= i < |body| ensures '\0' !in body[i] {
      assert body[i] == RemoveChar(chunks[i].text, '\0');
    }
    FlattenNoNul(body);
    CountAbsent(Flatten(body), '\0');
    CountConcat(Flatten(body), EndOfReply, '\0');
    assert Count(EndOfReply, '\0') == 1 by {
      assert EndOfReply[1..][1..] == [];
    }
  }

  // ---------------------------------------------------------------------
  // Replies

  /** A JSON document the driver prints (`json.dumps`), which never holds a
      raw NUL since `json.dumps` escapes control characters. */
  datatype Document = CapabilitiesDoc(capabilities: Capabilities) | FormatTestDoc(report: FormatTestResult)

  /** One `print` to standard output: text as is, or a JSON document
      followed by NUL (`end='\0'`). */
  datatype Write = Text(text: string) | Doc(doc: Document)

  /** The reply to a request the driver rejects: the delimiter alone. */
  const Rejected: seq<Write> := [Text(EndOfReply)]

  function Texts(ws: seq<string>): (r: seq<Write>)
    ensures |r| == |ws|
    ensures forall i :: 0 <= i < |ws| ==> r[i] == Text(ws[i])
  {
    seq(|ws|, i requires 0 <= i < |ws| => Text(ws[i]))
  }

  /** A reply is well framed when it ends with the delimiter (or with a
      document, which carries its own NUL) and no earlier write holds a NUL. */
  predicate Framed(ws: seq<Write>) {
    && |ws| >= 1
    && (ws[|ws| - 1] == Text(EndOfReply) || ws[|ws| - 1].Doc?)
    && forall i :: 0 <= i < |ws| - 1 ==> ws[i].Text? && '\0' !in ws[i].text
  }

  lemma StreamFramed(chunks: seq<Chunk>, tok: Tokenizer)
    ensures Framed(Texts(StreamWrites(chunks, tok)))
  {
    var ws := StreamWrites(chunks, tok);
    StreamWritesSpec(chunks, tok);
    var r := Texts(ws);
    forall i | 0 <= i < |r| - 1 ensures r[i].Text? && '\0' !in r[i].text {
      assert r[i] == Text(ws[i]);
      assert ws[i] == RemoveChar(chunks[i].text, '\0');
    }
    assert r[|r| - 1] == Text(EndOfReply);
  }

  /** The fields of a request object the driver reads (`methodName` is the
      `method` field). `messages`, `prompt`
      and `options` are `None` when missing or `null`. */
  datatype Request = Request(
    methodName: Json,
    messages: Option<seq<Message>>,
    primer: Json,
    prompt: Option<string>,
    options: Option<map<string, Json>>)

  /** `req.get('options', {})`, with a `null` read as `{}` as the handlers do. */
  function OptionsOf(req: Request): map<string, Json> {
    if req.options.Some? then req.options.value else map[]
  }

  /** `not messages`: missing, `null` or an empty list. */
  predicate NoMessages(req: Request) {
    req.messages.None? || req.messages.value == []
  }

  /** `not prompt`: missing, `null` or empty. */
  predicate NoPrompt(req: Request) {
    req.prompt.None? || req.prompt.value == ""
  }

  /** The primer echo, written before the generated text. */
  function Echo(primer: Primer): seq<Write> {
    if primer.Given? then [Text(primer.text)] else []
  }

  /** Text without a NUL may precede a well-framed reply. */
  lemma FramedAfterText(t: string, ws: seq<Write>)
    ensures '\0' !in t && Framed(ws) ==> Framed([Text(t)] + ws)
  {
    if '\0' !in t && Framed(ws) {
      var r := [Text(t)] + ws;
      forall i | 0 <= i < |r| - 1 ensures r[i].Text? && '\0' !in r[i].text {
        if i > 0 {
          assert r[i] == ws[i - 1];
        }
      }
    }
  }

  /** `handle_completion`: the generation streamed from the prompt. */
  function CompletionReply(prompt: string, options: map<string, Json>, tok: Tokenizer,
                           generate: Generator): (r: seq<Write>)
    ensures r == Texts(StreamWrites(generate(prompt, FinalOptions(options)), tok))
    ensures Framed(r) && r[|r| - 1] == Text(EndOfReply)
  {
    StreamFramed(generate(prompt, FinalOptions(options)), tok);
    Texts(StreamWrites(generate(prompt, FinalOptions(options)), tok))
  }

  /** `handle_chat`: a formatting error rejects the request before anything
      is written (it is caught in the request loop); otherwise the primer is
      echoed and the generation streamed. */
  function ChatReply(tok: Tokenizer, messages: seq<Message>, primer: Json,
                     options: map<string, Json>, generate: Generator): (r: seq<Write>)
    ensures ChatPrompt(tok, messages, PrimerOf(primer)).Err? ==> r == Rejected
    ensures ChatPrompt(tok, messages, PrimerOf(primer)).Ok? ==>
              && |r| >= 1 && r[|r| - 1] == Text(EndOfReply)
              && (PrimerOf(primer).Given? ==> r[0] == Text(primer.text))
    ensures !(primer.Str? && '\0' in primer.text) ==> Framed(r)
  {
    match ChatPrompt(tok, messages, PrimerOf(primer))
    case Err(_) => Rejected
    case Ok(prompt) =>
      var stream := CompletionReply(prompt, options, tok, generate);
      if primer.Str? then
        FramedAfterText(primer.text, stream);
        [Text(primer.text)] + stream
      else stream
  }

  /** A `chat` request whose primer would write a NUL of its own; no other
      method echoes the primer. */
  predicate EchoUnsafe(req: Request) {
    req.methodName == Str("chat") && req.primer.Str? && '\0' in req.primer.text
  }

  /** The reply to one request object. */
  function Respond(req: Request, tok: Tokenizer, generate: Generator): (r: seq<Write>)
    ensures !EchoUnsafe(req) ==> Framed(r)
    ensures !Truthy(req.methodName) ==> r == Rejected
    ensures Truthy(req.methodName)
            && req.methodName !in {Str("capabilities"), Str("format_test"), Str("chat"), Str("completion")}
            ==> r == Rejected
    ensures req.methodName in {Str("format_test"), Str("chat")} && NoMessages(req) ==> r == Rejected
    ensures req.methodName == Str("completion") && NoPrompt(req) ==> r == Rejected
  {
    if !Truthy(req.methodName) then Rejected
    else if req.methodName == Str("capabilities") then [Doc(CapabilitiesDoc(GetCapabilities(tok)))]
    else if req.methodName == Str("format_test") then
      if NoMessages(req) then Rejected
      else [Doc(FormatTestDoc(FormatTest(tok, req.messages.value, OptionsOf(req))))]
    else if req.methodName == Str("chat") then
      if NoMessages(req) then Rejected
      else ChatReply(tok, req.messages.value, req.primer, OptionsOf(req), generate)
    else if req.methodName == Str("completion") then
      if NoPrompt(req) then Rejected
      else CompletionReply(req.prompt.value, OptionsOf(req), tok, generate)
    else Rejected
  }

  /** Only `capabilities` and `format_test` answer with a JSON document;
      every other reply ends with the delimiter. */
  lemma DocumentRepliesOnly(req: Request, tok: Tokenizer, generate: Generator)
    ensures var r := Respond(req, tok, generate);
            r[|r| - 1].Doc? <==>
              req.methodName == Str("capabilities") || (req.methodName == Str("format_test") && !NoMessages(req))
  {
  }

  /** A `capabilities` request is answered with the capabilities document. */
  lemma RespondCapabilities(req: Request, tok: Tokenizer, generate: Generator)
    requires req.methodName == Str("capabilities")
    ensures Respond(req, tok, generate) == [Doc(CapabilitiesDoc(GetCapabilities(tok)))]
  {
  }

  /** A `format_test` request with messages is answered with the report of
      `handle_format_test` over its messages and options. */
  lemma RespondFormatTest(req: Request, tok: Tokenizer, generate: Generator)
    requires req.methodName == Str("format_test") && !NoMessages(req)
    ensures Respond(req, tok, generate)
            == [Doc(FormatTestDoc(FormatTest(tok, req.messages.value, OptionsOf(req))))]
  {
    assert req.methodName != Str("capabilities");
  }

  /** A `completion` request with a prompt streams the generation from
      that prompt, with the final options. */
  lemma RespondCompletion(req: Request, tok: Tokenizer, generate: Generator)
    requires req.methodName == Str("completion") && !NoPrompt(req)
    ensures Respond(req, tok, generate)
            == Texts(StreamWrites(generate(req.prompt.value, FinalOptions(OptionsOf(req))), tok))
  {
    assert req.methodName != Str("capabilities") && req.methodName != Str("format_test");
    assert req.methodName != Str("chat");
  }

  /** A `chat` request with messages is answered by `handle_chat`. */
  lemma RespondChat(req: Request, tok: Tokenizer, generate: Generator)
    requires req.methodName == Str("chat") && !NoMessages(req)
    ensures Respond(req, tok, generate)
            == ChatReply(tok, req.messages.value, req.primer, OptionsOf(req), generate)
  {
    assert req.methodName != Str("capabilities") && req.methodName != Str("format_test");
  }

  /** `chat` answers from the template or the fallback prompt: the primer
      first, then the stream generated from that prompt with the final
      options. */
  lemma ChatStreamsFromChatPrompt(req: Request, tok: Tokenizer, generate: Generator)
    requires req.methodName == Str("chat") && !NoMessages(req)
    requires ChatPrompt(tok, req.messages.value, PrimerOf(req.primer)).Ok?
    ensures var prompt := ChatPrompt(tok, req.messages.value, PrimerOf(req.primer)).value;
            Respond(req, tok, generate)
            == Echo(PrimerOf(req.primer)) + Texts(StreamWrites(generate(prompt, FinalOptions(OptionsOf(req))), tok))
  {
    RespondChat(req, tok, generate);
    var prompt := ChatPrompt(tok, req.messages.value, PrimerOf(req.primer)).value;
    var stream := CompletionReply(prompt, OptionsOf(req), tok, generate);
    if req.primer.Str? {
      assert PrimerOf(req.primer).Given?;
      assert Echo(PrimerOf(req.primer)) == [Text(req.primer.text)];
    } else {
      assert Echo(PrimerOf(req.primer)) == [];
    }
  }

  /** A chat primer holding a NUL breaks the framing whenever the prompt
      can be formatted: the primer is echoed verbatim, so the reader sees a
      delimiter before the generated text. */
  lemma NulPrimerBreaksFraming(req: Request, tok: Tokenizer, generate: Generator)
    requires req.methodName == Str("chat") && !NoMessages(req)
    requires req.primer.Str? && '\0' in req.primer.text
    requires ChatPrompt(tok, req.messages.value, PrimerOf(req.primer)).Ok?
    ensures !Framed(Respond(req, tok, generate))
  {
    RespondChat(req, tok, generate);
    var r := Respond(req, tok, generate);
    assert r[0] == Text(req.primer.text);
  }

  /** When the template render raises, nothing is echoed: the reply is the
      bare delimiter, whatever the primer holds. */
  lemma RenderFailureRejectsChat(req: Request, tok: Tokenizer, generate: Generator)
    requires req.methodName == Str("chat") && !NoMessages(req) && req.primer.Str?
    requires SupportsChatTemplate(tok)
    requires tok.applyChatTemplate.value(
               req.messages.value + [Message("assistant", req.primer.text)], false).Raised?
    ensures Respond(req, tok, generate) == Rejected
    ensures Framed(Respond(req, tok, generate))
  {
    RespondChat(req, tok, generate);
  }

  /** Without a chat template every primer can be formatted, so a NUL in
      it always breaks the framing. */
  lemma NulPrimerWithoutTemplate(req: Request, tok: Tokenizer, generate: Generator)
    requires req.methodName == Str("chat") && !NoMessages(req)
    requires req.primer.Str? && '\0' in req.primer.text
    requires !SupportsChatTemplate(tok)
    ensures !Framed(Respond(req, tok, generate))
  {
    NulPrimerBreaksFraming(req, tok, generate);
  }

  /** `chat` formats through the chat template exactly when it is
      advertised and a template is configured; advertising alone is not
      enough (see below). */
  lemma TemplateSupportAdvertisesChat(tok: Tokenizer)
    ensures SupportsChatTemplate(tok) <==>
              "chat" in GetCapabilities(tok).methods && tok.chatTemplate.Some?
  {
  }

  /** A renderer without a configured template: `chat` is advertised and
      answered from the fallback block format, with a string primer appended
      to the prompt and echoed first. */
  lemma ChatAdvertisedWithoutTemplate(req: Request, tok: Tokenizer, generate: Generator)
    requires tok.applyChatTemplate.Some? && tok.chatTemplate.None?
    requires req.methodName == Str("chat") && !NoMessages(req)
    requires req.primer.Null? || req.primer.Str?
    ensures "chat" in GetCapabilities(tok).methods
    ensures req.primer.Null? ==>
              Respond(req, tok, generate)
              == Texts(StreamWrites(generate(MergedPrompt(req.messages.value), FinalOptions(OptionsOf(req))), tok))
    ensures req.primer.Str? ==>
              Respond(req, tok, generate)
              == [Text(req.primer.text)]
                 + Texts(StreamWrites(generate(MergedPrompt(req.messages.value) + req.primer.text,
                                               FinalOptions(OptionsOf(req))), tok))
  {
    var msgs := req.messages.value;
    var primer := PrimerOf(req.primer);
    RespondChat(req, tok, generate);
    RendererWithoutTemplateFallsBack(tok, msgs, primer);
    if req.primer.Null? {
      assert ChatPrompt(tok, msgs, primer) == Ok(MergedPrompt(msgs));
      assert ChatReply(tok, msgs, req.primer, OptionsOf(req), generate)
             == CompletionReply(MergedPrompt(msgs), OptionsOf(req), tok, generate);
    } else {
      assert ChatPrompt(tok, msgs, primer) == Ok(MergedPrompt(msgs) + req.primer.text);
      assert ChatReply(tok, msgs, req.primer, OptionsOf(req), generate)
             == [Text(req.primer.text)]
                + CompletionReply(MergedPrompt(msgs) + req.primer.text, OptionsOf(req), tok, generate);
    }
  }

  // ---------------------------------------------------------------------
  // Reading requests

  /** A decoded JSON document: an object (the request), `null`, or any
      other value. */
  datatype Top = Object(request: Request) | NullValue | OtherValue

  /** `json.loads` on the accumulated text. */
  datatype Decoded = Invalid | Valid(top: Top)

  type Parser = string -> Decoded

  /** `k` is where one `readline` leaves off: just after a newline, or at
      the end of the input. */
  predicate LineBoundary(input: string, k: nat) {
    0 < k <= |input| && (k == |input| || input[k - 1] == '\n')
  }

  /** The document read and how many characters it consumed, or nothing
      when the input ran out first. */
  datatype ReadResult = Got(top: Top, consumed: nat) | Exhausted

  /** `read()` from the `k`-th character on: lines are accumulated and the
      text decoded after each one; the first text that decodes is the
      document. */
  function ReadFrom(input: string, parse: Parser, k: nat): (r: ReadResult)
    requires k >= 1
    decreases |input| + 1 - k
    ensures r.Got? ==>
              && k <= r.consumed && LineBoundary(input, r.consumed)
              && parse(input[..r.consumed]) == Valid(r.top)
              && forall j :: k <= j < r.consumed && LineBoundary(input, j) ==> parse(input[..j]).Invalid?
    ensures r.Exhausted? ==>
              forall j :: k <= j <= |input| && LineBoundary(input, j) ==> parse(input[..j]).Invalid?
  {
    if k > |input| then Exhausted
    else if LineBoundary(input, k) && parse(input[..k]).Valid? then Got(parse(input[..k]).top, k)
    else ReadFrom(input, parse, k + 1)
  }

  /** `read()`: the shortest run of whole lines that decodes. The empty
      text never decodes, so reading at the end of input gives nothing. */
  function Read(input: string, parse: Parser): (r: ReadResult)
    ensures r.Got? ==>
              && LineBoundary(input, r.consumed)
              && parse(input[..r.consumed]) == Valid(r.top)
              && forall j :: 0 < j < r.consumed && LineBoundary(input, j) ==> parse(input[..j]).Invalid?
    ensures r.Exhausted? <==> forall j: nat :: LineBoundary(input, j) ==> parse(input[..j]).Invalid?
  {
    ReadFrom(input, parse, 1)
  }

  /** How the loop ends: the input ran out (or never again decoded), a
      `null` document stopped it, or a document that is not an object made
      `req.get` raise outside the handler's `try`. */
  datatype Ending = EndOfInput | NullRequest | Crashed

  datatype Session = Session(requests: seq<Request>, replies: seq<seq<Write>>, ending: Ending)

  /** `main`: read, answer, repeat. */
  function Serve(input: string, parse: Parser, tok: Tokenizer, generate: Generator): (r: Session)
    decreases |input|
    ensures |r.replies| == |r.requests|
    ensures forall i :: 0 <= i < |r.requests| ==> r.replies[i] == Respond(r.requests[i], tok, generate)
    ensures forall i :: 0 <= i < |r.requests| && !EchoUnsafe(r.requests[i]) ==> Framed(r.replies[i])
    ensures Read(input, parse).Exhausted? ==> r == Session([], [], EndOfInput)
    ensures Read(input, parse).Got? && Read(input, parse).top.NullValue? ==> r == Session([], [], NullRequest)
    ensures Read(input, parse).Got? && Read(input, parse).top.OtherValue? ==> r == Session([], [], Crashed)
    ensures Read(input, parse).Got? && Read(input, parse).top.Object? ==>
              |r.requests| >= 1 && r.requests[0] == Read(input, parse).top.request
  {
    match Read(input, parse)
    case Exhausted => Session([], [], EndOfInput)
    case Got(NullValue, _) => Session([], [], NullRequest)
    case Got(OtherValue, _) => Session([], [], Crashed)
    case Got(Object(req), k) =>
      var rest := Serve(input[k..], parse, tok, generate);
      var r := Session([req] + rest.requests, [Respond(req, tok, generate)] + rest.replies, rest.ending);
      assert forall i :: 0 < i < |r.requests| ==>
               r.requests[i] == rest.requests[i - 1] && r.replies[i] == rest.replies[i - 1];
      r
  }

  /** After the first request, the loop carries on with the input that
      follows it. */
  lemma ServeContinues(input: string, parse: Parser, tok: Tokenizer, generate: Generator)
    requires Read(input, parse).Got? && Read(input, parse).top.Object?
    ensures var k := Read(input, parse).consumed;
            var rest := Serve(input[k..], parse, tok, generate);
            && Serve(input, parse, tok, generate).requests[1..] == rest.requests
            && Serve(input, parse, tok, generate).ending == rest.ending
  {
  }
}
