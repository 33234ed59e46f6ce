/**
 Token-level introspection: end-of-document detection on one stream chunk,
 the special-token report, the chat-template report and the capabilities
 document answered to a `capabilities` request.
 */
module TokenUtils {
  import opened Base
  import opened Tokenizers
  import ChatConstraints

  // ---------------------------------------------------------------------
  // End-of-document detection

  /** `special_map.get(key)` resolved through `added_tokens_encoder`: the
      text must be non-empty (truthy) and a key of the encoder. */
  function ResolveSpecial(special: map<string, string>, encoder: map<string, int>, key: string): seq<int>
  {
    if key in special && special[key] != "" && special[key] in encoder
    then [encoder[special[key]]]
    else []
  }

  /** The candidate end ids in the order they are collected: the EOS and
      `eoi_token` texts resolved through both maps (only when both maps
      exist), then `<end_of_turn>` from the encoder, then `eos_token_id`. */
  function EndTokenIds(tok: Tokenizer): seq<int>
  {
    var fromSpecialMap :=
      if tok.specialTokensMap.Some? && tok.addedTokensEncoder.Some?
      then ResolveSpecial(tok.specialTokensMap.value, tok.addedTokensEncoder.value, "eos_token")
           + ResolveSpecial(tok.specialTokensMap.value, tok.addedTokensEncoder.value, "eoi_token")
      else [];
    var turnEnd :=
      if tok.addedTokensEncoder.Some? && "<end_of_turn>" in tok.addedTokensEncoder.value
      then [tok.addedTokensEncoder.value["<end_of_turn>"]]
      else [];
    var direct := if tok.eosTokenId.Some? then [tok.eosTokenId.value] else [];
    fromSpecialMap + turnEnd + direct
  }

  /** The special-map text under `key` names an added token whose id is `t`. */
  ghost predicate ResolvesTo(tok: Tokenizer, key: string, t: int) {
    && tok.specialTokensMap.Some? && tok.addedTokensEncoder.Some?
    && key in tok.specialTokensMap.value
    && tok.specialTokensMap.value[key] != ""
    && tok.specialTokensMap.value[key] in tok.addedTokensEncoder.value
    && tok.addedTokensEncoder.value[tok.specialTokensMap.value[key]] == t
  }

  /** Declarative reading of the candidate set: `t` ends the document when it
      is the resolved EOS or end-of-image token, the `<end_of_turn>` token,
      or the tokenizer's `eos_token_id`. */
  ghost predicate IsEndId(tok: Tokenizer, t: int) {
    || ResolvesTo(tok, "eos_token", t)
    || ResolvesTo(tok, "eoi_token", t)
    || (tok.addedTokensEncoder.Some? && "<end_of_turn>" in tok.addedTokensEncoder.value
        && tok.addedTokensEncoder.value["<end_of_turn>"] == t)
    || tok.eosTokenId == Some(t)
  }

  /** `is_eod_token`: a `finish_reason` of exactly `"stop"` ends the
      document; otherwise a chunk that carries a single `token` ends it when
      that token is one of the candidate end ids. Nothing else is looked at. */
  function IsEod(chunk: Chunk, tok: Tokenizer): (r: bool)
    ensures r <==> chunk.finishReason == Some("stop")
                   || (chunk.token.Some? && IsEndId(tok, chunk.token.value))
  {
    chunk.finishReason == Some("stop")
    || (chunk.token.Some? && chunk.token.value in set t | t in EndTokenIds(tok))
  }

  /** The `token_ids` field never changes the decision, and a chunk with
      neither a `"stop"` finish reason nor a single token is never an end. */
  lemma EodIgnoresTokenIds(chunk: Chunk, tok: Tokenizer, ids: Option<seq<int>>)
    ensures IsEod(chunk.(tokenIds := ids), tok) == IsEod(chunk, tok)
    ensures chunk.token.None? && chunk.finishReason != Some("stop") ==> !IsEod(chunk, tok)
  {
  }

  /** A chunk whose token is `eos_token_id` ends the document even when its
      finish reason is something else, such as `"length"`. */
  lemma EosTokenEndsWhateverFinishReason(chunk: Chunk, tok: Tokenizer)
    requires tok.eosTokenId.Some? && chunk.token == tok.eosTokenId
    ensures IsEod(chunk, tok)
  {
  }

  // ---------------------------------------------------------------------
  // Special tokens

  /** A token text with the id it resolved to (`None` only when the lookup
      itself answered `None`). */
  datatype TokenRef = TokenRef(text: string, id: Option<int>)

  /** `{"text", "id"}` or `{"start": {...}, "end": {...}}`. */
  datatype SpecialToken = Single(token: TokenRef) | Pair(start: TokenRef, end: TokenRef)

  /** The standard entries. `Eod` reads the text `eos_token` but the id
      attribute `eod_token_id`, not `eos_token_id`. */
  datatype StandardName = Eod | Bos | Unk | Pad

  /** The paired-token catalog, one constructor per entry. */
  datatype PairName =
    | SystemPair | UserPair | AssistantPair | Code | Python | JavaScript | Bash | Quote | Ref |
    Citation | Table | Heading | Image | Audio | Video | ToolCall | FunctionPair | Api |
    Search | Knowledge | Context | Thinking | Reasoning | Scratchpad | Analysis | Summary |
    Explanation

  /** The single-token catalog, one constructor per entry. */
  datatype SingleName =
    | FimPrefix | FimMiddle | FimSuffix | ListItem | Vision | CodeInline | CodeBlockStart |
    CodeBlockEnd

  /** A key of the report; `Key` gives the JSON key it is written under. */
  datatype TokenName = Standard(standard: StandardName) | Paired(pair: PairName) | Lone(single: SingleName)

  function Key(n: TokenName): string {
    match n
    case Standard(Eod) => "eod"
    case Standard(Bos) => "bos"
    case Standard(Unk) => "unk"
    case Standard(Pad) => "pad"
    case Paired(SystemPair) => "system"
    case Paired(UserPair) => "user"
    case Paired(AssistantPair) => "assistant"
    case Paired(Code) => "code"
    case Paired(Python) => "python"
    case Paired(JavaScript) => "javascript"
    case Paired(Bash) => "bash"
    case Paired(Quote) => "quote"
    case Paired(Ref) => "ref"
    case Paired(Citation) => "citation"
    case Paired(Table) => "table"
    case Paired(Heading) => "heading"
    case Paired(Image) => "image"
    case Paired(Audio) => "audio"
    case Paired(Video) => "video"
    case Paired(ToolCall) => "tool_call"
    case Paired(FunctionPair) => "function"
    case Paired(Api) => "api"
    case Paired(Search) => "search"
    case Paired(Knowledge) => "knowledge"
    case Paired(Context) => "context"
    case Paired(Thinking) => "thinking"
    case Paired(Reasoning) => "reasoning"
    case Paired(Scratchpad) => "scratchpad"
    case Paired(Analysis) => "analysis"
    case Paired(Summary) => "summary"
    case Paired(Explanation) => "explanation"
    case Lone(FimPrefix) => "fim_prefix"
    case Lone(FimMiddle) => "fim_middle"
    case Lone(FimSuffix) => "fim_suffix"
    case Lone(ListItem) => "list_item"
    case Lone(Vision) => "vision"
    case Lone(CodeInline) => "code_inline"
    case Lone(CodeBlockStart) => "code_block_start"
    case Lone(CodeBlockEnd) => "code_block_end"
  }

  /** (start text, end text) of a paired entry. */
  function PairTexts(p: PairName): (string, string) {
    match p
    case SystemPair => ("<|system|>", "<|/system|>")
    case UserPair => ("<|user|>", "<|/user|>")
    case AssistantPair => ("<|assistant|>", "<|/assistant|>")
    case Code => ("<|code_start|>", "<|code_end|>")
    case Python => ("<|python|>", "<|/python|>")
    case JavaScript => ("<|javascript|>", "<|/javascript|>")
    case Bash => ("<|bash|>", "<|/bash|>")
    case Quote => ("<|quote|>", "<|/quote|>")
    case Ref => ("<|ref|>", "<|/ref|>")
    case Citation => ("<|citation|>", "<|/citation|>")
    case Table => ("<|table|>", "<|/table|>")
    case Heading => ("<|heading|>", "<|/heading|>")
    case Image => ("<|image|>", "<|/image|>")
    case Audio => ("<|audio|>", "<|/audio|>")
    case Video => ("<|video|>", "<|/video|>")
    case ToolCall => ("<|tool_call|>", "<|/tool_call|>")
    case FunctionPair => ("<|function|>", "<|/function|>")
    case Api => ("<|api|>", "<|/api|>")
    case Search => ("<|search|>", "<|/search|>")
    case Knowledge => ("<|knowledge|>", "<|/knowledge|>")
    case Context => ("<|context|>", "<|/context|>")
    case Thinking => ("<|thinking|>", "</thinking>")
    case Reasoning => ("<|reasoning|>", "<|/reasoning|>")
    case Scratchpad => ("<|scratchpad|>", "<|/scratchpad|>")
    case Analysis => ("<|analysis|>", "<|/analysis|>")
    case Summary => ("<|summary|>", "<|/summary|>")
    case Explanation => ("<|explanation|>", "<|/explanation|>")
  }

  /** The text of a single entry. */
  function SingleText(s: SingleName): string {
    match s
    case FimPrefix => "<|fim_prefix|>"
    case FimMiddle => "<|fim_middle|>"
    case FimSuffix => "<|fim_suffix|>"
    case ListItem => "<|list_item|>"
    case Vision => "<|vision|>"
    case CodeInline => "`"
    case CodeBlockStart => "```"
    case CodeBlockEnd => "```"
  }

  const AllStandard: set<StandardName> := {Eod, Bos, Unk, Pad}
  const AllPairs: set<PairName> := {
    SystemPair, UserPair, AssistantPair, Code, Python, JavaScript, Bash, Quote, Ref, Citation,
    Table, Heading, Image, Audio, Video, ToolCall, FunctionPair, Api, Search, Knowledge,
    Context, Thinking, Reasoning, Scratchpad, Analysis, Summary, Explanation
  }
  const AllSingles: set<SingleName> := {
    FimPrefix, FimMiddle, FimSuffix, ListItem, Vision, CodeInline, CodeBlockStart, CodeBlockEnd
  }

  /** Each catalog lists every entry of its kind. */
  lemma StandardComplete()
    ensures forall s: StandardName :: s in AllStandard
  {
    forall s: StandardName ensures s in AllStandard {
      match s
      case Eod =>
      case Bos =>
      case Unk =>
      case Pad =>
    }
  }

  lemma PairsComplete()
    ensures forall p: PairName :: p in AllPairs
  {
    forall p: PairName ensures p in AllPairs {
      match p
      case SystemPair =>
      case UserPair =>
      case AssistantPair =>
      case Code =>
      case Python =>
      case JavaScript =>
      case Bash =>
      case Quote =>
      case Ref =>
      case Citation =>
      case Table =>
      case Heading =>
      case Image =>
      case Audio =>
      case Video =>
      case ToolCall =>
      case FunctionPair =>
      case Api =>
      case Search =>
      case Knowledge =>
      case Context =>
      case Thinking =>
      case Reasoning =>
      case Scratchpad =>
      case Analysis =>
      case Summary =>
      case Explanation =>
    }
  }

  lemma SinglesComplete()
    ensures forall s: SingleName :: s in AllSingles
  {
    forall s: SingleName ensures s in AllSingles {
      match s
      case FimPrefix =>
      case FimMiddle =>
      case FimSuffix =>
      case ListItem =>
      case Vision =>
      case CodeInline =>
      case CodeBlockStart =>
      case CodeBlockEnd =>
    }
  }

  function StandardText(tok: Tokenizer, name: StandardName): Option<string> {
    match name
    case Eod => tok.eosToken
    case Bos => tok.bosToken
    case Unk => tok.unkToken
    case Pad => tok.padToken
  }

  /** `getattr(tokenizer, f"{name}_token_id", None)`. */
  function StandardId(tok: Tokenizer, name: StandardName): Option<int> {
    match name
    case Eod => tok.eodTokenId
    case Bos => tok.bosTokenId
    case Unk => tok.unkTokenId
    case Pad => tok.padTokenId
  }

  /** A catalog text is reported when its id differs from `unk_token_id`
      (Python `!=`, so a `None` id equals a `None` unknown id). */
  predicate Known(tok: Tokenizer, text: string) {
    tok.convertTokensToIds(text) != tok.unkTokenId
  }

  function Resolve(tok: Tokenizer, text: string): TokenRef {
    TokenRef(text, tok.convertTokensToIds(text))
  }

  /** The entry the report records under `n`, if any: a standard entry
      needs its text and its id to be set, a pair needs both of its ids to
      differ from the unknown id, a single needs its id to differ from it. */
  function Entry(tok: Tokenizer, n: TokenName): Option<SpecialToken> {
    match n
    case Standard(s) =>
      if StandardText(tok, s).Some? && StandardId(tok, s).Some?
      then Some(Single(TokenRef(StandardText(tok, s).value, StandardId(tok, s))))
      else None
    case Paired(p) =>
      if Known(tok, PairTexts(p).0) && Known(tok, PairTexts(p).1)
      then Some(Pair(Resolve(tok, PairTexts(p).0), Resolve(tok, PairTexts(p).1)))
      else None
    case Lone(s) =>
      if Known(tok, SingleText(s)) then Some(Single(Resolve(tok, SingleText(s)))) else None
  }

  /** Every key the report can hold. */
  const AllNames: set<TokenName> :=
    (set s | s in AllStandard :: Standard(s))
    + (set p | p in AllPairs :: Paired(p))
    + (set s | s in AllSingles :: Lone(s))

  lemma NamesComplete()
    ensures forall n :: n in AllNames
  {
    StandardComplete();
    PairsComplete();
    SinglesComplete();
    forall n ensures n in AllNames {
      match n
      case Standard(s) => assert s in AllStandard;
      case Paired(p) => assert p in AllPairs;
      case Lone(s) => assert s in AllSingles;
    }
  }

  /** `get_special_tokens`: the standard entries whose text and id are both
      set, the pairs whose start and end ids both differ from the unknown
      id, and the singles whose id differs from it. */
  function GetSpecialTokens(tok: Tokenizer): (r: map<TokenName, SpecialToken>)
    ensures forall n :: n in r <==> Entry(tok, n).Some?
    ensures forall n :: n in r ==> r[n] == Entry(tok, n).value
  {
    NamesComplete();
    map n | n in AllNames && Entry(tok, n).Some? :: Entry(tok, n).value
  }

  /** The three rules of the report, one per kind of entry. */
  lemma SpecialTokenRules(tok: Tokenizer)
    ensures var r := GetSpecialTokens(tok);
            && (forall s: StandardName :: Standard(s) in r <==>
                  StandardText(tok, s).Some? && StandardId(tok, s).Some?)
            && (forall s: StandardName :: Standard(s) in r ==>
                  r[Standard(s)] == Single(TokenRef(StandardText(tok, s).value, StandardId(tok, s))))
            && (forall p: PairName :: Paired(p) in r <==>
                  Known(tok, PairTexts(p).0) && Known(tok, PairTexts(p).1))
            && (forall p: PairName :: Paired(p) in r ==>
                  r[Paired(p)] == Pair(Resolve(tok, PairTexts(p).0), Resolve(tok, PairTexts(p).1)))
            && (forall s: SingleName :: Lone(s) in r <==> Known(tok, SingleText(s)))
            && (forall s: SingleName :: Lone(s) in r ==> r[Lone(s)] == Single(Resolve(tok, SingleText(s))))
  {
  }

  /** `code_block_start` and `code_block_end` share the text "```": both are
      reported or neither is, with the same id. */
  lemma CodeBlockMarkersTogether(tok: Tokenizer)
    ensures var r := GetSpecialTokens(tok);
            && (Lone(CodeBlockStart) in r <==> Lone(CodeBlockEnd) in r)
            && (Lone(CodeBlockStart) in r ==>
                  r[Lone(CodeBlockStart)].token.id == r[Lone(CodeBlockEnd)].token.id)
  {
    assert SingleText(CodeBlockStart) == SingleText(CodeBlockEnd);
  }

  // ---------------------------------------------------------------------
  // Chat template report

  /** `{template_string, supported_roles, preview, constraints}`. */
  datatype ChatTemplateInfo = ChatTemplateInfo(
    templateString: Option<string>,
    supportedRoles: seq<string>,
    preview: Option<string>,
    constraints: ChatConstraints.Restrictions)

  /** The roles probed, in order. */
  const TestRoles: seq<string> := ["system", "user", "assistant", "tool", "function"]

  /** A one-message conversation in `role` renders without raising. */
  predicate RoleRenders(render: Renderer, role: string) {
    render([Message(role, "test")], false).Rendered?
  }

  /** The roles of `roles` whose probe succeeds, in their original order; a
      failing probe drops only its own role. */
  function SupportedRoles(render: Renderer, roles: seq<string>): (r: seq<string>)
    decreases |roles|
    ensures forall role :: role in r <==> role in roles && RoleRenders(render, role)
    ensures SubsequenceOf(r, roles)
  {
    if roles == [] then []
    else
      var rest := SupportedRoles(render, roles[1..]);
      if RoleRenders(render, roles[0]) then [roles[0]] + rest else rest
  }

  /** The sample conversation for the preview. */
  const PreviewSamples: seq<Message> := [
    Message("system", "You are a helpful assistant."),
    Message("user", "Hello!"),
    Message("assistant", "Hi there!")
  ]

  /** The samples whose role is supported, in system, user, assistant order. */
  function PreviewMessages(roles: seq<string>): (r: seq<Message>)
    ensures forall m :: m in r <==> m in PreviewSamples && m.role in roles
    ensures SubsequenceOf(r, PreviewSamples)
  {
    var a := if "system" in roles then [PreviewSamples[0]] else [];
    var b := if "user" in roles then [PreviewSamples[1]] else [];
    var c := if "assistant" in roles then [PreviewSamples[2]] else [];
    PreviewSubsequence(a, b, c);
    a + b + c
  }

  /** Any choice among the three samples, kept in order, is a subsequence of them. */
  lemma PreviewSubsequence(a: seq<Message>, b: seq<Message>, c: seq<Message>)
    requires a == [] || a == [PreviewSamples[0]]
    requires b == [] || b == [PreviewSamples[1]]
    requires c == [] || c == [PreviewSamples[2]]
    ensures SubsequenceOf(a + b + c, PreviewSamples)
  {
    var s := PreviewSamples;
    assert s[1..][1..] == [s[2]];
    assert SubsequenceOf(c, [s[2]]);
    assert SubsequenceOf(b + c, s[1..]) by {
      if b != [] { assert (b + c)[1..] == c; }
    }
    if a != [] { assert (a + b + c)[1..] == b + c; }
  }

  /** The preview: absent when no role is supported, otherwise the render
      of the samples or `"Preview error: "` followed by the exception text. */
  function Preview(render: Renderer, roles: seq<string>): (r: Option<string>)
    ensures r.None? <==> roles == []
    ensures roles != [] && render(PreviewMessages(roles), false).Rendered? ==>
              r == Some(render(PreviewMessages(roles), false).text)
    ensures roles != [] && render(PreviewMessages(roles), false).Raised? ==>
              r == Some("Preview error: " + render(PreviewMessages(roles), false).message)
  {
    if roles == [] then None
    else match render(PreviewMessages(roles), false)
      case Rendered(text) => Some(text)
      case Raised(e) => Some("Preview error: " + e)
  }

  /** `get_chat_template_info`. */
  function GetChatTemplateInfo(tok: Tokenizer): (r: Option<ChatTemplateInfo>)
    ensures r.None? <==> tok.applyChatTemplate.None?
    ensures r.Some? ==> r.value.templateString == tok.chatTemplate
    ensures r.Some? ==> r.value.constraints == ChatConstraints.NoRestrictions
    ensures r.Some? ==> (r.value.preview.None? <==> r.value.supportedRoles == [])
    ensures r.Some? ==> r.value.preview == Preview(tok.applyChatTemplate.value, r.value.supportedRoles)
    ensures r.Some? ==> SubsequenceOf(r.value.supportedRoles, TestRoles)
    ensures r.Some? ==> forall role :: role in r.value.supportedRoles <==>
                          role in TestRoles && RoleRenders(tok.applyChatTemplate.value, role)
  {
    match tok.applyChatTemplate
    case None => None
    case Some(render) =>
      var roles := SupportedRoles(render, TestRoles);
      Some(ChatTemplateInfo(tok.chatTemplate, roles, Preview(render, roles), ChatConstraints.NoRestrictions))
  }

  // ---------------------------------------------------------------------
  // Features and capabilities

  datatype Features = Features(
    applyChatTemplate: bool,
    vocabSize: int,
    modelMaxLength: Option<int>,
    chatTemplate: Option<ChatTemplateInfo>)

  datatype Capabilities = Capabilities(
    methods: seq<string>,
    specialTokens: map<TokenName, SpecialToken>,
    features: Features)

  /** `get_tokenizer_features`: the chat-template report is included exactly
      when the tokenizer has a renderer. */
  function GetTokenizerFeatures(tok: Tokenizer): (r: Features)
    ensures r.applyChatTemplate <==> tok.applyChatTemplate.Some?
    ensures r.chatTemplate.Some? <==> tok.applyChatTemplate.Some?
    ensures r.vocabSize == tok.vocabSize && r.modelMaxLength == tok.modelMaxLength
    ensures r.chatTemplate == GetChatTemplateInfo(tok)
  {
    Features(tok.applyChatTemplate.Some?, tok.vocabSize, tok.modelMaxLength, GetChatTemplateInfo(tok))
  }

  /** The methods every driver answers. */
  const BaseMethods: seq<string> := ["capabilities", "completion", "format_test"]

  /** `get_capabilities`: `chat` is listed after the base methods exactly
      when the tokenizer has a renderer, whether or not a template is set. */
  function GetCapabilities(tok: Tokenizer): (r: Capabilities)
    ensures |r.methods| == (if tok.applyChatTemplate.Some? then 4 else 3)
    ensures r.methods[..3] == BaseMethods
    ensures "chat" in r.methods <==> tok.applyChatTemplate.Some?
    ensures r.specialTokens == GetSpecialTokens(tok) && r.features == GetTokenizerFeatures(tok)
  {
    assert |BaseMethods| == 3;
    var methods := BaseMethods + (if tok.applyChatTemplate.Some? then ["chat"] else []);
    Capabilities(methods, GetSpecialTokens(tok), GetTokenizerFeatures(tok))
  }
}
