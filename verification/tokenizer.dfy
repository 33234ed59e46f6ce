/**
 The collaborators the driver consumes from the inference runtime, as plain
 values: chat messages, the tokenizer (its attributes, its text-to-id lookup
 and its chat-template renderer) and the chunks of a generation stream.
 */
module Tokenizers {
  import opened Base

  /** One chat turn `{role, content}`; the role is an open string. */
  datatype Message = Message(role: string, content: string)

  /** What one call of `apply_chat_template(..., tokenize=False)` does:
      it returns the rendered prompt, or it raises and `str(e)` is `message`. */
  datatype RenderOutcome = Rendered(text: string) | Raised(message: string)

  /** `apply_chat_template(messages, add_generation_prompt=flag, tokenize=False)`. */
  type Renderer = (seq<Message>, bool) -> RenderOutcome

  /** The tokenizer as the driver sees it.
      - the `*Token` fields are the token texts (`tokenizer.eos_token`, ...),
        `None` when the attribute holds `None`;
      - `eodTokenId`, `bosTokenId`, `unkTokenId`, `padTokenId` are
        `getattr(tokenizer, "<name>_token_id", None)`; note that the
        special-token report asks for `eod_token_id`, an attribute distinct from
        `eos_token_id`;
      - `eosTokenId` is `tokenizer.eos_token_id`, `None` when the attribute is
        absent or holds `None`;
      - `specialTokensMap` / `addedTokensEncoder` are `special_tokens_map` and
        `added_tokens_encoder`, `None` when the attribute is absent;
      - `convertTokensToIds` is `convert_tokens_to_ids` on one token text;
      - `chatTemplate` is `getattr(tokenizer, 'chat_template', None)`;
      - `applyChatTemplate` is the renderer, `None` when the tokenizer has no
        `apply_chat_template` attribute at all. */
  datatype Tokenizer = Tokenizer(
    eosToken: Option<string>,
    bosToken: Option<string>,
    unkToken: Option<string>,
    padToken: Option<string>,
    eodTokenId: Option<int>,
    bosTokenId: Option<int>,
    unkTokenId: Option<int>,
    padTokenId: Option<int>,
    eosTokenId: Option<int>,
    specialTokensMap: Option<map<string, string>>,
    addedTokensEncoder: Option<map<string, int>>,
    convertTokensToIds: string -> Option<int>,
    vocabSize: int,
    modelMaxLength: Option<int>,
    chatTemplate: Option<string>,
    applyChatTemplate: Option<Renderer>)

  /** One element of the generation stream: the decoded `text` and, each
      possibly absent, `finish_reason`, a single `token` id and a `token_ids`
      list. */
  datatype Chunk = Chunk(
    text: string,
    finishReason: Option<string>,
    token: Option<int>,
    tokenIds: Option<seq<int>>)
}
