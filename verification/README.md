# mlx-ml driver — a Dafny model

The mlx-ml driver is a Python process that a host talks to over standard
input and output. The host writes JSON requests, one after another, each
spanning one or more lines. The driver answers each with either a JSON
document or streamed text. Every reply ends with a NUL character, the frame
delimiter. There are four methods:

- `capabilities` reports the tokenizer's methods, special tokens and chat-template details.
- `format_test` shows the prompt a conversation would be formatted into.
- `chat` formats a conversation and streams a reply.
- `completion` streams a reply to a raw prompt.

The driver also has a probe that infers what a chat template refuses.

This project models:

- `token_utils.py`: end-of-document detection, the special-token report, and the chat-template, features and capabilities reports;
- `__main__.py`: the request reader, the dispatcher, the two prompt paths, the primer splice, `format_test` and the streaming loop;
- `chat_template_constraints.py`: the restriction probe and its inference rules.

The model uses these modules:

| module | file | contents |
|---|---|---|
| `Base` | base.dfy | options, results, the slice of JSON the driver inspects, Python truthiness |
| `PyStr` | pystr.dfy | the Python string operations the driver relies on, written out exactly: `join`, left-to-right non-overlapping `split`, `strip` with Python's whitespace set, `replace('\0', '')` |
| `Tokenizers` | tokenizer.dfy | the tokenizer as a record of optional attributes, its renderer (`apply_chat_template`, which renders or raises), messages and stream chunks |
| `TokenUtils` | token_utils.dfy | `token_utils.py` |
| `ChatConstraints` | chat_template_constraints.dfy | `chat_template_constraints.py` |
| `PromptFormat` | prompt_format.dfy | prompt construction and `format_test` from `__main__.py` |
| `Driver` | driver.dfy | generation, replies, reading requests and the main loop from `__main__.py` |

The model treats several things as parameters:

- **The tokenizer's renderer.** It is a function from a conversation and the `add_generation_prompt` flag to a rendered text or an exception message.
- **`stream_generate`.** It is a function from a prompt and the final options to a finite list of chunks.
- **`json.loads`.** It is a function from text to "does not decode" or a decoded top-level value.

What is written to standard output is modelled as a list of writes. Each write is a text or a JSON document.

Points of the code worth knowing:

- **Primer splice.** The template path cuts the rendered prompt with `primer.join(prompt.split(primer)[0:-1]) + primer` (`__main__.py:87, 139`). Python's `split` finds matches left to right without overlap, so the cut is at the last match of that scan. For a primer that overlaps itself this can miss the last occurrence: with primer `aa` in `aaa` the result is `aa`, not `aaa` (`PromptFormat.SpliceSkipsOverlappingMatch`). For a primer that cannot overlap itself, the scan's last match is the last occurrence (`PyStr.LastMatchIsLastOccurrence`).
- **When `chat` is advertised.** `get_capabilities` adds `chat` whenever `apply_chat_template` exists (`token_utils.py:247-248`). Formatting through the template also requires `chat_template` to be set (`supports_chat_template`, `__main__.py:44-46`); its docstring says the renderer raises without one. With a renderer but no template, `chat` is advertised and answered from the fallback block format (`Driver.ChatAdvertisedWithoutTemplate`).
- **The `eod` entry.** The entry takes its text from `eos_token`, but its id from the attribute `eod_token_id`, not `eos_token_id` (`token_utils.py:77, 85`). The model keeps this reading.
- **NUL characters in chat replies.** The driver removes NUL characters from generated text, but `chat` echoes its primer unchanged. A chat primer holding a NUL therefore puts a delimiter into the middle of a reply whenever the prompt can be formatted (`Driver.NulPrimerBreaksFraming`). No other method echoes the primer, and every framing guarantee below holds for all other requests.
- **The restriction probe.** `get_chat_template_info` never calls it; its `constraints` field is always `{}`.

## Model

| member | source | states |
|---|---|---|
| TokenUtils.IsEod | packages/driver/src/mlx-ml/python/token_utils.py:7-63 | a chunk ends the document iff its finish reason is exactly `"stop"` or its token is one of the end ids: the EOS or end-of-image text resolved through both maps, `<end_of_turn>`, or `eos_token_id` |
| TokenUtils.EodIgnoresTokenIds | packages/driver/src/mlx-ml/python/token_utils.py:18-63 | the `token_ids` field never affects the decision; a chunk with no finish reason `"stop"` and no token is never an end |
| TokenUtils.EosTokenEndsWhateverFinishReason | packages/driver/src/mlx-ml/python/token_utils.py:56-61 | a chunk whose token is `eos_token_id` ends the document whatever its finish reason |
| TokenUtils.GetSpecialTokens | packages/driver/src/mlx-ml/python/token_utils.py:66-168 | a key is in the report iff its catalog entry qualifies, and it maps to that entry |
| TokenUtils.SpecialTokenRules | packages/driver/src/mlx-ml/python/token_utils.py:76-166 | a standard entry appears iff its text and its `<name>_token_id` are both set; a pair iff both ids differ from `unk_token_id`; a single iff its id differs from it; each with the texts and ids looked up |
| TokenUtils.CodeBlockMarkersTogether | packages/driver/src/mlx-ml/python/token_utils.py:144-145 | the two code-block markers share a text, so both appear or neither does, with the same id |
| TokenUtils.SupportedRoles | packages/driver/src/mlx-ml/python/token_utils.py:184-191 | a role is kept iff its one-message probe renders, and kept roles stay in probe order |
| TokenUtils.PreviewMessages | packages/driver/src/mlx-ml/python/token_utils.py:195-201 | the sample messages are exactly those whose role is supported, in system, user, assistant order |
| TokenUtils.Preview | packages/driver/src/mlx-ml/python/token_utils.py:193-210 | no preview iff no role is supported; otherwise the samples' render, or `Preview error: ` followed by the exception text |
| TokenUtils.GetChatTemplateInfo | packages/driver/src/mlx-ml/python/token_utils.py:171-212 | present iff there is a renderer; carries the template, the roles that render (in order), the preview of those roles (present exactly when some role renders), and empty constraints |
| TokenUtils.GetTokenizerFeatures | packages/driver/src/mlx-ml/python/token_utils.py:215-233 | the chat-template report is included iff the tokenizer has a renderer, and it is that tokenizer's chat-template report |
| TokenUtils.GetCapabilities | packages/driver/src/mlx-ml/python/token_utils.py:236-256 | the three base methods come first, and `chat` is added iff a renderer exists |
| ChatConstraints.Probe | packages/driver/src/mlx-ml/python/chat_template_constraints.py:32-40 | a probe succeeds iff rendering without the generation prompt succeeds, and otherwise records the exception text |
| ChatConstraints.RunProbes | packages/driver/src/mlx-ml/python/chat_template_constraints.py:30-40 | every probed name is a key; with distinct names each key holds its own probe's outcome |
| ChatConstraints.RunProbesKeys | packages/driver/src/mlx-ml/python/chat_template_constraints.py:30-40 | the result keys are exactly the pattern names |
| ChatConstraints.TestPatternNamesDistinct | packages/driver/src/mlx-ml/python/chat_template_constraints.py:46-121 | the eight probe patterns have eight distinct names |
| ChatConstraints.InferRestrictions | packages/driver/src/mlx-ml/python/chat_template_constraints.py:124-164 | the rules mapping failed probes to restrictions (system messages, alternation, user-last, empty messages), no key when nothing failed, and `None` instead of `{}` |
| ChatConstraints.UnusedProbesIgnored | packages/driver/src/mlx-ml/python/chat_template_constraints.py:136-162 | the `basic`, `alternating` and `system-middle` outcomes never affect the inference |
| ChatConstraints.MissingMeansSucceeded | packages/driver/src/mlx-ml/python/chat_template_constraints.py:137-161 | a missing result reads the same as a success |
| ChatConstraints.DetectChatRestrictions | packages/driver/src/mlx-ml/python/chat_template_constraints.py:9-43 | `None` without a renderer; never an empty restriction map |
| ChatConstraints.DistinctNamesCount | packages/driver/src/mlx-ml/python/chat_template_constraints.py:30-40 | distinct names give one result entry per pattern |
| ChatConstraints.DetectProbesEveryPattern | packages/driver/src/mlx-ml/python/chat_template_constraints.py:26-43 | with a renderer all eight patterns are probed into eight entries, and the inference runs over them |
| ChatConstraints.ErroredWhenRaised | packages/driver/src/mlx-ml/python/chat_template_constraints.py:39-40 | a pattern whose render raises is recorded as an error under its name |
| ChatConstraints.SystemRejectedMeansNoSystem | packages/driver/src/mlx-ml/python/chat_template_constraints.py:140-142 | a renderer that rejects a leading system message yields `max_system_messages = 0` and no single-system flag |
| PyStr.Find | packages/driver/src/mlx-ml/python/__main__.py:87 | the first match at or after the start, and no earlier one |
| PyStr.Split | packages/driver/src/mlx-ml/python/__main__.py:87 | `split` gives at least one piece, and joining the pieces with the separator gives the text back |
| PyStr.SplitPiecesFree | packages/driver/src/mlx-ml/python/__main__.py:139 | no piece of a split contains the separator |
| PyStr.SplitSingle | packages/driver/src/mlx-ml/python/__main__.py:139 | a split has one piece iff the separator does not occur |
| PyStr.JoinConcat | packages/driver/src/mlx-ml/python/__main__.py:164 | joining two non-empty lists puts one separator between the two joins |
| PyStr.LastMatchSpec | packages/driver/src/mlx-ml/python/__main__.py:139 | the scan's last match is a real occurrence, none starts after it ends, and it is absent iff the primer does not occur |
| PyStr.LastMatchIsLastOccurrence | packages/driver/src/mlx-ml/python/__main__.py:139 | for a primer that cannot overlap itself, no occurrence starts after the scan's last match, so the cut is at the last occurrence |
| PyStr.Strip | packages/driver/src/mlx-ml/python/__main__.py:154-160 | `strip()` leaves a slice of the text, cut only at whitespace, with no whitespace at either end |
| PyStr.StripKeepsTrimmed | packages/driver/src/mlx-ml/python/__main__.py:154-160 | a text without whitespace at either end is its own strip |
| PyStr.RemoveChar | packages/driver/src/mlx-ml/python/__main__.py:196 | `replace('\0', '')` leaves no NUL, shortens the text by the NUL count, and changes nothing when there is none |
| PyStr.RemoveCharConcat | packages/driver/src/mlx-ml/python/__main__.py:196 | removing a character commutes with concatenation |
| PromptFormat.MergedPrompt | packages/driver/src/mlx-ml/python/__main__.py:145-164 | the fallback prompt is the messages' three-line blocks joined by newlines: begin marker, stripped content, end marker, with `system` written `SYSTEM` in the markers |
| PromptFormat.MergedPromptAppend | packages/driver/src/mlx-ml/python/__main__.py:149-164 | one more message adds a newline and its block |
| PromptFormat.PrimerOf | packages/driver/src/mlx-ml/python/__main__.py:115-116 | the primer is absent iff it is `null` or missing, and is text iff it is a JSON string |
| Driver.TemplateSupportAdvertisesChat | packages/driver/src/mlx-ml/python/__main__.py:33-46 | the template path is taken iff `chat` is advertised (a renderer exists) and `chat_template` is set |
| PromptFormat.SplicePrimer | packages/driver/src/mlx-ml/python/__main__.py:87 | the splice raises iff the primer is empty, with the empty-separator error |
| PromptFormat.SplicePrimerSpec | packages/driver/src/mlx-ml/python/__main__.py:138-139 | the splice is the primer alone when it does not occur; otherwise it is the prompt up to the scan's last match, then the primer, with no match after it |
| PromptFormat.SplicePrimerEndsWithPrimer | packages/driver/src/mlx-ml/python/__main__.py:139 | the spliced prompt ends with the whole primer after a prefix of the render |
| PromptFormat.SpliceSkipsOverlappingMatch | packages/driver/src/mlx-ml/python/__main__.py:139 | with primer `aa` in `aaa` the occurrence at index 1 is skipped and the result is `aa` |
| PromptFormat.RenderResult | packages/driver/src/mlx-ml/python/__main__.py:132-136 | a render either gives its text or raises with its message |
| PromptFormat.TemplatePrompt | packages/driver/src/mlx-ml/python/__main__.py:124-139 | without a primer, render with the generation prompt; with a text primer, render with an assistant turn and no generation prompt, then splice; fails exactly when the render raises or the primer is empty; a non-text primer fails |
| PromptFormat.FallbackPrompt | packages/driver/src/mlx-ml/python/__main__.py:112-116 | the merged prompt, followed by the primer when given; fails iff the primer is not text |
| PromptFormat.ChatPrompt | packages/driver/src/mlx-ml/python/__main__.py:33-46 | the template path iff both a renderer and a template are set, otherwise the fallback |
| PromptFormat.RendererWithoutTemplateFallsBack | packages/driver/src/mlx-ml/python/__main__.py:44-46 | a renderer with no template is never used for formatting |
| PromptFormat.FormatTest | packages/driver/src/mlx-ml/python/__main__.py:53-104 | a prompt exactly when there is no error; `template_applied` iff the template path succeeded; on the template path `model_specific_processing` is the messages plus the primer turn, even on error |
| PromptFormat.FormatTestAgreesWithChat | packages/driver/src/mlx-ml/python/__main__.py:53-142 | `format_test` (primer from the options) reports exactly the prompt or the error that `chat` hits with that primer |
| Driver.FinalOptions | packages/driver/src/mlx-ml/python/__main__.py:180-181 | the caller's options are kept, and `max_tokens` defaults to 1000 only when unset |
| Driver.StreamWrites | packages/driver/src/mlx-ml/python/__main__.py:188-199 | the writes end with the delimiter exactly once, and there is at most one write per chunk plus the delimiter |
| Driver.StreamWritesSpec | packages/driver/src/mlx-ml/python/__main__.py:189-196 | one write per chunk before the first end of document, each with its NULs removed; the stream stops at that chunk |
| Driver.GenerateText | packages/driver/src/mlx-ml/python/__main__.py:177-199 | the loop with its `eos_detected` flag writes exactly the stream's writes |
| Driver.StreamOutputHasOneNul | packages/driver/src/mlx-ml/python/__main__.py:193-199 | the generated output holds exactly one NUL, the last character, after a newline |
| Driver.StreamFramed | packages/driver/src/mlx-ml/python/__main__.py:188-199 | a generation is well framed: no NUL before the final delimiter |
| Driver.Texts | packages/driver/src/mlx-ml/python/__main__.py:196 | each text write is kept, in order |
| Driver.FramedAfterText | packages/driver/src/mlx-ml/python/__main__.py:117 | NUL-free text echoed before a well-framed reply keeps it framed |
| Driver.CompletionReply | packages/driver/src/mlx-ml/python/__main__.py:167-174 | a completion reply is the stream generated from the prompt with the final options; it is well framed and ends with the delimiter |
| Driver.ChatReply | packages/driver/src/mlx-ml/python/__main__.py:106-142 | a formatting failure writes only the delimiter; otherwise the primer is echoed first and the reply ends with the delimiter; framed unless the primer holds a NUL |
| Driver.Respond | packages/driver/src/mlx-ml/python/__main__.py:201-254 | a missing method, an unknown method, missing messages and a missing prompt each get the bare delimiter; every reply is framed unless it answers `chat` with a primer holding a NUL |
| Driver.DocumentRepliesOnly | packages/driver/src/mlx-ml/python/__main__.py:214-225 | a reply ends in a JSON document iff it answers `capabilities` or `format_test` with messages |
| Driver.RespondCapabilities | packages/driver/src/mlx-ml/python/__main__.py:214-215 | a `capabilities` request is answered with the capabilities document |
| Driver.RespondFormatTest | packages/driver/src/mlx-ml/python/__main__.py:217-225 | a `format_test` request with messages is answered with the format-test report over its messages and options |
| Driver.RespondCompletion | packages/driver/src/mlx-ml/python/__main__.py:238-246 | a `completion` request with a prompt streams the generation from that prompt with the final options |
| Driver.RespondChat | packages/driver/src/mlx-ml/python/__main__.py:227-236 | a `chat` request with messages is answered by the chat handler with its top-level primer and options |
| Driver.ChatStreamsFromChatPrompt | packages/driver/src/mlx-ml/python/__main__.py:106-142 | a chat reply is the primer echo followed by the stream generated from the chat prompt with the final options |
| Driver.NulPrimerBreaksFraming | packages/driver/src/mlx-ml/python/__main__.py:106-142 | a chat primer holding a NUL whose prompt can be formatted is echoed verbatim, so the reply is not well framed |
| Driver.NulPrimerWithoutTemplate | packages/driver/src/mlx-ml/python/__main__.py:112-118 | on the fallback path any chat primer holding a NUL breaks the framing |
| Driver.RenderFailureRejectsChat | packages/driver/src/mlx-ml/python/__main__.py:127-136 | when the template render of the conversation plus the primer turn raises, the chat reply is the bare delimiter and nothing is echoed |
| Driver.ChatAdvertisedWithoutTemplate | packages/driver/src/mlx-ml/python/__main__.py:112-119 | with a renderer but no template, `chat` is advertised and answered from the fallback prompt: with no primer the stream from the merged prompt; with a string primer, the primer echoed first and then the stream from the merged prompt followed by the primer |
| Driver.ReadFrom | packages/driver/src/mlx-ml/python/__main__.py:17-29 | lines are accumulated and the first whole-line prefix that decodes is returned; none earlier decodes |
| Driver.Read | packages/driver/src/mlx-ml/python/__main__.py:13-30 | the shortest whole-line prefix that decodes, and nothing iff no such prefix decodes |
| Driver.Serve | packages/driver/src/mlx-ml/python/__main__.py:201-254 | each request read is answered in order; the loop ends at end of input or on `null`, and crashes on a non-object; replies are framed except `chat` replies whose primer holds a NUL |
| Driver.ServeContinues | packages/driver/src/mlx-ml/python/__main__.py:202-254 | after answering, the loop continues on the input after the request |

## Left out

- Standard input and output, `flush`, and the diagnostic lines written to standard error are not modelled. A reply is the list of its writes.
- Model loading (`mlx_lm.load`) and the module-level startup are left out. The tokenizer is an input. The capabilities document is recomputed per request rather than computed once at start-up; it is a pure function of the tokenizer, so the answer is the same.
- `stream_generate` is a parameter. Its sampling, and any exception it raises mid-stream, are not modelled. An exception there would end the reply with the delimiter after partial text.
- JSON decoding and `json.dumps` are parameters or left abstract. The model does not escape documents. It only records that a document never holds a raw NUL.
- Token-list prompts (the `isinstance(prompt, list)` branch) only change a stderr line, so they are left out.
- Request fields of the wrong JSON type, such as an `options` that is not an object or `messages` that are not a list, are not modelled. The model reads `options`, `messages` and `prompt` as already typed.
- Chunk tokens are modelled as a single optional integer. A token that is a list makes `token in set(end_token_ids)` raise `TypeError` (a list is unhashable); the error escapes `generate_text` and the request loop then writes the delimiter after the partial text. This case is not modelled.
- TokenUtils.IsEod: an attribute that is present but holds `None` is not told apart from a missing one. In the code, a chunk whose `token` is `None` on a tokenizer whose `eos_token_id` is `None` is an end, because `None` is then added to the end ids (`token_utils.py:23-24, 56-60`). The model treats both as missing and answers false. The generator (`mlx_lm`) is not part of this model; its chunks are modelled with an integer token or none.
- TokenUtils.GetSpecialTokens: the report is keyed by catalog constructor rather than JSON key text, and the dictionary's key order is not modelled. `Key` gives the text, and its injectivity is not proved.
- PromptFormat.ErrorText: for a primer that is not a string, the exception text is replaced by one fixed stand-in text. The code raises a `TypeError` from `+=` on the fallback path (`__main__.py:96, 116`). On the template path it raises the renderer's own exception if rendering the non-string assistant turn raises, and otherwise an `AttributeError` from `primer.join` (`__main__.py:76-87, 127-139`).
- PromptFormat.TemplatePrompt: a primer that is not a string fails at once without rendering, so a renderer exception on that turn is not reported. The outcome is an error either way, and `chat` answers it with the bare delimiter; only `format_test`'s error text differs.
- PromptFormat.FormatTest: a primer that is not a string is not echoed into `model_specific_processing` on the template path, though the code appends it there before raising.
- The test scripts are not modelled.
