# Shoply chat bot: a verified model of its deterministic core

This project models, in Dafny, the deterministic logic around the language-model calls in the
Shoply support bot (`Module-2`). It proves properties of that logic.

- **Prompt catalog** (`BrandChain`):
  - `"current"` is resolved through the catalog's pointer; any other name is a literal key.
  - The system and user templates are looked up separately; each fails on its own.
  - `create_chat_prompt_template` collects `[system?, user?]` and swallows a `ValueError` from either half.
  - The style-guide variables fall back to fixed defaults.
- **Chat bot** (`BrandChain.ChatBot`):
  - a class whose documents are `const` fields and whose session log is a mutable sequence;
  - the order lookup, with its not-found fallback;
  - the `/order ` short-circuit of `chat`;
  - the record `save_session` appends.
- **Style evaluation** (`StyleEval`):
  - `rule_checks` as a step-by-step method proved equal to a sum of deductions;
  - the 0..100 range of a grade;
  - the weighted final score;
  - the `eval_batch` loop over prompts.
- **Reply schema** (`Schema`): the field bounds of `BotResponse`, as a validating constructor.
- **Command line** (`App`):
  - the per-line decision: strip, skip if empty, rewrite `/order <id>`, exit on an exit word, otherwise chat;
  - the main loop, as a method over a sequence of input lines. It calls `chat` and logs each answered turn.
- **Shared modules**:
  - `Text` holds the Python `str` operations the code uses: `strip`, `startswith`, `in`, `replace(p, "")`, `lower`, `join`.
  - `Failures` holds the `Option`/`Result` types and the Python exception kinds that matter here.

The language model, the structured-output "ask" call and the grading model are function-valued parameters. The loaded
YAML/JSON documents are values.

Behaviour of the code that the model keeps:
- `eval_batch` has no per-item error handling: the first exception from `ask`, from the grading model or from the
  `Grade` range check aborts the whole batch (`StyleEval.EvalBatch`).
- `create_chat_prompt_template` swallows only `ValueError`. A catalog without a `current` pointer raises
  `KeyError` in both halves, so that error escapes rather than becoming "no prompt found"; the same goes for a
  pointer that is a mapping (`TypeError`) and a version given as a plain string that contains the word
  `system`/`user` (`TypeError` on string indexing).
- The chat call removes every occurrence of `"/order "` from the input, not just the leading one.

## Model

| member | source | states |
|---|---|---|
| Text.Strip | Module-2/app.py:41 | `strip()` never lengthens the text (its full meaning is `Text.StripSpec`) |
| Text.StripSpec | Module-2/app.py:41 | `strip()` yields a slice of the input. It is empty iff every character is Python whitespace; otherwise it begins and ends with a non-space character |
| Text.TrimStartSpec | Module-2/app.py:41 | `lstrip` removes exactly the leading run of whitespace and stops at a non-space character |
| Text.TrimEndSpec | Module-2/app.py:41 | `rstrip` removes exactly the trailing run of whitespace and stops at a non-space character |
| Text.StripIdempotent | Module-2/app.py:41 | stripping twice is stripping once |
| Text.RemoveAll | Module-2/src/brand_chain.py:275 | `replace(p, "")` never lengthens the text |
| Text.RemoveAllAbsent | Module-2/src/brand_chain.py:275 | text in which `p` does not occur is left unchanged |
| Text.RemoveAllSkip | Module-2/src/brand_chain.py:275 | a character that cannot start `p` is kept, and removal goes on after it |
| Text.RemoveAllKeep | Module-2/src/brand_chain.py:275 | a stretch without `p`'s first character passes through unchanged, and removal goes on after it |
| Text.RemoveAllPrefix | Module-2/src/brand_chain.py:275 | a leading occurrence is removed like any other: `RemoveAll(p + t, p) == RemoveAll(t, p)` |
| Text.StartsWithContains | Module-2/style_eval.py:23 | `in` (substring search) holds whenever `startswith` does: a prefix is a substring |
| Text.Lower | Module-2/app.py:57 | `lower()` maps each character on its own, keeping the length |
| Text.LowerChar | Module-2/app.py:57 | a lower-case Latin result comes from that letter or its capital |
| Text.JoinLength | Module-2/src/brand_chain.py:80-81 | `sep.join(xs)` holds every item plus one separator between each pair |
| Text.JoinSnoc | Module-2/src/brand_chain.py:80-81 | joining one more item appends a separator and that item |
| Schema.CheckText | Module-2/src/schema.py:14-26 | a required text field has no violation iff it is present with length 1..max; an over-long value is reported as `TooLong` |
| Schema.CheckActions | Module-2/src/schema.py:28-32 | the actions list has no violation iff it is present with at most 3 items; item contents are unconstrained |
| Schema.Validate | Module-2/src/schema.py:14-32 | construction succeeds iff all three required fields are within bounds, and then stores them unchanged. Otherwise it reports each failing field and only those (1 to 3 violations) |
| Schema.ValidateWellFormed | Module-2/src/schema.py:14-32 | validation accepts a reply, returning it unchanged, iff the reply is well-formed |
| Schema.LongAnswerRejected | Module-2/src/schema.py:18 | an answer over 500 characters is rejected with `TooLong(Answer)`, never truncated |
| BrandChain.PromptVariablesOf | Module-2/src/brand_chain.py:75-83 | each variable is the style guide's value when present and otherwise its fixed default; `avoid`/`must_include` are `", "`-joins, and an absent list is the empty text |
| BrandChain.EmptyStyleGuideDefaults | Module-2/src/brand_chain.py:75-83 | an empty style guide yields exactly "Shoply", the default persona, 3, true, "", "" and the default fallback |
| BrandChain.AvoidListLength | Module-2/src/brand_chain.py:80 | a list of n phrases becomes their lengths plus n - 1 two-character separators |
| BrandChain.ResolveVersion | Module-2/src/brand_chain.py:86-89 | a name other than "current" is used verbatim. "current" resolves to the stored pointer, gives `KeyError` when the pointer is absent, and its errors are never `ValueError` |
| BrandChain.TemplateText | Module-2/src/brand_chain.py:86-99 | success iff the resolved version is present and holds the role's template, whose text is returned. An absent version, or one lacking the role, raises `ValueError` with the source's message. Exactly the pointer errors and the string-indexing case escape |
| BrandChain.CreateSystemPromptTemplate | Module-2/src/brand_chain.py:59-102 | a literal version succeeds iff it has a system template, and "current" iff its target has one. The success carries the stored system text and the style variables; any failure is the lookup's error |
| BrandChain.CreateUserPromptTemplate | Module-2/src/brand_chain.py:105-139 | the same for the user template, which carries the serialised format fields (default `{}`) |
| BrandChain.CreateChatPromptTemplate | Module-2/src/brand_chain.py:142-177 | a non-`ValueError` from either creator escapes. Otherwise the result has 1 or 2 templates, system before user, each present iff its creator succeeded. It fails iff both failed, with "no prompt found"; an unknown literal version always ends so |
| BrandChain.OrderStatus | Module-2/src/brand_chain.py:245-248 | never fails: the stored status for a known id, else the not-found message, which contains the id |
| BrandChain.ChatOrderId | Module-2/src/brand_chain.py:274-275 | for "/order "-prefixed input, the id is the rest with every further "/order " removed, then stripped |
| BrandChain.ChatOrderIdDropsEveryCommand | Module-2/src/brand_chain.py:274-275 | a later "/order " inside the id is removed too: "/order " + a + "/order " + b, with no '/' in a, is looked up as a joined to b with its commands removed, then stripped |
| BrandChain.SessionRecord | Module-2/src/brand_chain.py:250-259 | the record's usage is the token count (default 0). Its dialog starts with "User: " + input, continues with exactly "\nBot: ", ends with the reply, and is 12 characters longer than the two texts |
| BrandChain.RecordRoundTrip | Module-2/src/brand_chain.py:257 | for a one-line user input, the dialog text determines both the input and the reply |
| BrandChain.ChatBot.Open | Module-2/src/brand_chain.py:184-243 | construction fails iff the current system template cannot be created, with its error. Otherwise the bot holds the given documents, its memory is that system message, and its log is empty |
| BrandChain.ChatBot.constructor | Module-2/src/brand_chain.py:184-219 | the fields are the given documents, memory holds the system message, and the log is empty |
| BrandChain.ChatBot.Chat | Module-2/src/brand_chain.py:262-287 | "/order " input is answered with the order status of the computed id. Other input fails with the user-template error when that template cannot be built, and is otherwise the model's reply |
| BrandChain.OrderCommandIgnoresModel | Module-2/src/brand_chain.py:274-276 | the reply to an "/order " request does not depend on the model |
| BrandChain.ChatBot.SaveSession | Module-2/src/brand_chain.py:250-259 | appends exactly one record for the turn and changes nothing else |
| StyleEval.HasEmoji | Module-2/style_eval.py:20 | the emoji search over the block U+1F300..U+1FAFF finds a character only in a non-empty text |
| StyleEval.RuleScore | Module-2/style_eval.py:17-28 | the score lies in 60..100, and it is 100 iff the text has no emoji, no "!!!" and at most 600 characters |
| StyleEval.RuleChecks | Module-2/style_eval.py:17-28 | the step-by-step deduction with its clamp equals 100 - 20·emoji - 10·shout - 10·long, so the clamp never changes the value |
| StyleEval.PlainShortText | Module-2/style_eval.py:17-28 | a plain short text keeps the full score |
| StyleEval.AllDeductions | Module-2/style_eval.py:17-28 | an emoji, a "!!!" and more than 600 characters together give 60 |
| StyleEval.LengthLimitIsStrict | Module-2/style_eval.py:26 | exactly 600 characters are not penalised, and one more costs 10 |
| StyleEval.MakeGrade | Module-2/style_eval.py:31-33 | a grade is accepted iff 0 <= score <= 100, keeping score and notes; otherwise it is a validation error |
| StyleEval.FinalScore | Module-2/style_eval.py:54 | the weighted score lies between its two inputs, hence in 0..100 when both do |
| StyleEval.FinalScoreExample | Module-2/style_eval.py:54 | rule 100 and grader 80 give 88 |
| StyleEval.ItemOf | Module-2/style_eval.py:51-64 | an item carries its prompt, the reply's answer, the rule score of that answer (60..100), a grader score in 0..100 and their weighted final. A failing chat call is the item's error |
| StyleEval.ItemOfGrading | Module-2/style_eval.py:51-63 | once `ask` has answered: the item is accepted iff the grading model returns a score in 0..100. A grading exception is the item's error, an out-of-range score is a validation error, and an accepted item carries the grading model's score and notes and the reply's actions and tone |
| StyleEval.EvalPrompt | Module-2/style_eval.py:51-64 | one pass of the loop computes exactly that prompt's evaluation, or the first exception raised on the way |
| StyleEval.SumFinalsBounds | Module-2/style_eval.py:65 | n final scores in 0..100 sum to 0..100·n |
| StyleEval.MeanBounds | Module-2/style_eval.py:65 | the mean of final scores in 0..100 lies in 0..100 |
| StyleEval.EvalBatch | Module-2/style_eval.py:48-68 | succeeds iff the batch is non-empty and every prompt evaluates. Then there is one item per prompt, in input order, each that prompt's evaluation, and the mean is the exact mean of the finals. An empty batch fails as the mean of nothing; otherwise the error is the first failing prompt's |
| App.OrderQuestion | Module-2/app.py:51 | the rewritten question starts with the fixed lead and the id, ends with the status, and starts with 'П' |
| App.IsExitWord | Module-2/app.py:57 | only a text of 4 or 5 characters can be an exit word |
| App.NotExitWord | Module-2/app.py:57 | text starting with '/' or 'п' (after lower-casing) is no exit word |
| App.CliOrderId | Module-2/app.py:48 | the id the command line takes is shorter than the line after "/order " and, when non-empty, begins and ends with a non-space character |
| App.OrderText | Module-2/app.py:49-51 | the rewritten text of an order line starts with 'П' |
| App.Classify | Module-2/app.py:41-60 | a line that reaches the chat call is never empty |
| App.BlankLinesSkipped | Module-2/app.py:41-44 | a line is skipped iff it is empty or whitespace only |
| App.OrderIdNeverEmpty | Module-2/app.py:41-54 | the "please give an order number" branch is unreachable |
| App.ExitIff | Module-2/app.py:47-60 | the session ends iff the stripped line, lower-cased, is "выход", "quit" or "exit"; an order line never ends it |
| App.OrderExitIsNotExit | Module-2/app.py:47-57 | "/order exit" is sent on as the rewritten question about order "exit" |
| App.BareOrderSentAsText | Module-2/app.py:47 | a bare "/order" fails the prefix test and is sent on unchanged |
| App.OrderLineRewritten | Module-2/app.py:47-51 | an order line is sent on as the question naming its non-empty id and that id's status |
| App.SentTextAvoidsShortCircuit | Module-2/app.py:51 | no text the command line sends starts with "/order ", so `chat`'s short-circuit is never taken from it |
| App.CommandLineChatUsesModel | Module-2/app.py:64-66 | every text the command line sends is answered by the model, once the user template can be built |
| App.TurnOf | Module-2/app.py:64-74 | a turn is answered iff the chat call returned, carrying its reply, and otherwise carries the exception |
| App.Replay | Module-2/app.py:33-74 | the loop's definition: one turn per line that reaches the chat call, in input order, nothing after an exit word, and never a chat call with an empty text |
| App.AnswerLine | Module-2/app.py:64-74 | one chat call: its turn carries the reply or the exception. An answered turn appends its record to the log and an exception appends nothing; the memory is unchanged |
| App.LogUsageZero | Module-2/app.py:69 | every record the loop writes has usage 0 |
| App.BlankLinesLeaveNoTrace | Module-2/app.py:41-44 | blank lines before the rest of the input change nothing: no chat call, no record |
| App.LogOf | Module-2/app.py:64-74 | there is at most one record per turn |
| App.RunSession | Module-2/app.py:33-74 | the loop makes exactly the chat calls its replay prescribes, stopping at an exit word. The log gains one record per answered turn, in order; exceptions add none and the loop goes on. The memory is unchanged |

## Left out

- Loading `style_guide.yaml`, `prompts.yaml`, `faq.json` and `orders.json`, with their file errors: the loaded documents are parameters. The top-level `prompts:` key is folded into the catalog type.
- The LangChain/OpenAI objects (template classes, `ChatOpenAI`, `ConversationBufferMemory`, `ConversationChain`) are left out: templates are opaque records, and the model, the structured-output call and the grading model are function parameters.
- How `partial_variables` receives the JSON text of `format.fields` depends on the library; the text is carried as given (`{}` when absent). Its serialisation by `json.dumps` is not modelled.
- File writes and `logging`: only the record contents of `save_session` are modelled. The `session_<id>.jsonl` append and the report file written by `eval_batch` are left out. `uuid4` becomes the `sessionId` parameter.
- `model_name`, `temperature` and `request_timeout` configure the foreign model only.
- `faq_data` is loaded but never used by the code.
- The conversation memory is set up once and never read by `chat`; the model keeps it as the `memory` field that the loop never changes.
- `ChatBot.Chat`: the code passes the mapping `{"user_input": user_input}` to `llm.invoke` (brand_chain.py:284); the model abstracts that call as a function of the input text. The user template is built and must succeed, but the code never passes it to the model.
- `FinalScore`: uses the exact integer idealisation `(4·rule + 6·llm) div 10` of `int(0.4*rule + 0.6*llm)`. Floating-point rounding of the products is not modelled.
- `EvalBatch`: the mean is the exact real quotient. `round(..., 2)` is not modelled.
- `eval_batch` unpacks `ask(p)` as `(reply, tokens)`, whereas `chat` returns a string. `ask` is an abstract function returning a structured reply and a token count; the mismatch is not reconciled.
- `LowerChar`: lower-cases Latin A-Z and the Cyrillic capitals U+0400-U+042F only. Other scripts are kept as they are, which is enough for the three exit words.
- `IsSpace`: covers the code points Python's `str.isspace` accepts. Unicode normalisation does not arise.
- Interactive I/O (`input`, `print`) and the `KeyboardInterrupt` exit are left out; the input lines are a sequence parameter. At the end of its input, Python's `input()` raises `EOFError`, which app.py:36 does not catch (it catches only `KeyboardInterrupt`), so the program dies with a traceback; the model instead ends normally with `quit == false`.
- `ecom-bot/app.py` is not part of this model. Its strip, skip and exit-word handling is the same as the command line's.
- Values in the loaded documents are assumed to have the types the code expects (strings, lists of strings, a boolean, an integer).
