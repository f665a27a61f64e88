# Chat prompt rendering (zeno-build)

A Dafny model of the chat-prompt template of zeno-build, `ChatMessages`:
an ordered list of `ChatTurn(role, content)` records, with `role` either
`"system"` or `"user"`. The template is rendered in two ways:

- `to_openai_chat_completion_messages(variables)` substitutes the template
  variables into every turn, keeps its role, and drops every turn whose
  substituted content is blank (`content.strip() == ""`). The content it
  keeps is not stripped.
- `to_text_prompt(variables, system_name="System", user_name="User")`
  substitutes and drops blank turns in the same way, in a loop. Each kept
  turn becomes `"{name}: {content}"`, with the system's name for a system
  turn and the user's name otherwise. It appends the cue `"{system_name}:"`
  and joins everything with `"\n\n"`.

Files:

- `text.dfy` (module `Text`): the Python string operations the renderings
  use. `IsWhitespace` is the character set of `str.isspace`. `TrimLeft`,
  `TrimRight` and `Strip` model `lstrip`, `rstrip` and `strip`. `Join`
  models `sep.join(parts)`. `NotBlank(s)` holds when some character of `s`
  is not whitespace.
- `chat_prompt.dfy` (module `ChatPrompt`): the datatypes `Role`,
  `ChatTurn` and `ChatMessages`. `CompletionMessage` stands for one
  `{"role": ..., "content": ...}` dictionary. The message list is the pure
  function `ToOpenAIChatCompletionMessages`: a map (`SubstituteAll`)
  followed by a filter (`KeepNonBlank`). The text prompt is the method
  `ToTextPrompt`. It has the source's loop and is proved against the
  specification function `TextPrompt`.

`replace_variables` is defined in `zeno_build/prompts/prompt_utils`, which is
not part of this model. Every operation takes it as a parameter
`replace: Replacer`, and no property relies on what it does.

The message list has an independent reference definition,
`SelectsNonBlank(turns, variables, replace, idx, out)`. It says that `idx`
is a strictly increasing list of exactly the positions whose substituted
content is non-blank. It also says that `out[j]` is the substituted turn at
`idx[j]`, with its role and its unstripped content. Two lemmas connect this
definition to `ToOpenAIChatCompletionMessages`: one shows that the output is
such a selection, the other that it is the only one. The text prompt is tied
to the same list: it keeps exactly the turns that the message list keeps.

## Model

| member | source | states |
|---|---|---|
| Text.IsWhitespace | zeno_build/prompts/chat_prompt.py:53 | definition: the characters `str.isspace` accepts, which `strip()` removes; its meaning is stated by `Text.TrimLeft`, `Text.TrimRight` and `Text.StripEmptyIffBlank` |
| Text.NotBlank | zeno_build/prompts/chat_prompt.py:53 | definition: some character is not whitespace; `Text.StripEmptyIffBlank` proves it is the test `strip() != ""` |
| Text.Strip | zeno_build/prompts/chat_prompt.py:75 | definition: `strip()` as `rstrip()` after `lstrip()`; its meaning is stated by `Text.TrimLeft`, `Text.TrimRight` and `Text.StripEmptyIffBlank` |
| Text.Join | zeno_build/prompts/chat_prompt.py:78 | definition: `sep.join(parts)`, built from the back; `Text.JoinCons`, `Text.JoinSnoc` and `Text.JoinEndsWithLast` state its meaning |
| Text.TrimLeft | zeno_build/prompts/chat_prompt.py:53 | the result is a suffix of the input; everything removed is whitespace; a non-empty result does not start with whitespace |
| Text.TrimRight | zeno_build/prompts/chat_prompt.py:53 | the result is a prefix of the input; everything removed is whitespace; a non-empty result does not end with whitespace |
| Text.StripEmptyIffBlank | zeno_build/prompts/chat_prompt.py:75 | `s.strip() == ""` holds exactly when every character of `s` is whitespace, in both directions |
| Text.JoinCons | zeno_build/prompts/chat_prompt.py:78 | joining from the front gives the same string: `join([p] + ps) == p + sep + join(ps)` for non-empty `ps` |
| Text.JoinSnoc | zeno_build/prompts/chat_prompt.py:78 | appending a part to a non-empty list adds the separator and that part at the end |
| Text.JoinEndsWithLast | zeno_build/prompts/chat_prompt.py:78 | a join of a non-empty list ends with its last part |
| ChatPrompt.Substitute | zeno_build/prompts/chat_prompt.py:47-50 | definition: one dictionary of the first comprehension, the turn's role and `replace_variables(content, variables)`; its meaning is stated by `ChatPrompt.ToOpenAIIsNonBlankSubsequence` |
| ChatPrompt.SubstituteAll | zeno_build/prompts/chat_prompt.py:46-52 | definition: the first comprehension, every turn substituted in order; `ChatPrompt.ToOpenAIIsNonBlankSubsequence` states what survives of it |
| ChatPrompt.KeepNonBlank | zeno_build/prompts/chat_prompt.py:53 | the filter returns no more entries than it is given, and every entry it returns has non-blank content |
| ChatPrompt.ToOpenAIChatCompletionMessages | zeno_build/prompts/chat_prompt.py:46-53 | the list has at most as many entries as the template has turns, and no entry has blank content |
| ChatPrompt.KeepNonBlankSelects | zeno_build/prompts/chat_prompt.py:53 | the filter's output is the in-order subsequence of exactly the non-blank messages, given by a strictly increasing list of their positions |
| ChatPrompt.ToOpenAIIsNonBlankSubsequence | zeno_build/prompts/chat_prompt.py:46-53 | the message list selects, in order, exactly the turns whose substituted content is non-blank; each entry keeps the turn's role and has `replace(content, variables)` unstripped as its content |
| ChatPrompt.NonBlankSubsequenceIsUnique | zeno_build/prompts/chat_prompt.py:46-53 | any list that selects the non-blank substituted turns in order is equal to the message list |
| ChatPrompt.IncreasingSameMembersEqual | zeno_build/prompts/chat_prompt.py:46-53 | helper of `ChatPrompt.NonBlankSubsequenceIsUnique`: two strictly increasing lists of positions with the same members are equal, so the in-order selection is unique |
| ChatPrompt.KeepNonBlankAppend | zeno_build/prompts/chat_prompt.py:53 | filtering a concatenation is the concatenation of the filtered parts |
| ChatPrompt.KeepNonBlankOfBlank | zeno_build/prompts/chat_prompt.py:53 | nothing is kept when every message is blank |
| ChatPrompt.Speaker | zeno_build/prompts/chat_prompt.py:74 | definition: the system's name for a system turn, the user's name otherwise; `ChatPrompt.TextKeepsCompletionTurns` states its use |
| ChatPrompt.Labelled | zeno_build/prompts/chat_prompt.py:76 | definition: the f-string `"{name}: {content}"`; `ChatPrompt.TextKeepsCompletionTurns` states its use |
| ChatPrompt.Cue | zeno_build/prompts/chat_prompt.py:77 | definition: the closing segment `"{system_name}:"`; `ChatPrompt.TextPromptEndsWithCue` and `ChatPrompt.TextPromptShape` state its place |
| ChatPrompt.TurnSegment | zeno_build/prompts/chat_prompt.py:73-76 | definition: what one loop iteration appends, nothing for a blank substituted turn; `ChatPrompt.TextKeepsCompletionTurns` states its meaning |
| ChatPrompt.TurnSegments | zeno_build/prompts/chat_prompt.py:71-76 | definition: the list `messages` after the loop; `ChatPrompt.TextKeepsCompletionTurns` proves it is the labelled chat-completion list |
| ChatPrompt.TextPrompt | zeno_build/prompts/chat_prompt.py:71-78 | definition: the specification of `to_text_prompt`; `ChatPrompt.ToTextPrompt` is proved equal to it, and `ChatPrompt.TextPromptSegments`, `ChatPrompt.TextPromptShape`, `ChatPrompt.TextPromptEndsWithCue` and `ChatPrompt.BlankTemplateGivesCue` state its meaning |
| ChatPrompt.LabelAll | zeno_build/prompts/chat_prompt.py:72-76 | definition: each chat-completion message labelled with its speaker, in order; used by `ChatPrompt.TextKeepsCompletionTurns` |
| ChatPrompt.ToTextPrompt | zeno_build/prompts/chat_prompt.py:55-78 | the loop's result is the specification `TextPrompt`: for each turn in order, its labelled content if that content is non-blank after substitution, then the cue, all joined with the separator |
| ChatPrompt.TextKeepsCompletionTurns | zeno_build/prompts/chat_prompt.py:72-76 | the text prompt keeps exactly the turns that the message list keeps, in the same order; each is `"{name}: {content}"`, where `name` is the system's name for a system turn and the user's name otherwise |
| ChatPrompt.TextPromptSegments | zeno_build/prompts/chat_prompt.py:71-78 | the text prompt joins, with `"\n\n"`, one segment per entry of the message list and then the cue: the number of non-blank turns plus one segments |
| ChatPrompt.TextPromptShape | zeno_build/prompts/chat_prompt.py:71-78 | the text prompt is the cue alone when no turn is kept; otherwise it is the joined kept turns, `"\n\n"` and the cue |
| ChatPrompt.TextPromptEndsWithCue | zeno_build/prompts/chat_prompt.py:77-78 | whatever the messages, the text prompt ends with `system_name + ":"` |
| ChatPrompt.BlankTemplateGivesCue | zeno_build/prompts/chat_prompt.py:55-78 | with the default names and no turn whose substituted content is non-blank (no turns at all included), the text prompt is exactly `"System:"` |

## Left out

- `replace_variables` (zeno_build/prompts/prompt_utils) is not part of this model. It is a parameter of every operation, and nothing is assumed about its `{{var}}` substitution rules.
- Python dictionaries returned by `to_openai_chat_completion_messages` are modelled as the record `CompletionMessage(role, content)`. The role is the datatype `Role`, standing for the string literals `"system"` and `"user"`.
- Strings are sequences of Unicode scalar values, so a Python string holding a lone surrogate cannot be represented. No `strip()` behaviour is lost by this, since surrogates are not whitespace.
- A role string other than `"system"` or `"user"` cannot be represented, because the `Literal` annotation excludes it. Python does not enforce that annotation at run time; the text prompt would label such a turn with the user's name.
- `tasks/chatbot/main.py` and `tasks/text_summarization/main.py` are not modelled. They read environment variables, set up provider clients, create directories, read and write JSON files and call visualisation. The trial loop in them only calls functions whose code is not part of this model.
- `tasks/chatbot/config.py` is not modelled: it is static configuration data.
- The hyperparameter sweep, result caching and metric aggregation are not modelled. Their code (`zeno_build/optimizers`, the metric modules) is not part of this model.
