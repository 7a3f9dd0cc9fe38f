# GigaChain prompt assembly, list parsers and prompt loading in Dafny

This project models three parts of GigaChain, a LangChain fork, and proves properties of each.

- **AutoGPT prompt assembly** (`AutoGPTPrompt.construct_full_prompt` and
  `AutoGPTPrompt.format_messages`). The system message is made of these parts:
  - the persona;
  - the fixed ground rules;
  - the numbered goals;
  - the tool catalogue;
  - the clock;
  - the retrieved memories, trimmed from the end until the system text and the memories fit
    under a ceiling of 2500 tokens.

  The system message is followed by the longest run of the ten most recent messages that fits
  under `send_token_limit - 1000`, then by the user's input. Both loops are Dafny methods. Each
  one is proved against a specification function. The greedy results are then characterised
  by lemmas: the longest fitting prefix of the memories, and the longest fitting suffix of the
  history window.
- **List output parsers** (`CommaSeparatedListOutputParser.parse` and
  `NumberedListOutputParser.parse`). These are pure functions.
  - The comma parser replaces newlines, strips the text and splits it on ", ". A round trip
    through `Join` recovers the parsed text.
  - The numbered parser is a hand-written left-to-right scanner for the pattern
    `\d+\.\s([^\n]+)`, read the way `re.findall` reads it. For any text it is proved to give
    non-empty, single-line items, and to give none exactly when the pattern matches nowhere.
    Text in which no match starts, such as commentary before a list, is proved to be dropped
    (`ListParsers.NumberedListSkipsText`). That items come back in order of appearance is proved
    one numbered line at a time (`ListParsers.NumberedListLine`), for rendered goal lists, and on
    examples, one of them a list after commentary.
- **Prompt loading** (`load_prompt_from_config` and the private loaders). A configuration
  dictionary is a `map<string, Value>`. The loaders work in place on a `PromptConfig` object:
  they pop keys from its `entries` and assign keys in it. Each loader method is proved equal to a
  specification function. That function returns the new dictionary together with the exception
  raised, if any. The functions state:
  - which keys may change;
  - the error cases;
  - how `_type` is dispatched;
  - the `.txt`, `.json`, `.yaml` and `.yml` suffix rules;
  - that a nested `example_prompt` is loaded one level down.

The token counter is a parameter of type `string -> nat`. File reading and JSON/YAML decoding
are the three functions of an `Env` value. The clock text and the rendering of the tool list are
parameters too.

Files:

| file | contents |
|---|---|
| `wrappers.dfy` | `Option` and `Result` |
| `text.dfy` | whitespace and ASCII digits; the decimal rendering of goal numbers |
| `list_parsers.dfy` | the modules `ListParsers` and `ListParserExamples` |
| `autogpt_prompt.dfy` | the module `AutoGpt` |
| `prompt_loading.dfy` | the module `PromptLoading` |

## Model

| member | source | states |
|---|---|---|
| Text.NatToDecimal | libs/experimental/langchain_experimental/autonomous_agents/autogpt/prompt.py:36 | the goal number `i+1` is rendered as a non-empty run of ASCII digits without a leading zero |
| AutoGpt.GoalsFromSnoc | libs/experimental/langchain_experimental/autonomous_agents/autogpt/prompt.py:35-36 | appending a goal appends exactly its line "k. goal\n", numbered one past the goals before it |
| AutoGpt.ConstructFullPrompt | libs/experimental/langchain_experimental/autonomous_agents/autogpt/prompt.py:24-39 | the loop's result is the preamble, then goal i rendered as the line "i+1. goal\n" for every i in order, then "\n\n" and the tools text |
| AutoGpt.GoalsFrom | libs/experimental/langchain_experimental/autonomous_agents/autogpt/prompt.py:35-36 | defines the goal lines "k. goal\n" numbered from k; `AutoGpt.GoalsFromSnoc` and `AutoGpt.GoalListParsesBack` state its properties |
| AutoGpt.FullPrompt | libs/experimental/langchain_experimental/autonomous_agents/autogpt/prompt.py:24-39 | defines what `construct_full_prompt` returns: preamble, goal lines from 1, "\n\n", tools text; `AutoGpt.ConstructFullPrompt` is proved equal to it |
| AutoGpt.GoalListParsesBack | libs/experimental/langchain_experimental/autonomous_agents/autogpt/prompt.py:35-36 | the rendered goal list is a numbered list: the numbered-list parser reads back exactly the goals, in order, when each is a non-empty single line |
| AutoGpt.GoalLineParses | libs/experimental/langchain_experimental/autonomous_agents/autogpt/prompt.py:36 | one goal line is read by the numbered-list parser as one item, and parsing continues after its newline |
| AutoGpt.SumTokens | libs/experimental/langchain_experimental/autonomous_agents/autogpt/prompt.py:59-61 | defines `sum(token_counter(doc) for doc in relevant_memory)` |
| AutoGpt.KeptMemory | libs/experimental/langchain_experimental/autonomous_agents/autogpt/prompt.py:62-66 | defines the memories the loop keeps: drop the last while over 2500, stop at the empty list; `AutoGpt.KeptMemoryIsLongestFittingPrefix` characterises it |
| AutoGpt.KeptMemoryIsLongestFittingPrefix | libs/experimental/langchain_experimental/autonomous_agents/autogpt/prompt.py:62-66 | the kept memories are a prefix of the retrieved list; they fit under 2500 with the system text unless they are empty; no longer prefix fits; if the system text alone is over 2500, nothing is kept |
| AutoGpt.KeptMemoryIdempotent | libs/experimental/langchain_experimental/autonomous_agents/autogpt/prompt.py:62-66 | trimming an already trimmed memory list changes nothing |
| AutoGpt.TrimMemory | libs/experimental/langchain_experimental/autonomous_agents/autogpt/prompt.py:62-66 | the memory loop, with the evidently intended stop at the empty list, always ends with the longest fitting prefix and with that prefix's token sum |
| AutoGpt.TrimMemoryAsWritten | libs/experimental/langchain_experimental/autonomous_agents/autogpt/prompt.py:62-66 | the loop as written ends only when the system text fits under 2500 on its own, and then keeps the longest fitting prefix |
| AutoGpt.MemoryLoopNeverExits | libs/experimental/langchain_experimental/autonomous_agents/autogpt/prompt.py:62-66 | when the system text alone exceeds 2500, the list after k turns is the retrieved list shortened by k, or empty, and the loop guard still holds after every turn |
| AutoGpt.LastWindow | libs/experimental/langchain_experimental/autonomous_agents/autogpt/prompt.py:77 | defines `messages[-10:]`; `AutoGpt.LastWindowIsMostRecent` characterises it |
| AutoGpt.LastWindowIsMostRecent | libs/experimental/langchain_experimental/autonomous_agents/autogpt/prompt.py:77 | `messages[-10:]` holds the min(10, n) most recent messages, in their original order |
| AutoGpt.MessageTokensAppend | libs/experimental/langchain_experimental/autonomous_agents/autogpt/prompt.py:78-82 | the tokens of two message runs add up |
| AutoGpt.KeptHistory | libs/experimental/langchain_experimental/autonomous_agents/autogpt/prompt.py:76-82 | defines the history kept by walking the window from the newest message back until one does not fit; `AutoGpt.KeptHistoryIsLongestFittingSuffix` characterises it |
| AutoGpt.KeptHistoryIsSuffix | libs/experimental/langchain_experimental/autonomous_agents/autogpt/prompt.py:77-81 | the kept history is a contiguous suffix of the window, in chronological order |
| AutoGpt.KeptHistoryFits | libs/experimental/langchain_experimental/autonomous_agents/autogpt/prompt.py:78-82 | a non-empty kept history, added to the tokens already used, stays within the budget |
| AutoGpt.KeptHistoryIsLongest | libs/experimental/langchain_experimental/autonomous_agents/autogpt/prompt.py:78-82 | no longer suffix of the window fits the budget, so no message older than the first one that does not fit is ever kept |
| AutoGpt.KeptHistoryIsLongestFittingSuffix | libs/experimental/langchain_experimental/autonomous_agents/autogpt/prompt.py:76-82 | the kept history is exactly the longest suffix of the window that fits within the budget |
| AutoGpt.KeptHistoryStep | libs/experimental/langchain_experimental/autonomous_agents/autogpt/prompt.py:78-82 | one turn of the history loop: a message over the budget ends the history, and one within it is prepended and its tokens are added |
| AutoGpt.KeptHistoryOfRecent | libs/experimental/langchain_experimental/autonomous_agents/autogpt/prompt.py:76-82 | the history kept from the last ten messages has at most 10 elements, is a suffix of all previous messages, and fits the budget |
| AutoGpt.TrimHistory | libs/experimental/langchain_experimental/autonomous_agents/autogpt/prompt.py:76-82 | the newest-to-oldest loop with its `break` yields the kept history of the last ten messages, and the used tokens grow by exactly that history's tokens |
| AutoGpt.MemoryKeptFits | libs/experimental/langchain_experimental/autonomous_agents/autogpt/prompt.py:57-66 | the memories placed in the system message fit under 2500 together with the full prompt and the clock line |
| AutoGpt.SystemContent | libs/experimental/langchain_experimental/autonomous_agents/autogpt/prompt.py:42-75 | defines the system text: full prompt, clock line, and the memory note only when some memory is kept |
| AutoGpt.HistoryStart | libs/experimental/langchain_experimental/autonomous_agents/autogpt/prompt.py:53-75 | defines the tokens counted before the history: the base text, plus the memory note only when some memory is kept |
| AutoGpt.BuildSystemContent | libs/experimental/langchain_experimental/autonomous_agents/autogpt/prompt.py:42-75 | the system text is the full prompt and the clock line; the memory note and its tokens are added exactly when some memory is kept, and otherwise text and count are unchanged |
| AutoGpt.FormatMessages | libs/experimental/langchain_experimental/autonomous_agents/autogpt/prompt.py:41-87 | the result is one system message, the kept history, then a human message holding exactly the user input; its length is 2 plus at most 10; the middle is a suffix of the previous messages; the history's tokens, without the user input's, stay within `send_token_limit - 1000` |
| ListParsers.FindSeparator | libs/langchain/langchain/output_parsers/list.py:34 | the first occurrence of ", ", or none when the text holds no ", " |
| ListParsers.ReplaceNewlines | libs/langchain/langchain/output_parsers/list.py:35 | after `replace("\n", ", ")` no newline is left |
| ListParsers.NormalizeNewlines | libs/langchain/langchain/output_parsers/list.py:34-35 | defines the newline replacement done only when the text has a newline and no ", "; `ListParsers.CommaListSingleItem` and `ListParsers.CommaListSplitsLines` state both branches |
| ListParsers.TrimStart | libs/langchain/langchain/output_parsers/list.py:36 | drops exactly the leading whitespace |
| ListParsers.TrimEnd | libs/langchain/langchain/output_parsers/list.py:36 | drops exactly the trailing whitespace |
| ListParsers.Strip | libs/langchain/langchain/output_parsers/list.py:36 | `str.strip()`: the result is a slice of the text with no whitespace at either end, and everything cut off is whitespace |
| ListParsers.Split | libs/langchain/langchain/output_parsers/list.py:36 | `split(", ")` always yields at least one piece |
| ListParsers.ParseCommaList | libs/langchain/langchain/output_parsers/list.py:32-36 | the comma parser always returns at least one element |
| ListParsers.SplitPiecesHaveNoSeparator | libs/langchain/langchain/output_parsers/list.py:36 | no piece of `split(", ")` contains ", " |
| ListParsers.SplitPiecesAvoid | libs/langchain/langchain/output_parsers/list.py:36 | a character absent from the text is absent from every piece |
| ListParsers.JoinSplit | libs/langchain/langchain/output_parsers/list.py:36 | joining the pieces of `split(", ")` with ", " gives the text back |
| ListParsers.SplitJoin | libs/langchain/langchain/output_parsers/list.py:36 | splitting the join of non-empty-list pieces without ", " gives the pieces back |
| ListParsers.StripSplitJoin | libs/langchain/langchain/output_parsers/list.py:36 | items without ", " whose outer ends are not whitespace survive join, strip and split unchanged, so items are not trimmed one by one |
| ListParsers.CommaListRoundTrip | libs/langchain/langchain/output_parsers/list.py:36 | joining the parsed items with ", " gives the stripped, newline-substituted text |
| ListParsers.CommaListItemsHaveNoSeparator | libs/langchain/langchain/output_parsers/list.py:36 | no parsed item contains ", " |
| ListParsers.CommaListSingleItem | libs/langchain/langchain/output_parsers/list.py:34-36 | a text with neither ", " nor a newline parses to exactly its stripped self |
| ListParsers.CommaListSplitsLines | libs/langchain/langchain/output_parsers/list.py:34-36 | a text with newlines but no ", " has every newline replaced before the split: no item holds a newline, and the items join to the stripped, replaced text |
| ListParsers.DigitRun | libs/langchain/langchain/output_parsers/list.py:54 | `\d+` as far as it goes: the longest run of leading ASCII digits |
| ListParsers.LineLength | libs/langchain/langchain/output_parsers/list.py:54 | `[^\n]+` as far as it goes: the characters up to the first newline |
| ListParsers.MatchAt | libs/langchain/langchain/output_parsers/list.py:54 | the pattern matches at the start of a text exactly when digits, '.', a whitespace and a non-newline character start it; the captured group is the rest of that line |
| ListParsers.NumberedItems | libs/langchain/langchain/output_parsers/list.py:52-58 | the `re.findall` scan that `NumberedListOutputParser.parse` returns (`ListParsers.ParseNumberedList` is that entry point): every item found by the left-to-right, non-overlapping scan is non-empty and has no newline |
| ListParsers.NumberedListEmptyIff | libs/langchain/langchain/output_parsers/list.py:54-58 | the numbered parser returns [] exactly when no position of the text starts "digits, '.', whitespace, non-newline" |
| ListParsers.NumberedListLine | libs/langchain/langchain/output_parsers/list.py:54-57 | a numbered line yields its text as the next item, and scanning resumes at the line's end |
| ListParsers.NumberedListSkipsNewline | libs/langchain/langchain/output_parsers/list.py:54-57 | a leading newline yields no item |
| ListParsers.NumberedListSkipsText | libs/langchain/langchain/output_parsers/list.py:54-57 | text at none of whose positions a match starts, such as commentary before a list, is dropped: the parser returns exactly what the rest of the text yields |
| ListParserExamples.CommaListCommaExample | libs/langchain/langchain/output_parsers/list.py:32-36 | "a, b, c" parses to ["a", "b", "c"] |
| ListParserExamples.CommaListNewlineExample | libs/langchain/langchain/output_parsers/list.py:34-36 | "a\nb\nc" parses to ["a", "b", "c"] |
| ListParserExamples.TrailingNewlineReplaced | libs/langchain/langchain/output_parsers/list.py:34-35 | a trailing newline becomes a trailing ", " |
| ListParserExamples.TrailingSeparatorStripped | libs/langchain/langchain/output_parsers/list.py:36 | strip removes the trailing space of a trailing ", " but keeps its comma |
| ListParserExamples.CommaListTrailingNewline | libs/langchain/langchain/output_parsers/list.py:34-36 | "a\nb\n" parses to ["a", "b,"], so the last item keeps a comma |
| ListParserExamples.NumberedParagraph | libs/langchain/langchain/output_parsers/list.py:54-57 | an item followed by a blank line is read and the blank line yields nothing |
| ListParserExamples.NumberedLastLine | libs/langchain/langchain/output_parsers/list.py:54-57 | a final line without a newline is read as an item |
| ListParserExamples.NumberedListExample | libs/langchain/langchain/output_parsers/list.py:49-58 | the format instructions' example "1. x\n\n2. y\n\n3. z" parses to [x, y, z] in order |
| ListParserExamples.DigitFreeTextSkipped | libs/langchain/langchain/output_parsers/list.py:54-57 | commentary containing no digit, put in front of any text, changes nothing the parser returns |
| ListParserExamples.CommentaryThenList | libs/langchain/langchain/output_parsers/list.py:54-57 | commentary without digits followed by "1. x\n2. y" parses to exactly [x, y] |
| PromptLoading.DropTrailingSlashes | libs/langchain/langchain/prompts/loading.py:41-43 | `Path` ignores trailing '/' characters: the result does not end in '/' |
| PromptLoading.DropTrailingSlashesIsPrefix | libs/langchain/langchain/prompts/loading.py:41-43 | only '/' characters are dropped, and only from the end |
| PromptLoading.LastIndex | libs/langchain/langchain/prompts/loading.py:43 | `str.rfind`: the index of the last occurrence, or -1 |
| PromptLoading.LastComponent | libs/langchain/langchain/prompts/loading.py:43 | the path's final component is the tail after its last '/', and holds no '/' |
| PromptLoading.Extension | libs/langchain/langchain/prompts/loading.py:43 | a file name's suffix runs from its last '.' to the end when that dot is neither first nor last, and is empty otherwise: the result is empty or such a tail, and it is that tail whenever such a dot exists |
| PromptLoading.Suffix | libs/langchain/langchain/prompts/loading.py:43 | `Path.suffix` is empty or a '.' followed by at least one character; it ends the path and has no other '.' and no '/' |
| PromptLoading.PlainNameSuffix | libs/langchain/langchain/prompts/loading.py:137 | a bare file name is its own final component |
| PromptLoading.SuffixOfPlainName | libs/langchain/langchain/prompts/loading.py:137-144 | a plain name "stem.ext" has the suffix ".ext" |
| PromptLoading.SuffixOfNestedName | libs/langchain/langchain/prompts/loading.py:137-144 | a name "stem.ext" under any directory has the suffix ".ext" |
| PromptLoading.TemplateStep | libs/langchain/langchain/prompts/loading.py:31-50 | only `var` and `var_path` change; without `var_path` nothing changes; with both keys it raises before any read and changes nothing; otherwise `var_path` is popped; success happens exactly for a ".txt" path that can be read, and `var` then holds the file text; any other suffix raises |
| PromptLoading.TemplateFromPath | libs/langchain/langchain/prompts/loading.py:41-49 | only `var` may change; success exactly for a readable ".txt" file, with `var` then holding its text; an error leaves the dictionary as it was |
| PromptLoading.ExamplesFileName | libs/langchain/langchain/prompts/loading.py:59-66 | defines the examples file names accepted: ending in ".json", ".yaml" or ".yml" |
| PromptLoading.DecodeExamples | libs/langchain/langchain/prompts/loading.py:59-62 | defines the decoder chosen by the name's ending: JSON for ".json", YAML otherwise |
| PromptLoading.ExamplesStep | libs/langchain/langchain/prompts/loading.py:53-70 | only `examples` may change, and no key is added or removed; a missing key raises; a list stays; a value that is neither list nor string raises; success exactly for a list, or for a readable ".json", ".yaml" or ".yml" file that decodes; a file name is then replaced by the decoded file, and any error leaves the dictionary as it was |
| PromptLoading.Truthy | libs/langchain/langchain/prompts/loading.py:75 | defines Python truthiness of a configuration value |
| PromptLoading.OutputParserStep | libs/langchain/langchain/prompts/loading.py:73-87 | only `output_parser` may change; an absent or falsy one changes nothing; otherwise success exactly for a dictionary whose `_type` is "regex_parser" or "default", and the parser then holds the dictionary without `_type` |
| PromptLoading.FromConfig | libs/langchain/langchain/prompts/loading.py:18-28 | `_type` is gone afterwards; a configuration without `_type`, or with `_type` "prompt", loads as a plain prompt from the dictionary without `_type`; any other `_type` than "prompt" or "few_shot" raises, with only `_type` popped |
| PromptLoading.FewShotTypeDispatch | libs/langchain/langchain/prompts/loading.py:22-28 | a configuration whose `_type` is "few_shot" is loaded as a few-shot prompt from the dictionary without `_type` |
| PromptLoading.PromptLoaded | libs/langchain/langchain/prompts/loading.py:111-116 | only `template`, `template_path` and `output_parser` may change; loading succeeds exactly when the template step and then the output-parser step succeed; the final dictionary is the one the template step leaves when it raises, and otherwise the one the output-parser step leaves after it; a success is a prompt template built from that dictionary, which holds no `template_path` |
| PromptLoading.ExamplePromptStep | libs/langchain/langchain/prompts/loading.py:96-104 | only `example_prompt` and `example_prompt_path` may change; naming both raises and changes nothing; a lone path is loaded from its file, and otherwise `example_prompt` is loaded as a nested configuration; on success the path key is gone and `example_prompt` holds a loaded prompt |
| PromptLoading.ExamplePromptFromFile | libs/langchain/langchain/prompts/loading.py:102 | `example_prompt_path` is popped; a string path is loaded as a prompt file, and any other value raises |
| PromptLoading.ExamplePromptFromPath | libs/langchain/langchain/prompts/loading.py:102 | only `example_prompt` may change; it is set exactly when loading the file succeeds, and then holds the prompt that file loads as; a failure raises that load's error and changes nothing |
| PromptLoading.ExamplePromptFromConfig | libs/langchain/langchain/prompts/loading.py:104 | only `example_prompt` may change; a missing key or a non-dictionary raises; a dictionary is loaded as a nested configuration; when that fails, the dictionary stays as its own loading left it |
| PromptLoading.ExamplePromptFromNested | libs/langchain/langchain/prompts/loading.py:104 | the nested dictionary is loaded one level down; the step succeeds exactly when that load does, storing its prompt, and otherwise raises its error and stores the updated dictionary |
| PromptLoading.FewShotLoaded | libs/langchain/langchain/prompts/loading.py:90-108 | only suffix, prefix, their path keys, the example-prompt keys, `examples` and `output_parser` may change; a success is a few-shot template built from the final dictionary |
| PromptLoading.FewShotLoadedSucceeds | libs/langchain/langchain/prompts/loading.py:90-108 | a few-shot prompt loads exactly when the suffix, prefix, example-prompt, examples and output-parser steps each succeed in turn; once the first four succeed, the final dictionary is the one the output-parser step leaves after them |
| PromptLoading.PromptFileFormat | libs/langchain/langchain/prompts/loading.py:137-144 | JSON exactly for the suffix ".json", YAML exactly for ".yaml", and nothing else |
| PromptLoading.DecodeAs | libs/langchain/langchain/prompts/loading.py:137-142 | defines the decoder used for each prompt-file format |
| PromptLoading.ReadPromptFile | libs/langchain/langchain/prompts/loading.py:137-142 | an unreadable file raises; the read succeeds exactly when the file is readable and decodes to a dictionary, and gives that dictionary |
| PromptLoading.FileLoaded | libs/langchain/langchain/prompts/loading.py:129-146 | any suffix other than ".json" or ".yaml" raises with that suffix; a known suffix loads the file in that format; success needs a readable file |
| PromptLoading.FormatLoaded | libs/langchain/langchain/prompts/loading.py:137-146 | a failed read raises its error; otherwise the result is loading the decoded dictionary one level down |
| PromptLoading.TypeDefaultsToPrompt | libs/langchain/langchain/prompts/loading.py:20-22 | a configuration without `_type` loads exactly like the same one with `_type` "prompt" |
| PromptLoading.FewShotRejectsBothExamplePrompts | libs/langchain/langchain/prompts/loading.py:96-101 | a few-shot configuration naming both `example_prompt` and `example_prompt_path` always fails; once its templates load, the error is that clash |
| PromptLoading.YmlExamplesButNotPrompts | libs/langchain/langchain/prompts/loading.py:137-144 | "name.yml" is refused as a prompt file with the suffix ".yml", but is accepted as an examples file |
| PromptLoading.DotNameEndsWith | libs/langchain/langchain/prompts/loading.py:59-62 | a dot followed by a name without dots ends with ".json", ".yaml" or ".yml" exactly when that name is "json", "yaml" or "yml" |
| PromptLoading.DotFileHasNoSuffix | libs/langchain/langchain/prompts/loading.py:137-144 | a name that is only an extension, such as ".json", has an empty suffix, so the prompt-file loader refuses it; the examples loader accepts it exactly when the extension is json, yaml or yml |
| PromptLoading.InlineTemplateLoads | libs/langchain/langchain/prompts/loading.py:111-116 | a configuration holding only an inline template loads as a prompt template built from it |
| PromptLoading.JsonPromptFileLoads | libs/langchain/langchain/prompts/loading.py:129-146 | a readable "name.json" that decodes to a dictionary loads as that dictionary does |
| PromptLoading.InlineFewShotLoads | libs/langchain/langchain/prompts/loading.py:90-108 | a few-shot configuration with an inline suffix, inline example prompt and list of examples loads, with the example prompt loaded in place of its dictionary |
| PromptLoading.PromptConfig.constructor | libs/langchain/langchain/prompts/loading.py:18 | the configuration object holds the given dictionary |
| PromptLoading.LoadTemplate | libs/langchain/langchain/prompts/loading.py:31-50 | the in-place `_load_template` leaves the dictionary and the error that `TemplateStep` gives |
| PromptLoading.LoadTemplateFromPath | libs/langchain/langchain/prompts/loading.py:41-49 | the in-place file read leaves the dictionary and the error that `TemplateFromPath` gives |
| PromptLoading.LoadExamples | libs/langchain/langchain/prompts/loading.py:53-70 | the in-place `_load_examples` leaves the dictionary and the error that `ExamplesStep` gives |
| PromptLoading.LoadOutputParser | libs/langchain/langchain/prompts/loading.py:73-87 | the in-place `_load_output_parser` leaves the dictionary and the error that `OutputParserStep` gives |
| PromptLoading.LoadPromptFromConfig | libs/langchain/langchain/prompts/loading.py:18-28 | the in-place `load_prompt_from_config` leaves the dictionary and the result that `FromConfig` gives |
| PromptLoading.LoadPrompt | libs/langchain/langchain/prompts/loading.py:111-116 | the in-place `_load_prompt` leaves the dictionary and the result that `PromptLoaded` gives |
| PromptLoading.LoadFewShotPrompt | libs/langchain/langchain/prompts/loading.py:90-108 | the in-place `_load_few_shot_prompt` leaves the dictionary and the result that `FewShotLoaded` gives |
| PromptLoading.LoadExamplePrompt | libs/langchain/langchain/prompts/loading.py:96-104 | the in-place example-prompt branch leaves what `ExamplePromptStep` gives |
| PromptLoading.LoadExamplePromptFromFile | libs/langchain/langchain/prompts/loading.py:102 | the in-place pop and file load leave what `ExamplePromptFromFile` gives |
| PromptLoading.LoadExamplePromptFromPath | libs/langchain/langchain/prompts/loading.py:102 | the in-place file load leaves what `ExamplePromptFromPath` gives |
| PromptLoading.LoadExamplePromptFromConfig | libs/langchain/langchain/prompts/loading.py:104 | the in-place nested load leaves what `ExamplePromptFromConfig` gives |
| PromptLoading.LoadExamplePromptFromNested | libs/langchain/langchain/prompts/loading.py:104 | the nested dictionary is loaded in place as a separate object; the outer dictionary ends as `ExamplePromptFromNested` says |
| PromptLoading.LoadPromptFromFile | libs/langchain/langchain/prompts/loading.py:129-146 | the suffix dispatch returns what `FileLoaded` gives |
| PromptLoading.LoadPromptFile | libs/langchain/langchain/prompts/loading.py:137-146 | reading, decoding and loading a file of a known format returns what `FormatLoaded` gives |
| PromptLoading.LoadDecodedConfig | libs/langchain/langchain/prompts/loading.py:146 | loading a decoded dictionary through a fresh configuration object returns what `FromConfig` gives |

The helpers that hold the prompt's literal text have no contract of their own. Their text is
stated through the rows for `AutoGpt.FullPrompt`, `AutoGpt.SystemContent`, `AutoGpt.HistoryStart`
and `ListParsers.Strip`, whose contracts are built from them:
- `AutoGpt.Preamble` and the constant `AutoGpt.PromptStart`: the persona and the ground rules
  (prompt.py:25-34);
- `AutoGpt.GoalLine`: one goal line (prompt.py:36);
- `AutoGpt.ClockLine`: the clock line (prompt.py:43);
- `AutoGpt.MemoryNote`: the memory note (prompt.py:68-72);
- `Text.IsSpace`: the characters Python's `str.isspace` accepts, which is the set `str.strip()`
  removes (list.py:36).

## Left out

- The vector-store retrieval and its query text `str(previous_messages[-10:])` are left out. The
  ranked memory texts are the parameter `retrieved` of `AutoGpt.FormatMessages`.
- `get_prompt(self.tools)` is the field `toolsPrompt`.
- `time.strftime('%c')` is the parameter `now`.
- Python's `repr` of the kept memory list is the parameter `listRepr`.
- The token counter is any function `string -> nat`. A counter that returns negative numbers is
  not modelled.
- The `kwargs` lookups of `format_messages` are left out. A missing `goals`, `memory`,
  `messages` or `user_input` key would raise `KeyError`; the model takes them as parameters.
- AutoGpt.FormatMessages: uses the corrected memory loop `AutoGpt.TrimMemory`. The loop as
  written is `AutoGpt.TrimMemoryAsWritten`; see "## Findings".
- AutoGpt.BuildSystemContent: this method, `AutoGpt.TrimMemory` and `AutoGpt.TrimHistory` are pieces of the
  single method `format_messages`. They are split out so that each loop has its own invariants.
- ListParsers.DigitRun: reads `\d` as ASCII digits only; Python's `re` also accepts
  other Unicode decimal digits. `\s` and `str.strip` use Python's Unicode whitespace set.
- Python's general regex engine is not modelled; only the one numbered-list pattern is.
- The library classes `PromptTemplate`, `FewShotPromptTemplate`, `RegexParser` and
  `StrOutputParser` are tagged values that hold their keyword arguments. Their constructors'
  validation (unknown or missing fields, template syntax) is not modelled.
- File reading and JSON/YAML decoding are the functions of `PromptLoading.Env`.
  - An unreadable file is `CannotRead`.
  - A malformed one is `Undecodable`.
  - Encodings and partial reads are not modelled.
- Hub fetching in `load_prompt` (`try_load_from_hub` for `lc://` paths) is network I/O and is
  left out. `load_prompt` is modelled as `_load_prompt_from_file` on a local path.
- The Python exceptions are constructors of `PromptLoading.LoadError`. The kind of each
  exception is modelled, not its message.
  - The `KeyError` of a missing `examples`, `example_prompt` or `_type` key is `KeyMissing`.
  - The `TypeError` or `AttributeError` of a value of the wrong type, such as a non-string path
    or a non-dictionary `output_parser`, is `WrongValueType`.
- A `_type` that Python could not hash (a list or a dictionary) would raise `TypeError`; the model
  reports `UnsupportedPromptType` for it.
- Floating-point configuration values are not modelled, so `Value` has no float case.
- PromptLoading.FromConfig: this function, `PromptLoading.FileLoaded` and the loader methods take a
  `fuel` argument. It stands for Python's recursion limit: a few-shot prompt whose example prompt
  nests more than `fuel` levels deep fails with `RecursionLimit`.
- PromptLoading.Suffix: follows `PurePath.suffix` for POSIX paths. It takes the extension of the
  last '/'-separated component after dropping trailing '/' characters. Collapsing of "." and
  of repeated '/' components, and Windows separators, are not modelled.
- A nested `example_prompt` dictionary is the same object inside the outer configuration. The
  model copies the updated dictionary back into the outer one. Any other alias of that
  dictionary held elsewhere is not modelled.
- PromptLoading.ReadPromptFile: reports a decoded file that is not a dictionary as
  `WrongValueType`. In Python, a decoded `None` (an empty YAML file), number or boolean fails
  with `TypeError` on the `"_type" not in config` test. A list or a string passes that test and
  fails on the `pop` call.
- The warning that `load_prompt_from_config` logs when `_type` is missing is logging output and
  is not modelled; only the default to "prompt" is.
- PromptLoading.LoadTemplateFromPath: this method, the `PromptLoading.LoadExamplePrompt*` methods
  and `PromptLoading.LoadPromptFile` are pieces of inline code in `_load_template`,
  `_load_few_shot_prompt` and `_load_prompt_from_file`.

## Findings

| source | as written | input that shows it | evidently intended | confidence | as-written member | corrected member |
|---|---|---|---|---|---|---|
| libs/experimental/langchain_experimental/autonomous_agents/autogpt/prompt.py:62-66 | the loop `while used_tokens + relevant_memory_tokens > 2500` drops the last memory each turn, but its guard never checks whether the list is empty; `[][:-1]` is `[]`, so once the list is empty the guard stays true | a system text (full prompt plus clock line) that the token counter counts at more than 2500 tokens, for example a long tools text; the loop then never exits, whatever memories were retrieved | stop when the list is empty too, so that no memory is kept and the history is trimmed against the send limit | not executed | AutoGpt.MemoryLoopNeverExits | AutoGpt.TrimMemory |
