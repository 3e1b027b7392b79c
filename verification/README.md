# Semantic Kernel prompt templates and plugin lookup, in Dafny

This project models three pieces of the .NET Semantic Kernel.

1. **The prompt-template engine.** Its behaviour is modelled as the unit tests
   of `KernelPromptTemplate` pin it down:
   - `ExtractBlocks` cuts a template into Text, Variable, Value and Code blocks. Only
     `{{…}}` delimits a block, so a single-brace `{$x11}` stays text.
   - `RenderVariables` turns every Variable block into a Text block that holds
     the variable's value, or the empty text when the variable is unset.
   - `Render` renders the blocks left to right. First the code blocks are
     parsed and checked: a function name, at most one positional argument,
     then named arguments whose values start with a quote or `$`. Each call
     is then looked up among the kernel's plugins and run through a function
     oracle. Every call runs on its own copy of the caller's variables.
2. **Plugin and function resolution** (`ISKPluginExtensions`). It covers:
   - `TryGetFunction` and `GetFunction`;
   - the three `Contains` overloads;
   - `GetFunctionsMetadata`.
3. **The sample dictionary plugin** (`ComplexParamsDictionaryPlugin`): its five
   fixed entries, `GetDefinition`, `GetWord` and `GetRandomEntry`.

Modules, one per file:
- `Wrappers` (`Option`, `Result`) and `Sequences` (small sequence facts).
- `Symbols`: the template language's characters.
- `Strings`: `Trim` and `IndexOf`.
- `QuoteScan`: scanning that skips quoted literals, plus escaping and
  unescaping.
- `Blocks`: block kinds and error values.
- `TemplateTokenizer`: `ExtractBlocks`.
- `CodeTokenizer`: parsing and printing the inside of a code block.
- `ContextVariables`: the variables map.
- `PluginExtensions`: lookup and metadata.
- `PromptTemplate`: `RenderVariables`, checking and `Render`.
- `DictionaryPlugin`.
- `TemplateScenarios` and `ExtractScenario`: every test of
  `KernelPromptTemplateTests.cs`, each stated as a lemma about the model.

The function a code block calls is an oracle parameter. It receives the
callee's copy of the variables and returns a result text and the variables
as it left them, or a failure. The renderer drops the returned variables, and
that is the isolation the tests check.

Some string literals in the scenario lemmas are written as concatenations of
shorter literals, for example `"foo-{{" + ("plugin.function" + " input=$input" + …) + "}}-baz"`.
The value is the test's string, split at the spaces between its words or at
its block boundaries. Shorter pieces keep the string proofs small.

Only `{{$name}}` is a Variable block: the tests keep `{$x11} This {$a} is
{$_a} a` as one Text block (`KernelPromptTemplateTests.cs` lines 39-40 and 48).

## Model

Source paths are relative to the repository root.

| member | source | states |
|---|---|---|
| TemplateTokenizer.FirstCutSplits | dotnet/src/SemanticKernel.UnitTests/TemplateEngine/KernelPromptTemplateTests.cs:39-40 | the first block found starts at the first `{{` of the template, and text before it, the braced interior and the rest put the template back together |
| TemplateTokenizer.ExtractWellKinded | dotnet/src/SemanticKernel.UnitTests/TemplateEngine/KernelPromptTemplateTests.cs:51-84 | every block ExtractBlocks yields is non-empty; a delimited block's content is trimmed and its kind is the one its first character selects (`$` Variable, quote Value, otherwise Code) |
| TemplateTokenizer.ExtractStep | dotnet/src/SemanticKernel.UnitTests/TemplateEngine/KernelPromptTemplateTests.cs:39-40 | a template made of a plain text, a delimited block and a rest is cut into a Text block, that block and the rest's blocks |
| TemplateTokenizer.ExtractText | dotnet/src/SemanticKernel.UnitTests/TemplateEngine/KernelPromptTemplateTests.cs:39-40 | a text without `{{` is one Text block, whatever single braces it holds |
| TemplateTokenizer.ExtractReassemble | dotnet/src/SemanticKernel.UnitTests/TemplateEngine/KernelPromptTemplateTests.cs:39-84 | round trip: tokenizing the spelling of any canonical block list gives back exactly that list (canonical: delimited contents trimmed and closed by their `}}`, no Text block holding `{{`, only the last Text block may end in `{`, no two Text blocks side by side) |
| ExtractScenario.ExtractVariablesTemplate | dotnet/src/SemanticKernel.UnitTests/TemplateEngine/KernelPromptTemplateTests.cs:39-53 | the test's mixed template is cut into exactly the ten blocks the test lists: the `{$a}` texts stay text, `{{$x11}}` twice, five code blocks keeping their inner spacing |
| ExtractScenario.ItRendersVariables | dotnet/src/SemanticKernel.UnitTests/TemplateEngine/KernelPromptTemplateTests.cs:36-134 | the whole test: ten blocks; blocks 1 and 3 render as `""` with x11 unset and as `x11 value` once it is set; blocks 5-9 keep kind and content |
| PromptTemplate.RenderVariables | dotnet/src/SemanticKernel.UnitTests/TemplateEngine/KernelPromptTemplateTests.cs:49-59 | same number of blocks; a Variable block becomes a Text block with the variable's value, or `""` when unset; every other block is unchanged |
| PromptTemplate.RenderVariablesIdempotent | dotnet/src/SemanticKernel.UnitTests/TemplateEngine/KernelPromptTemplateTests.cs:87-109 | no Variable block survives, so a second pass with any variables changes nothing |
| PromptTemplate.RenderTextAndVariables | dotnet/src/SemanticKernel.UnitTests/TemplateEngine/KernelPromptTemplateTests.cs:45-59 | a template of text and variable blocks only renders as the concatenation of RenderVariables' texts |
| PromptTemplate.RenderPlainText | dotnet/src/SemanticKernel.UnitTests/TemplateEngine/KernelPromptTemplateTests.cs:39-40 | text without `{{` renders as itself, whatever single braces it holds |
| PromptTemplate.Compile | dotnet/src/SemanticKernel.UnitTests/TemplateEngine/KernelPromptTemplateTests.cs:227-235 | the block list checks exactly when every block does, segment i is block i's checked form, and the only failures are syntax errors |
| PromptTemplate.CompileFirstError | dotnet/src/SemanticKernel.UnitTests/TemplateEngine/KernelPromptTemplateTests.cs:227-235 | the first malformed block decides the error of the whole list |
| PromptTemplate.RenderSyntaxError | dotnet/src/SemanticKernel.UnitTests/TemplateEngine/KernelPromptTemplateTests.cs:227-235 | a template with a malformed block fails with that block's syntax error for every context, plugin collection and function, so no function runs and nothing is output |
| PromptTemplate.Render | dotnet/src/SemanticKernel.UnitTests/TemplateEngine/KernelPromptTemplateTests.cs:227-235 | rendering fails with a syntax error exactly when the template does not tokenize or one of its blocks is malformed; every other failure is a missing or failing function |
| PromptTemplate.EvalSegment | dotnet/src/SemanticKernel.UnitTests/TemplateEngine/KernelPromptTemplateTests.cs:151-161 | only a call can fail, and only because its function is missing or failed |
| PromptTemplate.CalleeContextGet | dotnet/src/SemanticKernel.UnitTests/TemplateEngine/KernelPromptTemplateTests.cs:178-188 | a callee reads, for each name, the last named argument for it; failing that, the positional argument for `input`; failing that, the caller's value |
| PromptTemplate.CalleeContextNoArgs | dotnet/src/SemanticKernel.UnitTests/TemplateEngine/KernelPromptTemplateTests.cs:151-161 | a call without arguments runs on an unchanged copy of the caller's variables, its input included |
| PromptTemplate.PositionalIsNamedInput | dotnet/src/SemanticKernel.UnitTests/TemplateEngine/KernelPromptTemplateTests.cs:257-269 | `f $x …` binds the same callee variables as `f input=$x …` |
| PromptTemplate.BindNamedGet | dotnet/src/SemanticKernel.UnitTests/TemplateEngine/KernelPromptTemplateTests.cs:210-221 | named arguments are bound left to right: a name reads its last binding, resolved against the caller's variables |
| PromptTemplate.RenderIgnoresCalleeContext | dotnet/src/SemanticKernel.UnitTests/TemplateEngine/KernelPromptTemplateTests.cs:276-316 | two function oracles that return the same results render every template alike, whatever each does to its copy of the variables |
| PromptTemplate.PrintCodeCanonical | dotnet/src/SemanticKernel.UnitTests/TemplateEngine/KernelPromptTemplateTests.cs:61-84 | the printed form of every well-formed call is a Code block interior that the tokenizer reads back unchanged |
| PromptTemplate.RenderCallThen | dotnet/src/SemanticKernel.UnitTests/TemplateEngine/KernelPromptTemplateTests.cs:151-161 | text, then a call, then a rest renders as the text, the call's result and the rest's rendering, and fails with the first failure among them |
| PromptTemplate.RenderCallInText | dotnet/src/SemanticKernel.UnitTests/TemplateEngine/KernelPromptTemplateTests.cs:151-161 | a call between two plain texts renders as the texts around the call's result |
| PromptTemplate.RenderRejectedBlock | dotnet/src/SemanticKernel.UnitTests/TemplateEngine/KernelPromptTemplateTests.cs:227-235 | a block that fails its check, between two texts, is the error of the whole template |
| PromptTemplate.RenderBareCall | dotnet/src/SemanticKernel.UnitTests/TemplateEngine/KernelPromptTemplateTests.cs:227-235 | a call holding a named argument whose value is neither quoted nor `$`-prefixed fails with "Named argument values need to be prefixed with a quote or $.", with or without a positional argument, when every argument before it is well formed, whatever words follow it |
| CodeTokenizer.ParseCode | dotnet/src/SemanticKernel.UnitTests/TemplateEngine/KernelPromptTemplateTests.cs:210-235 | every call it accepts is well formed (valid names, valid variable references), so it can be printed back; every error it reports is a syntax error |
| CodeTokenizer.ParsePrintParse | dotnet/src/SemanticKernel.UnitTests/TemplateEngine/KernelPromptTemplateTests.cs:210-221 | printing a parsed call and parsing the result gives the same call |
| CodeTokenizer.ParsePrintCode | dotnet/src/SemanticKernel.UnitTests/TemplateEngine/KernelPromptTemplateTests.cs:212 | round trip: parsing the printed form of any well-formed call gives back that call |
| CodeTokenizer.ParsePrintArg | dotnet/src/SemanticKernel.UnitTests/TemplateEngine/KernelPromptTemplateTests.cs:212 | a printed argument (a `$name` or a quoted literal with `\'` escapes) parses back to itself |
| CodeTokenizer.ParsePrintNamedArgs | dotnet/src/SemanticKernel.UnitTests/TemplateEngine/KernelPromptTemplateTests.cs:212 | a printed list of named arguments parses back to the same list, in order |
| CodeTokenizer.WordsJoinSpace | dotnet/src/SemanticKernel.UnitTests/TemplateEngine/KernelPromptTemplateTests.cs:212 | splitting words joined by single spaces gives the words back, quoted literals with spaces in them included |
| CodeTokenizer.ParseBareNamed | dotnet/src/SemanticKernel.UnitTests/TemplateEngine/KernelPromptTemplateTests.cs:229-235 | `name=value` with a valid name and a bare value (any word starting with neither `$` nor a quote, such as `42`, `-1` or `4.2`) is a named argument and is rejected with the prefix message |
| CodeTokenizer.ParseBareCall | dotnet/src/SemanticKernel.UnitTests/TemplateEngine/KernelPromptTemplateTests.cs:229-235 | a call with a bare named value fails to parse with the prefix message, with or without a positional argument, when every argument before it is well formed, whatever words follow it |
| QuoteScan.UnescapeEscape | dotnet/src/SemanticKernel.UnitTests/TemplateEngine/KernelPromptTemplateTests.cs:212-221 | round trip: unescaping an escaped text gives the text back, so `'Let\'s-a go!'` reads as `Let's-a go!` |
| QuoteScan.EscapeLiteralText | dotnet/src/SemanticKernel.UnitTests/TemplateEngine/KernelPromptTemplateTests.cs:212 | an escaped text never ends a single-quoted literal early |
| QuoteScan.PassesOverScan | dotnet/src/SemanticKernel.UnitTests/TemplateEngine/KernelPromptTemplateTests.cs:212 | a scan for `}}` or a blank skips whole quoted literals |
| Strings.Trim | dotnet/src/SemanticKernel.UnitTests/TemplateEngine/KernelPromptTemplateTests.cs:81-84 | Trim strips whitespace from both ends and from nowhere else; it is empty exactly for all-whitespace text |
| ContextVariables.Set | dotnet/src/SemanticKernel.UnitTests/TemplateEngine/KernelPromptTemplateTests.cs:87-91 | after Set the name reads the new value and every other name reads as before |
| ContextVariables.Get | dotnet/src/SemanticKernel.UnitTests/TemplateEngine/KernelPromptTemplateTests.cs:298 | a set name reads its value and an unset name reads `""` |
| TemplateScenarios.ItRendersCodeUsingInput | dotnet/src/SemanticKernel.UnitTests/TemplateEngine/KernelPromptTemplateTests.cs:151-161 | `foo-{{plugin.function}}-baz` with input `INPUT-BAR` renders `foo-F(INPUT-BAR)-baz` |
| TemplateScenarios.ItRendersCodeUsingVariables | dotnet/src/SemanticKernel.UnitTests/TemplateEngine/KernelPromptTemplateTests.cs:178-188 | `foo-{{plugin.function $myVar}}-baz` with myVar `BAR` renders `foo-F(BAR)-baz` |
| TemplateScenarios.ItRendersCodeUsingNamedVariables | dotnet/src/SemanticKernel.UnitTests/TemplateEngine/KernelPromptTemplateTests.cs:210-221 | the named-argument template renders `foo-[8/25/2023] Mario (42): "Let's-a go!"-baz`, given a date formatter that formats the test's date that way |
| TemplateScenarios.ItHandlesSyntaxErrors | dotnet/src/SemanticKernel.UnitTests/TemplateEngine/KernelPromptTemplateTests.cs:227-235 | the template with `age=42` fails with the prefix message, for every context, plugin collection and function |
| TemplateScenarios.ItRendersCodeUsingImplicitInputAndNamedVariables | dotnet/src/SemanticKernel.UnitTests/TemplateEngine/KernelPromptTemplateTests.cs:257-269 | with `$input` as positional argument the template renders the same text as with `input=$input` |
| TemplateScenarios.SecondResult | dotnet/src/SemanticKernel.UnitTests/TemplateEngine/KernelPromptTemplateTests.cs:287-293 | func2 sees the caller's input `BAR`, not the `foo` that func1 set in its own copy |
| TemplateScenarios.ThirdResult | dotnet/src/SemanticKernel.UnitTests/TemplateEngine/KernelPromptTemplateTests.cs:294-299 | func3 reads the caller's myVar `BAZ`, not the `bar` that func2 set in its own copy |
| TemplateScenarios.ItRendersAsyncCodeUsingImmutableVariables | dotnet/src/SemanticKernel.UnitTests/TemplateEngine/KernelPromptTemplateTests.cs:276-316 | `{{func1}} {{func2}} {{func3 $myVar}}` renders `F(OUTPUT-FOO) BAR BAZ` |
| TemplateScenarios.ItRendersAsyncCodeUsingVariables | dotnet/src/SemanticKernel.UnitTests/TemplateEngine/KernelPromptTemplateTests.cs:334-346 | `foo-{{plugin.function $myVar}}-baz` with a function that returns its input renders `foo-BAR-baz` |
| PluginExtensions.PluginFunction | dotnet/src/SemanticKernel.Abstractions/Functions/ISKPluginExtensions.cs:87 | a plugin yields a function exactly when it holds one of that name, and what it yields is one of its own functions with that name |
| PluginExtensions.TryGetPlugin | dotnet/src/SemanticKernel.Abstractions/Functions/ISKPluginExtensions.cs:95 | a plugin is found exactly when the collection holds one of that name, and it is one of the collection's own |
| PluginExtensions.TryGetFunction | dotnet/src/SemanticKernel.Abstractions/Functions/ISKPluginExtensions.cs:78-104 | blank or null plugin name: found iff some plugin holds the name, taken from the first such plugin in order; otherwise found iff the named plugin exists and holds it, taken from that plugin; `None` (false, null) otherwise |
| PluginExtensions.BlankLookupFirstWins | dotnet/src/SemanticKernel.Abstractions/Functions/ISKPluginExtensions.cs:83-91 | with a blank plugin name, plugins without the function are passed over, and plugins after the first holder are never consulted |
| PluginExtensions.NamedLookupOnlyThatPlugin | dotnet/src/SemanticKernel.Abstractions/Functions/ISKPluginExtensions.cs:93-99 | a named lookup gives the same answer in a collection holding only the named plugin |
| PluginExtensions.NamedLookupIgnoresOthers | dotnet/src/SemanticKernel.Abstractions/Functions/ISKPluginExtensions.cs:93-99 | plugins of other names added before or after never change a named lookup |
| PluginExtensions.GetFunction | dotnet/src/SemanticKernel.Abstractions/Functions/ISKPluginExtensions.cs:55-66 | succeeds exactly when TryGetFunction finds a function, with that function; otherwise it fails with the KeyNotFoundException message |
| PluginExtensions.ContainsFunctionName | dotnet/src/SemanticKernel.Abstractions/Functions/ISKPluginExtensions.cs:18-24 | holds exactly when the plugin has a function of that name |
| PluginExtensions.ContainsFunction | dotnet/src/SemanticKernel.Abstractions/Functions/ISKPluginExtensions.cs:30-36 | holds exactly when the function is in the plugin and no earlier function of the plugin has its name |
| PluginExtensions.ContainsFunctionNeedsIdentity | dotnet/src/SemanticKernel.Abstractions/Functions/ISKPluginExtensions.cs:35 | a different function that only shares the name is not contained |
| PluginExtensions.ContainsFunctionDistinct | dotnet/src/SemanticKernel.Abstractions/Functions/ISKPluginExtensions.cs:30-36 | when function names are distinct, containing a function is being one of the plugin's functions |
| PluginExtensions.ContainsPlugin | dotnet/src/SemanticKernel.Abstractions/Functions/ISKPluginExtensions.cs:42-48 | holds exactly when the collection has a plugin of that name |
| PluginExtensions.GetFunctionsMetadata | dotnet/src/SemanticKernel.Abstractions/Functions/ISKPluginExtensions.cs:109-123 | the nested loops build the reference list: every plugin's function metadata, plugin after plugin |
| PluginExtensions.FlattenIndex | dotnet/src/SemanticKernel.Abstractions/Functions/ISKPluginExtensions.cs:113-122 | one entry per function per plugin: function j of plugin i sits at the count of functions before plugin i plus j, tagged with plugin i's name |
| DictionaryPlugin.FindEntry | dotnet/samples/KernelSyntaxExamples/Plugins/DictionaryPlugin/ComplexParamsDictionaryPlugin.cs:44 | FirstOrDefault: the first entry with the word, or none exactly when no entry has it |
| DictionaryPlugin.WordsDistinct | dotnet/samples/KernelSyntaxExamples/Plugins/DictionaryPlugin/ComplexParamsDictionaryPlugin.cs:21-28 | the five entries' words are pairwise different |
| DictionaryPlugin.GetDefinition | dotnet/samples/KernelSyntaxExamples/Plugins/DictionaryPlugin/ComplexParamsDictionaryPlugin.cs:47-52 | the definition of the entry with that word, or "Word not found" when there is none |
| DictionaryPlugin.DefinitionNotFoundIff | dotnet/samples/KernelSyntaxExamples/Plugins/DictionaryPlugin/ComplexParamsDictionaryPlugin.cs:51 | "Word not found" comes back exactly for words the dictionary lacks |
| DictionaryPlugin.GetWord | dotnet/samples/KernelSyntaxExamples/Plugins/DictionaryPlugin/ComplexParamsDictionaryPlugin.cs:40-45 | the entry's word when the dictionary has it, otherwise "Entry not found" |
| DictionaryPlugin.WordThenDefinition | dotnet/samples/KernelSyntaxExamples/Plugins/DictionaryPlugin/ComplexParamsDictionaryPlugin.cs:44-51 | GetWord then GetDefinition recovers every entry's definition, whatever definition the caller's entry carries |
| DictionaryPlugin.GetInt32 | dotnet/samples/KernelSyntaxExamples/Plugins/DictionaryPlugin/ComplexParamsDictionaryPlugin.cs:34 | the draw lies in the half-open range from the lower bound up to, but excluding, the upper bound |
| DictionaryPlugin.GetInt32Covers | dotnet/samples/KernelSyntaxExamples/Plugins/DictionaryPlugin/ComplexParamsDictionaryPlugin.cs:34 | every value of the range is produced by some draw |
| DictionaryPlugin.GetRandomEntry | dotnet/samples/KernelSyntaxExamples/Plugins/DictionaryPlugin/ComplexParamsDictionaryPlugin.cs:31-38 | as written: the entry drawn is always one of the first four |
| DictionaryPlugin.ElephantNeverDrawn | dotnet/samples/KernelSyntaxExamples/Plugins/DictionaryPlugin/ComplexParamsDictionaryPlugin.cs:34-37 | as written, the last entry, "elephant", is never returned |
| DictionaryPlugin.FirstFourDrawable | dotnet/samples/KernelSyntaxExamples/Plugins/DictionaryPlugin/ComplexParamsDictionaryPlugin.cs:34-37 | as written, each of the first four entries is drawn by some draw |
| DictionaryPlugin.GetRandomEntryCorrected | dotnet/samples/KernelSyntaxExamples/Plugins/DictionaryPlugin/ComplexParamsDictionaryPlugin.cs:34-37 | with the upper bound at the entry count, the draw is always a dictionary entry |
| DictionaryPlugin.EveryEntryDrawable | dotnet/samples/KernelSyntaxExamples/Plugins/DictionaryPlugin/ComplexParamsDictionaryPlugin.cs:34-37 | with the corrected bound, every entry, "elephant" included, is drawn by some draw |

## Left out

- Asynchrony, cancellation, `SKContext` plumbing and logging are left out. Rendering is one pure function, and a call is one oracle application.
- Creating functions by reflection is left out, and so is the conversion of parameters to `int` and `DateTime`. The named-argument tests receive a date formatter as a parameter, and the lemmas require only that it formats the test's date as `8/25/2023`.
- The engine's own source files are not part of this model. The tests pin down the template grammar only in part, and the following are model choices:
  - the error messages other than the named-argument prefix message, and the error for an unclosed `{{`;
  - a bare positional argument is rejected;
  - an empty `{{ }}` is kept as text, braces included;
  - a block opens at the first `{{`, and a later `{{` before its closing `}}` belongs to its interior: `{{{$x}}}` gives the Code block `{$x` and the text `}`, so that template fails with a syntax error, and `{{a {{b}}` gives the one Code block `a {{b` (lemma ExtractScenario.NestedOpenerInside states the first case);
  - blanks beside the `=` of a named argument are dropped, so `c = $d` reads as `c=$d` (the test at line 84 only keeps that block's text and never parses it);
  - both single and double quotes open a value literal, and inside one a `\` escapes a quote or a backslash;
  - in a call, the first malformed argument decides the error, so a malformed argument before a bare value is reported instead of the prefix message.
- Names are compared ordinally. The kernel's plugin and variable collections ignore case, and case folding is not modelled.
- `Verify.NotNull` checks are left out. The model's types have no null, and an absent plugin name is `None`.
- `KeyNotFoundException` is an `Err` value that carries the exception's message.
- A function's metadata is modelled as its name, its description and its plugin's name. `SKFunctionMetadata`'s other fields are left out.
- The random number generator is a `draw` parameter. `GetInt32` maps every draw into its range, and every value of the range is reached by some draw.
- The JSON converter and the type converter of `DictionaryEntry` are left out, because they are serialisation glue.
- ExtractReassemble: covers canonical block lists only. The tokenizer also keeps an empty `{{ }}` as a Text block holding its braces, so `a{{ }}b` gives three Text blocks side by side; such lists are not covered by the round trip.
- Render: its own contract states only how its failures split into syntax errors and function failures. What it outputs is stated by RenderPlainText, RenderTextAndVariables, RenderCallThen, RenderCallInText and RenderSyntaxError.
- CalleeContext: it has no contract of its own. What a called function reads is stated by CalleeContextGet, CalleeContextNoArgs and PositionalIsNamedInput.
- ExtractBlocks: its own contract states only that its one error is the unclosed-block syntax error. What it produces is stated by FirstCutSplits, ExtractWellKinded, ExtractStep and ExtractReassemble.

## Findings

| source | as written | input that shows it | evidently intended | confidence | as-written member | corrected member |
|---|---|---|---|---|---|---|
| dotnet/samples/KernelSyntaxExamples/Plugins/DictionaryPlugin/ComplexParamsDictionaryPlugin.cs:34 | `RandomNumberGenerator.GetInt32(0, Count - 1)`, whose upper bound is exclusive, so only indices 0 to 3 of 5 are drawn | any draw: "elephant" (index 4) is never returned | `GetInt32(0, Count)`, so that every entry can be drawn | not executed | DictionaryPlugin.ElephantNeverDrawn | DictionaryPlugin.EveryEntryDrawable |
