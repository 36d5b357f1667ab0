# Meson classification checker, modelled in Dafny

The checker finds out which argument types Meson accepts for each function
and method of its build language. For every parameter combination of a
catalogue signature it writes candidate lines into a scratch `meson.build`,
runs `meson --reconfigure`, and reads Meson's output to learn whether and
where the candidates failed. This project models the logic around that loop.

- `util.dfy` (module `Util`): the type vocabulary and the helpers of
  `util.py`:
  - `is_subclass`, `is_array_type` and `in_generic_types` on plain and
    generic types;
  - `iskwarg` and `isposonly`;
  - `get_name`, `varname`, `pretty_print_type` and `pretty_print_func`;
  - `get_parameter_combinations`, as a method with its loops, proved equal
    to a recursive specification.
- `templates.dfy` (module `Templates`): `get_template` and
  `has_special_template`, with the global and special template
  dictionaries as a parameter.
- `generators.dfy` (module `Generators`): `FunctionGenerator`,
  `MethodGenerator` and `ReturnTypeGenerator`. The lines that materialise
  the arguments, the call line, and the lines of a return-type check. Each
  loop is a method proved against a specification function.
- `buildfile.dfy` (module `BuildFiles`): the class `BuildFile`. Its state is
  the list of lines of `meson.build`, plus the push buffer. It has every
  editing operation and the probe `check_lines`. Meson's output is an input
  to `check_lines`.
- `log.dfy` (module `Logs`): the success and failure counters.
- `strings.dfy`, `wrappers.dfy`, `exceptions.dfy`:
  - the Python `str` operations the code uses (`in`, `replace`, `split`,
    `join`, `strip`, `int`, `str`);
  - `Option` and `Result`;
  - the exceptions raised (`TemplateNotFoundException`, `ValueError`,
    `IndexError`, `RuntimeError`).

The random names that `util.varname` hands out come from a name oracle.
`NameOracle` is the type of functions from `nat` to `string` whose every
name has the form `varname` promises: ten ASCII letters. A generator call
starting at `base` gives parameter `i` two fixed slots, `base + 2i` and
`base + 2i + 1`. The first slot's name goes into the template's
`$RANDOM_STRING$`; the second names the variable. A parameter that is
skipped, or whose template lookup fails, leaves its two slots unused. One
combination of a return-type check advances `base` by twice its number of
parameters.

## Model

| member | source | states |
|---|---|---|
| Util.InheritsIsSuffix | util.py:39 | `issubclass` on plain classes holds exactly when the superclass's MRO is a suffix of the subclass's |
| Util.InheritsTransitive | util.py:39 | `issubclass` on plain classes is transitive |
| Util.IsSubclassReflexive | util.py:34-52 | a plain class, and an `Array[...]` generic over such types, is a subclass of itself (for types involving a union see Left out) |
| Util.PlainSubclassIsParentClosure | util.py:38-39 | a plain class is below another exactly when they are equal or its parent chain is below it |
| Util.IsSubclassFromBelow | util.py:34-52 | whatever a plain class is below, each of its plain subclasses is below too |
| Util.IsSubclassNotTransitive | util.py:40-52 | `Array[String]` is below `Array`, and `Array` is below `Array[Number]`, but `Array[String]` is not below `Array[Number]`: `is_subclass` is not transitive |
| Util.IsArrayType | util.py:54-57 | only an `Array[...]` generic can have array types |
| Util.InGenericTypes | util.py:71-81 | false for a plain class; for a union, true exactly when T is a subclass of some arm |
| Util.ArgsContainFromBelow | util.py:59-69 | if an array's arguments admit T, they admit every plain subclass of T |
| Util.InGenericTypesFromBelow | util.py:71-81 | if T is a generic type of G, so is every plain subclass of T |
| Util.PosOnlyIsNeverKwarg | util.py:11-17 | a well-formed `*args` parameter is never a keyword argument |
| Util.GetName | util.py:98-102 | when the pattern matches, the result drops exactly the trailing underscores and ends in a non-underscore; otherwise the name is unchanged |
| Util.LettersAreAscii | util.py:126 | the alphabet of `varname` is exactly the ASCII letters |
| Util.VarName | util.py:124-126 | a name of the `varname` form exists for every slot, so the oracles whose every name has ten ASCII letters are a non-empty type |
| Util.PrettyPrintTypeBalanced | util.py:115-122 | a printed type has as many `[` as `]` when the class names hold no brackets |
| Util.PrettyPrintAllBalanced | util.py:119 | each printed argument is bracket-balanced |
| Util.PrettyPrintFunc | util.py:104-113 | the text is `name(` … `)`, and `name()` for no parameters |
| Util.PrettyPrintFuncParams | util.py:104-113 | the text between the parentheses, cut at `", "`, gives back every parameter in order, `name : T` for a keyword parameter and `T` otherwise, when no printed parameter holds `", "` |
| Util.GetParameterCombinations | util.py:128-169 | the loops compute exactly the combination list of the signature |
| Util.ExtendByArms | util.py:143-157 | a union parameter turns every combination into one per arm, combination-major and in arm order |
| Util.ExtendBySingle | util.py:160-167 | any other parameter, with `Any` read as `Number`, is appended to every combination in place |
| Util.ExtendCount | util.py:150-157 | a union parameter multiplies the number of combinations by its number of arms |
| Util.CombinationCount | util.py:128-169 | the number of combinations is the product of the arm counts of the parameters |
| Util.InExtend | util.py:150-167 | a combination after one more parameter is an earlier combination plus one entry for that parameter |
| Util.CombinationsAreAllChoices | util.py:128-169 | a list is produced exactly when it has one entry per declared parameter, in order, each a concrete arm of it |
| Util.EntryKeepsDeclaration | util.py:155-166 | an entry keeps the parameter's name, kind and default; its type is an arm of the union (or the type itself), never `Any`, with `Any` turned into `Number` |
| Templates.GetTemplate | templates.py:33-56 | fails exactly when no template applies, and then with `TemplateNotFoundException` for T |
| Templates.NoMarkerLeft | templates.py:39 | a fetched template contains no `$RANDOM_STRING$` once a drawn name replaced it |
| Templates.FreshNameSeparates | templates.py:56 | a quoted drawn name cannot recreate the marker it replaces |
| Templates.PickIsFirstPresent | templates.py:44-53 | with a present key the template is the first of `(name, T)`, `name`, `T` in the special dict, else the global one |
| Templates.NoSpecialUsesGlobal | templates.py:36-41 | with no special key, or an unknown one, the result is the global template of T or `TemplateNotFoundException` |
| Templates.OverridePrecedence | templates.py:46-53 | `(name, T)` beats `name`; with neither, the name plays no part |
| Templates.GetTemplateIsLocal | templates.py:33-56 | the result depends only on the entries for `(name, T)`, `name`, `T` and the global T |
| Templates.VerbatimWithoutMarker | templates.py:53-56 | a template without the marker is returned verbatim, `$BUILDFILE_DIR$` included |
| Templates.HasSpecialTemplateDecides | templates.py:58-63 | true exactly when a `(name, T)` or `name` override decides `get_template`'s result; a type-only override does not count |
| Generators.FetchedTemplateHasNoMarker | generators.py:58-59 | a template fetched for a parameter with the oracle's name has no `$RANDOM_STRING$` left |
| Generators.Token | generators.py:58-84 | per parameter: the template error propagates; an existing object is used by name with no line; otherwise a fresh variable gets one line, or the template goes inline |
| Generators.RenderFailureSticks | generators.py:46-86 | once a template lookup raises, later parameters change nothing |
| Generators.ParameterLines | generators.py:33-86 | the loop with its `continue`s computes the specification of the parameter lines and argument strings |
| Generators.Chosen | generators.py:46-56 | a parameter is rendered exactly when it is not `NoneType` and is a keyword argument whenever a `NoneType` came before it |
| Generators.CollectIsPointwise | generators.py:58-84 | rendering a selection succeeds exactly when every chosen parameter's template exists, each contributing its own piece |
| Generators.AssembleArgs | generators.py:74-84 | argument k is `name : value` for a keyword parameter and the bare value otherwise |
| Generators.RenderIsSelection | generators.py:43-86 | the loop's result is the in-order rendering of exactly the chosen parameters, and its flag tells whether a `NoneType` was seen |
| Generators.RenderFlag | generators.py:50-52 | the `kwargs_only` flag is set exactly when a `NoneType` parameter has been passed |
| Generators.SeenNoneStep | generators.py:50-51 | `kwargs_only` turns on at the first `NoneType` parameter and stays on |
| Generators.InlineHasNoLines | generators.py:78-84 | in inline mode no materialisation line is produced |
| Generators.OperatorOf | generators.py:110-132 | an operator form is used only for a magic method taking one argument |
| Generators.CallLine | generators.py:102-137 | raises `ValueError` exactly for a magic method called with the wrong number of arguments; with a return variable the line starts `var = ` |
| Generators.MethodCallIsQualifiedCall | generators.py:134-135 | an ordinary method call is the function call of `obj.name` |
| Generators.CallMentionsArguments | generators.py:102-137 | the call line mentions every argument, and the object for a method |
| Generators.GenerateLines | generators.py:88-93 | the method computes the specification of `generate_lines` |
| Generators.GenerateShape | generators.py:88-93 | the lines are the parameter lines followed by exactly one call line; inline gives just the call; failures are template or arity errors |
| Generators.CombosPrefixFailure | generators.py:166-168 | after a generator raises for one combination, later combinations add nothing |
| Generators.OverloadsPrefixFailure | generators.py:161-168 | after a generator raises for one overload, later overloads add nothing |
| Generators.MethodsPrefixFailure | generators.py:151-168 | after a generator raises for one method, later methods add nothing |
| Generators.ReturnTypeGenerateLines | generators.py:147-169 | the nested loops compute the return-type check's specification |
| Generators.MethodLines | generators.py:161-168 | the overload loop concatenates one generator's lines per overload and combination |
| Generators.CombinationLines | generators.py:166-168 | the combination loop appends each non-capturing method generator's lines in order |
| Generators.AddCheckLines | generators.py:167-168 | one combination's non-capturing method generator adds its lines to the accumulated ones and draws two names per parameter, or its exception is raised |
| Generators.SkippedContributeNothing | generators.py:153-158 | methods whose special dict holds `_obj` contribute no lines |
| Generators.AddMethodsAppend | generators.py:151-169 | the lines of two method lists are the lines of the first followed by those of the second |
| Generators.ReturnTypeLinesOnlyAppend | generators.py:149-169 | the lines only grow: earlier lines are kept as a prefix |
| BuildFiles.ReadLinesCover | buildfile.py:82-94 | reading the lines of a text and writing them back gives the same text |
| BuildFiles.ReadLinesRender | buildfile.py:110-113 | reading the file gives back exactly the lines written, each with its line break |
| BuildFiles.ChopRender | buildfile.py:104-108 | cutting a saved text into lines gives back the lines it was made of |
| BuildFiles.Prepare | buildfile.py:46-51 | a written line contains no line break |
| BuildFiles.PrepareWithoutMarker | buildfile.py:48-49 | a line without `$BUILDFILE_DIR$` is only escaped |
| BuildFiles.PrepareVerbatim | buildfile.py:46-51 | a single line without the marker is written verbatim |
| BuildFiles.PrepareSubstitutes | buildfile.py:48 | for a single line (no line break) and a folder path without `$` or line break, every marker becomes the quoted path and none is left |
| BuildFiles.PrepareAll | buildfile.py:53-59 | one written line per element, in order, each as `append_line` would write it |
| BuildFiles.ProjectLineFirst | buildfile.py:33-34 | the first line written is a `project('` call whatever the name and languages |
| BuildFiles.SentinelIsIgnored | buildfile.py:132-144 | the sentinel error line carries `$IGNORE$` |
| BuildFiles.MatchPositionComplete | buildfile.py:160 | every `\d+:\d+: ERROR: ` tail is matched and yields its first number |
| BuildFiles.MatchErrorLineComplete | buildfile.py:160 | every line of the regular expression's form is matched, with its line number |
| BuildFiles.LineNumberField | buildfile.py:160-162 | on a matched line, `split(":")[1]` is the line-number digits |
| BuildFiles.MatchedLineHasError | buildfile.py:160-161 | a matched line contains `ERROR:`, so the message split cannot fail |
| BuildFiles.ErrorNumber | buildfile.py:162 | the reported line is the number in the matched line |
| BuildFiles.ScanAsWrittenAgrees | buildfile.py:155-175 | whenever the scan as written does not raise, the corrected scan finds the same line and message |
| BuildFiles.BareWarningRaises | buildfile.py:165-166 | with warnings on, a `WARNING` line without colon makes the scan as written raise `IndexError`; the corrected scan passes it |
| BuildFiles.FirstStopWins | buildfile.py:155-168 | the first non-ignored error line or (with warnings) warning decides the scan, whatever follows |
| BuildFiles.NoStopScan | buildfile.py:169-175 | with no error or warning line, the message is unchanged and the error line becomes `lines_before + 1` exactly when a missing-project line appeared |
| BuildFiles.ScanSkipsIgnored | buildfile.py:156-158 | lines containing `$IGNORE$` play no part |
| BuildFiles.OutcomeCases | buildfile.py:177-201 | a crash gives offset 0 and the crash message; with no error, warning or crash the result is `(0, "")` after a missing-project line and `(-(lines_before + 2), "")` otherwise |
| BuildFiles.OutcomeFirstStop | buildfile.py:155-201 | the first error gives its line minus `lines_before + 1` and its message; a first warning gives offset 0 |
| BuildFiles.ScanLines | buildfile.py:153-175 | the loop with `continue` and `break` computes the scan |
| BuildFiles.Classify | buildfile.py:153-201 | the scan, then the crash override, then the relative offset, as the specification says |
| BuildFiles.Delete | buildfile.py:67 | `del` drops exactly one element and keeps the others in order |
| BuildFiles.BuildFile.constructor | buildfile.py:21-34 | the new file holds exactly the written project line and the buffer is empty |
| BuildFiles.BuildFile.Create | buildfile.py:21-44 | a non-zero exit of `meson setup` raises `RuntimeError("Could not create buildfile.")`, and only then |
| BuildFiles.BuildFile.AppendLine | buildfile.py:46-51 | exactly one line is added at the end; earlier lines and the buffer are kept |
| BuildFiles.BuildFile.AppendLines | buildfile.py:53-59 | the lines are added in order, each written as `append_line` would |
| BuildFiles.BuildFile.LineCount | buildfile.py:110-113 | the number of lines read back is the number of lines written |
| BuildFiles.BuildFile.RemoveLine | buildfile.py:61-70 | the line at a Python index (negative from the end) goes and the rest keep their order; an index out of range raises `IndexError` and changes nothing |
| BuildFiles.BuildFile.PopLine | buildfile.py:72-74 | the last line goes; an empty file raises `IndexError` |
| BuildFiles.BuildFile.PopLines | buildfile.py:76-94 | a negative count or one above the line count raises `ValueError` with the source's message and changes nothing; otherwise exactly the first `count - n` lines remain |
| BuildFiles.BuildFile.PushContent | buildfile.py:96-102 | the buffer holds the file's text and the file is empty |
| BuildFiles.BuildFile.PopContent | buildfile.py:104-108 | the file's text is exactly the buffer again; no other operation touches the buffer |
| BuildFiles.BuildFile.CheckLines | buildfile.py:136-201 | the file ends exactly as it began; the caller's list gains the sentinel; the result is the classification of Meson's output |
| Logs.CountSnoc | log.py:11-18 | recording an outcome adds one to its own counter only |
| Logs.CountsPartition | log.py:21-23 | the two counters together count every recorded check |
| Logs.Log.constructor | log.py:7-8 | both counters start at 0 |
| Logs.Log.Success | log.py:11-13 | `successful` grows by exactly 1 and `failures` is unchanged |
| Logs.Log.Failure | log.py:16-18 | `failures` grows by exactly 1 and `successful` is unchanged |
| Logs.Log.Result | log.py:21-23 | returns `(successful, failures)` without changing them |

## Left out

- Running Meson: the `meson setup` and `meson --reconfigure` subprocesses are inputs. `Create` takes the setup exit code; `CheckLines` takes the standard output and whether anything was written to standard error.
- The file system, as files: the temporary directory, opening and closing `meson.build`, and the folder's path (a parameter). `add_file` (directory copying) and `__dest__` (cleanup) are I/O.
- Console output: the setup messages, the `<INTERNAL>` notes and the verbose dumps of the file and Meson's output. They change no state.
- The colour helpers `red`/`yellow` are modelled only inside the messages that use them; `green` is only printed.
- `get_line` is not modelled: it indexes the method `file.readlines` without calling it, so it cannot return a line.
- BuildFiles.BuildFile.CheckLines: the candidates are a list. For a single string, the tuple wrap followed by `.append` raises `AttributeError`; that path is not modelled.
- BuildFiles.BuildFile.CheckLines: it uses the corrected warning test (see Findings), so it always ends with the file restored. The code as written is `ScanAsWritten`. Its `IndexError` leaves the candidate lines in the file.
- BuildFiles.BuildFile.CheckLines: Meson's output is split at `"\n"`, which is `os.linesep` on POSIX systems. On Windows the source splits at `"\r\n"`, which is not modelled.
- Reading the file assumes the `\n` line ends that the file itself writes. Universal-newline translation of a `\r` inside a line is not modelled.
- BuildFiles.MatchErrorLine: `\d` is modelled as an ASCII digit. Python's `re` also accepts other Unicode decimal digits, which Meson does not print.
- The reflection helpers (`ismultimethod`, `get_methods`, `get_objects`, `get_functions`, `get_type`, `isarray`, `isunion`) and `inspect.getmembers` are not modelled. The return-type generator receives its methods, overloads and signatures as lists, in the order `inspect` yields them.
- The multimethod that keys a special dictionary is identified by a string.
- `varname`'s randomness: the names come from a name oracle. Only their form (ten ASCII letters) is stated, as the oracle type's constraint. Distinctness of the drawn names is not modelled.
- Util.IsSubclass: the origin `typing.Union` is compared as a plain class named `Union`. Python's `issubclass` raises `TypeError` on it. So every comparison that reaches a Union origin returns a value here where Python raises. That covers a union against a plain class, a plain class against a union, and a union against an `Array` or against another union once the argument loop has passed, at any depth of nesting. `Util.IsSubclassReflexive` therefore also holds for unions here.
- Union normal form: a `Union(arms)` value may have no arms, nested unions or repeated arms. Python's `typing.Union` flattens, deduplicates and collapses those. `Union[A, A]` is `A` in Python, but here `Util.ExtendByArms` fans out once per listed arm. Catalogue signatures are assumed to be written in normal form.
- Templates.GetTemplate: a name of `None` is `Option.None`. Python would also look up `(None, T)` and `None` as keys, which the catalogues never hold.
- Union keys in a template dictionary are order-sensitive here. Python's `typing.Union` compares its arms as a set.
- Logs.Log: the counters are class attributes in Python and shared by the whole run. Here they are the fields of one `Log` object.
- main.py, functions.py and objects.py are not part of this model. The catalogues of signatures and types, and the contents of the `templates` and `special` dictionaries, are data that every operation receives as parameters.

## Findings

| source | as written | input that shows it | evidently intended | confidence | as-written member | corrected member |
|---|---|---|---|---|---|---|
| buildfile.py:165-166 | A line is taken as a warning when it contains `WARNING`. It is then cut at `WARNING:` and indexed `[1]`. Without the colon this raises `IndexError` before `pop_lines`. The file keeps the candidate lines, and main.py, which catches only `TemplateNotFoundException`, stops. | warnings enabled; a Meson output line `WARNING` with no colon, before any error line | test for the same text the line is cut at, `WARNING:` | not executed | BuildFiles.BareWarningRaises | BuildFiles.BuildFile.CheckLines |
