# tmcf build core in Dafny

tmcf is a preprocessor for Minecraft data packs. Its `build` command reads
`.mcfunction` templates and JSON files and writes expanded copies of them.

This project models that build step and proves properties of the model:

- **Template expansion.** A template line that starts with `#@` is a directive:
  - `#@ for <var> in <source>` repeats the block up to the next line reading `#@`, once per item, with every occurrence of `<var>` replaced by the item;
  - `#@ generate <name> for <var> in <source>` writes one sibling file per item, named by substituting the item into `<name>`.

  Directives nest. Lines are read through the shared `Consumable` cursor.
- **Loop sources.** A loop iterates over an inline `range a:b[:c]`, a `range` over a configured integer or list, or a configured list.
- **Global replacement.** The expanded text of a non-blank template goes through the configured `global_replace` table for functions.
- **JSON expansion.** An object inside an array that carries `"tmcf": "for …"` is removed from the array. One copy of it per item, without the `tmcf` key, is appended to the array's end. The first copy is walked at once, with the object as parent; the array's own loop later reaches every copy, the first one included.
- **Configuration.** `validate_config` checks the parsed configuration and normalises `global_replace` into a `function` table and a `json` table.
- **Location tags.** `function_ref` and `generic_ref` make the tags placed before fatal messages.

A fatal message (`Logging.fatal`, which exits) and an uncaught Python
exception are both modelled as an `Err` outcome (`Errors.Error`). The build
stops at the first one.

Files:

| file | module | models |
|---|---|---|
| `wrappers.dfy` | `Wrappers` | `Option`, `Result` |
| `errors.dfy` | `Errors` | fatal reasons, exceptions, the `Outcome` type |
| `text.dfy` | `Text` | the Python string operations used: `strip`, `split`, `join`, `startswith`, `replace`, `isnumeric`, `int`, `str` |
| `config.dfy` | `Config` | TOML values and tables, `validate_config` |
| `utils.dfy` | `Utils` | the class `Consumable` |
| `loops.dfy` | `Loops` | `parse_for_loop`, Python's `range` |
| `lines.dfy` | `Lines` | `handle_line`, `function_for_loop`, `file_generations`, the per-template loop of `build_pack` |
| `json.dfy` | `JsonTree` | `process_json` and the JSON loop of `build_pack` |
| `logging.dfy` | `Logging` | `Logging.format`, `function_ref`, `generic_ref` |

Most routines that loop, or that advance the cursor, come in two forms:

- a **method** that does what the program does: it advances the `Consumable`, runs the `while` loop, or walks the array by index while the array changes;
- a **function** that specifies it.

Each method's postcondition says that it computes its function. The lemmas
state the program's behaviour in terms of those functions.

## Model

| member | source | states |
|---|---|---|
| `Utils.Consumable.constructor` | tmcf/utils.py:14-16 | A new cursor holds the given lines and starts at index 0. |
| `Utils.Consumable.Preview` | tmcf/utils.py:19-20 | Returns the line at the index and leaves the index alone. On an exhausted cursor it returns `None`, standing for the `IndexError`. |
| `Utils.Consumable.Consume` | tmcf/utils.py:23-26 | Returns the line at the index and advances the index by exactly one. On an exhausted cursor it returns `None` (the `IndexError`) and does not move. The lines never change. |
| `Utils.Consumable.IsConsumable` | tmcf/utils.py:29-30 | True exactly when the index is below the number of lines. |
| `Text.StripStartFacts` | tmcf/command/build.py:57 | `lstrip` removes exactly the leading whitespace. |
| `Text.StripEndFacts` | tmcf/command/build.py:126 | `rstrip` removes exactly the trailing whitespace. |
| `Text.BlankIffAllSpace` | tmcf/command/build.py:39 | `output.strip()` is empty if and only if every character is whitespace. |
| `Text.SplitFacts` | tmcf/command/build.py:57 | No piece of `split(" ")` contains the separator. |
| `Text.JoinSplit` | tmcf/command/build.py:57 | Joining the pieces of a split with the separator gives back the string. |
| `Text.SplitWithout` | tmcf/logging.py:47 | A string without the separator splits into itself alone. |
| `Text.SplitPiece` | tmcf/logging.py:47 | A leading piece without the separator comes off whole. |
| `Text.ReplaceAbsent` | tmcf/command/build.py:136 | Replacing a non-empty string that does not occur leaves the text unchanged. |
| `Text.ReplaceSelf` | tmcf/command/build.py:79-80 | Replacing a string by itself leaves the text unchanged, including for an empty search string. |
| `Text.ParseNatToString` | tmcf/command/build.py:110 | `int(str(n)) == n` for natural numbers. |
| `Loops.PyRangeElements` | tmcf/command/build.py:101-110 | `range(start, stop, step)` is the arithmetic sequence from `start` by `step`, strictly short of `stop`, and the next step would reach or pass `stop`. |
| `Loops.IntArgs` | tmcf/command/build.py:100-101 | The arguments of `range(*list)` are defined exactly when every element is an int (or a bool), and they keep their order. |
| `Loops.ParseForLoop` | tmcf/command/build.py:85-118 | A clause is accepted only with at least four words, `in` as the third word, and exactly five words for `range`. The name to replace is the second word. |
| `Loops.ClauseErrors` | tmcf/command/build.py:86-97 | Too few words, a third word other than `in`, or a `range` clause of the wrong length is fatal with the matching message. The checks run in that order. |
| `Loops.InlineRange` | tmcf/command/build.py:106-110 | An inline range with a non-numeric part is fatal, and only then. With one to three numeric parts the items are Python's `range` of those numbers, and a zero step raises `ValueError`. |
| `Loops.InlineRangeExample` | tmcf/command/build.py:107-110 | `for $n in range 0:6:2` binds `$n` to 0, 2, 4. |
| `Loops.ConfiguredRange` | tmcf/command/build.py:98-105 | A `range` over a configured variable: a list of one, two or three ints gives `range(b)`, `range(a, b)` or `range(a, b, c)`; a zero step raises `ValueError`; any other length or a non-int element raises `TypeError`. An int `n` gives 0..n-1 (nothing when `n` is negative), a bool counts as 0 or 1, and a string or table is the fatal 'impossible state'. |
| `Loops.ConfiguredItemsFacts` | tmcf/command/build.py:98-105 | The items of a configured range, case by case: `range(*list)` for one to three ints with its `ValueError` and `TypeError` cases, `range(n)` for an int or a bool, and the fatal 'impossible state' for a string or table. |
| `Loops.UpTo` | tmcf/command/build.py:103 | `range(n)` is 0, 1, …, n-1, and empty when `n` is not positive. |
| `Loops.ListSource` | tmcf/command/build.py:111-116 | A non-range source is fatal exactly when it is not configured. When it is configured, the clause succeeds exactly when the value is a list, and the items are that list. Otherwise it is fatal as not a list. |
| `Lines.Uncomment` | tmcf/command/build.py:131-132 | Each commented line loses exactly its first character. |
| `Lines.HandleLine` | tmcf/command/build.py:54-71 | Computes `ExpandAt` on the cursor's lines at its index, and leaves the cursor where the expansion ends. |
| `Lines.FunctionForLoop` | tmcf/command/build.py:120-136 | Computes `ForLoopAt`: the clause is parsed first, then the block is captured and repeated. The cursor is left after the terminator. |
| `Lines.CaptureBlock` | tmcf/command/build.py:124-129 | The `while True` loop computes `CaptureFrom`: the expanded lines up to the terminator, with the cursor just past it. |
| `Lines.FileGenerations` | tmcf/command/build.py:74-83 | Computes `GenerateAt`, with the cursor left after the block. |
| `Lines.NameGenerated` | tmcf/command/build.py:78-83 | The loop over the copies and items computes `NameFiles`. |
| `Lines.RenderTemplate` | tmcf/command/build.py:36-38 | The loop `while lines.is_consumable(): output += handle_line(...)` computes `ExpandFrom` over the whole template. |
| `Lines.ApplyReplacements` | tmcf/command/build.py:40-41 | The replacement loop computes `ReplaceAll`: each key in table order, where a non-string value raises. |
| `Lines.ReplaceAll` | tmcf/command/build.py:40-41 | The replacements succeed exactly when every value of the table is a string; otherwise they raise `TypeError`. |
| `Lines.ReplaceAllAppend` | tmcf/command/build.py:40-41 | The replacements run one after the other: the later entries of the table work on the text the earlier ones left. |
| `Lines.ReplaceAllAbsent` | tmcf/command/build.py:40-41 | A table of strings whose keys are non-empty and do not occur in the text leaves the text unchanged. |
| `Lines.ReplaceAllOrder` | tmcf/command/build.py:40-41 | With `A` before `AB` in the table, `AB` becomes `XB`: `A` is replaced before `AB` is looked for. |
| `Lines.BuildFunctionFile` | tmcf/command/build.py:33-42 | One iteration of the per-template loop computes `FunctionFile`. |
| `Lines.PlainLine` | tmcf/command/build.py:54-71 | A line that does not start with `#@` is returned unchanged, and the cursor moves by exactly one. |
| `Lines.PlainCapture` | tmcf/command/build.py:124-129 | A plain line goes into the block unchanged. |
| `Lines.RenderStep` | tmcf/command/build.py:36-38 | Each expanded line is appended to the output, and its files to the files written, in order. |
| `Lines.DirectiveErrors` | tmcf/command/build.py:57-69 | A `#@` line with no second word, or with one other than `for` and `generate`, is fatal at the next line's index. |
| `Lines.ForStep` | tmcf/command/build.py:60-62 | A `for` directive yields its loop's chunks concatenated in item order. |
| `Lines.GenerateStep` | tmcf/command/build.py:63-65 | A `generate` directive yields the empty string and the files it writes, or its error. |
| `Lines.PlainBlock` | tmcf/command/build.py:124-129 | A block of plain lines is captured unchanged, up to and including the first terminator. |
| `Lines.TerminatorStep` | tmcf/command/build.py:125-128 | A terminator line is consumed and ends the block. |
| `Lines.UnterminatedBlock` | tmcf/command/build.py:125 | A block that runs to the end of the template raises `IndexError`. |
| `Lines.ForDirective` | tmcf/command/build.py:121-136 | A `for` over plain lines up to a terminator expands to the body repeated once per item with the name substituted. The cursor is left after the terminator. |
| `Lines.LoopClauseFirst` | tmcf/command/build.py:121 | A bad loop clause fails before any block line is read. |
| `Lines.NameFilesFacts` | tmcf/command/build.py:78-83 | `generate` succeeds exactly when every substituted name differs from the template name. Each failure is fatal at the line after the block. On success, file `j` is `<name with item j>.mcfunction` holding chunk `j`. |
| `Lines.GenerateNeedsReplacee` | tmcf/command/build.py:79-81 | A name that does not contain the loop name is fatal as soon as there is an item. |
| `Lines.GenerateDirective` | tmcf/command/build.py:74-83 | A `generate` over plain lines writes the named files (or fails as `NameFiles` does) and returns the empty string. |
| `Lines.PlainLoop` | tmcf/command/build.py:120-136 | `function_for_loop` over plain lines gives the substituted body per item. |
| `Lines.GenerateFromLoop` | tmcf/command/build.py:76-83 | `file_generations` parses its clause from the third word on, and writes the loop's chunks under the substituted names. |
| `Lines.LoopWithoutReplacee` | tmcf/command/build.py:136 | When the loop name does not occur in the body, every chunk is the body itself. |
| `Lines.CommentedBodyLength` | tmcf/command/build.py:131-132 | Stripping the comment marks removes exactly one character per line. |
| `Lines.PlainTemplate` | tmcf/command/build.py:36-38 | A template without directives expands to its own text and writes no extra files. |
| `Lines.TemplateWrittenUnlessBlank` | tmcf/command/build.py:39-42 | A blank expansion writes only the generated files. Otherwise, without `global_replace` the build raises `KeyError`; with a `function` table of strings the template's own file comes last, after the generated files, and holds the expanded text with the replacements applied; a non-string replacement raises `TypeError`. |
| `Lines.PlainTemplateFile` | tmcf/command/build.py:33-42 | With no directives and no replacements, the template is copied as it is, unless it is blank. |
| `Config.PutFacts` | tmcf/main.py:56 | Storing a key overwrites only that key, and keeps the keys unique. |
| `Config.PutKeys` | tmcf/main.py:56 | Storing a key adds exactly that key to the table's keys. |
| `Config.PutAllFacts` | tmcf/main.py:57-58 | Spreading a table into another: its entries win, and no other entry changes. |
| `Config.MergeFacts` | tmcf/main.py:57-58 | `{**base, **top}` has the keys of both, each once. On a clash the entry of `top` wins. |
| `Config.WithoutFacts` | tmcf/main.py:53-55 | `pop(key, None)` removes that key and nothing else. |
| `Config.FirstTableVariable` | tmcf/main.py:48-50 | Finds the first variable whose value is a table, or reports that there is none. |
| `Config.ValidateConfig` | tmcf/main.py:41-60 | The method with the variable loop computes `Validated`. |
| `Config.ConfigErrors` | tmcf/main.py:41-50 | Missing `data_out`, then missing `assets_out`, a variable named `range`, or the first table-valued variable is fatal with that message. |
| `Config.ValidatedVariables` | tmcf/main.py:41-50 | On success both output keys are present and `variables` is unchanged. `variables` is a table without `range` and without table values. |
| `Config.ValidatedWithoutReplace` | tmcf/main.py:52-60 | Without `global_replace` the configuration is returned as it was, with no key added. |
| `Config.ValidatedReplace` | tmcf/main.py:52-59 | After normalisation `global_replace` has exactly the keys `function` and `json`. Each is the host's own table overlaid with every top-level entry, and the top level wins a clash. |
| `Config.NormalisedOverlay` | tmcf/main.py:52-59 | The normalised `global_replace` holds `function`, then `json`, and nothing else. Each is its host table overlaid with the shared top-level entries. |
| `Logging.FormatParts` | tmcf/logging.py:17-18 | `format(s, *codes)` is the codes, then `s` unchanged, then the reset code. |
| `Logging.TrailReversed` | tmcf/logging.py:46-51 | The folders collected by the reversed walk are the folders in reversed path order. |
| `Logging.StemWithoutDot` | tmcf/logging.py:47 | A file name without a dot gives an empty name. |
| `Logging.StemOfTwoDots` | tmcf/logging.py:47 | The name drops the last extension and the dots before it: `a.b.mcfunction` gives `ab`. |
| `Logging.LastIndexOf` | tmcf/logging.py:46-50 | The walk stops at the nearest `function` section above the file, or finds none. |
| `Logging.LastRoot` | tmcf/logging.py:60-65 | The walk stops at the nearest `data` or `assets` section above the file, or finds none. |
| `Logging.FunctionRef` | tmcf/logging.py:41-53 | The loop over the reversed sections, with its early `break`, computes `FunctionRefText`. |
| `Logging.GenericRef` | tmcf/logging.py:55-69 | The loop over the reversed sections computes `GenericRefText`. |
| `Logging.FunctionRefFails` | tmcf/logging.py:46-50 | `function_ref` raises exactly when the nearest `function` section is the first section, so no namespace precedes it. |
| `Logging.FunctionRefNone` | tmcf/logging.py:41-53 | A walk that meets no `function` section tags the file with namespace `None` and every folder above it, as walked. |
| `Logging.LastIndexFound` | tmcf/logging.py:48-50 | The walk finds the last `function` section before the file. |
| `Logging.LastRootFound` | tmcf/logging.py:63-65 | The walk finds the last `data` or `assets` section before the file. |
| `Logging.FunctionRefLayout` | tmcf/logging.py:46-53 | For `…/ns/function/<dirs>/file`, the tag is `[ns:<dirs as walked><stem>:<line>] ` in bold red. |
| `Logging.GenericRefFails` | tmcf/logging.py:60-69 | `generic_ref` raises (`None + '/'`) exactly when no `data` or `assets` section precedes the file. |
| `Logging.GenericRefWithoutBackslash` | tmcf/logging.py:56-69 | A path without a backslash, such as a POSIX path, is a single section, and `generic_ref` raises on it. |
| `Logging.ReplaceDropsSuffix` | tmcf/logging.py:69 | Removing every `ns/` from the collected folders removes just the trailing namespace when `ns/` occurs nowhere else. |
| `Logging.GenericRefLayout` | tmcf/logging.py:55-69 | For `…/data/ns/<dirs>/file`, where `ns/` occurs only at the end of the walk, the tag is `[ns:<dirs as walked>file] `. |
| `Logging.FunctionRefIntendedLayout` | tmcf/logging.py:46-53 | The corrected `function_ref` lists the folders in path order, and succeeds on every layout where the original succeeds. |
| `Logging.FunctionRefIntendedFails` | tmcf/logging.py:46-53 | The original and the corrected `function_ref` fail on exactly the same paths. |
| `Logging.FunctionRefIntendedReorders` | tmcf/logging.py:46-53 | Below the nearest `function` section, the original tag is the corrected one with the folder list reversed. |
| `Logging.FunctionRefIntendedReordersNone` | tmcf/logging.py:41-53 | Without a `function` section, the original tag has namespace `None` and lists every folder above the file in reversed path order. |
| `Logging.FunctionRefReversedExample` | tmcf/logging.py:46-53 | `ns/function/a/b/file` is tagged `ns:b/a/…` as written, against `ns:a/b/…` as intended. |
| `Logging.GenericRefIntendedLayout` | tmcf/logging.py:55-69 | The corrected `generic_ref` gives `[ns:<dirs in path order>file] ` with no condition on the folder names. |
| `Logging.GenericRefIntendedFails` | tmcf/logging.py:60-69 | The corrected `generic_ref` fails exactly where the original does. |
| `Logging.GenericRefCutExample` | tmcf/logging.py:69 | `data/ns/ans/file` is tagged `ns:a…` as written, against `ns:ans/…` as intended. |
| `JsonTree.FirstSame` | tmcf/command/build.py:156 | `parent.remove(object)` takes out the first element equal to the object, or the object itself at its own index. Nothing before the removed index is equal to it. |
| `JsonTree.PopFacts` | tmcf/command/build.py:157 | After `pop("tmcf")` a field remains exactly when it was in the object under another key, and an object without a `tmcf` key is unchanged. |
| `JsonTree.PopAt` | tmcf/command/build.py:157 | An object holding `tmcf` once, at field `j`, loses exactly that field: the result is the fields before `j` followed by the fields after it, in their order. |
| `JsonTree.LoadFrom` | tmcf/command/build.py:159-165 | One loaded copy per remaining item. |
| `JsonTree.WalkNode` | tmcf/command/build.py:139-151 | Every visit spends fuel. Only a node whose parent is an array can ask its parent for an expansion. |
| `JsonTree.Expanded` | tmcf/command/build.py:156-165 | After an expansion the array has lost one element and gained the copies, which sit at its end in item order. |
| `JsonTree.Copies` | tmcf/command/build.py:159-165 | One copy per item. |
| `JsonTree.ProcessJson` | tmcf/command/build.py:139-173 | The walk computes `WalkNode`. |
| `JsonTree.ProcessList` | tmcf/command/build.py:141-144 | The index loop over the array, which the walk of an element may change, computes `WalkList`. |
| `JsonTree.ProcessFields` | tmcf/command/build.py:146-151 | The loop over an object's fields computes `WalkFields`. |
| `JsonTree.RunDirective` | tmcf/command/build.py:150-171 | The handling of a `tmcf` key computes `Directive`. |
| `JsonTree.MakeCopies` | tmcf/command/build.py:159-165 | The `enumerate(items)` loop computes `Copies`. |
| `JsonTree.PlainNode` | tmcf/command/build.py:139-148 | A container without `tmcf` keys is left unchanged, and its walk costs exactly its number of containers. |
| `JsonTree.PlainList` | tmcf/command/build.py:141-144 | An array of such elements is left unchanged. |
| `JsonTree.PlainFields` | tmcf/command/build.py:146-148 | An object of such fields is left unchanged. |
| `JsonTree.PlainJsonFile` | tmcf/command/build.py:44-49 | A JSON file without directives is written back as it was parsed. |
| `JsonTree.ScalarDocument` | tmcf/command/build.py:146-148 | A JSON file whose top value is not an array or object raises `AttributeError`. |
| `JsonTree.WalkUpTo` | tmcf/command/build.py:146-148 | Walking the fields before a directive keeps every key and leaves the later fields as they were. |
| `JsonTree.WalkThrough` | tmcf/command/build.py:146-149 | Up to a field that no directive precedes, an object's walk is `WalkUpTo`: container fields walked in place, their errors first, then the walk goes on from that field. |
| `JsonTree.ForOutsideArrayFatal` | tmcf/command/build.py:153-155 | After the fields before it are walked, a `for` object whose parent is not an array is fatal, or raises `TypeError` when the file's `generic_ref` tag cannot be made. |
| `JsonTree.GenerateStops` | tmcf/command/build.py:167-169 | A `generate` key ends the object's walk: only the fields before it have been walked, and the rest of the object is unchanged. |
| `JsonTree.GenerateSkipped` | tmcf/command/build.py:167-169 | Inside an array, a `generate` object keeps its place, with the fields before the key walked, and the walk goes on with the next element. |
| `JsonTree.BadDirective` | tmcf/command/build.py:150-171 | After the fields before it are walked, a non-string `tmcf` value raises `AttributeError`, and an unknown first word is fatal (or raises `TypeError` when the file's tag cannot be made). |
| `JsonTree.LoadFromFacts` | tmcf/command/build.py:160-161 | Copy `m` is the serialised object with item `m` substituted, parsed again. |
| `JsonTree.CopiesFacts` | tmcf/command/build.py:159-165 | Only the first copy is walked again (with an object parent). The other copies are appended as parsed. |
| `JsonTree.ExpandedShape` | tmcf/command/build.py:156-165 | The array after the expansion: without the object (or without an earlier equal element, with the object stripped in place), followed by the copies. |
| `JsonTree.ForInArray` | tmcf/command/build.py:153-166 | A `for` object in an array: the fields before the key are walked first. Without a file tag it raises `TypeError`; a bad clause or copy fails with its error. Otherwise the copies are made from the walked object without its `tmcf` key; the object, or the first earlier element equal to it, is removed; the copies go at the end; and the walk continues at the next index, so the element that moved into the object's place is skipped. |
| `JsonTree.PosixPathFor` | tmcf/command/build.py:158 | On a path without backslashes the file's tag cannot be made, so a `for` object inside an array raises `TypeError` before its clause is read. |
| `JsonTree.UnmentionedVariable` | tmcf/command/build.py:159-161 | When the loop name does not occur in the serialised object and the codec round-trips, every copy after the first is the object without its `tmcf` key. |

## Left out

- File system work in `build_pack` is left out: removing and creating directories, copying `pack.mcmeta`, globbing, and opening, reading and writing files. A template's output is the list of `(target, contents)` pairs it would write, and each template is modelled on its own.
- Files written before a fatal error in the same template are not modelled as written. The outcome is the error alone.
- `json.load`, `json.dumps` and `json.loads` are parameters (`JsonTree.Codec`), not JSON text. `UnmentionedVariable` assumes that they round-trip.
- The debug `print(object)` in `process_json` is left out.
- `Logging.print`, `print_e` and `fatal`'s printing and exit are left out. `fatal` is an `Err` outcome, and its tag is a `Location`, not the rendered text.
- `os.path.normpath` is left out: `function_ref` and `generic_ref` split the path as given on `\`, as the program does on every platform.
- `JsonTree.JsonFile` makes the file's `generic_ref` tag as the program does, eagerly. On a POSIX path (`data/ns/f.json`) the split leaves one section and the tag raises `TypeError`: every JSON `for` directive, and every JSON fatal message, then ends the build with that `TypeError` (`PosixPathFor`). On a Windows path under `data\` the tag succeeds.
- Config loading with `tomllib` and the argument dispatch of `main()` are left out. `validate_config` is given the parsed document.
- `tmcf/command/init.py` is not part of this model. It is the interactive setup wizard.
- `tmcf/cli.py` is not part of this model. It is console prompts.
- Loop items that are floats or nested lists are left out: `Loops.Str` renders ints, bools and strings as Python does, and takes any other value's text as given.
- `Text.IsNumeric`: only ASCII digits count as numeric. Python's `isnumeric` also accepts other Unicode digits, which `int` may then reject.
- `JsonTree.Same`: objects are compared as dictionaries, assuming that a loaded object never repeats a key. This holds for `json.loads`, where the last duplicate wins.
- `JsonTree.WalkNode`: the program's JSON walk need not terminate, because a substituted copy can hold a new directive. The model walks with a budget of node visits and stops with `OutOfFuel` when it is spent. Every property is stated for the walks that finish within their budget.
- JSON in-place mutation (`parent.remove`, `object.pop`, `parent.append`) is modelled as values: a walked object returns the change its parent array must make. Aliasing between the removed object and other references to it is not modelled.
- The `json` table of `global_replace` is never applied, as in the program.
- JSON `generate` does nothing, as in the program.
- Fatal messages from JSON files carry the location `InFile` in place of the `generic_ref` tag text. Fatal messages from templates carry the cursor index in place of the `function_ref` tag. `function_ref` raises only when a path's first section is `function`, which a path found under `./data` never has, so the eager `function_ref` call in `function_for_loop` is not modelled.
- `build.py:37` calls `lines.consumable()`, which `Consumable` does not define. The model calls `is_consumable` (`Lines.RenderTemplate`).
- `build.py:6` imports `generic_ref` from Python's own `logging` module. The model takes it to be the function in `tmcf/logging.py`.
- A directive is recognised by the untrimmed line starting with `#@`, as in `handle_line`. The block terminator is recognised by the trimmed line, as in `function_for_loop`.

## Findings

| source | as written | input that shows it | evidently intended | confidence | as-written member | corrected member |
|---|---|---|---|---|---|---|
| tmcf/logging.py:46-51 | `function_ref` walks the sections from the file upwards and appends each folder, so nested folders come out innermost first. | `ns\function\a\b\f.mcfunction` is tagged `[ns:b/a/f:…]` | `[ns:a/b/f:…]`, the function's resource path | medium, not executed | `Logging.FunctionRefReversedExample` | `Logging.FunctionRefIntendedLayout` |
| tmcf/logging.py:69 | `generic_ref` removes every occurrence of `namespace/` from the folder string, also inside other folder names. | `data\ns\ans\f.json` is tagged `[ns:af.json]` | `[ns:ans/f.json]`, with the folders in path order as in the row above | medium, not executed | `Logging.GenericRefCutExample` | `Logging.GenericRefIntendedLayout` |
