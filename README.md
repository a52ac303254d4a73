# MyHDL tools for VS Code — a verified model of the snippet generators

The extension offers three commands for a Verilog module: *bind* writes the Python
co-simulation wrapper for MyHDL, *testbench* writes a Verilog test bench, and *unittest*
writes a Python `unittest` skeleton. All three commands work the same way:

1. Run ctags on the chosen file.
2. Parse its output line by line into a table of `Symbol`s.
3. Pick a module from that table. With several modules, the user picks one by name.
4. Collect the ports and parameters declared in the module's scope.
5. Build the snippet text in loops. Some of these loops wrap lines at column 79.

This project models the non-I/O part of that pipeline in Dafny:

| module | models |
|---|---|
| `Tags` (tags.dfy) | `src/ctags.ts`: the `Symbol` record, `parseTagLine`, and the class `Ctags` with its `symbols` table and `buildSymbolsList`; also the `ModuleTags` override that each command file declares |
| `Selection` (selection.dfy) | the module choice, the qualified scope, and the port and parameter filters; this code appears in identical copies in all three commands |
| `Wrap` (wrap.dfy) | the wrapping loop that the builders repeat (see below) |
| `Utils` (utils.dfy) | `appendNames` from `src/utils.ts` |
| `Bind` (bind.dfy) | `headerString`, `commandString`, `portTuple`, `paramsTuple` and `fnDef`, plus the whole bind command |
| `Testbench` (testbench.dfy) | `headerString`, `netDeclarations`, `initialBlock`, `tieParams`, `instantiatePort` and `paramString`, plus the whole testbench command |
| `Unittest` (unittest.dfy) | `headerString` and `classString`, plus the whole unittest command |
| `Strings`, `Seqs`, `Wrappers` | JavaScript's `split`, `join`, `trim`, `replace` (first occurrence only), ASCII `toLowerCase` and `filter`, plus `Option` |

Code that updates state in steps stays imperative:

- `Ctags` is a class. `symbols` is a `seq<Symbol>` field, and the build methods append to it.
- Every string builder with a loop is a method with that loop. The builders without one are functions: the three `headerString`s, `initialBlock` and `paramString`.
- Each method is proved equal to a specification function. The lemmas then state what that function means.

**The wrapping loop.** Before appending a chunk, each wrapping builder measures the last line of the text built so far. If that length plus the chunk's width exceeds 79, it first appends a break. A break is a line feed plus an indentation, and for `commandString` and the namedtuples also quotes.

In `Wrap`, one round of such a loop is a `Piece(width, glue, text)`:

- `Flow` is the text built by the whole loop.
- `Breaks` records, for each piece, whether the loop broke the line before it.
- `Weave` lays the pieces out with a break exactly before the marked ones.

`FlowLayout` proves two things:

- what a loop builds is its start followed by `Weave` of the pieces;
- a break comes before piece `i` exactly when the line built so far plus that piece's width exceeds 79.

Separately, `WeaveErased` and the `*Erased` lemmas built on it show that deleting every break gives the plain concatenation.

Each builder instantiates this with its own pieces and break, and restates the result in its own terms.

**Inputs instead of I/O.** The model takes several values as plain inputs:

- the ctags output, in place of running ctags;
- the quick-pick answer, as `chosen: Option<string>` (`None` when the pick is dismissed);
- the workspace settings `myhdltools.bindInstantiation.sourcesPath` and `myhdlvpiPath`, as the string parameters `sourcesPath` and `vpiPath`.

A command ends with one `Outcome`:

- `Generated(text)`: the snippet;
- `NoModulesError`: the error message shown when the file has no modules;
- `Cancelled`: the pick was dismissed;
- `Failed`: the promise chain stopped with an exception.

**Behaviour at the edges that the model keeps.**

- **Malformed lines.** For a non-empty line of ctags output with fewer than three tab-separated fields, `parts[2]` is undefined. `parseTagLine` catches the resulting error and returns `undefined` (src/ctags.ts:49-51, 73-75). `buildSymbolsList` asserts the result with `!` and reads its `type` (src/ctags.ts:89-91). That throws and ends the command, and the symbols accepted from earlier lines remain in the table (`Tags.FailureStops`).
- **`parentScope` and colons.** `parentScope` is the second piece of the fifth field split on `:` (src/ctags.ts:61-64):
  - it is the text between the first and the second colon;
  - it is `undefined` when that field has no colon;
  - an `undefined` scope is not `""`, so the module's qualified scope becomes `"undefined." + name` (src/commands/BindInstantiation.ts:54, `QualifiedScope`).
- **The third field.** The kind is the first word of the third tab field (src/ctags.ts:51-52), whatever that field holds. So a line such as `clk<TAB>file<TAB>1;" input clk<TAB><TAB>module:counter` gets the kind `1;"`.

**Quirks of the generated text that the model keeps:**

- `commandString` checks the include flag against the length of the whole command, not of its last line (`CommandOpening`).
- In `portTuple` and `paramsTuple`:
  - the last field follows the previous comma without a space;
  - the last parameter keeps its case;
  - a field moved to a new line loses its separating space.
- In `classString`:
  - the signature is written `runTest(self, test, …)` with no `def`;
  - without ports the text keeps an unclosed `Ports(`;
  - without parameters it keeps an unclosed `Params(`.
- Without parameters, `fnDef` leaves `os.system(cmd % (` unclosed.
- `netDeclarations` of no ports is just `reg `.
- `instantiatePort` pads the name inside the parentheses as well as before them.
- `headerString` of the bind command ignores its argument.

## Model

| member | source | states |
|---|---|---|
| Tags.ParseTagLine | src/ctags.ts:43-76 | the loop over the declaration tokens, which overwrites `bus`, computes exactly the symbol `Tag(line)`, or `undefined` when the line does not split into enough fields |
| Tags.LastBracketLoop | src/ctags.ts:55-59 | the loop over the tokens after the first leaves in `bus` exactly the last token containing `[`, or undefined when there is none |
| Tags.TagDefined | src/ctags.ts:43-51 | a line parses exactly when it has at least two tabs (three fields); a parsed symbol always has an empty `pattern` and `isValid == false` |
| Tags.TagName | src/ctags.ts:49-50 | the name is exactly the text before the first tab, unchanged |
| Tags.TagKind | src/ctags.ts:51-52 | the kind is the prefix, up to the first space, of the third field with its first `/^` removed and trimmed |
| Tags.LastBracketSpec | src/ctags.ts:55-59 | the bus the loop finds is undefined iff no token after the first contains `[`, and otherwise is the last such token |
| Tags.TagBus | src/ctags.ts:53-60 | `bus` is set only for `input` and `output` tags, and then it is the last bracketed declaration token |
| Tags.TagParent | src/ctags.ts:61-69 | with five fields, `parentType` is the text before the first colon of field five and `parentScope` the text up to the next colon, undefined when there is no colon; otherwise both are empty |
| Tags.SplitCount | src/ctags.ts:49 | `split` gives one more piece than the separator occurs |
| Strings.SplitJoin | src/ctags.ts:49 | joining the pieces of a split with the separator gives back the string, and no piece holds the separator |
| Strings.TrimSlice | src/ctags.ts:51 | `trim` removes exactly the leading and trailing whitespace, leaving a slice of the input |
| Strings.ReplaceFirstSpec | src/ctags.ts:51 | `replace` with a string pattern changes only the first occurrence, and leaves a string without an occurrence unchanged |
| Strings.FirstOccurrence | src/ctags.ts:51 | the position `replace` changes is the first occurrence of the pattern |
| Tags.LinesEquations | src/ctags.ts:86 | splitting on `/\r?\n/`: a line without a line feed is one piece, and `\r\n` and `\n` both end a line |
| Tags.LinesHaveNoLineFeed | src/ctags.ts:86 | no piece of the split output contains a line feed |
| Tags.Ctags.constructor | src/ctags.ts:28-30 | a new table is empty |
| Tags.Ctags.BuildSymbolsListOf | src/ctags.ts:78-99 | the table grows by exactly the parsed non-empty lines whose kind is kept, in line order, and nothing is reset; it reports failure exactly when a non-empty line does not parse |
| Tags.Ctags.AddLine | src/ctags.ts:88-94 | the callback for one line reports a parse exactly when the line is empty or parses, and the table grows by that line's symbol when its kind is kept and by nothing otherwise |
| Tags.PassStep | src/ctags.ts:87-95 | after a line that parses, the table holds the symbols of the lines so far; at one that does not, the pass has failed with the symbols of the lines before it |
| Tags.AllParseMeans | src/ctags.ts:88-89 | the pass runs to the end exactly when every non-empty line parses |
| Tags.AcceptedSnoc | src/ctags.ts:87-95 | a further line that parses appends exactly its own symbol, if its kind is kept |
| Tags.Ctags.BuildSymbolsList | src/ctags.ts:78-99 | the same with the kinds `module`, `input`, `output`, `parameter` |
| Tags.Ctags.BuildModuleSymbolsList | src/commands/BindInstantiation.ts:244-265 | the same with the kinds `module`, `port`, `constant` (the override is identical in the other two command files) |
| Tags.EmptyOutput | src/ctags.ts:81-84 | empty ctags output parses and adds nothing, just as the early return leaves the table unchanged |
| Tags.AcceptedAppend | src/ctags.ts:87-95 | the symbols from two runs of lines are those of the first followed by those of the second |
| Tags.AcceptedKinds | src/ctags.ts:91-93 | every symbol added has a kept kind |
| Tags.EmptyLinesIgnored | src/ctags.ts:88 | empty lines, including those left by `\r\n` or a final line feed, contribute nothing |
| Tags.FailureStops | src/ctags.ts:87-91 | at the first non-empty line that does not parse, the run fails and keeps exactly the symbols of the lines before it |
| Selection.SelectModuleCases | src/commands/BindInstantiation.ts:29-53 | no modules gives the error; one module is taken; with several, a dismissed pick cancels, and otherwise the first module with the chosen name is taken, or none when no module has that name |
| Selection.SelectedIsModule | src/commands/BindInstantiation.ts:29-53 | the chosen symbol is a module of the table |
| Selection.ChooseModule | src/commands/BindInstantiation.ts:29-53 | the inline choice among the modules ends exactly as `SelectModule` says |
| Selection.QualifiedScope | src/commands/BindInstantiation.ts:54 | the scope ends with the module's name; it is the bare name exactly when `parentScope` is empty, and otherwise a dot precedes the name |
| Selection.ChildrenSpec | src/commands/BindInstantiation.ts:55-61 | the ports (or parameters) are an order-preserving subsequence of the table, each of the requested kind with parent type `module` and the qualified scope, and every such symbol is kept with its multiplicity |
| Selection.Names | src/commands/BindInstantiation.ts:58 | the names are the symbols' names, one per symbol, in order |
| Selection.ChildrenDisjoint | src/commands/TestbenchInstantiation.ts:55-63 | no symbol from another module's scope is collected |
| Selection.TopLevelScopesDiffer | src/commands/UnittestInstantiation.ts:54 | two top-level modules with different names have different scopes |
| Selection.LocatedSpec | src/commands/BindInstantiation.ts:24-62 | a command that gets as far as generating does so for a module of a fully parsed table, with that module's ports and parameters |
| Selection.HaltedCases | src/commands/UnittestInstantiation.ts:24-53 | a command fails exactly when a line does not parse or the picked name names no module; it reports missing modules exactly when the table has none, and is cancelled exactly when the pick among several is dismissed |
| Selection.LocateModule | src/commands/TestbenchInstantiation.ts:23-63 | the imperative run (new table, build, choose, filter) ends exactly as `Locate` says |
| Utils.AppendNames | src/utils.ts:6-22 | the loop builds `Flow` of the name pieces with a line feed and the start's last-line indentation as the break |
| Utils.AppendName | src/utils.ts:12-19 | one round appends the name, after a break exactly when the last line plus the name plus 2 exceeds 79, with `", "` after every name but the last |
| Utils.NameBreakLine | src/utils.ts:9-15 | the break holds a line feed and leaves the new line indented as far as the start's last line is long |
| Utils.AppendNamesLayout | src/utils.ts:9-20 | the result is the start followed by the names in order; a break comes before a name exactly when the last line plus the name plus 2 exceeds 79; a broken line starts with as many spaces as the start's last line is long; names that fit are just joined with `", "` |
| Utils.AppendNamesErased | src/utils.ts:11-20 | deleting every inserted break leaves `start` followed by the names joined with `", "` |
| Utils.PlainNames | src/utils.ts:16-19 | unbroken, the names are joined with `", "` |
| Wrap.FlowLayout | src/commands/UnittestInstantiation.ts:85-95 | a wrapping loop builds its start followed by every piece in order, with a break before piece `i` exactly when the line so far plus that piece's width exceeds 79 |
| Wrap.WeaveErased | src/commands/BindInstantiation.ts:92-98 | deleting the breaks of a layout whose pieces carry no glue leaves the pieces on one line |
| Wrap.FitsUnbroken | src/utils.ts:11-20 | pieces that fit on the current line are appended with no break at all |
| Wrap.ContinuationLine | src/utils.ts:13-16 | after a break, the last line is the break's indentation followed by the piece |
| Bind.HeaderIgnoresModule | src/commands/BindInstantiation.ts:76-81 | the Python header is the same for every module |
| Bind.CommandString | src/commands/BindInstantiation.ts:83-105 | the loop builds exactly `CommandText`: the opening, then each define and the test bench file, wrapped with `'\n       '` |
| Bind.OpenCommand | src/commands/BindInstantiation.ts:84-91 | the opening before the loop in `Bind.CommandString`, where the promise is stated (`Bind.CommandErased`): the include flag is preceded by the continuation exactly when the whole command so far plus the flag exceeds 79 |
| Bind.AppendWord | src/commands/BindInstantiation.ts:93-103 | one round of the loop in `Bind.CommandString`, where the promise is stated: a define or the test bench file is preceded by the continuation exactly when the last line plus the word exceeds 79 |
| Bind.CommandLayout | src/commands/BindInstantiation.ts:92-103 | the command is its opening followed by one `-D<lower p>=%s ` per parameter in order and the test bench file; a break comes before a word exactly when the last line plus the word exceeds 79 |
| Bind.CommandErased | src/commands/BindInstantiation.ts:84-103 | the command is its plain text with the continuation inserted at each break, the one before the include flag included; deleting them all leaves `cmd = ('iverilog -o M.o `, the include flag, every define in parameter order and the test bench file |
| Bind.CommandFits | src/commands/BindInstantiation.ts:83-105 | a command that fits on one line is `cmd = ('iverilog -o M.o -I S ` followed by the defines and `test_M.v')` and three line feeds |
| Bind.PortTuple | src/commands/BindInstantiation.ts:107-136 | the loop builds exactly `PortTupleText` |
| Bind.ParamsTuple | src/commands/BindInstantiation.ts:138-167 | the loop builds exactly `ParamsTupleText`, all parameters but the last lowercased |
| Bind.AppendField | src/commands/BindInstantiation.ts:116-124 | one round of the loop in `Bind.PortTuple` and `Bind.ParamsTuple`, where the promise is stated: a field before the last, with its comma, comes after a break when it would pass column 79, otherwise after a space, or directly for the first field |
| Bind.AppendLastField | src/commands/BindInstantiation.ts:126-130 | one round of the loop in `Bind.PortTuple` and `Bind.ParamsTuple`, where the promise is stated: the last field, with the closing `')`, comes after a break exactly when it would pass column 79 |
| Bind.CommandWordAt | src/commands/BindInstantiation.ts:92-99 | the words after the include flag are one define per parameter and then the test bench file |
| Bind.TupleLayout | src/commands/BindInstantiation.ts:113-133 | the declaration is the head and a quote followed by every field in order, then `\n\n`; a break comes before a field exactly when the last line plus the field exceeds 79 |
| Bind.TupleContinuation | src/commands/BindInstantiation.ts:117-119 | a field after a break starts a line indented as far as the head is long, reopening the quote |
| Bind.PortTupleFits | src/commands/BindInstantiation.ts:107-136 | ports that fit give `Ports = namedtuple('ports', 'p1, p2, … pn')` and two line feeds, the last port directly after the previous comma |
| Bind.ParamsTupleFits | src/commands/BindInstantiation.ts:145-161 | parameters that fit are lowercased, except the last, which keeps its case |
| Bind.FnDef | src/commands/BindInstantiation.ts:169-189 | the loop builds exactly the `def` line, the `os.system` call with the arguments joined by the 17-space indent, and the `Cosimulation` return |
| Bind.AppendArg | src/commands/BindInstantiation.ts:174-181 | one round of the loop in `Bind.FnDef`, where the promise is stated: every argument but the first comes after the 17-column indent, and it ends in `,` and a line feed, or `))` and a line feed for the last |
| Bind.ArgsAreLines | src/commands/BindInstantiation.ts:173-182 | the arguments are one line `params.<lower p>` per parameter, in order, with `,` after all but the last and `))` after the last |
| Bind.InstantiateBind | src/commands/BindInstantiation.ts:16-74 | the command yields the header, command, tuples and function for the located module, or ends as `Locate` says |
| Testbench.HeaderIsLines | src/commands/TestbenchInstantiation.ts:85-90 | the header is the timescale line, the include of `../../sources/M.v`, and `module M_tests;`, with an empty line after the include and after the module line |
| Testbench.NetDeclarations | src/commands/TestbenchInstantiation.ts:92-103 | `reg ` followed by the ports joined by `", "` and `;\n\n`, or just `reg ` without ports |
| Testbench.InitialBlockLines | src/commands/TestbenchInstantiation.ts:105-111 | the initial block is `initial begin`, the `$from_myhdl()` and `$to_myhdl()` calls each indented by a tab, and `end`, each on its own line, followed by an empty line; split into lines it gives exactly those |
| Testbench.TieParams | src/commands/TestbenchInstantiation.ts:113-120 | the loop builds one `defparam` line per parameter, in order, then an empty line |
| Testbench.TieParamsLines | src/commands/TestbenchInstantiation.ts:113-120 | line `i` ties parameter `i` of `M_tb` to the macro of its lowercased name, and two empty pieces end the text |
| Testbench.MaxLength | src/commands/TestbenchInstantiation.ts:124-129 | the maximum is at least every name's length and is reached by some name, or is 0 |
| Testbench.MaxLengthSnoc | src/commands/TestbenchInstantiation.ts:125-129 | one round of the first loop keeps the longest length seen so far |
| Testbench.InstantiatePort | src/commands/TestbenchInstantiation.ts:122-142 | both loops together build one `\t.X(X)` connection line per port, in order, with a comma on all but the last; no ports give `""` |
| Testbench.AppendConnection | src/commands/TestbenchInstantiation.ts:132-139 | one round of the loop in `Testbench.InstantiatePort`, where the promise is stated: one round of the second loop appends the port's connection line, the name padded to one column past the longest, and a line feed |
| Testbench.PadAligned | src/commands/TestbenchInstantiation.ts:131-135 | every padded name is one column wider than the longest name, and is the name followed by spaces |
| Testbench.InstantiatePortLines | src/commands/TestbenchInstantiation.ts:131-141 | split into lines, the text is exactly the connections followed by an empty piece |
| Testbench.ParamString | src/commands/TestbenchInstantiation.ts:65-68 | the parameter block is empty exactly when there are no parameters, and otherwise is wrapped in `\n#(\n` and `)\n` |
| Testbench.InstantiateTestbench | src/commands/TestbenchInstantiation.ts:17-83 | the command yields header, nets, initial block, instance and ties for the located module, or ends as `Locate` says |
| Unittest.HeaderIsLines | src/commands/UnittestInstantiation.ts:73-78 | the header is `import unittest`, the MyHDL import, and `from M import M, Ports, Params`, separated by empty lines |
| Unittest.HeaderSplits | src/commands/UnittestInstantiation.ts:73-78 | split into lines, the header is exactly those seven lines followed by an empty piece |
| Unittest.ClassString | src/commands/UnittestInstantiation.ts:80-181 | the sequence of loops builds exactly `ClassText`: signature, signals line, `Ports` call, `Params` call, and the fixed body |
| Unittest.Signature | src/commands/UnittestInstantiation.ts:85-95 | the loop appends each lowercased parameter with `", "` and then `delay_ns=10):`, wrapped with the 9-column continuation |
| Unittest.SignalNames | src/commands/UnittestInstantiation.ts:100-105 | the FIXME line lists the ports joined by `", "`, in order |
| Unittest.CallArguments | src/commands/UnittestInstantiation.ts:110-128 | the loop builds the call's arguments, with a space and `)` before and after the last one whatever the wrapping |
| Unittest.CallLayout | src/commands/UnittestInstantiation.ts:110-128 | the call's arguments are the start followed by every piece in order, with a break before a piece exactly when the last line plus that piece exceeds 79; with at least one name the text ends with a space, the last name and `)` |
| Unittest.SignatureLayout | src/commands/UnittestInstantiation.ts:85-95 | a break comes before a signature argument exactly when the last line plus that argument exceeds 79 |
| Unittest.SignatureErased | src/commands/UnittestInstantiation.ts:85-96 | deleting every break leaves each lowercased parameter with `", "`, in order, then `delay_ns=10):` |
| Unittest.SignatureFits | src/commands/UnittestInstantiation.ts:81-96 | a signature that fits is the class line followed by `runTest(self, test, ` and the arguments, unbroken |
| Unittest.PortsFit | src/commands/UnittestInstantiation.ts:108-129 | ports that fit give `ports = Ports(p1, p2, … pn-1, pn)`, with a space before the last port even when it is the only one |
| Unittest.ParamsFit | src/commands/UnittestInstantiation.ts:132-153 | parameters that fit are lowercased, except the last, which keeps its case |
| Unittest.CallContinuation | src/commands/UnittestInstantiation.ts:113-115 | an argument after a break starts a line indented under the first argument |
| Unittest.InstantiateUnittest | src/commands/UnittestInstantiation.ts:16-71 | the command yields the header and the test class for the located module, or ends as `Locate` says |

## Left out

- `Ctags.execCtags` (src/ctags.ts:32-41) starts a child process and reads a setting. Its output is an input of the model.
- `selectFile`, `getDirectories` and `getFiles` are not modelled. They read the file system and show the file quick pick.
- The editor UI is not modelled: `showQuickPick`, `showErrorMessage`, `insertSnippet` and the `*Interact` entry points. The answer to the module pick is an input, and the error message is the `NoModulesError` outcome.
- The Promise chaining and `async` code is not modelled. The steps run in sequence.
- `console.log` calls are not modelled.
- `SnippetString.appendText` is modelled as plain string concatenation.
- `src/extension.ts` only registers the commands, so it is not part of this model.
- `Tags.ParseTagLine` does not compute `lineNo`, which is a `Number(...)` of a substring. The value is never used and cannot throw.
- `Strings.Lower` lowercases ASCII letters only. Full Unicode case mapping is left out. (`Strings.Trim` uses JavaScript's whole WhiteSpace and LineTerminator set.)
- `Tags.Ctags.BuildSymbolsListOf` returns a success flag where `buildSymbolsList` returns `undefined`. For `tags === ''` it keeps the early return and leaves the table unchanged (src/ctags.ts:81-84).
- In `Tags.Ctags.BuildSymbolsListOf`, the exception from an unparseable line becomes the `false` result. The caller turns it into the `Failed` outcome.
- Wrap.Overflows, and every other length the model measures: `|s|` counts Unicode code points, while JavaScript's `.length` counts UTF-16 code units. Text with characters outside the Basic Multilingual Plane (an emoji in a module name or path, say) is measured shorter than the source measures it. The model can then leave out a break the source inserts (`Bind.CommandOpening`, `Utils.NameBreak`, every 79-column test) and indent a continuation less. UTF-16 widths are not modelled.
