# Calculator history and dispatch, modelled in Dafny

This project models the core of a command-line calculator:

- **The history store.** `PandasFacade` keeps an ordered table of records (operation, operand1, operand2, result) with a default row index. `Calculations` is the one store every caller shares.
- **Calculations and commands.** A `Calculation` binds two operands to a command. `operate()` stores the command's result. The commands are:
  - the four arithmetic operations of `app/operations.py`;
  - the mean plugin;
  - the standard-deviation plugin.
- **The front end in `main.py`:**
  - plugin discovery (`discover_plugins`);
  - the parse, look-up, execute and record engine (`process_calculation_and_output`);
  - the REPL's reading of a line and its loop (`start_repl`);
  - the argument-vector dispatch of `main`.

How the model is built:

- `Decimal` values are exact `real`s.
- A raised exception is an `Err(message)` payload, or a dedicated outcome constructor.
- The history table, the files it is saved to, a calculation and the result queue are classes whose methods change their fields. Class-level state is one `Calculations` object that every operation receives.
- The directory listing, the plugin modules and the REPL's input lines are parameters.
- Python string built-ins used by the dispatch are modelled in module `Text`: `strip`, `split`, `split(maxsplit=1)`, `lower`, `capitalize`, `startswith` and `endswith`.
- `int()`, `Decimal()` and integer rendering are modelled in module `Numerals`.

Modules and files:

| file | module | models |
|---|---|---|
| operations.dfy | `Operations` | app/operations.py |
| plugins.dfy | `Plugins` | mean and standard deviation arithmetic |
| command.dfy | `Commands` | the command interface and its plugins, the result queue |
| calculation.dfy | `Calc` | app/calculation.py |
| pandas_facade.dfy | `History` | app/pandas_facade.py, plus a file store |
| calculations.dfy | `CalcHistory` | app/calculations.py |
| discovery.dfy | `Discovery` | `discover_plugins` |
| plugin_directory.dfy | `PluginDirectory` | discovery given the repository's own plugin directory |
| engine.dfy | `Engine` | `process_calculation_and_output` |
| cli.dfy | `Cli` | `start_repl` and `main` |
| text.dfy, numerals.dfy, wrappers.dfy | `Text`, `Numerals`, `Wrappers` | string and number built-ins, `Option` |
| scenarios.dfy | `Scenarios` | the repository's history tests, plus scenarios drawn from main.py and the app code, as client code |

Behaviour worth knowing:

- **The standard-deviation plugin is never registered.** Discovery capitalizes the key, so it looks for `Standard_deviationCommand`. The module defines `StandardDeviationCommand`. The plugin is therefore skipped. This is proved in `PluginDirectory.StandardDeviationPluginSkipped`.
- **The engine runs the command twice.** The command runs once directly, or in the worker when isolated. The new `Calculation` then runs it again through `operate()`, and only that second run's result is recorded. The model follows the code.
- **The standard deviation divides by 2.** Its doc comment calls it the sample standard deviation, but the code computes the population form. The model follows the code.

## Model

| member | source | states |
|---|---|---|
| History.PandasFacade.constructor | app/pandas_facade.py:13-17 | a new table has no records, the columns operation, operand1, operand2, result, and the default row index |
| History.PandasFacade.AddRecord | app/pandas_facade.py:19-27 | the record is appended after all earlier records, which are unchanged; the index is renumbered 0..n-1; columns unchanged |
| History.PandasFacade.Clear | app/pandas_facade.py:29-33 | no records remain, the columns are kept, and the index invariant still holds so later appends work |
| History.PandasFacade.FilterByOperation | app/pandas_facade.py:35-45 | every returned record has the operation; each matching record occurs as often as in the table; the result is a subsequence of the table, so its order is kept; the table is only read |
| History.SelectExact | app/pandas_facade.py:45 | the boolean-mask selection keeps exactly the matching rows, with their multiplicity and in order |
| History.SelectExtremes | app/pandas_facade.py:45 | selecting from rows none of which match gives the empty table; from rows that all match, the whole table |
| History.PandasFacade.SaveToFile | app/pandas_facade.py:47-54 | the file at the path now holds the header and every record in order; no other file changes |
| History.PandasFacade.LoadFromFile | app/pandas_facade.py:56-63 | an existing file replaces the records and columns with its own; a missing file raises, modelled as `false` with the table unchanged |
| History.PandasFacade.DeleteRecord | app/pandas_facade.py:65-77 | an index in 0..len-1 removes exactly that record, so later records move down one, and reports the deletion; any other index changes nothing and reports it as invalid |
| History.Drop | app/pandas_facade.py:73 | dropping a label that is in the index keeps records and labels paired |
| History.DropUniqueLabel | app/pandas_facade.py:73 | dropping a label that occurs at exactly one position removes exactly the record there |
| History.DropAbsentLabel | app/pandas_facade.py:73 | on rows none of which carry the label, the model's `Drop` keeps them all: a step of its recursion toward DropUniqueLabel, not a behaviour of line 73, where pandas would raise `KeyError` |
| History.DropByPosition | app/pandas_facade.py:72-74 | under the default index, dropping label k removes the record at position k |
| History.InvalidIndexMessage | app/pandas_facade.py:77 | the message for index 10 is "Invalid index: 10. No record deleted." |
| CalcHistory.Calculations.constructor | app/calculations.py:15 | the shared store starts out empty with the fixed columns |
| CalcHistory.Calculations.AddCalculation | app/calculations.py:17-31 | appends one record made of the operation name, both operands and the current result; earlier records are unchanged |
| CalcHistory.Calculations.ClearHistory | app/calculations.py:33-38 | afterwards the whole history is empty, and the columns are kept |
| CalcHistory.Calculations.FilterByOperation | app/calculations.py:50-61 | the facade's filter over the shared store: exactly the matching records, with multiplicity, in order |
| CalcHistory.Calculations.SaveHistory | app/calculations.py:63-71 | the file at the path holds the current columns and history; nothing else changes |
| CalcHistory.Calculations.LoadHistory | app/calculations.py:73-81 | an existing file becomes the history; a missing one leaves it unchanged |
| CalcHistory.Calculations.DeleteHistory | app/calculations.py:83-91 | the facade's delete: a valid index removes that record, any other index changes nothing and is reported |
| Calc.Calculation.constructor | app/calculation.py:7-11 | the calculation holds the given operands and command, and no result |
| Calc.Calculation.Operate | app/calculation.py:13-18 | returns the command's result on the operands; on success it is stored, on an error the old result stays; operands and command unchanged |
| Operations.Divide | app/operations.py:23-32 | fails, with "Division by zero is not allowed.", exactly when the divisor is zero; otherwise the quotient times the divisor is the dividend |
| Operations.SubtractUndoesAdd | app/operations.py:5-15 | with decimals as exact reals, subtracting y undoes adding y (not so under a finite `Decimal` precision) |
| Operations.DivideUndoesMultiply | app/operations.py:17-32 | with decimals as exact reals, dividing by a non-zero y undoes multiplying by y |
| Operations.AddMultiplyCommute | app/operations.py:5-21 | addition and multiplication do not depend on operand order |
| Commands.Command.Execute | app/command.py:15-27 | only division by zero fails, and with the division message; add, subtract, multiply and mean give the sum, difference, product and (a + b) / 2; division's quotient times the divisor is the dividend; the standard deviation is a non-negative root of the variance |
| Commands.OperationNamesDistinct | app/plugins/mean_command.py:12 | two commands have the same operation name exactly when they are the same command |
| Commands.MeanSymmetric | app/plugins/mean_command.py:14-25 | the mean never fails and does not depend on operand order |
| Commands.ExecuteMultiprocessing | app/plugins/mean_command.py:27-37 | the worker posts exactly one payload, the outcome of `execute`, failures included, after what the queue held |
| Commands.ResultQueue.Put | app/plugins/standard_deviation_command.py:41-42 | `put` appends its payload to the queue |
| Commands.ResultQueue.Get | main.py:94-95 | `get` on a non-empty queue takes its first payload and leaves the rest |
| Plugins.StandardDeviation | app/plugins/standard_deviation_command.py:26-30 | the result is non-negative and its square is the variance |
| Plugins.MeanBetween | app/plugins/mean_command.py:25 | the mean is symmetric, lies between the operands, and is as far from one as from the other |
| Plugins.VarianceIsSquaredHalfDistance | app/plugins/standard_deviation_command.py:27-28 | the population variance of two numbers is the square of half their distance |
| Plugins.VarianceProperties | app/plugins/standard_deviation_command.py:28 | the variance is non-negative, symmetric, and zero exactly for equal operands |
| Plugins.StandardDeviationOfEqual | app/plugins/standard_deviation_command.py:27-29 | identical operands give variance 0 and result 0 |
| Plugins.MeanVectors | tests/test_plugins.py:98-167 | the mean test vectors: (10, 20) → 15, (-10, 20) → 5, (0, 50) → 25, (-50, -30) → -40, (-50, 50) → 0, the large and the small operands |
| Plugins.StandardDeviationVectors | tests/test_plugins.py:116-228 | the variance vectors 25, 100, 625, 10000 with roots 5, 10, 25, 100; equal operands give 0; the large operands give 5 × 10^17 |
| Discovery.LoadPlugin | main.py:37-47 | only names ending in "_command.py" are plugins; a loaded key is the name without that suffix, and its command is the expected class of the key's module; import and lookup failures are reported, not raised |
| Discovery.LoadPluginOfKey | main.py:38-44 | the file of key k loads module k + "_command", or fails on the module or on the class `ExpectedClassName(k)` |
| Discovery.SameKeySameFile | main.py:40-44 | two files that load under the same key are the same file |
| Discovery.LoadedKeysMember | main.py:37-44 | a key is registered exactly when some file loads under it |
| Discovery.LoadsCoherent | main.py:37-44 | files loading under one key load the same command, and distinct file names give distinct keys |
| Discovery.Registry.Register | main.py:44 | the ordered registry maps the key to the command; a new key goes last and a known key keeps its place |
| Discovery.RegisterNext | main.py:37-47 | one more loop turn keeps the registry equal to what the files seen so far register |
| Discovery.ReflectsListing | main.py:37-49 | a registry matching the whole listing has exactly the loaded keys, each with its command, in listing order |
| Discovery.LoadedKeysAnyOrder | main.py:37-44 | two listings of the same files, in any order, load the same keys |
| Discovery.DiscoverPlugins | main.py:23-49 | a missing directory gives an empty registry; otherwise the registered keys are exactly those of the files that load, each with its file's command, in listing order, and failing files are skipped |
| PluginDirectory.InitIsNotAPlugin | main.py:38 | "__init__.py" is not a plugin file |
| PluginDirectory.MeanPluginRegistered | app/plugins/mean_command.py:8-12 | "mean_command.py" loads `MeanCommand` under "mean", the same name the plugin records |
| PluginDirectory.StandardDeviationClassName | main.py:42 | the class name looked up for "standard_deviation" starts with "Standard_" and is not "StandardDeviationCommand" |
| PluginDirectory.StandardDeviationPluginSkipped | app/plugins/standard_deviation_command.py:9 | so the standard deviation file fails the class lookup and is skipped |
| PluginDirectory.RepositoryLoadAt | main.py:37-47 | what each file of the repository's plugin directory comes to |
| PluginDirectory.RepositoryRegistry | main.py:37-49 | listed in the order `RepositoryListing` gives, the repository's plugin files register "add", "subtract", "multiply", "divide" and "mean", in that order |
| PluginDirectory.RepositoryKeysAnyOrder | main.py:37-49 | in whatever order the directory lists the repository's plugin files, exactly those five keys register |
| Engine.ProcessCalculationAndOutput | main.py:64-117 | an operand that is not a number or an unknown key records nothing; otherwise the command runs, and either a record of the operation name, both operands and the result is appended, or the error is reported and nothing is recorded; the outcome is `Outcome` and the history grows by `Added`, on the direct and the isolated path alike |
| Engine.Added | main.py:106-109 | a request adds at most one record, and one exactly when it is recorded |
| Numerals.ParseDecimalOfIntToString | main.py:77 | `Decimal(str(i))` is i |
| Numerals.ParseDecimalRejectsLetter | main.py:112-114 | under the model's numeral rule (an optional sign, digits, at most one point), text holding any other character is not a number; see `Numerals.ParseDecimal` under "Left out" |
| Numerals.ParseIntOfIntToString | main.py:176 | `int(str(i))` is i, including negative i |
| Text.Strip | main.py:128 | what `strip()` leaves neither starts nor ends with whitespace |
| Text.StripIsSlice | main.py:128 | what `strip()` leaves is a slice of the line, and all it cuts off on either side is whitespace |
| Text.StripIdempotent | main.py:128 | stripping twice is stripping once |
| Text.SplitYieldsWords | main.py:193 | every token of `split()` is non-empty and holds no whitespace |
| Text.SplitJoinSpace | main.py:193 | splitting words joined by single spaces gives back the words |
| Text.SplitOnceOfWordThen | main.py:154 | `split(maxsplit=1)` of a word, a space and a trimmed rest gives the word and the rest |
| Text.EndsWithIffConcat | main.py:38 | a name ends with a suffix exactly when it is a stem followed by the suffix |
| Text.CapitalizeIdempotent | main.py:42 | capitalizing twice is capitalizing once |
| Cli.DispatchExit | main.py:130-132 | a line exits exactly when it lowercases to "exit" |
| Cli.DispatchExactKeywords | main.py:134-151 | "menu", "history" and "clear_history" are recognized exactly when the stripped line is the keyword |
| Cli.DispatchSave | main.py:153-157 | once the earlier branches are ruled out, a line starting with "save_history" that has an argument saves to it (a step toward the line lemmas below) |
| Cli.DispatchLoad | main.py:159-166 | once the earlier branches are ruled out, a line starting with "load_history" that has an argument loads from it (a step toward the line lemmas below) |
| Cli.DispatchDelete | main.py:173-179 | once the earlier branches are ruled out, a delete line deletes the index its argument parses to, or prints the usage when the argument is not an integer (a step toward the line lemmas below) |
| Cli.DispatchFilter | main.py:181-191 | once the earlier branches are ruled out, a filter line with an argument raises, which ends the REPL (a step toward the line lemmas below) |
| Cli.DispatchOther | main.py:193-199 | a line that is no keyword and starts with no prefix is a calculation of 3 or 4 tokens, or the usage (a step toward the line lemmas below) |
| Cli.DispatchCalculate | main.py:193-199 | a calculation has 3 or 4 tokens: name, num1 and num2 are the first three, and it is isolated exactly when a fourth token lowercases to "mp" |
| Cli.DispatchCalculationUsage | main.py:193-196 | the usage is printed only for a token count other than 3 and 4 |
| Cli.ClassifyIgnoresSurroundingSpace | main.py:128 | whitespace around a line never changes what it asks for |
| Cli.CalculationLine | main.py:193-199 | three or four words whose first starts with no keyword are the calculation of those words, isolated exactly when the fourth lowercases to "mp" |
| Cli.SaveLine | main.py:153-157 | "save_history p" saves to p |
| Cli.LoadLine | main.py:159-166 | "load_history p" loads from p |
| Cli.DeleteLine | main.py:173-179 | "delete_history n" deletes record n, for every integer n |
| Cli.DeleteLineNotInteger | main.py:173-179 | "delete_history x" with x not an integer prints the usage |
| Cli.FilterLineRaises | main.py:181-191 | "filter_with_operation op" raises, because the method it calls does not exist |
| Cli.Perform | main.py:134-205 | only a save writes a file, and it writes the current columns and history; clear empties the history; load of an existing file replaces it; a valid delete removes that record; an unknown calculation name changes nothing; a calculation appends exactly what the engine adds; display and usage lines change nothing; in all, the session becomes `Apply` of the line |
| Cli.FilesOnlyBySave | main.py:153-157 | a run of lines without a save leaves the files as they were |
| Cli.HistoryOnlyGrows | main.py:193-205 | a run of lines without a clear, load or delete keeps the old records first, in order |
| Cli.ClassifyAllIndex | main.py:127-128 | the i-th command is the classification of the i-th input line |
| Cli.Step | main.py:127-205 | one loop turn classifies the line; a line that ends the loop changes neither the history nor the files, and any other line acts as `Apply` says, so the session is the lines read so far applied in order |
| Cli.StartRepl | main.py:119-205 | the loop runs to the end of the input exactly when no line ends it; otherwise it stops at the first line that exits or raises, and says which; the final session is every line before the stop applied in order |
| Cli.RunRepl | main.py:119-205 | the session ends up as every line before the first one that ends the REPL, or all lines if none does, applied in order |
| Cli.DispatchArgv | main.py:214-231 | an argument vector of length 2 whose second entry is "repl" in any case starts the REPL; one of length 4 runs a calculation; one of length 5 runs it isolated exactly when the last entry lowercases to "mp"; anything else prints the usage |
| Cli.RunMain | main.py:207-231 | plugins are discovered first, and the registry holds what discovery promises; only the REPL can write files; the usage changes nothing; a direct calculation comes to the engine's outcome and adds exactly the engine's record; the REPL leaves the session as every line before the first one that ends it (or all lines, if none does) applied in order |
| Scenarios.AddCalculationScenario | tests/test_calculations.py:15-23 | adding 2 + 3 gives one record with result 5 |
| Scenarios.ClearHistoryScenario | tests/test_calculations.py:25-33 | clearing after an addition leaves the history empty |
| Scenarios.ClearThenAddScenario | app/calculations.py:31-38 | a cleared history takes new records again |
| Scenarios.OperateTwiceScenario | app/calculation.py:17 | operating twice runs the command again and gives the same value |
| Scenarios.FilterByOperationScenario | tests/test_calculations.py:35-49 | filtering an add and a subtract record by "add" gives exactly the add record |
| Scenarios.SaveAndLoadScenario | tests/test_calculations.py:51-66 | save, clear and load gives back the one record, whose result is 10 |
| Scenarios.SaveClearLoad | app/calculations.py:33-81 | for every history and path, saving, clearing and loading the path gives back the same records and columns, and the path holds them |
| Scenarios.DeleteHistoryScenario | tests/test_calculations.py:68-75 | deleting record 0 of one empties the history |
| Scenarios.DeleteInvalidIndexScenario | tests/test_calculations.py:77-85 | deleting record 10 of one reports "Invalid index: 10. No record deleted." and keeps the record |
| Scenarios.EmptyHistoryOnStartScenario | tests/test_calculations.py:87-89 | a new history is empty |
| Scenarios.DiscoverRepositoryPlugins | main.py:212 | discovery over the repository's plugin files, listed in the order `RepositoryListing` gives, registers the five keys in that order, and not "standard_deviation" |
| Scenarios.EngineScenario | main.py:64-117 | "2 3 add" is recorded with result 5; "6 0 divide" in a worker fails with the division message and records nothing |
| Scenarios.ShowMenuThenExit | main.py:130-138 | two lines that classify as the menu and the exit are both read, the loop stops on the exit, and the history stays empty |
| Scenarios.MenuThenExitScenario | main.py:130-138 | a session of "menu" then "exit" reads both lines, stops because of the exit, and leaves the history empty |

## Left out

- Plugins.StandardDeviation: states the exact root of the variance (`r >= 0.0 && r * r == Variance(a, b)`). The source computes `Decimal(math.sqrt(float(variance)))` (app/plugins/standard_deviation_command.py:29) through floating point, and that rounding is not modelled.
- Commands.Command.Execute: the standard-deviation result is the exact root of the variance. The source computes `Decimal(math.sqrt(float(variance)))` through floating point, and that float round trip is not modelled.
- The `Decimal` context (28 significant digits and its rounding) is not modelled: arithmetic is exact.
- Numerals.ParseDecimal: accepts an optional sign, digits and at most one point. `Decimal()` also accepts exponents, surrounding whitespace, underscores, "Infinity" and "NaN"; those forms are not modelled and read as not a number.
- Numerals.ParseInt: accepts an optional sign and digits. `int()` also accepts surrounding whitespace and underscores; those forms read as not an integer.
- Text.Lower: changes only the ASCII letters, where Python lowers every Unicode letter; `Text.Capitalize` likewise.
- Text.IsSpace: a fixed list of the characters CPython treats as whitespace, not the full Unicode database.
- CSV encoding is not modelled: a saved file is its header and its records. The source's reloaded numbers come back as int or float, not `Decimal`; the model keeps them exact.
- Multiprocessing is not modelled. The worker runs to completion before its queue is read, so the "Multiprocessing calculation failed." branch (main.py:98-100) never happens in the model.
- Logging, the `execution_logger` decorator, environment loading, `print` and `__str__` are left out. Only what is printed for a deleted or an invalid index is kept, as `DeleteReport.Message`.
- `input()` is a given sequence of lines. Running out of lines ends the REPL as `InputExhausted`; the source's `EOFError` is not modelled otherwise.
- `Calculations.get_latest` and `Calculations.filter_with_operation` do not exist in the source. The lines that call them ("latest", and "filter_with_operation" with an argument) are modelled as raising, which ends the REPL; their output is not modelled.
- A "save_history" or "load_history" line without an argument raises an uncaught `ValueError` in the source. It is modelled as a line that raises and ends the REPL; the exception itself is not modelled.
- History.PandasFacade.SaveToFile: a write always succeeds. In the source `to_csv` raises on a path that cannot be written, and that exception is not caught in the REPL, so it would end the loop; the model has no failing write.
- History.PandasFacade.LoadFromFile: a stored file is always well formed, and its header is taken as given. In the source `read_csv` raises on an empty or malformed existing file; the model only knows missing and present files. A loaded file whose header is not the four fixed columns keeps that header, and a later `AddRecord` keeps it too, where pandas `concat` would give the union of the columns.
- History.Drop: defined for every label. Pandas `drop` raises `KeyError` on a label that is not in the index (app/pandas_facade.py:73); the guard `0 <= index < len(self.dataframe)` at line 72 and the default index kept by `reset_index` make that case unreachable, and on it the model's `Drop` keeps every row.
- History.PandasFacade.FilterByOperation: returns the matching records alone. The source's filtered table keeps each row's original index label, which shows when it is printed; the labels of the result are not modelled.
- Commands.Command.OperationName: the names "subtract", "multiply" and "divide" follow the plugin file names; only "add", "mean" and "standard_deviation" appear in the available source and tests.
- Numerals: only ASCII digits are digits. Python's `int()` and `Decimal()` also accept other Unicode decimal digits.
- The order of `os.listdir` is not specified. Discovery is modelled on a given listing, and `RepositoryListing` is one order of the repository's files. `Discovery.LoadedKeysAnyOrder` shows that the order decides only the order of the registered keys, not which keys register.
- `importlib` and the file system are parameters: the plugin directory's existence, its listing in `os.listdir` order, and the classes each module defines. `os.path.exists` for a load is membership in the file store.
- The add, subtract, multiply and divide plugin files are not part of this model. Their commands are modelled from app/operations.py and the repository's plugin tests. Division by zero is a single error outcome with the tests' message.
- The "menu" and "history" lines only print, and the model keeps no output for them.
