/**
 * The repository's history tests, plus scenarios drawn from main.py and the
 * app code, restated as methods on the model: each builds its own history
 * (and file system),
 * and its postcondition states what the corresponding test observes.
 */
module Scenarios {
  import opened Wrappers
  import Numerals
  import opened Text
  import opened Commands
  import opened Discovery
  import opened History
  import opened CalcHistory
  import opened Engine
  import opened PluginDirectory
  import opened Cli
  import Calc

  /** A fresh history with one operated calculation added. */
  method HistoryWithOne(a: real, b: real, command: Command) returns (calcs: Calculations)
    requires command.Execute(a, b).Ok?
    ensures fresh(calcs) && fresh(calcs.historyFacade) && calcs.Valid()
    ensures calcs.GetAllCalculations() == [Record(command.OperationName(), a, b, Some(command.Execute(a, b).value))]
  {
    calcs := new Calculations();
    var calculation := new Calc.Calculation(a, b, command);
    var r := calculation.Operate();
    calcs.AddCalculation(calculation);
  }

  /** Adding one calculation of 2 + 3 gives a history of one record whose result is 5. */
  method AddCalculationScenario() returns (history: seq<Record>)
    ensures |history| == 1 && history[0].result == Some(5.0)
  {
    var calcs := HistoryWithOne(2.0, 3.0, AddCommand);
    history := calcs.GetAllCalculations();
  }

  /** Clearing after an addition leaves the history empty. */
  method ClearHistoryScenario() returns (history: seq<Record>)
    ensures history == []
  {
    var calcs := HistoryWithOne(10.0, 5.0, AddCommand);
    calcs.ClearHistory();
    history := calcs.GetAllCalculations();
  }

  /** A cleared history takes new records again. */
  method ClearThenAddScenario() returns (history: seq<Record>)
    ensures history == [Record("subtract", 9.0, 4.0, Some(5.0))]
  {
    var calcs := HistoryWithOne(10.0, 5.0, AddCommand);
    calcs.ClearHistory();
    var calculation := new Calc.Calculation(9.0, 4.0, SubtractCommand);
    var r := calculation.Operate();
    calcs.AddCalculation(calculation);
    history := calcs.GetAllCalculations();
  }

  /** Operating a calculation twice runs the command again and stores the same value. */
  method OperateTwiceScenario(a: real, b: real, command: Command) returns (first: Payload, second: Payload, result: Option<real>)
    ensures first == second && first == command.Execute(a, b)
    ensures first.Ok? ==> result == Some(first.value)
    ensures first.Err? ==> result == None
  {
    var calculation := new Calc.Calculation(a, b, command);
    first := calculation.Operate();
    second := calculation.Operate();
    result := calculation.result;
  }

  /** Of an addition and a subtraction, filtering by "add" keeps the addition alone. */
  method FilterByOperationScenario() returns (filtered: seq<Record>)
    ensures |filtered| == 1 && filtered[0].operation == "add"
  {
    var calcs := HistoryWithOne(7.0, 2.0, AddCommand);
    var calculation := new Calc.Calculation(9.0, 4.0, SubtractCommand);
    var r := calculation.Operate();
    calcs.AddCalculation(calculation);
    var all := calcs.GetAllCalculations();
    assert all[1].operation == "subtract";
    assert Select(all[1..], "add") == [] by {
      assert all[1..][1..] == [];
    }
    filtered := calcs.FilterByOperation("add");
    assert filtered == Select(all, "add");
  }

  /** Saving, clearing and loading back gives the saved record, whose result is 10. */
  method SaveAndLoadScenario() returns (emptied: seq<Record>, loaded: seq<Record>)
    ensures emptied == []
    ensures |loaded| == 1 && loaded[0].result == Some(10.0)
  {
    var calcs := HistoryWithOne(3.0, 7.0, AddCommand);
    var fs := new FileSystem(map[]);
    calcs.SaveHistory("calc_history.csv", fs);
    calcs.ClearHistory();
    emptied := calcs.GetAllCalculations();
    var ok := calcs.LoadHistory("calc_history.csv", fs);
    loaded := calcs.GetAllCalculations();
  }

  /**
   * Saving any history, clearing it and loading the same path gives back the
   * history and its columns: the persistence the save and load commands promise.
   */
  method SaveClearLoad(calcs: Calculations, path: string, fs: FileSystem) returns (loaded: bool)
    requires calcs.Valid()
    modifies calcs.historyFacade, fs
    ensures calcs.Valid() && loaded
    ensures calcs.GetAllCalculations() == old(calcs.GetAllCalculations())
    ensures calcs.historyFacade.columns == old(calcs.historyFacade.columns)
    ensures fs.files == old(fs.files)[path := CsvFile(old(calcs.historyFacade.columns), old(calcs.GetAllCalculations()))]
  {
    calcs.SaveHistory(path, fs);
    calcs.ClearHistory();
    loaded := calcs.LoadHistory(path, fs);
  }

  /** Deleting record 0 of a history of one empties it. */
  method DeleteHistoryScenario() returns (history: seq<Record>)
    ensures history == []
  {
    var calcs := HistoryWithOne(1.0, 2.0, AddCommand);
    var report := calcs.DeleteHistory(0);
    history := calcs.GetAllCalculations();
  }

  /** Deleting record 10 of a history of one reports the invalid index and keeps the record. */
  method DeleteInvalidIndexScenario() returns (message: string, history: seq<Record>)
    ensures message == "Invalid index: 10. No record deleted."
    ensures |history| == 1
  {
    var calcs := HistoryWithOne(1.0, 2.0, AddCommand);
    var report := calcs.DeleteHistory(10);
    InvalidIndexMessage();
    message := report.Message();
    history := calcs.GetAllCalculations();
  }

  /** A new history is empty. */
  method EmptyHistoryOnStartScenario() returns (history: seq<Record>)
    ensures history == []
  {
    var calcs := new Calculations();
    history := calcs.GetAllCalculations();
  }

  /** Discovering the repository's plugin directory registers the five keys, in listing order. */
  method DiscoverRepositoryPlugins() returns (registry: Registry)
    ensures registry.Valid()
    ensures registry.names == RepositoryKeys
    ensures "standard_deviation" !in registry.commands
  {
    RepositoryListingDistinct();
    registry := DiscoverPlugins(true, RepositoryListing, RepositoryModules);
    RepositoryRegistry();
    assert "standard_deviation" !in RepositoryKeys;
  }

  /** A registry holding the add and divide commands under their keys. */
  function TwoCommands(): (r: Registry)
    ensures r.Valid() && r.commands == map["add" := AddCommand, "divide" := DivideCommand]
  {
    EmptyRegistry.Register("add", AddCommand).Register("divide", DivideCommand)
  }

  /** `2 3 add` is recorded with result 5, and `6 0 divide` fails and records nothing. */
  method EngineScenario() returns (sum: EngineOutcome, quotient: EngineOutcome, history: seq<Record>)
    ensures sum == Recorded(5.0)
    ensures quotient == Failed(Operations.DivisionByZeroMessage)
    ensures history == [Record("add", 2.0, 3.0, Some(5.0))]
  {
    var registry := TwoCommands();
    var calcs := new Calculations();
    DecimalOf(2);
    DecimalOf(3);
    DecimalOf(6);
    DecimalOf(0);
    sum := ProcessCalculationAndOutput("2", "3", "add", registry, false, calcs);
    quotient := ProcessCalculationAndOutput("6", "0", "divide", registry, true, calcs);
    history := calcs.GetAllCalculations();
  }

  /** A one-digit numeral parses as a decimal to its value. */
  lemma DecimalOf(d: nat)
    requires d < 10
    ensures Numerals.ParseDecimal([Numerals.DigitChar(d)]) == Some(d as real)
  {
    Numerals.ParseDecimalOfIntToString(d);
    assert Numerals.IntToString(d) == [Numerals.DigitChar(d)];
  }

  /** `menu` shows the menu and `exit` exits. */
  lemma MenuThenExitLines(lines: seq<string>)
    requires lines == ["menu", "exit"]
    ensures ClassifyAll(lines)[0] == ShowMenu && ClassifyAll(lines)[1] == Exit
  {
    StripOfTrimmed("menu");
    StripOfTrimmed("exit");
    DispatchExactKeywords("menu");
    LowerOfNoUpper("exit");
    DispatchExit("exit");
    ClassifyAllIndex(lines, 0);
    ClassifyAllIndex(lines, 1);
  }

  /** Showing the menu leaves the session as it was. */
  lemma MenuLeavesSession(cs: seq<ReplCommand>, commands: Registry, s: Session)
    requires |cs| >= 1 && cs[0] == ShowMenu
    ensures ApplyAll(cs[..1], commands, s) == s
  {
    assert cs[..1][..0] == [];
  }

  /** Two lines that ask for the menu and then to exit: both are read, the loop stops on the exit, and nothing changes. */
  method ShowMenuThenExit(lines: seq<string>) returns (consumed: nat, end: ReplEnd, history: seq<Record>)
    requires |lines| == 2 && ClassifyAll(lines)[0] == ShowMenu && ClassifyAll(lines)[1] == Exit
    ensures consumed == 2 && end == ExitRequested
    ensures history == []
  {
    var registry := TwoCommands();
    var calcs := new Calculations();
    var fs := new FileSystem(map[]);
    MenuLeavesSession(ClassifyAll(lines), registry, SessionOf(calcs, fs));
    consumed, end := StartRepl(lines, registry, calcs, fs);
    history := calcs.GetAllCalculations();
  }

  /** A REPL session of `menu` then `exit` reads both lines, stops on the exit and changes nothing. */
  method MenuThenExitScenario() returns (consumed: nat, end: ReplEnd, history: seq<Record>)
    ensures consumed == 2 && end == ExitRequested
    ensures history == []
  {
    var lines := ["menu", "exit"];
    MenuThenExitLines(lines);
    consumed, end, history := ShowMenuThenExit(lines);
  }
}
