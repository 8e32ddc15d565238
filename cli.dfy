/**
 * The command-line front end of main.py: how a REPL line and the argument
 * vector are read (`start_repl`, `main`), and the loops that act on them.
 */
module Cli {
  import opened Wrappers
  import opened Text
  import Numerals
  import opened Commands
  import opened Discovery
  import opened History
  import opened CalcHistory
  import opened Engine

  /** What one REPL line asks for. */
  datatype ReplCommand =
    | Exit
    | ShowMenu
    | ShowHistory
    | ClearHistory
    | SaveHistory(path: string)
    | LoadHistory(path: string)
    | DeleteHistory(index: int)
    | DeleteUsage
    | FilterUsage
      /** A line whose branch raises outside every handler, which ends the REPL. */
    | Unsupported
    | Calculate(name: string, num1: string, num2: string, isolated: bool)
    | CalculationUsage

  const SaveKeyword := "save_history"
  const LoadKeyword := "load_history"
  const DeleteKeyword := "delete_history"
  const FilterKeyword := "filter_with_operation"

  /** The argument of a keyword line: what `split(maxsplit=1)` leaves after the first word, if anything. */
  function Argument(line: string): (arg: Option<string>)
    ensures arg.Some? ==> |SplitOnce(line)| == 2 && arg.value == SplitOnce(line)[1]
    ensures arg.None? ==> |SplitOnce(line)| < 2
  {
    var parts := SplitOnce(line);
    if |parts| == 2 then Some(parts[1]) else None
  }

  /**
   * The dispatch of `start_repl` on one line once `strip()` has run: "exit"
   * in any case; the exact keywords; the keyword prefixes with their
   * argument; and otherwise a calculation of three or four tokens.
   */
  function Dispatch(input: string): ReplCommand
  {
    if Lower(input) == "exit" then Exit
    else if input == "menu" then ShowMenu
    else if input == "history" then ShowHistory
    else if input == "clear_history" then ClearHistory
    else if StartsWith(input, SaveKeyword) then
      (match Argument(input)
       case Some(path) => SaveHistory(path)
       case None => Unsupported)
    else if StartsWith(input, LoadKeyword) then
      (match Argument(input)
       case Some(path) => LoadHistory(path)
       case None => Unsupported)
    else if input == "latest" then Unsupported
    else if StartsWith(input, DeleteKeyword) then
      (match Argument(input)
       case Some(arg) =>
         (match Numerals.ParseInt(arg)
          case Some(i) => DeleteHistory(i)
          case None => DeleteUsage)
       case None => DeleteUsage)
    else if StartsWith(input, FilterKeyword) then
      (if Argument(input).Some? then Unsupported else FilterUsage)
    else
      var parts := Split(input);
      if |parts| != 3 && |parts| != 4 then CalculationUsage
      else Calculate(parts[0], parts[1], parts[2], |parts| == 4 && Lower(parts[3]) == "mp")
  }

  /** "exit" ends the REPL in any letter case, and nothing else does so without raising. */
  lemma DispatchExit(input: string)
    ensures Dispatch(input).Exit? <==> Lower(input) == "exit"
  {
  }

  /** "menu", "history" and "clear_history" are recognized only when typed exactly. */
  lemma DispatchExactKeywords(input: string)
    ensures Dispatch(input).ShowMenu? <==> input == "menu"
    ensures Dispatch(input).ShowHistory? <==> input == "history"
    ensures Dispatch(input).ClearHistory? <==> input == "clear_history"
  {
    if |input| > 0 && input[0] != 'e' && input[0] != 'E' {
      assert Lower(input)[0] != 'e';
    }
  }

  /**
   * A calculation is a line of three or four tokens: the command's name and
   * the two operands, and an isolated run exactly when a fourth token
   * lowercases to "mp".
   */
  lemma DispatchCalculate(input: string)
    ensures Dispatch(input).Calculate? ==>
              var parts := Split(input);
              var c := Dispatch(input);
              && (|parts| == 3 || |parts| == 4)
              && c.name == parts[0] && c.num1 == parts[1] && c.num2 == parts[2]
              && (c.isolated <==> |parts| == 4 && Lower(parts[3]) == "mp")
  {
  }

  /** The usage is printed only for a line that is not three or four tokens. */
  lemma DispatchCalculationUsage(input: string)
    ensures Dispatch(input).CalculationUsage? ==> |Split(input)| != 3 && |Split(input)| != 4
  {
  }

  /** One line as typed: `input().strip()`, then the dispatch. */
  function Classify(line: string): ReplCommand {
    Dispatch(Strip(line))
  }

  /** Whitespace around a line never changes what it asks for. */
  lemma ClassifyIgnoresSurroundingSpace(line: string)
    ensures Classify(Strip(line)) == Classify(line)
  {
    StripIdempotent(line);
  }

  predicate NoSpace(s: string) {
    forall i :: 0 <= i < |s| ==> !IsSpace(s[i])
  }

  /** A string with a space in it is not a word that has none, nor its lower case. */
  lemma SpaceRulesOut(s: string, j: nat, kw: string)
    requires j < |s| && s[j] == ' ' && NoSpace(kw)
    ensures s != kw && Lower(s) != kw
  {
    assert Lower(s)[j] == ' ';
  }

  /** A string with a space at `j` starts with a word that has none only if its first `j` characters do. */
  lemma SpaceRulesOutPrefix(s: string, j: nat, kw: string)
    requires j < |s| && s[j] == ' ' && NoSpace(kw)
    requires j >= |kw| ==> !StartsWith(s[..j], kw)
    ensures !StartsWith(s, kw)
  {
    if j >= |kw| {
      assert s[..j][..|kw|] == s[..|kw|];
    }
  }

  /** What a line that is none of the keywords and starts with none of the prefixes asks for. */
  lemma DispatchOther(input: string)
    requires NoExactKeyword(input)
    requires !StartsWith(input, SaveKeyword) && !StartsWith(input, LoadKeyword)
    requires !StartsWith(input, DeleteKeyword) && !StartsWith(input, FilterKeyword)
    ensures var parts := Split(input);
            Dispatch(input) == if |parts| != 3 && |parts| != 4 then CalculationUsage
                               else Calculate(parts[0], parts[1], parts[2], |parts| == 4 && Lower(parts[3]) == "mp")
  {
  }

  /** A space after a word that begins with no keyword leaves the line no keyword and beginning with none. */
  lemma SpacedLineNoKeyword(line: string, j: nat)
    requires j < |line| && line[j] == ' '
    requires !StartsWith(line[..j], SaveKeyword) && !StartsWith(line[..j], LoadKeyword)
    requires !StartsWith(line[..j], DeleteKeyword) && !StartsWith(line[..j], FilterKeyword)
    ensures NoExactKeyword(line)
    ensures !StartsWith(line, SaveKeyword) && !StartsWith(line, LoadKeyword)
    ensures !StartsWith(line, DeleteKeyword) && !StartsWith(line, FilterKeyword)
  {
    SpacedLineNoExactKeyword(line, j);
    SpaceRulesOutPrefix(line, j, SaveKeyword);
    SpaceRulesOutPrefix(line, j, LoadKeyword);
    SpaceRulesOutPrefix(line, j, DeleteKeyword);
    SpaceRulesOutPrefix(line, j, FilterKeyword);
  }

  /**
   * Words joined by spaces, the first of which does not begin with a
   * keyword, are no keyword and begin with none.
   */
  lemma WordsLineNoKeyword(ws: seq<string>)
    requires |ws| >= 2
    requires !StartsWith(ws[0], SaveKeyword) && !StartsWith(ws[0], LoadKeyword)
    requires !StartsWith(ws[0], DeleteKeyword) && !StartsWith(ws[0], FilterKeyword)
    ensures NoExactKeyword(JoinSpace(ws))
    ensures !StartsWith(JoinSpace(ws), SaveKeyword) && !StartsWith(JoinSpace(ws), LoadKeyword)
    ensures !StartsWith(JoinSpace(ws), DeleteKeyword) && !StartsWith(JoinSpace(ws), FilterKeyword)
  {
    var line := JoinSpace(ws);
    JoinSpaceAfterFirst(ws);
    assert line[..|ws[0]|] == ws[0];
    SpacedLineNoKeyword(line, |ws[0]|);
  }

  /** Words joined by spaces are what `strip()` leaves of them. */
  lemma WordsLineTrimmed(ws: seq<string>)
    requires ws != []
    requires forall k :: 0 <= k < |ws| ==> IsWord(ws[k])
    ensures Strip(JoinSpace(ws)) == JoinSpace(ws)
  {
    JoinNonEmptyStart(ws);
    JoinNonEmptyEnd(ws);
    StripOfTrimmed(JoinSpace(ws));
  }

  /**
   * A line of three or four words whose first word does not begin with a
   * keyword is a calculation; it runs in a worker exactly when there is a
   * fourth word that lowercases to "mp".
   */
  lemma CalculationLine(ws: seq<string>)
    requires |ws| == 3 || |ws| == 4
    requires forall k :: 0 <= k < |ws| ==> IsWord(ws[k])
    requires !StartsWith(ws[0], SaveKeyword) && !StartsWith(ws[0], LoadKeyword)
    requires !StartsWith(ws[0], DeleteKeyword) && !StartsWith(ws[0], FilterKeyword)
    ensures Classify(JoinSpace(ws)) == Calculate(ws[0], ws[1], ws[2], |ws| == 4 && Lower(ws[3]) == "mp")
  {
    WordsLineTrimmed(ws);
    WordsLineNoKeyword(ws);
    SplitJoinSpace(ws);
    DispatchOther(JoinSpace(ws));
  }

  /** None of the exact keywords that come before the prefixes. */
  predicate NoExactKeyword(input: string) {
    Lower(input) != "exit" && input != "menu" && input != "history"
    && input != "clear_history" && input != "latest"
  }

  /** A line with a space in it is none of the exact keywords. */
  lemma SpacedLineNoExactKeyword(line: string, j: nat)
    requires j < |line| && line[j] == ' '
    ensures NoExactKeyword(line)
  {
    SpaceRulesOut(line, j, "exit");
    SpaceRulesOut(line, j, "menu");
    SpaceRulesOut(line, j, "history");
    SpaceRulesOut(line, j, "clear_history");
    SpaceRulesOut(line, j, "latest");
  }

  /** A line that differs from a keyword in its first character does not start with it. */
  lemma FirstCharRulesOut(line: string, kw: string)
    requires line != [] && kw != [] && line[0] != kw[0]
    ensures !StartsWith(line, kw)
  {
    if |kw| <= |line| {
      assert line[..|kw|][0] == line[0];
    }
  }

  /** A save line with an argument saves to it. */
  lemma DispatchSave(input: string, arg: string)
    requires NoExactKeyword(input) && StartsWith(input, SaveKeyword) && Argument(input) == Some(arg)
    ensures Dispatch(input) == SaveHistory(arg)
  {
  }

  /** A load line with an argument loads from it. */
  lemma DispatchLoad(input: string, arg: string)
    requires NoExactKeyword(input) && !StartsWith(input, SaveKeyword)
    requires StartsWith(input, LoadKeyword) && Argument(input) == Some(arg)
    ensures Dispatch(input) == LoadHistory(arg)
  {
  }

  /** A delete line with an argument deletes the record it parses to, or prints the usage. */
  lemma DispatchDelete(input: string, arg: string)
    requires NoExactKeyword(input) && !StartsWith(input, SaveKeyword) && !StartsWith(input, LoadKeyword)
    requires StartsWith(input, DeleteKeyword) && Argument(input) == Some(arg)
    ensures Numerals.ParseInt(arg).Some? ==> Dispatch(input) == DeleteHistory(Numerals.ParseInt(arg).value)
    ensures Numerals.ParseInt(arg).None? ==> Dispatch(input) == DeleteUsage
  {
  }

  /** A filter line with an argument raises. */
  lemma DispatchFilter(input: string, arg: string)
    requires NoExactKeyword(input) && !StartsWith(input, SaveKeyword) && !StartsWith(input, LoadKeyword)
    requires !StartsWith(input, DeleteKeyword) && StartsWith(input, FilterKeyword) && Argument(input) == Some(arg)
    ensures Dispatch(input) == Unsupported
  {
  }

  /**
   * `keyword argument`, with an argument that neither starts nor ends with
   * whitespace: stripping keeps it, it starts with the keyword, and its
   * argument is `arg`.
   */
  lemma KeywordLine(kw: string, arg: string)
    requires IsWord(kw) && arg != [] && !IsSpace(arg[0]) && !IsSpace(arg[|arg| - 1])
    ensures Strip(kw + " " + arg) == kw + " " + arg
    ensures StartsWith(kw + " " + arg, kw)
    ensures Argument(kw + " " + arg) == Some(arg)
    ensures NoExactKeyword(kw + " " + arg)
  {
    var line := kw + " " + arg;
    assert line[0] == kw[0] && line[|line| - 1] == arg[|arg| - 1];
    StripOfTrimmed(line);
    assert line[..|kw|] == kw;
    SplitOnceOfWordThen(kw, arg);
    assert line[|kw|] == ' ';
    SpacedLineNoExactKeyword(line, |kw|);
  }

  /** `save_history path` saves to `path`. */
  lemma SaveLine(path: string)
    requires path != [] && !IsSpace(path[0]) && !IsSpace(path[|path| - 1])
    ensures Classify(SaveKeyword + " " + path) == SaveHistory(path)
  {
    KeywordLine(SaveKeyword, path);
    DispatchSave(SaveKeyword + " " + path, path);
  }

  /** `load_history path` loads from `path`, when the file exists. */
  lemma LoadLine(path: string)
    requires path != [] && !IsSpace(path[0]) && !IsSpace(path[|path| - 1])
    ensures Classify(LoadKeyword + " " + path) == LoadHistory(path)
  {
    var line := LoadKeyword + " " + path;
    KeywordLine(LoadKeyword, path);
    FirstCharRulesOut(line, SaveKeyword);
    DispatchLoad(line, path);
  }

  /** `delete_history n` asks to delete record `n`, negative or not. */
  lemma DeleteLine(n: int)
    ensures Classify(DeleteKeyword + " " + Numerals.IntToString(n)) == DeleteHistory(n)
  {
    var digits := Numerals.IntToString(n);
    var line := DeleteKeyword + " " + digits;
    KeywordLine(DeleteKeyword, digits);
    Numerals.ParseIntOfIntToString(n);
    FirstCharRulesOut(line, SaveKeyword);
    FirstCharRulesOut(line, LoadKeyword);
    DispatchDelete(line, digits);
  }

  /** `delete_history` followed by something that is not an integer prints the usage. */
  lemma DeleteLineNotInteger(arg: string)
    requires arg != [] && !IsSpace(arg[0]) && !IsSpace(arg[|arg| - 1])
    requires Numerals.ParseInt(arg).None?
    ensures Classify(DeleteKeyword + " " + arg) == DeleteUsage
  {
    var line := DeleteKeyword + " " + arg;
    KeywordLine(DeleteKeyword, arg);
    FirstCharRulesOut(line, SaveKeyword);
    FirstCharRulesOut(line, LoadKeyword);
    DispatchDelete(line, arg);
  }

  /**
   * `filter_with_operation op` calls a method the history class does not
   * have, and the error it raises ends the REPL.
   */
  lemma FilterLineRaises(op: string)
    requires op != [] && !IsSpace(op[0]) && !IsSpace(op[|op| - 1])
    ensures Classify(FilterKeyword + " " + op) == Unsupported
  {
    var line := FilterKeyword + " " + op;
    KeywordLine(FilterKeyword, op);
    FirstCharRulesOut(line, SaveKeyword);
    FirstCharRulesOut(line, LoadKeyword);
    FirstCharRulesOut(line, DeleteKeyword);
    DispatchFilter(line, op);
  }

  /** The lines that end the REPL: "exit", and the ones that raise. */
  predicate EndsRepl(c: ReplCommand) {
    c.Exit? || c.Unsupported?
  }

  /** What the REPL's lines act on: the table's columns and records, and the saved files. */
  datatype Session = Session(columns: seq<string>, history: seq<Record>, files: map<string, CsvFile>)

  function SessionOf(calcs: Calculations, fs: FileSystem): Session
    reads calcs, calcs.historyFacade, fs
  {
    Session(calcs.historyFacade.columns, calcs.GetAllCalculations(), fs.files)
  }

  /**
   * What a line that does not end the REPL does to the session: clear,
   * save, load, delete and calculate act as their branches do, and the
   * display and usage lines change nothing.
   */
  function Apply(command: ReplCommand, commands: Registry, s: Session): Session {
    match command
    case ClearHistory => s.(history := [])
    case SaveHistory(path) => s.(files := s.files[path := CsvFile(s.columns, s.history)])
    case LoadHistory(path) =>
      if path in s.files then s.(columns := s.files[path].header, history := s.files[path].rows) else s
    case DeleteHistory(index) =>
      if 0 <= index < |s.history| then s.(history := s.history[..index] + s.history[index + 1..]) else s
    case Calculate(name, num1, num2, _) => s.(history := s.history + Added(num1, num2, name, commands))
    case _ => s
  }

  /** The session after the given commands, applied in order. */
  function ApplyAll(cs: seq<ReplCommand>, commands: Registry, s: Session): Session {
    if cs == [] then s else Apply(cs[|cs| - 1], commands, ApplyAll(cs[..|cs| - 1], commands, s))
  }

  /** Only save lines write files: commands without one leave the files as they were. */
  lemma {:induction false} FilesOnlyBySave(cs: seq<ReplCommand>, commands: Registry, s: Session)
    requires forall j :: 0 <= j < |cs| ==> !cs[j].SaveHistory?
    ensures ApplyAll(cs, commands, s).files == s.files
  {
    if cs != [] {
      FilesOnlyBySave(cs[..|cs| - 1], commands, s);
    }
  }

  /** Without a clear, load or delete line the history only grows: the old records stay first, in order. */
  lemma {:induction false} HistoryOnlyGrows(cs: seq<ReplCommand>, commands: Registry, s: Session)
    requires forall j :: 0 <= j < |cs| ==> !cs[j].ClearHistory? && !cs[j].LoadHistory? && !cs[j].DeleteHistory?
    ensures |s.history| <= |ApplyAll(cs, commands, s).history|
    ensures ApplyAll(cs, commands, s).history[..|s.history|] == s.history
  {
    if cs != [] {
      var before := ApplyAll(cs[..|cs| - 1], commands, s);
      HistoryOnlyGrows(cs[..|cs| - 1], commands, s);
      var after := Apply(cs[|cs| - 1], commands, before);
      assert after.history[..|before.history|] == before.history;
      assert after.history[..|s.history|] == before.history[..|s.history|];
    }
  }

  /**
   * One REPL command that does not end the loop, and what it does to the
   * history and the files: only a save writes a file, and only a clear, a
   * load of an existing file, a valid delete or a calculation of a registered
   * command changes the history.
   */
  method Perform(command: ReplCommand, commands: Registry, calcs: Calculations, fs: FileSystem)
    requires calcs.Valid() && !EndsRepl(command)
    modifies calcs.historyFacade, fs
    ensures calcs.Valid()
    ensures command.SaveHistory? ==>
              fs.files == old(fs.files)[command.path := CsvFile(old(calcs.historyFacade.columns),
                                                                old(calcs.GetAllCalculations()))]
    ensures !command.SaveHistory? ==> fs.files == old(fs.files)
    ensures command.ClearHistory? ==> calcs.GetAllCalculations() == []
    ensures command.LoadHistory? ==>
              if command.path in old(fs.files) then calcs.GetAllCalculations() == old(fs.files)[command.path].rows
              else calcs.GetAllCalculations() == old(calcs.GetAllCalculations())
    ensures command.DeleteHistory? ==>
              var before := old(calcs.GetAllCalculations());
              if 0 <= command.index < |before| then
                calcs.GetAllCalculations() == before[..command.index] + before[command.index + 1..]
              else calcs.GetAllCalculations() == before
    ensures command.Calculate? && command.name !in commands.commands ==>
              calcs.GetAllCalculations() == old(calcs.GetAllCalculations())
    ensures command.Calculate? ==>
              calcs.GetAllCalculations() == old(calcs.GetAllCalculations()) + Added(command.num1, command.num2, command.name, commands)
    ensures command.ShowMenu? || command.ShowHistory? || command.SaveHistory? || command.DeleteUsage?
            || command.FilterUsage? || command.CalculationUsage? ==>
              calcs.GetAllCalculations() == old(calcs.GetAllCalculations())
    ensures SessionOf(calcs, fs) == Apply(command, commands, old(SessionOf(calcs, fs)))
  {
    match command {
      case ShowMenu =>
      case ShowHistory =>
      case ClearHistory =>
        calcs.ClearHistory();
      case SaveHistory(path) =>
        calcs.SaveHistory(path, fs);
      case LoadHistory(path) =>
        if path in fs.files {
          var loaded := calcs.LoadHistory(path, fs);
        }
      case DeleteHistory(index) =>
        var report := calcs.DeleteHistory(index);
      case DeleteUsage =>
      case FilterUsage =>
      case CalculationUsage =>
      case Calculate(name, num1, num2, isolated) =>
        if name in commands.commands {
          var outcome := ProcessCalculationAndOutput(num1, num2, name, commands, isolated, calcs);
        }
    }
  }

  /** What each line asks for, in order. */
  function ClassifyAll(lines: seq<string>): (cs: seq<ReplCommand>)
    ensures |cs| == |lines|
  {
    if lines == [] then [] else ClassifyAll(lines[..|lines| - 1]) + [Classify(lines[|lines| - 1])]
  }

  lemma {:induction false} ClassifyAllIndex(lines: seq<string>, i: nat)
    requires i < |lines|
    ensures ClassifyAll(lines)[i] == Classify(lines[i])
  {
    if i < |lines| - 1 {
      ClassifyAllIndex(lines[..|lines| - 1], i);
    }
  }

  /** One turn of the REPL loop: the line is classified and acted on unless it ends the loop. */
  method Step(lines: seq<string>, i: nat, commands: Registry, calcs: Calculations, fs: FileSystem, ghost start: Session)
    returns (command: ReplCommand)
    requires i < |lines| && calcs.Valid()
    requires SessionOf(calcs, fs) == ApplyAll(ClassifyAll(lines)[..i], commands, start)
    modifies calcs.historyFacade, fs
    ensures calcs.Valid()
    ensures command == ClassifyAll(lines)[i]
    ensures EndsRepl(command) ==> calcs.GetAllCalculations() == old(calcs.GetAllCalculations())
    ensures EndsRepl(command) ==> fs.files == old(fs.files)
    ensures !EndsRepl(command) ==> SessionOf(calcs, fs) == Apply(command, commands, old(SessionOf(calcs, fs)))
    ensures SessionOf(calcs, fs) == ApplyAll(ClassifyAll(lines)[..if EndsRepl(command) then i else i + 1], commands, start)
  {
    command := Classify(lines[i]);
    ClassifyAllIndex(lines, i);
    if !EndsRepl(command) {
      Perform(command, commands, calcs, fs);
      ghost var cs := ClassifyAll(lines);
      assert cs[..i + 1][..i] == cs[..i];
    }
  }

  /** How the REPL loop stopped. */
  datatype ReplEnd = ExitRequested | Raised | InputExhausted

  /**
   * `start_repl` over the lines the user types: each line is classified and
   * acted on until "exit", a line that raises, or the end of the input.
   */
  method StartRepl(lines: seq<string>, commands: Registry, calcs: Calculations, fs: FileSystem)
    returns (consumed: nat, end: ReplEnd)
    requires calcs.Valid()
    modifies calcs.historyFacade, fs
    ensures calcs.Valid()
    ensures consumed <= |lines|
    ensures end == InputExhausted <==> forall j :: 0 <= j < |lines| ==> !EndsRepl(ClassifyAll(lines)[j])
    ensures end == InputExhausted ==> consumed == |lines|
    ensures end != InputExhausted ==>
              && 0 < consumed
              && (forall j :: 0 <= j < consumed - 1 ==> !EndsRepl(ClassifyAll(lines)[j]))
              && (end == ExitRequested <==> ClassifyAll(lines)[consumed - 1].Exit?)
              && (end == Raised <==> ClassifyAll(lines)[consumed - 1].Unsupported?)
    ensures SessionOf(calcs, fs)
              == ApplyAll(ClassifyAll(lines)[..if end == InputExhausted then consumed else consumed - 1],
                          commands, old(SessionOf(calcs, fs)))
  {
    ghost var start := SessionOf(calcs, fs);
    ghost var cs := ClassifyAll(lines);
    consumed := 0;
    end := InputExhausted;
    while consumed < |lines|
      invariant 0 <= consumed <= |lines|
      invariant calcs.Valid()
      invariant forall j :: 0 <= j < consumed ==> !EndsRepl(cs[j])
      invariant SessionOf(calcs, fs) == ApplyAll(cs[..consumed], commands, start)
    {
      var command := Step(lines, consumed, commands, calcs, fs, start);
      consumed := consumed + 1;
      if command.Exit? {
        end := ExitRequested;
        break;
      } else if command.Unsupported? {
        end := Raised;
        break;
      }
    }
    if end == InputExhausted {
      assert cs[..consumed] == cs;
    }
  }

  /**
   * `start_repl` as `main` calls it: the session ends up as the lines before
   * the first one that ends the REPL (all of them, if none does), applied in order.
   */
  method RunRepl(lines: seq<string>, commands: Registry, calcs: Calculations, fs: FileSystem)
    requires calcs.Valid()
    modifies calcs.historyFacade, fs
    ensures calcs.Valid()
    ensures exists n :: && 0 <= n <= |lines|
                        && (forall j :: 0 <= j < n ==> !EndsRepl(ClassifyAll(lines)[j]))
                        && (n < |lines| ==> EndsRepl(ClassifyAll(lines)[n]))
                        && SessionOf(calcs, fs) == ApplyAll(ClassifyAll(lines)[..n], commands, old(SessionOf(calcs, fs)))
  {
    var consumed, end := StartRepl(lines, commands, calcs, fs);
    ghost var n := if end == InputExhausted then consumed else consumed - 1;
    assert 0 <= n <= |lines|;
  }

  /** What `main` does with the argument vector (`argv[0]` is the program). */
  datatype CliAction =
    | StartReplAction
    | RunCalculation(num1: string, num2: string, operation: string, parallel: bool)
    | PrintUsage

  /**
   * `main`'s dispatch: two arguments with "repl" in any case start the REPL;
   * four run the calculation directly; five run it in a worker exactly when
   * the flag lowercases to "mp"; anything else prints the usage.
   */
  function DispatchArgv(argv: seq<string>): (a: CliAction)
    ensures a.StartReplAction? <==> |argv| == 2 && Lower(argv[1]) == "repl"
    ensures a.RunCalculation? <==> |argv| == 4 || |argv| == 5
    ensures a.RunCalculation? ==> a.num1 == argv[1] && a.num2 == argv[2] && a.operation == argv[3]
    ensures a.RunCalculation? ==> (a.parallel <==> |argv| == 5 && Lower(argv[4]) == "mp")
  {
    if |argv| == 2 && Lower(argv[1]) == "repl" then StartReplAction
    else if |argv| == 4 then RunCalculation(argv[1], argv[2], argv[3], false)
    else if |argv| == 5 then RunCalculation(argv[1], argv[2], argv[3], Lower(argv[4]) == "mp")
    else PrintUsage
  }

  /**
   * `main`: discover the plugins, then act on the argument vector. Only a
   * calculation or the REPL can touch the history or the files.
   */
  method RunMain(argv: seq<string>, pluginDirExists: bool, listing: seq<string>,
                 modules: map<string, map<string, Command>>, lines: seq<string>,
                 calcs: Calculations, fs: FileSystem)
    returns (registry: Registry, action: CliAction, outcome: Option<EngineOutcome>)
    requires calcs.Valid()
    modifies calcs.historyFacade, fs
    ensures calcs.Valid()
    ensures action == DispatchArgv(argv)
    ensures !pluginDirExists ==> registry == EmptyRegistry
    ensures outcome.Some? <==> action.RunCalculation?
    ensures !action.StartReplAction? ==> fs.files == old(fs.files)
    ensures action.PrintUsage? ==> calcs.GetAllCalculations() == old(calcs.GetAllCalculations())
    ensures outcome.Some? && !outcome.value.Recorded? ==>
              calcs.GetAllCalculations() == old(calcs.GetAllCalculations())
    ensures outcome.Some? && outcome.value.Recorded? ==>
              |calcs.GetAllCalculations()| == |old(calcs.GetAllCalculations())| + 1
    ensures pluginDirExists ==> forall k :: k in registry.commands <==> k in LoadedKeys(Loads(listing, modules))
    ensures pluginDirExists ==> forall i :: 0 <= i < |listing| && LoadPlugin(listing[i], modules).Loaded? ==>
              && LoadPlugin(listing[i], modules).key in registry.commands
              && registry.commands[LoadPlugin(listing[i], modules).key] == LoadPlugin(listing[i], modules).command
    ensures pluginDirExists && Distinct(listing) ==> registry.names == LoadedKeys(Loads(listing, modules))
    ensures action.RunCalculation? ==>
              && outcome == Some(Outcome(action.num1, action.num2, action.operation, registry))
              && calcs.GetAllCalculations()
                   == old(calcs.GetAllCalculations()) + Added(action.num1, action.num2, action.operation, registry)
    ensures action.StartReplAction? ==>
              exists n :: && 0 <= n <= |lines|
                          && (forall j :: 0 <= j < n ==> !EndsRepl(ClassifyAll(lines)[j]))
                          && (n < |lines| ==> EndsRepl(ClassifyAll(lines)[n]))
                          && SessionOf(calcs, fs) == ApplyAll(ClassifyAll(lines)[..n], registry, old(SessionOf(calcs, fs)))
  {
    registry := DiscoverPlugins(pluginDirExists, listing, modules);
    action := DispatchArgv(argv);
    outcome := None;
    match action {
      case StartReplAction =>
        RunRepl(lines, registry, calcs, fs);
      case RunCalculation(num1, num2, operation, parallel) =>
        var result := ProcessCalculationAndOutput(num1, num2, operation, registry, parallel, calcs);
        outcome := Some(result);
      case PrintUsage =>
    }
  }
}
