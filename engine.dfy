/**
 * The synchronous and isolated execution path of main.py
 * (`process_calculation_and_output`): parse, look up, execute, record.
 */
module Engine {
  import opened Wrappers
  import Numerals
  import Operations
  import opened Commands
  import opened Discovery
  import opened History
  import opened CalcHistory
  import Calc

  /** What one request comes to; only `Recorded` adds to the history. */
  datatype EngineOutcome =
    | InvalidNumber
    | UnknownOperation(key: string)
    | Failed(message: string)
    | Recorded(result: real)

  /**
   * What a request comes to, whichever path runs it: both operands must parse,
   * the key must be registered, and then the command's own result decides.
   */
  function Outcome(operand1: string, operand2: string, operationKey: string, commands: Registry): EngineOutcome {
    var p1, p2 := Numerals.ParseDecimal(operand1), Numerals.ParseDecimal(operand2);
    if p1.None? || p2.None? then InvalidNumber
    else if operationKey !in commands.commands then UnknownOperation(operationKey)
    else
      match commands.commands[operationKey].Execute(p1.value, p2.value)
      case Ok(v) => Recorded(v)
      case Err(m) => Failed(m)
  }

  /** What a request adds to the history: one record when it is recorded, and nothing otherwise. */
  function Added(operand1: string, operand2: string, operationKey: string, commands: Registry): (r: seq<Record>)
    ensures |r| <= 1
    ensures r != [] <==> Outcome(operand1, operand2, operationKey, commands).Recorded?
  {
    match Outcome(operand1, operand2, operationKey, commands)
    case Recorded(v) =>
      [Record(commands.commands[operationKey].OperationName(), Numerals.ParseDecimal(operand1).value,
              Numerals.ParseDecimal(operand2).value, Some(v))]
    case _ => []
  }

  /**
   * `process_calculation_and_output`: both operands must parse as decimals
   * and the key must name a registered command. Then the command runs, in a
   * worker that posts its payload (`parallel`) or directly; the calculation
   * is built, run again by `operate()` and, if that succeeds, added to the
   * history. An error anywhere leaves the history as it was.
   */
  method ProcessCalculationAndOutput(operand1: string, operand2: string, operationKey: string,
                                     commands: Registry, parallel: bool, calcs: Calculations)
    returns (outcome: EngineOutcome)
    requires calcs.Valid()
    modifies calcs.historyFacade
    ensures calcs.Valid()
    ensures calcs.historyFacade.columns == old(calcs.historyFacade.columns)
    ensures var p1, p2 := Numerals.ParseDecimal(operand1), Numerals.ParseDecimal(operand2);
            if p1.None? || p2.None? then outcome == InvalidNumber
            else if operationKey !in commands.commands then outcome == UnknownOperation(operationKey)
            else
              var command := commands.commands[operationKey];
              match command.Execute(p1.value, p2.value)
              case Ok(v) =>
                outcome == Recorded(v)
                && calcs.GetAllCalculations() == old(calcs.GetAllCalculations())
                     + [Record(command.OperationName(), p1.value, p2.value, Some(v))]
              case Err(m) => outcome == Failed(m)
    ensures !outcome.Recorded? ==> calcs.GetAllCalculations() == old(calcs.GetAllCalculations())
    ensures outcome == Outcome(operand1, operand2, operationKey, commands)
    ensures calcs.GetAllCalculations() == old(calcs.GetAllCalculations()) + Added(operand1, operand2, operationKey, commands)
  {
    var p1 := Numerals.ParseDecimal(operand1);
    var p2 := Numerals.ParseDecimal(operand2);
    if p1.None? || p2.None? {
      return InvalidNumber;
    }
    var num1, num2 := p1.value, p2.value;
    if operationKey !in commands.commands {
      return UnknownOperation(operationKey);
    }
    var operation := commands.commands[operationKey];
    if parallel {
      var resultQueue := new ResultQueue();
      ExecuteMultiprocessing(operation, num1, num2, resultQueue);
      if !resultQueue.IsEmpty() {
        var posted := resultQueue.Get();
      }
    } else {
      var result := operation.Execute(num1, num2);
      if result.Err? {
        return Failed(result.msg);
      }
    }
    var calculation := new Calc.Calculation(num1, num2, operation);
    var calcResult := calculation.Operate();
    if calcResult.Err? {
      return Failed(calcResult.msg);
    }
    calcs.AddCalculation(calculation);
    outcome := Recorded(calcResult.value);
  }
}
