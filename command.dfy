/**
 * The command interface of app/command.py and its plugin variants. A plugin
 * is a value of `Command`; `OperationName` is its `operation_name` attribute,
 * `Execute` its `execute` method, and `ExecuteMultiprocessing` its
 * `execute_multiprocessing` method, which posts the outcome on a result queue.
 */
module Commands {
  import Operations
  import Plugins

  type Payload = Operations.Payload

  datatype Command = AddCommand | SubtractCommand | MultiplyCommand | DivideCommand
                   | MeanCommand | StandardDeviationCommand
  {
    function OperationName(): string {
      match this
      case AddCommand => "add"
      case SubtractCommand => "subtract"
      case MultiplyCommand => "multiply"
      case DivideCommand => "divide"
      case MeanCommand => "mean"
      case StandardDeviationCommand => "standard_deviation"
    }

    /** `execute(num1, num2)`: a value, or the error it raises (`Err`). */
    function Execute(num1: real, num2: real): (r: Payload)
      ensures r.Err? <==> this == DivideCommand && num2 == 0.0
      ensures r.Err? ==> r.msg == Operations.DivisionByZeroMessage
      ensures this == AddCommand ==> r == Operations.Ok(num1 + num2)
      ensures this == SubtractCommand ==> r == Operations.Ok(num1 - num2)
      ensures this == MultiplyCommand ==> r == Operations.Ok(num1 * num2)
      ensures this == DivideCommand && r.Ok? ==> r.value * num2 == num1
      ensures this == MeanCommand ==> r == Operations.Ok((num1 + num2) / 2.0)
      ensures this == StandardDeviationCommand ==>
                (r.Ok? && r.value >= 0.0 && r.value * r.value == Plugins.Variance(num1, num2))
    {
      match this
      case AddCommand => Operations.Ok(Operations.Add(num1, num2))
      case SubtractCommand => Operations.Ok(Operations.Subtract(num1, num2))
      case MultiplyCommand => Operations.Ok(Operations.Multiply(num1, num2))
      case DivideCommand => Operations.Divide(num1, num2)
      case MeanCommand => Operations.Ok(Plugins.Mean(num1, num2))
      case StandardDeviationCommand => Operations.Ok(Plugins.StandardDeviation(num1, num2))
    }
  }

  /** Every plugin has its own operation name. */
  lemma OperationNamesDistinct(c: Command, d: Command)
    ensures c.OperationName() == d.OperationName() <==> c == d
  {
  }

  /** The mean plugin is symmetric in its operands and never fails. */
  lemma MeanSymmetric(a: real, b: real)
    ensures MeanCommand.Execute(a, b) == MeanCommand.Execute(b, a)
    ensures MeanCommand.Execute(a, b).Ok?
  {
  }

  /**
   * The one-shot channel of the isolated execution path. The worker only
   * posts; the parent asks whether anything was posted and takes it.
   */
  class ResultQueue {
    var items: seq<Payload>

    constructor ()
      ensures items == []
    {
      items := [];
    }

    /** `queue.put(x)`. */
    method Put(x: Payload)
      modifies this
      ensures items == old(items) + [x]
    {
      items := items + [x];
    }

    /** `queue.empty()`. */
    function IsEmpty(): bool
      reads this
    {
      items == []
    }

    /** `queue.get()`, which the caller guards with `empty()`. */
    method Get() returns (x: Payload)
      requires items != []
      modifies this
      ensures x == old(items)[0] && items == old(items)[1..]
    {
      x := items[0];
      items := items[1..];
    }
  }

  /**
   * `execute_multiprocessing(num1, num2, queue)`: the worker's body. It posts
   * exactly one payload, the outcome of `execute`, failures included.
   */
  method ExecuteMultiprocessing(command: Command, num1: real, num2: real, queue: ResultQueue)
    modifies queue
    ensures queue.items == old(queue.items) + [command.Execute(num1, num2)]
  {
    var result := command.Execute(num1, num2);
    queue.Put(result);
  }
}
