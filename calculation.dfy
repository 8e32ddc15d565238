/** One calculation: two operands bound to a command, and the result once computed. */
module Calc {
  import opened Wrappers
  import Operations
  import opened Commands

  class Calculation {
    var operand1: real
    var operand2: real
    var operation: Command
    /** `None` until `Operate` succeeds. */
    var result: Option<real>

    constructor (operand1: real, operand2: real, operation: Command)
      ensures this.operand1 == operand1 && this.operand2 == operand2
      ensures this.operation == operation
      ensures result == None
    {
      this.operand1 := operand1;
      this.operand2 := operand2;
      this.operation := operation;
      result := None;
    }

    /**
     * `operate()`: runs the bound command on the operands. On success the
     * value is stored and returned; when the command raises, the error is
     * returned and `result` keeps its previous value.
     */
    method Operate() returns (r: Payload)
      modifies this
      ensures r == operation.Execute(operand1, operand2)
      ensures r.Ok? ==> result == Some(r.value)
      ensures r.Err? ==> result == old(result)
      ensures operand1 == old(operand1) && operand2 == old(operand2)
      ensures operation == old(operation)
    {
      r := operation.Execute(operand1, operand2);
      if r.Ok? {
        result := Some(r.value);
      }
    }
  }
}
