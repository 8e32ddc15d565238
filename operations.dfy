/**
 * The arithmetic of app/operations.py over exact decimals. A raised exception
 * is the `Err` payload, carrying the exception's message.
 */
module Operations {

  /** What an operation produces: a value, or the error it raises. */
  datatype Payload = Ok(value: real) | Err(msg: string)

  const DivisionByZeroMessage: string := "Division by zero is not allowed."

  function Add(x: real, y: real): real { x + y }

  function Subtract(x: real, y: real): real { x - y }

  function Multiply(x: real, y: real): real { x * y }

  /** Fails exactly on a zero divisor; otherwise the exact quotient. */
  function Divide(x: real, y: real): (r: Payload)
    ensures r.Err? <==> y == 0.0
    ensures r.Err? ==> r.msg == DivisionByZeroMessage
    ensures r.Ok? ==> r.value * y == x
  {
    if y == 0.0 then Err(DivisionByZeroMessage) else Ok(x / y)
  }

  /** Subtraction undoes addition. */
  lemma SubtractUndoesAdd(x: real, y: real)
    ensures Subtract(Add(x, y), y) == x
  {
  }

  /** Division undoes multiplication by a non-zero factor. */
  lemma DivideUndoesMultiply(x: real, y: real)
    requires y != 0.0
    ensures Divide(Multiply(x, y), y) == Ok(x)
  {
  }

  /** Addition and multiplication do not depend on the order of their operands. */
  lemma AddMultiplyCommute(x: real, y: real)
    ensures Add(x, y) == Add(y, x) && Multiply(x, y) == Multiply(y, x)
  {
  }
}
