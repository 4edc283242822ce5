/**
 * Option and Result: the null-or-value and value-or-exception shapes that the
 * C# code expresses with nullable references and thrown exceptions.
 */
module Wrappers {
  datatype Option<+T> = None | Some(value: T)

  datatype Result<+T, +E> = Ok(value: T) | Err(error: E)
}

/**
 * The .NET exceptions the modelled code throws, as values. `message` is the
 * exception's `Message` property as .NET builds it.
 */
module Exceptions {
  datatype ExceptionKind =
    | InvalidOperation   // System.InvalidOperationException
    | Argument           // System.ArgumentException
    | DivideByZero       // System.DivideByZeroException
    | Format             // System.FormatException (Guid.Parse)

  datatype Thrown = Thrown(kind: ExceptionKind, message: string)

  function InvalidOperationException(message: string): Thrown
  {
    Thrown(InvalidOperation, message)
  }

  /** .NET appends the parameter name to an ArgumentException's message. */
  function ArgumentException(message: string, paramName: string): Thrown
  {
    Thrown(Argument, message + " (Parameter '" + paramName + "')")
  }
}

/** C#'s `int`: 32-bit two's complement, wrapping in unchecked arithmetic. */
module Int32s {
  const Modulus: int := 0x1_0000_0000
  const MinInt32: int := -0x8000_0000
  const MaxInt32: int := 0x7FFF_FFFF

  type Int32 = x: int | MinInt32 <= x <= MaxInt32

  /** The value an unchecked C# `int` expression yields for the exact result `x`. */
  function Wrap(x: int): (r: Int32)
    ensures MinInt32 <= x <= MaxInt32 ==> r == x
    ensures (x - r) % Modulus == 0
  {
    var k := (x - MinInt32) / Modulus;
    assert x - MinInt32 == k * Modulus + (x - MinInt32) % Modulus;
    ((x - MinInt32) % Modulus) + MinInt32
  }
}
