/** The error-handling lesson: divide raises ValueError on a zero divisor, square_root
    raises the custom NegativeNumberError on a negative argument, and `except` clauses
    catch by class. Only the guards are modelled; the floating-point results are not, so
    a call that passes its guard returns the unit value. */
module ErrorHandling {
  import opened Exceptions

  /** divide(a, b) */
  function Divide(a: int, b: int): (r: Outcome<()>)
    ensures r.Raise? <==> b == 0
    ensures r.Raise? ==> r.exception == Raised(ValueError, "Cannot divide by zero!")
  {
    if b == 0 then Raise(Raised(ValueError, "Cannot divide by zero!")) else Return(())
  }

  /** square_root(number) */
  function SquareRoot(number: int): (r: Outcome<()>)
    ensures r.Raise? <==> number < 0
    ensures r.Raise? ==> r.exception == Raised(NegativeNumberError, "Cannot take the square root of a negative number.")
  {
    if number < 0 then Raise(Raised(NegativeNumberError, "Cannot take the square root of a negative number."))
    else Return(())
  }

  /** `try: call  except handler as e: print(e)`: the message printed by the handler, or
      None when the call returned or raised something the handler does not catch. */
  function HandledMessage<T>(call: Outcome<T>, handler: ExceptionClass): (m: Option<string>)
    ensures m.Some? <==> call.Raise? && Catches(handler, call.exception)
    ensures m.Some? ==> m.value == call.exception.message
  {
    if call.Raise? && Catches(handler, call.exception) then Some(call.exception.message) else None
  }

  datatype Option<+T> = None | Some(value: T)

  /** The two failures are of distinct kinds: `except ValueError` catches divide's failure
      and not square_root's, `except NegativeNumberError` the other way round, and both are
      subclasses of Exception, so `except Exception` catches either. */
  lemma FailuresAreDistinct(a: int, b: int, number: int)
    requires b == 0 && number < 0
    ensures HandledMessage(Divide(a, b), ValueError) == Some("Cannot divide by zero!")
    ensures HandledMessage(Divide(a, b), NegativeNumberError) == None
    ensures HandledMessage(SquareRoot(number), NegativeNumberError)
      == Some("Cannot take the square root of a negative number.")
    ensures HandledMessage(SquareRoot(number), ValueError) == None
    ensures HandledMessage(Divide(a, b), Exception).Some?
    ensures HandledMessage(SquareRoot(number), Exception).Some?
  {
    EverythingIsBaseException(ValueError);
    EverythingIsBaseException(NegativeNumberError);
  }

  /** The lesson's traces: divide(10, 0) and square_root(-4) are caught with their
      messages; divide(10, 2), square_root(0) and square_root(4) return normally. */
  lemma ErrorHandlingTrace()
    ensures HandledMessage(Divide(10, 0), ValueError) == Some("Cannot divide by zero!")
    ensures HandledMessage(SquareRoot(-4), NegativeNumberError)
      == Some("Cannot take the square root of a negative number.")
    ensures Divide(10, 2).Return? && SquareRoot(0).Return? && SquareRoot(4).Return?
  {
    FailuresAreDistinct(10, 0, -4);
  }
}
