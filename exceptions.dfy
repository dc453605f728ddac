/** The part of Python's exception machinery that the modelled code relies on: the
    exception classes it raises or catches, their subclass relation, and an outcome
    type for "the call returned a value" versus "the call raised an exception". */
module Exceptions {

  /** The exception classes raised or caught by the modelled code. NegativeNumberError
      is the user-defined subclass of Exception from the error-handling lesson. */
  datatype ExceptionClass =
    | BaseException
    | Exception
    | LookupError
    | ValueError
    | IndexError
    | StopIteration
    | NegativeNumberError

  /** The direct base class of every class but the root. */
  function Base(c: ExceptionClass): (b: ExceptionClass)
    requires c != BaseException
    ensures Depth(b) == Depth(c) - 1
  {
    match c
    case Exception => BaseException
    case LookupError => Exception
    case ValueError => Exception
    case IndexError => LookupError
    case StopIteration => Exception
    case NegativeNumberError => Exception
  }

  /** Distance from the root; it shrinks along Base. */
  function Depth(c: ExceptionClass): nat
  {
    match c
    case BaseException => 0
    case Exception => 1
    case LookupError => 2
    case ValueError => 2
    case IndexError => 3
    case StopIteration => 2
    case NegativeNumberError => 2
  }

  /** issubclass(c, d): d is c itself or reached from c by following base classes. A
      class is never a subclass of one further from the root, nor of another class at the
      same distance. */
  function IsSubclass(c: ExceptionClass, d: ExceptionClass): (r: bool)
    decreases Depth(c)
    ensures r ==> Depth(d) <= Depth(c)
    ensures r && Depth(d) == Depth(c) ==> c == d
  {
    c == d || (c != BaseException && IsSubclass(Base(c), d))
  }

  /** Every class descends from BaseException, and every class other than BaseException
      from Exception. */
  lemma {:induction false} EverythingIsBaseException(c: ExceptionClass)
    ensures IsSubclass(c, BaseException)
    ensures c != BaseException ==> IsSubclass(c, Exception)
    decreases Depth(c)
  {
    if c != BaseException {
      EverythingIsBaseException(Base(c));
    }
  }

  /** A raised exception: its class and the message passed to it. */
  datatype Raised = Raised(cls: ExceptionClass, message: string)

  /** What a call does: return a value or raise an exception. */
  datatype Outcome<+T> = Return(value: T) | Raise(exception: Raised)

  /** `except handler:` catches e exactly when e's class is a subclass of handler. A
      handler for e's own class catches it, `except BaseException` catches everything,
      and `except Exception` everything but BaseException itself. */
  function Catches(handler: ExceptionClass, e: Raised): (r: bool)
    ensures handler == e.cls ==> r
    ensures handler == BaseException ==> r
    ensures handler == Exception && e.cls != BaseException ==> r
  {
    EverythingIsBaseException(e.cls);
    IsSubclass(e.cls, handler)
  }
}
