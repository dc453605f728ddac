# Verified model of the Python tutorial's executable logic

This project models the parts of a Python tutorial repository that contain logic of their
own, and proves what the tutorial's comments and traces say about them:

- the user-defined protocol classes of the dunder-methods lesson:
  - `Vector` arithmetic;
  - `BitwiseExample` `&` and `|` on unbounded two's-complement integers;
  - `CustomList`, whose `__setitem__` and `__delitem__` change it in place;
  - the `Counter` iterator;
  - `Countdown.__reversed__`;
  - the `__eq__`/`__hash__` pairing on `Person`.
- the object-oriented lesson's `BankAccount`, with its overdraft guard, and the class
  variable `Dog.species` that the class method `change_species` reassigns;
- the functions lesson: `add`, `sum_all`, `square` and the mapped squaring lambda,
  `factorial`, `fibonacci`, and `log_decorator` with the two lines its wrapper logs;
- the error-handling lesson's `divide` and `square_root` guards and the two
  `except … as e: print(e)` handlers that catch them.
  These share a model of the Python exception classes involved and their subclass order;
- the two modules quoted in the modules lesson: `math_tools` and `string_tools.count_vowels`;
- the loops lesson:
  - `for … else` and `while … else` search;
  - breaking at a value;
  - filtering with `if` and with `continue`;
  - nested-loop enumeration;
- the conditionals lesson: the `if/elif/else` chain, the age conditions, nested grading,
  the ternary `is_adult` and the `match` on a status code.

Each source file is one Dafny module. `8_modules.py` is the exception: it quotes two
Python modules, so it becomes `MathTools` and `StringTools`. `Exceptions` is shared.

Modelling choices:

- **Output.** Console output becomes values:
  - what a loop prints becomes the sequence it emits;
  - the `else` branch of a loop becomes a flag;
  - "Insufficient funds!" becomes the returned flag of `Withdraw`.
- **Exceptions.** A function that may raise returns `Outcome`: `Return(value)` or
  `Raise(Raised(class, message))`. Its callers are not restricted by a precondition.
- **Integers.** Python integers are unbounded, and so is Dafny's `int`. The interpreter's
  recursion limit and its limit on converting long integers to text are not modelled
  (see "## Left out").
  - Python's `%` by 2 floors and Dafny's is Euclidean; for divisor 2 they agree. The same
    holds for `//` by 2, which the bitwise model uses.
  - `&` and `|` are defined on the infinite two's-complement representation. They are
    proved to act bit by bit.
- **State.** Pure code is functions over datatypes; code that changes state is imperative:
  - `CustomList`, `Counter`, `BankAccount` and the `Dog` class object are classes. Their
    methods carry `modifies` clauses;
  - `Person` is a class too, because `__eq__` and `__hash__` matter only for distinct
    objects. Its fields never change, so they are `const`;
  - the loops of the loops lesson are methods with loop invariants. The two searches are
    proved against membership of the target. The other loops are proved against a
    specification function (`PrefixBefore`, `Filter`, `Grid`).
- **Redefined classes.** `0_dundler_methods.py` defines `Vector` and `Person` more than
  once. The snippet at line 75 and the one at line 95 have no `__init__`, so the calls
  at lines 82 and 103 would fail if run literally. Each class is modelled as the union of
  its snippets, which is what the lesson evidently means.
  - `Vector` is lines 46-58 plus 75-80.
  - `Person` for hashing is lines 326-335.
  - The comparison snippet at lines 95-100 compares by age only. It is modelled
    separately (`AgeEquals`, `AgeLess`) on the same `Person` objects. That snippet defines
    `__eq__` without `__hash__`, so Python makes its instances unhashable. A method shows
    what would go wrong if they were hashed on `(name, age)` anyway: two persons equal by
    age would hash differently.

## Model

| member | source | states |
|---|---|---|
| `DunderMethods.Vector.Add` | python/advanced/oop/0_dundler_methods.py:51-52 | the zero vector is neutral on either side, and subtracting the second operand componentwise from the sum gives back the first |
| `DunderMethods.Vector.Sub` | python/advanced/oop/0_dundler_methods.py:54-55 | adding the subtrahend back to the difference gives the original vector |
| `DunderMethods.AddThenSub` | python/advanced/oop/0_dundler_methods.py:51-55 | `(v + w) - w == v` for all vectors |
| `DunderMethods.AddCommutes` | python/advanced/oop/0_dundler_methods.py:51-52 | componentwise `+` does not depend on operand order |
| `DunderMethods.Vector.Neg` | python/advanced/oop/0_dundler_methods.py:76-77 | `-v` is the additive inverse: `v + (-v)` is the zero vector |
| `DunderMethods.NegInvolutive` | python/advanced/oop/0_dundler_methods.py:76-77 | negating twice gives the original vector |
| `DunderMethods.Vector.Abs` | python/advanced/oop/0_dundler_methods.py:79-80 | both components of `abs(v)` are non-negative and equal the original components up to sign |
| `DunderMethods.AbsExample` | python/advanced/oop/0_dundler_methods.py:79-83 | `abs(Vector(2, -3)) == Vector(2, 3)`; `abs` leaves a non-negative vector alone and is idempotent |
| `DunderMethods.Bit` | python/advanced/oop/0_dundler_methods.py:130-131 | bit k of an integer in two's complement is 0 or 1 (the reading of the binary comments) |
| `DunderMethods.BitAnd` | python/advanced/oop/0_dundler_methods.py:121-122 | `a & b` is non-negative when either operand is, and negative exactly when both are |
| `DunderMethods.BitOr` | python/advanced/oop/0_dundler_methods.py:124-125 | the bitwise or is negative when either operand is, and non-negative when both are |
| `DunderMethods.AndIsBitwise` | python/advanced/oop/0_dundler_methods.py:121-122 | bit k of `a & b` is the conjunction of bit k of `a` and bit k of `b`, for every integer, negative ones included |
| `DunderMethods.OrIsBitwise` | python/advanced/oop/0_dundler_methods.py:124-125 | bit k of the bitwise or of `a` and `b` is the disjunction of the operands' bits k |
| `DunderMethods.AndBounded` | python/advanced/oop/0_dundler_methods.py:121-122 | for non-negative operands `a & b` is non-negative and exceeds neither operand |
| `DunderMethods.OrBounded` | python/advanced/oop/0_dundler_methods.py:124-125 | for non-negative operands the bitwise or is at least each operand and at most their sum |
| `DunderMethods.BitwiseExample.And` | python/advanced/oop/0_dundler_methods.py:121-122 | the new object's value agrees bit by bit with the conjunction of the two values |
| `DunderMethods.BitwiseExample.Or` | python/advanced/oop/0_dundler_methods.py:124-125 | the new object's value agrees bit by bit with the disjunction of the two values |
| `DunderMethods.BitwiseExampleTrace` | python/advanced/oop/0_dundler_methods.py:130-134 | `BitwiseExample(12) & BitwiseExample(6)` holds 4, and the bitwise or holds 14 |
| `DunderMethods.Resolve` | python/advanced/oop/0_dundler_methods.py:243-250 | a valid Python index (`-len <= index < len`) denotes a position below `len`, counting from the end when negative |
| `DunderMethods.CustomList.constructor` | python/advanced/oop/0_dundler_methods.py:237-238 | the list holds the given items |
| `DunderMethods.CustomList.Len` | python/advanced/oop/0_dundler_methods.py:240-241 | `len` is the number of items |
| `DunderMethods.CustomList.GetItem` | python/advanced/oop/0_dundler_methods.py:243-244 | returns the item at the resolved position, or raises IndexError "list index out of range" when the index is out of range |
| `DunderMethods.CustomList.SetItem` | python/advanced/oop/0_dundler_methods.py:246-247 | in place: the length is kept, the resolved position holds the value, every other position is unchanged; out of range it raises IndexError "list assignment index out of range" and changes nothing |
| `DunderMethods.CustomList.DelItem` | python/advanced/oop/0_dundler_methods.py:249-250 | in place: one item shorter, items before the position unchanged, later ones shifted down by one; out of range it raises IndexError and changes nothing |
| `DunderMethods.CustomListExample` | python/advanced/oop/0_dundler_methods.py:253-259 | `[10, 20, 30, 40]` has len 4 and `[2] == 30`; after `[1] = 99` and `del [0]`, `[0] == 99` |
| `DunderMethods.Yields` | python/advanced/oop/0_dundler_methods.py:298-303 | what a counter yields: `low, low + 1, …, high`, nothing when `low > high` |
| `DunderMethods.Counter.constructor` | python/advanced/oop/0_dundler_methods.py:291-293 | the counter starts at `low` and will yield `Yields(low, high)` |
| `DunderMethods.Counter.Iter` | python/advanced/oop/0_dundler_methods.py:295-296 | `iter` returns the counter itself |
| `DunderMethods.Counter.Next` | python/advanced/oop/0_dundler_methods.py:298-303 | past `high`, raises StopIteration and changes nothing, so every later call raises too; otherwise returns the current value and advances by one, i.e. yields the head of what remains |
| `DunderMethods.ForEach` | python/advanced/oop/0_dundler_methods.py:305-307 | a `for` loop over a counter collects exactly what it had left to yield, in order, and leaves it exhausted |
| `DunderMethods.CounterExample` | python/advanced/oop/0_dundler_methods.py:305-307 | `Counter(1, 5)` yields 1, 2, 3, 4, 5 |
| `DunderMethods.Descending` | python/advanced/oop/0_dundler_methods.py:316-317 | `range(start, 0, -1)` is `start, start - 1, …, 1`, empty when `start <= 0` |
| `DunderMethods.Countdown.Reversed` | python/advanced/oop/0_dundler_methods.py:316-317 | `reversed(Countdown(n))` counts down from `n` to 1 |
| `DunderMethods.Reverse` | python/advanced/oop/0_dundler_methods.py:316-320 | the reference reversal: same length, positions mirrored |
| `DunderMethods.CountdownReversesCounter` | python/advanced/oop/0_dundler_methods.py:316-320 | `reversed(Countdown(n))` is `Counter(1, n)`'s output backwards; `Countdown(5)` gives `[5, 4, 3, 2, 1]`; empty when `n <= 0` |
| `DunderMethods.Person.constructor` | python/advanced/oop/0_dundler_methods.py:327-329 | a new person object holds the given name and age |
| `DunderMethods.Person.Equals` | python/advanced/oop/0_dundler_methods.py:334-335 | `__eq__`: two persons are equal when both name and age agree (a predicate; its properties are in `EqualsIsEquivalence`) |
| `DunderMethods.Person.Hash` | python/advanced/oop/0_dundler_methods.py:331-332 | `__hash__`: the tuple hash applied to `(name, age)` (its property is in `EqualPersonsHashEqually`) |
| `DunderMethods.EqualPersonsHashEqually` | python/advanced/oop/0_dundler_methods.py:331-335 | persons equal on `(name, age)` have equal hashes, whatever the tuple hash |
| `DunderMethods.EqualsIsEquivalence` | python/advanced/oop/0_dundler_methods.py:334-335 | `__eq__` on `(name, age)` is reflexive, symmetric and transitive |
| `DunderMethods.HashExample` | python/advanced/oop/0_dundler_methods.py:337-339 | two distinct `Person("Alice", 30)` objects compare equal and hash alike |
| `DunderMethods.AgeLess` | python/advanced/oop/0_dundler_methods.py:99-100 | `__lt__` compares ages only (a predicate; its properties are in `AgeEquals` and `AgeComparison`) |
| `DunderMethods.AgeEquals` | python/advanced/oop/0_dundler_methods.py:96-97 | age-equal persons are ordered neither way by `<`, and persons of different ages are ordered one way |
| `DunderMethods.AgeComparison` | python/advanced/oop/0_dundler_methods.py:95-100 | age-only `<` and `==` form a strict total order: exactly one of `p < q`, `p == q`, `q < p` holds |
| `DunderMethods.AgeComparisonExample` | python/advanced/oop/0_dundler_methods.py:102-106 | Alice 30 against Bob 25 gives `==` False and `<` False |
| `DunderMethods.AgeOnlyEqualityBreaksHashing` | python/advanced/oop/0_dundler_methods.py:95-97 | hashing the age-only persons on `(name, age)` would break the pairing: Alice 30 and Bob 30 are `==` but some tuple hash tells them apart |
| `ObjectOriented.Apply` | python/basics/7_oop.py:150-157 | a deposit adds exactly its amount; a withdrawal above the balance leaves the balance unchanged, otherwise subtracts exactly its amount |
| `ObjectOriented.ApplyAll` | python/basics/7_oop.py:150-157 | non-negative deposits alone never lower the balance; non-negative withdrawals alone never raise it nor take a non-negative balance below 0 |
| `ObjectOriented.BalanceStaysNonNegative` | python/basics/7_oop.py:150-157 | with non-negative amounts, a non-negative balance stays non-negative across any sequence of deposits and withdrawals |
| `ObjectOriented.WithdrawWholeBalance` | python/basics/7_oop.py:153-157 | withdrawing the whole balance is allowed and leaves 0; one more is refused |
| `ObjectOriented.ApplyAllAppend` | python/basics/7_oop.py:150-157 | running two sequences of calls one after the other is running their concatenation |
| `ObjectOriented.BankAccount.constructor` | python/basics/7_oop.py:147-148 | the account starts with the given balance |
| `ObjectOriented.BankAccount.Deposit` | python/basics/7_oop.py:150-151 | the balance grows by exactly `amount` |
| `ObjectOriented.BankAccount.Withdraw` | python/basics/7_oop.py:153-157 | reports insufficient funds exactly when `amount` exceeds the balance, and then leaves it unchanged; otherwise the balance shrinks by exactly `amount` |
| `ObjectOriented.BankAccount.GetBalance` | python/basics/7_oop.py:159-160 | returns the balance and changes nothing |
| `ObjectOriented.Run` | python/basics/7_oop.py:163-168 | calling deposit and withdraw on an account in turn leaves the balance that `ApplyAll` predicts |
| `ObjectOriented.BankAccountExample` | python/basics/7_oop.py:163-168 | 1000, deposit 500 gives 1500, withdrawing 2000 is refused, withdrawing 100 gives 1400 |
| `ObjectOriented.DogClass.constructor` | python/basics/7_oop.py:59-60 | the class variable starts as "Canis lupus familiaris" |
| `ObjectOriented.DogClass.ChangeSpecies` | python/basics/7_oop.py:69-71 | reassigns the class variable, so every instance of the class then reads the new species |
| `ObjectOriented.Dog.constructor` | python/basics/7_oop.py:62-64 | an instance has its own name and breed and belongs to its class |
| `ObjectOriented.Dog.Species` | python/basics/7_oop.py:59-64 | an instance reads the species of its class object |
| `ObjectOriented.SpeciesExample` | python/basics/7_oop.py:59-83 | `dog1` reads "Canis lupus familiaris" and after `change_species("New Species")` reads "New Species"; a second dog, added beyond the lesson, shows both instances follow the class |
| `Functions.Add` | python/basics/06_functions.py:23-24 | subtracting `b` from `add(a, b)` gives `a` back |
| `Functions.AddExample` | python/basics/06_functions.py:23-27 | `add(5, 3) == 8` |
| `Functions.SumAll` | python/basics/06_functions.py:59-60 | a single argument is its own sum; non-negative arguments have a non-negative sum that is at least each argument |
| `Functions.SumAllAppend` | python/basics/06_functions.py:59-60 | `sum_all` over a concatenation is the sum of the two parts' results |
| `Functions.SumAllExamples` | python/basics/06_functions.py:59-63 | `sum_all()` is 0, `sum_all(1, 2, 3, 4)` is 10, `sum_all(5, 10)` is 15, a single argument is its own sum |
| `Functions.Square` | python/basics/06_functions.py:81-82 | `x ** 2` is never negative and never below `x` |
| `Functions.SquareExample` | python/basics/06_functions.py:84-85 | `square(4) == 16`, `square(5) == 25`, and `square(-x) == square(x)` |
| `Functions.Map` | python/basics/06_functions.py:132-133 | `list(map(f, xs))` keeps the length and applies `f` to each element position by position |
| `Functions.SquaredNumbers` | python/basics/06_functions.py:132-134 | mapping the squaring lambda over `[1, 2, 3, 4, 5]` gives `[1, 4, 9, 16, 25]` |
| `Functions.Factorial` | python/basics/06_functions.py:141-145 | for `n >= 1`, the result is at least 1 and at least `n` |
| `Functions.FactorialExample` | python/basics/06_functions.py:147 | `factorial(5) == 120` |
| `Functions.Fibonacci` | python/basics/06_functions.py:150-154 | `n` itself for `n <= 1`; never negative for `n >= 0`, positive for `n >= 1` |
| `Functions.FibonacciMatchesPair` | python/basics/06_functions.py:150-154 | the doubly recursive definition agrees with a linear walk over consecutive pairs |
| `Functions.FibonacciExample` | python/basics/06_functions.py:156 | `fibonacci(6) == 8` |
| `Functions.DigitChar` | python/basics/06_functions.py:167 | the character of a decimal digit is a digit and has that value |
| `Functions.NatToString` | python/basics/06_functions.py:167 | the decimal text of a natural number is non-empty, all digits, with no leading zero |
| `Functions.IntToString` | python/basics/06_functions.py:167 | the text of an integer is non-empty and starts with `-` exactly when the integer is negative |
| `Functions.NatToStringRoundTrip` | python/basics/06_functions.py:167 | reading the decimal text of `n` back gives `n` |
| `Functions.IntToStringRoundTrip` | python/basics/06_functions.py:167 | parsing the text of any integer, negative ones included, gives the integer back |
| `Functions.LogDecorator` | python/basics/06_functions.py:163-169 | the wrapper returns exactly what the wrapped function returns, and logs exactly two lines: "Calling <name>", then "<name> returned <result>" |
| `Functions.DecoratedAdd` | python/basics/06_functions.py:171-173 | the decorated `add` returns `a + b` for every pair |
| `Functions.DecoratedAddExample` | python/basics/06_functions.py:175-178 | the decorated `add(3, 5)` returns 8 and logs "Calling add" then "add returned 8" |
| `Functions.DecoratedAddReportsResult` | python/basics/06_functions.py:163-173 | for every call of the decorated `add`, the second log line is "add returned " followed by text that parses back to the returned value |
| `Exceptions.Base` | python/basics/9_error_handling.py:102-103 | each class other than BaseException has a direct base one level closer to the root |
| `Exceptions.EverythingIsBaseException` | python/basics/9_error_handling.py:102-103 | every exception class is a subclass of BaseException, and every other one (NegativeNumberError included) of Exception |
| `Exceptions.IsSubclass` | python/basics/9_error_handling.py:102-103 | a subclass is never nearer the root than its superclass, and at the same depth only the class itself |
| `Exceptions.Catches` | python/basics/9_error_handling.py:91-94 | a handler catches an exception of its own class; `except BaseException` catches everything and `except Exception` everything but BaseException itself |
| `ErrorHandling.Divide` | python/basics/9_error_handling.py:86-89 | raises ValueError "Cannot divide by zero!" exactly when `b == 0`; otherwise the call passes the guard |
| `ErrorHandling.SquareRoot` | python/basics/9_error_handling.py:105-108 | raises NegativeNumberError with its message exactly when `number < 0`; 0 and positive numbers pass the guard |
| `ErrorHandling.HandledMessage` | python/basics/9_error_handling.py:91-94 | an `except` clause prints a message exactly when the call raised an instance of the handler's class or a subclass, and it prints that exception's message |
| `ErrorHandling.FailuresAreDistinct` | python/basics/9_error_handling.py:86-113 | `except ValueError` catches divide's failure and not square_root's, `except NegativeNumberError` the reverse, `except Exception` both |
| `ErrorHandling.ErrorHandlingTrace` | python/basics/9_error_handling.py:91-115 | `divide(10, 0)` and `square_root(-4)` are caught with their messages |
| `MathTools.Add` | python/basics/8_modules.py:10-11 | subtracting `b` from `add(a, b)` gives `a` back |
| `MathTools.Subtract` | python/basics/8_modules.py:13-14 | adding `b` back to `subtract(a, b)` gives `a` |
| `MathTools.SubtractUndoesAdd` | python/basics/8_modules.py:10-14 | `subtract(add(a, b), b) == a` |
| `MathTools.Multiply` | python/basics/8_modules.py:16-17 | 0 is absorbing and 1 neutral as second operand |
| `MathTools.MultiplyIsRepeatedAdd` | python/basics/8_modules.py:10-17 | `multiply(a, n)` for a count `n >= 0` equals adding `a` to 0 with `add`, n times |
| `MathTools.MultiplyDistributes` | python/basics/8_modules.py:10-17 | `multiply(a, add(b, c)) == add(multiply(a, b), multiply(a, c))` |
| `MathTools.Divide` | python/basics/8_modules.py:19-22 | raises ValueError "Cannot divide by zero." exactly when `b == 0` |
| `MathTools.MathToolsExamples` | python/basics/8_modules.py:34-54 | `add(5, 3) == 8`, `multiply(4, 2) == 8`, `subtract(5, 2) == 3`, `add(10, 5) == 15`, `multiply(3, 3) == 9`, `divide(10, 2)` returns |
| `StringTools.CountVowels` | python/basics/8_modules.py:80-82 | the count never exceeds the length of the string |
| `StringTools.CountVowelsAppend` | python/basics/8_modules.py:80-82 | the count over `s + t` is the count over `s` plus the count over `t` |
| `StringTools.CountVowelsExtremes` | python/basics/8_modules.py:80-82 | the count is 0 exactly when no character is a vowel, and the full length exactly when every character is |
| `StringTools.VowelMembership` | python/basics/8_modules.py:81 | the vowels are exactly a, e, i, o, u in lower and upper case |
| `StringTools.CountVowelsHello` | python/basics/8_modules.py:91 | `count_vowels("hello") == 2` |
| `StringTools.CountVowelsCaseAlike` | python/basics/8_modules.py:80-82 | upper and lower case count alike: "HELLO" has 2, "AEIOU" and "aeiou" have 5 |
| `StringTools.AllVowels` | python/basics/8_modules.py:80-82 | a string made only of vowels counts its full length |
| `Loops.Range` | python/basics/5_loops.py:74 | `range(lo, hi)` is `lo, lo + 1, …, hi - 1` |
| `Loops.ForElseSearch` | python/basics/5_loops.py:292-297 | the `else` branch runs exactly when the target does not occur, i.e. no `break` happened |
| `Loops.WhileElseSearch` | python/basics/5_loops.py:308-315 | the `else` branch runs exactly when the target does not occur, and then `i == len(numbers)`; otherwise `i` is the index of the first occurrence |
| `Loops.SearchesAgree` | python/basics/5_loops.py:289-318 | the `for` and the `while` search reach the same verdict |
| `Loops.SearchExample` | python/basics/5_loops.py:289-318 | searching 7 in `[1, 2, 3, 4, 5]` runs the `else` branch both ways |
| `Loops.PrefixBefore` | python/basics/5_loops.py:160-164 | a prefix of the input that does not contain the stop value and is followed by it, unless it is the whole input |
| `Loops.PrefixBeforeUnique` | python/basics/5_loops.py:160-164 | those three properties determine the emitted prefix |
| `Loops.BreakAt` | python/basics/5_loops.py:160-164 | the loop emits exactly the prefix before the first stop value, and stops exactly when the value occurs |
| `Loops.BreakAtSevenExample` | python/basics/5_loops.py:160-173 | breaking at 7 in `[1, …, 10]` emits 1..6 and stops |
| `Loops.BreakAtFiveExample` | python/basics/5_loops.py:74-84 | breaking at 5 in `range(10)` emits 0..4 |
| `Loops.Filter` | python/basics/5_loops.py:148-150 | the kept elements are exactly the accepted elements of the input, no more than the input |
| `Loops.IsEven` | python/basics/5_loops.py:149 | `number % 2 == 0` holds exactly when the number is twice its floor half, negative numbers included |
| `Loops.IfEvenLoop` | python/basics/5_loops.py:148-150 | emits exactly the even elements in their original order |
| `Loops.ContinueOddLoop` | python/basics/5_loops.py:176-179 | skipping odd numbers with `continue` emits exactly the even elements in order |
| `Loops.EvenLoopsAgree` | python/basics/5_loops.py:148-186 | the `if` loop and the `continue` loop emit the same sequence, all even |
| `Loops.ContinueAt` | python/basics/5_loops.py:88-91 | `continue` at a value emits every other element in order |
| `Loops.EvensExample` | python/basics/5_loops.py:176-186 | the even numbers of `[1, …, 10]` are 2, 4, 6, 8, 10 |
| `Loops.SkipTwoExample` | python/basics/5_loops.py:88-97 | skipping 2 in `range(5)` emits 0, 1, 3, 4 |
| `Loops.EvensOfOneToTen` | python/basics/5_loops.py:146-157 | the even filter of `[1, …, 10]` is `[2, 4, 6, 8, 10]` |
| `Loops.Differs` | python/basics/5_loops.py:88-91 | the test "differs from v" rejects v and accepts every other value |
| `Loops.SkipTwo` | python/basics/5_loops.py:88-97 | the filter "differs from 2" over `[0, …, 4]` is `[0, 1, 3, 4]` |
| `Loops.FilterPrefixes` | python/basics/5_loops.py:148-150 | building the output one element at a time, as the loop does, reaches the filter of the whole input |
| `Loops.Row` | python/basics/5_loops.py:115-116 | the inner loop emits one pair per inner value, in order, with the outer value fixed |
| `Loops.Grid` | python/basics/5_loops.py:114-116 | every emitted pair has an outer value first and an inner value second |
| `Loops.GridMembers` | python/basics/5_loops.py:114-116 | the nested loops emit a pair exactly when its first part is an outer value and its second an inner value |
| `Loops.GridRowMajor` | python/basics/5_loops.py:114-124 | there are `len(outer) * len(inner)` pairs, and pair `(outer[p], inner[q])` is at position `p * len(inner) + q` (row-major order) |
| `Loops.GridLength` | python/basics/5_loops.py:114-116 | the nested loops emit `len(outer) * len(inner)` pairs |
| `Loops.GridSnoc` | python/basics/5_loops.py:114-116 | one more outer value adds one more row at the end |
| `Loops.RowSnoc` | python/basics/5_loops.py:115-116 | one more inner value adds one more pair at the end of the row |
| `Loops.GridRangeSnoc` | python/basics/5_loops.py:127-133 | running the outer `while` counter one step further adds the row for that counter at the end |
| `Loops.RowRangeSnoc` | python/basics/5_loops.py:129-132 | running the inner `while` counter one step further adds one pair at the end of the row |
| `Loops.RangeSnoc` | python/basics/5_loops.py:128-133 | counting one step further adds the bound at the end |
| `Loops.NestedFor` | python/basics/5_loops.py:114-116 | the nested `for` loops emit exactly the row-major grid of pairs |
| `Loops.NestedWhile` | python/basics/5_loops.py:127-133 | the nested `while` loops with their counters emit exactly the grid over the two ranges |
| `Loops.GridOfThree` | python/basics/5_loops.py:114-116 | three outer values give three consecutive rows |
| `Loops.NestedForExample` | python/basics/5_loops.py:114-124 | `range(3)` by `range(2)` gives (0, 0), (0, 1), (1, 0), (1, 1), (2, 0), (2, 1) |
| `Loops.NestedWhileExample` | python/basics/5_loops.py:127-141 | `1..3` by `1..2` gives (1, 1), (1, 2), (2, 1), (2, 2), (3, 1), (3, 2) |
| `Conditionals.ClassifyX` | python/basics/4_conditional.py:16-22 | exactly one branch is taken: "less than 5" iff `x < 5`, "exactly 10" iff `x == 10`, the `else` iff `x >= 5` and `x != 10` |
| `Conditionals.LessThanFiveOrNot` | python/basics/4_conditional.py:11-14 | the `if/else` on `x < 5` agrees with the chain's first branch |
| `Conditionals.ComparisonTrace` | python/basics/4_conditional.py:6-22 | with `x = 10`, the `else` of the `if/else` and "exactly 10" of the chain are taken |
| `Conditionals.IsYoungAdult` | python/basics/4_conditional.py:28-30 | `age > 18 and age < 30` holds exactly for 19 <= age <= 29: both bounds are strict |
| `Conditionals.InWorkingAgeGroup` | python/basics/4_conditional.py:33-36 | the working-age message fires exactly when `18 <= age <= 60` |
| `Conditionals.NotMinor` | python/basics/4_conditional.py:39-40 | `not (age < 18)` holds exactly when `age >= 18` |
| `Conditionals.IsAdult` | python/basics/4_conditional.py:59 | the ternary gives True exactly when `age >= 18` |
| `Conditionals.AgeConditionsRelate` | python/basics/4_conditional.py:28-59 | `is_adult` coincides with the `not (age < 18)` branch for every age; a young adult (`18 < age < 30`) is of working age, and working age implies adult; 18 is of working age but not a young adult |
| `Conditionals.AgeTrace` | python/basics/4_conditional.py:28-40 | with `age = 20` the young-adult, working-age and not-a-minor messages fire |
| `Conditionals.Grade` | python/basics/4_conditional.py:46-53 | "Great job!" exactly for `score >= 80`, "You passed!" exactly for `50 <= score < 80`, "You failed." exactly below 50 |
| `Conditionals.GradeProperties` | python/basics/4_conditional.py:46-53 | the nested grading equals the flat `elif` chain, and a higher score never gets a worse message |
| `Conditionals.GradeTrace` | python/basics/4_conditional.py:46-49 | 85 gives "Great job!"; the thresholds 80 and 50 are inclusive |
| `Conditionals.StatusMessage` | python/basics/4_conditional.py:84-92 | 200 gives "OK", 404 "Not Found", 500 "Server Error", and "Unknown status code" exactly for every other code |
| `Conditionals.StatusMessageDistinguishes` | python/basics/4_conditional.py:84-92 | distinct known codes give distinct messages |
| `Conditionals.StatusTrace` | python/basics/4_conditional.py:82-94 | status 200 gives "OK"; an unlisted code gives "Unknown status code" |

## Left out

- All console output (`print`, f-strings, `__str__`, `__repr__`): the model returns the
  values a branch chooses or a loop emits, not text. The exception is `log_decorator`,
  whose two printed lines are modelled as text (`Functions.LogDecorator`).
- Floating point: `Celsius` (`__int__`, `__float__`, `__bool__`) and the numeric results
  of both `divide` functions and of `square_root`. Only their guards are modelled; a call
  that passes the guard returns the unit value, which means only that the guard let it
  through.
- `ErrorHandling.Divide`: the float division `a / b` can still raise OverflowError once the
  guard has passed (for example `divide(10**400, 1)`); that outcome is not modelled.
- `ErrorHandling.SquareRoot`: `number ** 0.5` raises OverflowError for non-negative integers
  beyond float range (for example `square_root(10**400)`); that outcome is not modelled.
- `MathTools.Divide`: like `ErrorHandling.Divide`, the OverflowError of `a / b` past the
  guard is not modelled.
- File I/O: `ManagedFile` (`__enter__`/`__exit__`), `open_file` and the file-handling
  lesson as a whole.
- `AsyncCounter`: asynchronous iteration and `asyncio.sleep`.
- Python's concrete `hash()` values: the tuple hash is a parameter of `Person.Hash`, so
  the hash properties hold for every tuple hash.
- Reflective attribute hooks (`__getattr__`, `__setattr__`, `__delattr__`), `__del__`,
  `__call__` (`Multiplier`), `copy`/`deepcopy`, `__match_args__` and `__slots__`: they
  exercise the interpreter rather than logic of their own.
- The lists, dictionaries, sets and variables lessons, the scope demonstrations of the
  functions lesson, and the `in` membership tests of the conditionals lesson
  (`4_conditional.py` lines 65-76): they only narrate built-in behaviour.
- Floats in general: the model is integers only, where Python also accepts floats. This
  covers `Vector` components, `BankAccount` balances and amounts, the arguments of
  `sum_all` and `square`, and `add`/`multiply`.
- Import machinery, `math`, `random`, `sys.path`, `importlib.reload` and `str.upper`
  (`string_tools.to_uppercase`) in the modules lesson: runtime and foreign calls.
- `greet`, `describe_person`, `print_person_info` and `get_person` in the functions lesson:
  they only print their arguments or return constants.
- The `multiply` lambda in the functions lesson (`06_functions.py` line 128): it computes
  the same product as `math_tools.multiply`, which is modelled (`MathTools.Multiply`).
- The `bark`/`speak`/`general_info` methods, inheritance and polymorphism in the
  object-oriented lesson: they only print constant messages.
- The `try`/`except`/`else`/`finally` demonstrations at lines 9-80 of
  `9_error_handling.py`: `10 / 0` caught as ZeroDivisionError, `int("text")` as
  ValueError, `my_list[5]` under three handlers, and FileNotFoundError with `finally`.
  They exercise built-in operations and file I/O. ZeroDivisionError and
  FileNotFoundError are not among the modelled exception classes.
- The single `if x > 5` at lines 7-8 of `4_conditional.py`: a one-branch test on a constant
  with no `else`, so there is no choice between outcomes to state.
- The loops lesson's iteration over a list, a string, a dictionary and a set (lines 9-29
  and 188-240 of `5_loops.py`), its plain `for`/`while` counting loops, the `pass` example,
  `enumerate`/`zip`, comprehensions, and the two `for … else` loops over `range(3)` at lines
  321-338: they restate built-in iteration with no search or filter.
- `DunderMethods.CustomList.SetItem`: the Python list is shared with the caller (the
  constructor stores the caller's list, so the caller sees every change); the model copies
  the items into the object and does not capture that aliasing.
- `DunderMethods.CustomList.DelItem`: for the same reason, the deletion is not seen through
  the caller's list.
- `DunderMethods.CustomList.GetItem`: slice indices (`my_list[1:3]`) and non-integer
  indices (TypeError) are not modelled; only integer indices, negative ones included.
- `ObjectOriented.Dog.Species`: assigning an instance attribute `species` that would
  shadow the class variable is not modelled; instances always read the class's value.
- `Functions.Add`, `MathTools.Add`, `MathTools.Multiply`: Python's `+` and `*` also work on
  strings, lists and floats; the model is integers only.
- `Functions.LogDecorator`: keyword arguments are not modelled; the positional arguments
  are one tuple. `func.__name__` is passed in as `name`, and `str(result)` as `show`.
  The wrapped function cannot raise here; in Python, when it does, the wrapper has printed
  "Calling <name>" and lets the exception through without the second line. Nor is the
  ValueError `str` raises for a result longer than 4300 digits modelled, so
  `DecoratedAddReportsResult` holds for every call only without that limit.
- `Functions.Factorial`: requires `n >= 1`, because the only base case is `n == 1` and a
  smaller argument never terminates (Python would exceed its recursion limit); the
  contract states bounds, and the exact value through `FactorialExample`. Python's
  recursion limit (1000 frames by default) also makes large arguments such as
  `factorial(1000)` raise RecursionError; the model returns a value there.
- `Functions.Fibonacci`: likewise, the recursion limit that makes `fibonacci(1000)` raise
  RecursionError is not modelled; the model returns a value for every argument.
