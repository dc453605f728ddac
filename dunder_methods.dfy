/** The user-defined classes of the dunder-methods lesson: the operator hooks of Vector and
    BitwiseExample, the container hooks of CustomList, the iterator protocol of Counter,
    Countdown's __reversed__, and the __eq__/__hash__ pairing of Person.

    The lesson redefines some class names several times (Vector, Person); each class here
    is the union of the snippets that share its name. */
module DunderMethods {
  import opened Exceptions

  // ---------------------------------------------------------------------------
  // Vector: __add__, __sub__, __neg__, __abs__

  datatype Vector = Vector(x: int, y: int) {

    /** v + w, componentwise: the zero vector is neutral on either side, and taking each
        component of w back off the sum gives v. */
    function Add(other: Vector): (r: Vector)
      ensures other == Vector(0, 0) ==> r == this
      ensures this == Vector(0, 0) ==> r == other
      ensures r.x - other.x == x && r.y - other.y == y
    {
      Vector(x + other.x, y + other.y)
    }

    /** v - w, componentwise: adding w back gives v. */
    function Sub(other: Vector): (r: Vector)
      ensures r.Add(other) == this
    {
      Vector(x - other.x, y - other.y)
    }

    /** -v: the additive inverse of v. */
    function Neg(): (r: Vector)
      ensures Add(r) == Vector(0, 0)
    {
      Vector(-x, -y)
    }

    /** abs(v): each component keeps its magnitude and loses its sign. */
    function Abs(): (r: Vector)
      ensures r.x >= 0 && r.y >= 0
      ensures (r.x == x || r.x == -x) && (r.y == y || r.y == -y)
    {
      Vector(if x < 0 then -x else x, if y < 0 then -y else y)
    }
  }

  /** Subtracting what was added gives the original vector back. */
  lemma AddThenSub(v: Vector, w: Vector)
    ensures v.Add(w).Sub(w) == v
  {
  }

  /** Vector addition does not depend on the order of the operands. */
  lemma AddCommutes(v: Vector, w: Vector)
    ensures v.Add(w) == w.Add(v)
  {
  }

  /** Negating twice gives the original vector back. */
  lemma NegInvolutive(v: Vector)
    ensures v.Neg().Neg() == v
  {
  }

  /** abs(Vector(2, -3)) is Vector(2, 3), and abs of a vector with non-negative
      components is that vector. */
  lemma AbsExample(v: Vector)
    ensures Vector(2, -3).Abs() == Vector(2, 3)
    ensures v.x >= 0 && v.y >= 0 ==> v.Abs() == v
    ensures v.Abs().Abs() == v.Abs()
  {
  }

  // ---------------------------------------------------------------------------
  // BitwiseExample: __and__ and __or__ on Python's unbounded two's-complement integers

  /** Bit k of x in the infinite two's-complement representation (0 or 1). */
  function Bit(x: int, k: nat): (b: int)
    decreases k
    ensures 0 <= b <= 1
  {
    if k == 0 then x % 2 else Bit(x / 2, k - 1)
  }

  function IntAbs(a: int): nat
  {
    if a < 0 then -a else a
  }

  /** Python's `a & b` on integers: 0 and -1 are the fixed points of halving, and the
      recursion peels off one low bit at a time. The result is negative exactly when
      both operands are (the sign is the and of the signs). */
  function BitAnd(a: int, b: int): (r: int)
    decreases IntAbs(a)
    ensures (a >= 0 || b >= 0) ==> r >= 0
    ensures (a < 0 && b < 0) ==> r < 0
  {
    if a == 0 || b == 0 then 0
    else if a == -1 then b
    else if b == -1 then a
    else 2 * BitAnd(a / 2, b / 2) + (if a % 2 == 1 && b % 2 == 1 then 1 else 0)
  }

  /** Python's `a | b` on integers: negative exactly when either operand is. */
  function BitOr(a: int, b: int): (r: int)
    decreases IntAbs(a)
    ensures (a < 0 || b < 0) ==> r < 0
    ensures (a >= 0 && b >= 0) ==> r >= 0
  {
    if a == 0 then b
    else if b == 0 then a
    else if a == -1 || b == -1 then -1
    else 2 * BitOr(a / 2, b / 2) + (if a % 2 == 1 || b % 2 == 1 then 1 else 0)
  }

  lemma {:induction false} BitOfZero(k: nat)
    ensures Bit(0, k) == 0
  {
    if k > 0 {
      BitOfZero(k - 1);
    }
  }

  lemma {:induction false} BitOfMinusOne(k: nat)
    ensures Bit(-1, k) == 1
  {
    if k > 0 {
      BitOfMinusOne(k - 1);
    }
  }

  /** Bits of 2 * q + e: the low bit is e, the others are those of q. */
  lemma BitOfDouble(q: int, e: int, k: nat)
    requires 0 <= e <= 1
    ensures Bit(2 * q + e, k) == if k == 0 then e else Bit(q, k - 1)
  {
    assert (2 * q + e) % 2 == e;
    assert (2 * q + e) / 2 == q;
  }

  /** `&` acts bit by bit: bit k of a & b is set exactly when bit k is set in both. */
  lemma {:induction false} AndIsBitwise(a: int, b: int, k: nat)
    ensures Bit(BitAnd(a, b), k) == if Bit(a, k) == 1 && Bit(b, k) == 1 then 1 else 0
    decreases IntAbs(a)
  {
    if a == 0 {
      BitOfZero(k);
    } else if b == 0 {
      BitOfZero(k);
    } else if a == -1 {
      BitOfMinusOne(k);
    } else if b == -1 {
      BitOfMinusOne(k);
    } else {
      var e := if a % 2 == 1 && b % 2 == 1 then 1 else 0;
      BitOfDouble(BitAnd(a / 2, b / 2), e, k);
      if k > 0 {
        AndIsBitwise(a / 2, b / 2, k - 1);
      }
    }
  }

  /** `|` acts bit by bit: bit k of a | b is set exactly when bit k is set in either. */
  lemma {:induction false} OrIsBitwise(a: int, b: int, k: nat)
    ensures Bit(BitOr(a, b), k) == if Bit(a, k) == 1 || Bit(b, k) == 1 then 1 else 0
    decreases IntAbs(a)
  {
    if a == 0 {
      BitOfZero(k);
    } else if b == 0 {
      BitOfZero(k);
    } else if a == -1 {
      BitOfMinusOne(k);
    } else if b == -1 {
      BitOfMinusOne(k);
    } else {
      var e := if a % 2 == 1 || b % 2 == 1 then 1 else 0;
      BitOfDouble(BitOr(a / 2, b / 2), e, k);
      if k > 0 {
        OrIsBitwise(a / 2, b / 2, k - 1);
      }
    }
  }

  /** For non-negative operands, a & b is non-negative and exceeds neither operand. */
  lemma {:induction false} AndBounded(a: int, b: int)
    requires a >= 0 && b >= 0
    ensures 0 <= BitAnd(a, b) <= a
    ensures BitAnd(a, b) <= b
    decreases a
  {
    if a != 0 && b != 0 {
      AndBounded(a / 2, b / 2);
    }
  }

  /** For non-negative operands, a | b is at least either operand and at most their sum. */
  lemma {:induction false} OrBounded(a: int, b: int)
    requires a >= 0 && b >= 0
    ensures a <= BitOr(a, b) && b <= BitOr(a, b)
    ensures BitOr(a, b) <= a + b
    decreases a
  {
    if a != 0 && b != 0 {
      OrBounded(a / 2, b / 2);
    }
  }

  datatype BitwiseExample = BitwiseExample(value: int) {

    /** self & other: a new object holding the bitwise and of the two values. */
    function And(other: BitwiseExample): (r: BitwiseExample)
      ensures forall k: nat {:trigger Bit(r.value, k)} ::
        Bit(r.value, k) == if Bit(value, k) == 1 && Bit(other.value, k) == 1 then 1 else 0
    {
      forall k: nat ensures Bit(BitAnd(value, other.value), k)
        == if Bit(value, k) == 1 && Bit(other.value, k) == 1 then 1 else 0
      {
        AndIsBitwise(value, other.value, k);
      }
      BitwiseExample(BitAnd(value, other.value))
    }

    /** self | other: a new object holding the bitwise or of the two values. */
    function Or(other: BitwiseExample): (r: BitwiseExample)
      ensures forall k: nat {:trigger Bit(r.value, k)} ::
        Bit(r.value, k) == if Bit(value, k) == 1 || Bit(other.value, k) == 1 then 1 else 0
    {
      forall k: nat ensures Bit(BitOr(value, other.value), k)
        == if Bit(value, k) == 1 || Bit(other.value, k) == 1 then 1 else 0
      {
        OrIsBitwise(value, other.value, k);
      }
      BitwiseExample(BitOr(value, other.value))
    }
  }

  /** 12 & 6 is 4 (binary 1100 & 0110 = 0100), and 12 | 6 is 14. */
  lemma BitwiseExampleTrace()
    ensures BitwiseExample(12).And(BitwiseExample(6)) == BitwiseExample(4)
    ensures BitwiseExample(12).Or(BitwiseExample(6)) == BitwiseExample(14)
  {
    assert BitAnd(3, 1) == 1;
    assert BitAnd(6, 3) == 2;
    assert BitOr(3, 1) == 3;
    assert BitOr(6, 3) == 7;
  }

  // ---------------------------------------------------------------------------
  // CustomList: __len__, __getitem__, __setitem__, __delitem__ over a Python list

  /** A Python list index is valid when -len <= index < len. */
  predicate InRange(index: int, length: nat)
  {
    -(length as int) <= index < length
  }

  /** The position a valid index denotes: negative indices count from the end. */
  function Resolve(index: int, length: nat): (k: nat)
    requires InRange(index, length)
    ensures k < length
    ensures index >= 0 ==> k == index
    ensures index < 0 ==> k == length + index
  {
    if index < 0 then length + index else index
  }

  class CustomList<T> {
    var items: seq<T>

    constructor (items: seq<T>)
      ensures this.items == items
    {
      this.items := items;
    }

    /** len(self) */
    method Len() returns (n: nat)
      ensures n == |items|
    {
      n := |items|;
    }

    /** self[index]: the item at the resolved position, or IndexError. */
    method GetItem(index: int) returns (r: Outcome<T>)
      ensures InRange(index, |items|) ==> r == Return(items[Resolve(index, |items|)])
      ensures !InRange(index, |items|) ==> r == Raise(Raised(IndexError, "list index out of range"))
    {
      if InRange(index, |items|) {
        r := Return(items[Resolve(index, |items|)]);
      } else {
        r := Raise(Raised(IndexError, "list index out of range"));
      }
    }

    /** self[index] = value: in place; the length is kept, the resolved position holds
        value, every other position is unchanged. Out of range, nothing changes and
        IndexError is raised. */
    method SetItem(index: int, value: T) returns (r: Outcome<()>)
      modifies this
      ensures InRange(index, |old(items)|) ==>
        && r == Return(())
        && |items| == |old(items)|
        && items[Resolve(index, |old(items)|)] == value
        && forall j :: 0 <= j < |items| && j != Resolve(index, |old(items)|) ==> items[j] == old(items)[j]
      ensures !InRange(index, |old(items)|) ==>
        r == Raise(Raised(IndexError, "list assignment index out of range")) && items == old(items)
    {
      if InRange(index, |items|) {
        items := items[Resolve(index, |items|) := value];
        r := Return(());
      } else {
        r := Raise(Raised(IndexError, "list assignment index out of range"));
      }
    }

    /** del self[index]: in place; the list is one shorter, items before the resolved
        position stay, items after it move down by one. Out of range, nothing changes
        and IndexError is raised. */
    method DelItem(index: int) returns (r: Outcome<()>)
      modifies this
      ensures InRange(index, |old(items)|) ==>
        && r == Return(())
        && |items| == |old(items)| - 1
        && (forall j :: 0 <= j < Resolve(index, |old(items)|) ==> items[j] == old(items)[j])
        && (forall j :: Resolve(index, |old(items)|) <= j < |items| ==> items[j] == old(items)[j + 1])
      ensures !InRange(index, |old(items)|) ==>
        r == Raise(Raised(IndexError, "list assignment index out of range")) && items == old(items)
    {
      if InRange(index, |items|) {
        var k := Resolve(index, |items|);
        items := items[..k] + items[k + 1..];
        r := Return(());
      } else {
        r := Raise(Raised(IndexError, "list assignment index out of range"));
      }
    }
  }

  /** The lesson's trace: CustomList([10, 20, 30, 40]) has length 4 and item 30 at index 2;
      after my_list[1] = 99, index 1 holds 99; after del my_list[0], index 0 holds 99. */
  method CustomListExample() returns (length: nat, third: Outcome<int>, second: Outcome<int>, first: Outcome<int>)
    ensures length == 4
    ensures third == Return(30) && second == Return(99) && first == Return(99)
  {
    var myList := new CustomList([10, 20, 30, 40]);
    length := myList.Len();
    third := myList.GetItem(2);
    var _ := myList.SetItem(1, 99);
    second := myList.GetItem(1);
    var _ := myList.DelItem(0);
    first := myList.GetItem(0);
  }

  // ---------------------------------------------------------------------------
  // Counter: __iter__ / __next__

  /** What Counter(low, high) yields: low, low + 1, ..., high, or nothing when low > high. */
  function Yields(low: int, high: int): (r: seq<int>)
    decreases high - low
    ensures |r| == if low > high then 0 else high - low + 1
    ensures forall i :: 0 <= i < |r| ==> r[i] == low + i
  {
    if low > high then [] else [low] + Yields(low + 1, high)
  }

  class Counter {
    var current: int
    const high: int

    /** What the iterator will still yield. */
    ghost function Remaining(): seq<int>
      reads this
    {
      Yields(current, high)
    }

    constructor (low: int, high: int)
      ensures current == low && this.high == high
      ensures Remaining() == Yields(low, high)
    {
      current := low;
      this.high := high;
    }

    /** iter(self) is self. */
    method Iter() returns (it: Counter)
      ensures it == this
    {
      it := this;
    }

    /** next(self): the next value, advancing the counter, or StopIteration with the
        state left as it was, so that every later call raises StopIteration too. */
    method Next() returns (r: Outcome<int>)
      modifies this
      ensures old(current) > high ==> r == Raise(Raised(StopIteration, "")) && current == old(current)
      ensures old(current) <= high ==> r == Return(old(current)) && current == old(current) + 1
      ensures old(Remaining()) == [] ==> r.Raise? && Remaining() == []
      ensures old(Remaining()) != [] ==> r == Return(old(Remaining())[0]) && Remaining() == old(Remaining())[1..]
    {
      if current > high {
        r := Raise(Raised(StopIteration, ""));
      } else {
        current := current + 1;
        r := Return(current - 1);
      }
    }
  }

  /** `for num in counter`: calls next until StopIteration and collects what it yields. */
  method ForEach(c: Counter) returns (out: seq<int>)
    modifies c
    ensures out == old(c.Remaining())
    ensures c.Remaining() == []
  {
    var it := c.Iter();
    out := [];
    var stopped := false;
    while !stopped
      invariant old(c.Remaining()) == out + c.Remaining()
      invariant stopped ==> c.Remaining() == []
      decreases |c.Remaining()|, !stopped
    {
      var r := it.Next();
      match r
      case Return(v) =>
        out := out + [v];
      case Raise(_) =>
        stopped := true;
    }
  }

  /** Counter(1, 5) yields 1, 2, 3, 4, 5. */
  method CounterExample() returns (out: seq<int>)
    ensures out == [1, 2, 3, 4, 5]
  {
    var counter := new Counter(1, 5);
    out := ForEach(counter);
  }

  // ---------------------------------------------------------------------------
  // Countdown: __reversed__

  /** range(start, 0, -1): start, start - 1, ..., 1. */
  function Descending(start: int): (r: seq<int>)
    decreases start
    ensures |r| == if start <= 0 then 0 else start
    ensures forall i :: 0 <= i < |r| ==> r[i] == start - i
  {
    if start <= 0 then [] else [start] + Descending(start - 1)
  }

  datatype Countdown = Countdown(start: int) {
    /** reversed(self) */
    function Reversed(): (r: seq<int>)
      ensures |r| == if start <= 0 then 0 else start
      ensures forall i :: 0 <= i < |r| ==> r[i] == start - i
    {
      Descending(start)
    }
  }

  function Reverse<T>(s: seq<T>): (r: seq<T>)
    ensures |r| == |s|
    ensures forall i :: 0 <= i < |s| ==> r[i] == s[|s| - 1 - i]
  {
    if s == [] then [] else Reverse(s[1..]) + [s[0]]
  }

  /** reversed(Countdown(n)) is Counter(1, n) run backwards; Countdown(5) gives [5, 4, 3, 2, 1]. */
  lemma CountdownReversesCounter(n: int)
    ensures Countdown(n).Reversed() == Reverse(Yields(1, n))
    ensures Countdown(5).Reversed() == [5, 4, 3, 2, 1]
    ensures n <= 0 ==> Countdown(n).Reversed() == []
  {
    var a, b := Countdown(n).Reversed(), Reverse(Yields(1, n));
    assert |a| == |b|;
    forall i | 0 <= i < |a|
      ensures a[i] == b[i]
    {
      assert b[i] == Yields(1, n)[|a| - 1 - i];
    }
  }

  // ---------------------------------------------------------------------------
  // Person: __eq__ on (name, age) paired with __hash__ of (name, age)

  /** A Person object. Its identity is the object reference; name and age are the
      attributes __init__ sets. */
  class Person {
    const name: string
    const age: int

    constructor (name: string, age: int)
      ensures this.name == name && this.age == age
    {
      this.name := name;
      this.age := age;
    }

    /** self == other: compares the attributes, not the objects. */
    predicate Equals(other: Person)
    {
      name == other.name && age == other.age
    }

    /** hash(self) is the hash of the tuple (name, age); Python's tuple hash is a parameter. */
    function Hash(hashTuple: ((string, int)) -> int): int
    {
      hashTuple((name, age))
    }
  }

  /** Objects that compare equal have equal hashes, whatever the tuple hash is, even when
      they are distinct objects. */
  lemma EqualPersonsHashEqually(p: Person, q: Person, hashTuple: ((string, int)) -> int)
    requires p.Equals(q)
    ensures p.Hash(hashTuple) == q.Hash(hashTuple)
  {
  }

  /** Equality on (name, age) is an equivalence. */
  lemma EqualsIsEquivalence(p: Person, q: Person, s: Person)
    ensures p.Equals(p)
    ensures p.Equals(q) ==> q.Equals(p)
    ensures p.Equals(q) && q.Equals(s) ==> p.Equals(s)
  {
  }

  /** The lesson's trace: p1 = Person("Alice", 30) and p2 = Person("Alice", 30) are two
      distinct objects, yet they compare equal and hash alike. */
  method HashExample(hashTuple: ((string, int)) -> int) returns (p1: Person, p2: Person)
    ensures p1 != p2
    ensures p1.Equals(p2)
    ensures p1.Hash(hashTuple) == p2.Hash(hashTuple)
  {
    p1 := new Person("Alice", 30);
    p2 := new Person("Alice", 30);
    EqualPersonsHashEqually(p1, p2, hashTuple);
  }

  /** The comparison snippet's Person: < looks at the age only. */
  predicate AgeLess(p: Person, q: Person)
  {
    p.age < q.age
  }

  /** The comparison snippet's Person: == looks at the age only, so equal persons are
      ordered neither way. */
  function AgeEquals(p: Person, q: Person): (r: bool)
    ensures r ==> !AgeLess(p, q) && !AgeLess(q, p)
    ensures !r ==> AgeLess(p, q) || AgeLess(q, p)
  {
    p.age == q.age
  }

  /** Age comparison is a strict total order: exactly one of <, ==, > holds. */
  lemma AgeComparison(p: Person, q: Person)
    ensures AgeLess(p, q) || AgeEquals(p, q) || AgeLess(q, p)
    ensures !(AgeLess(p, q) && AgeEquals(p, q)) && !(AgeLess(p, q) && AgeLess(q, p))
  {
  }

  /** The lesson's trace: Alice (30) against Bob (25) gives False for both == and <. */
  method AgeComparisonExample() returns (equal: bool, less: bool)
    ensures !equal && !less
  {
    var person1 := new Person("Alice", 30);
    var person2 := new Person("Bob", 25);
    equal, less := AgeEquals(person1, person2), AgeLess(person1, person2);
  }

  /** The comparison snippet defines __eq__ without __hash__, which makes Python set its
      __hash__ to None, so its objects cannot be hashed at all. This shows what pairing its
      age-only __eq__ with the (name, age) hash of the hashing snippet would do: two
      persons that compare equal get different hashes for some tuple hash. */
  method AgeOnlyEqualityBreaksHashing() returns (alice: Person, bob: Person)
    ensures AgeEquals(alice, bob)
    ensures var h := (t: (string, int)) => |t.0|; alice.Hash(h) != bob.Hash(h)
  {
    alice := new Person("Alice", 30);
    bob := new Person("Bob", 30);
  }
}
