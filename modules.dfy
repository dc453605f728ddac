/** math_tools, a module quoted in the modules lesson: add, subtract, multiply, and divide
    with its zero check. Only the guard of divide is modelled; a division that passes it
    returns the unit value. */
module MathTools {
  import opened Exceptions

  /** add(a, b): taking b back off the sum gives a. */
  function Add(a: int, b: int): (r: int)
    ensures r - b == a
  {
    a + b
  }

  /** subtract undoes add. */
  function Subtract(a: int, b: int): (r: int)
    ensures Add(r, b) == a
  {
    a - b
  }

  /** multiply(a, b): b is neutral when 1 and absorbing when 0. */
  function Multiply(a: int, b: int): (r: int)
    ensures b == 0 ==> r == 0
    ensures b == 1 ==> r == a
  {
    a * b
  }

  /** a added to 0, n times over, with add. */
  function RepeatedAdd(a: int, n: nat): int
    decreases n
  {
    if n == 0 then 0 else Add(RepeatedAdd(a, n - 1), a)
  }

  /** multiply by a non-negative count agrees with adding that many times. */
  lemma {:induction false} MultiplyIsRepeatedAdd(a: int, n: nat)
    ensures Multiply(a, n) == RepeatedAdd(a, n)
    decreases n
  {
    if n > 0 {
      MultiplyIsRepeatedAdd(a, n - 1);
      assert a * n == a * (n - 1) + a;
    }
  }

  /** multiply distributes over add. */
  lemma MultiplyDistributes(a: int, b: int, c: int)
    ensures Multiply(a, Add(b, c)) == Add(Multiply(a, b), Multiply(a, c))
  {
  }

  /** divide(a, b) */
  function Divide(a: int, b: int): (r: Outcome<()>)
    ensures r.Raise? <==> b == 0
    ensures r.Raise? ==> r.exception == Raised(ValueError, "Cannot divide by zero.")
  {
    if b == 0 then Raise(Raised(ValueError, "Cannot divide by zero.")) else Return(())
  }

  lemma SubtractUndoesAdd(a: int, b: int)
    ensures Subtract(Add(a, b), b) == a
  {
  }

  /** The calls the lesson prints. */
  lemma MathToolsExamples()
    ensures Add(5, 3) == 8 && Add(10, 5) == 15
    ensures Multiply(4, 2) == 8 && Multiply(3, 3) == 9
    ensures Subtract(5, 2) == 3
    ensures Divide(10, 2).Return?
  {
  }
}

/** string_tools, the second module quoted in the modules lesson: count_vowels. */
module StringTools {

  const Vowels: string := "aeiouAEIOU"

  /** count_vowels(s): how many characters of s are in "aeiouAEIOU". */
  function CountVowels(s: string): (r: nat)
    decreases |s|
    ensures r <= |s|
  {
    if s == [] then 0 else (if s[0] in Vowels then 1 else 0) + CountVowels(s[1..])
  }

  /** Counting over a concatenation is adding the counts of the parts. */
  lemma {:induction false} CountVowelsAppend(s: string, t: string)
    ensures CountVowels(s + t) == CountVowels(s) + CountVowels(t)
    decreases |s|
  {
    if s == [] {
      assert s + t == t;
    } else {
      assert (s + t)[1..] == s[1..] + t;
      CountVowelsAppend(s[1..], t);
    }
  }

  /** No vowel is counted exactly when s has no vowel, and every character is counted
      exactly when every character is a vowel. */
  lemma {:induction false} CountVowelsExtremes(s: string)
    ensures CountVowels(s) == 0 <==> forall i :: 0 <= i < |s| ==> s[i] !in Vowels
    ensures CountVowels(s) == |s| <==> forall i :: 0 <= i < |s| ==> s[i] in Vowels
    decreases |s|
  {
    if s != [] {
      CountVowelsExtremes(s[1..]);
      assert forall i :: 1 <= i < |s| ==> s[i] == s[1..][i - 1];
    }
  }

  /** Membership in "aeiouAEIOU", spelled out character by character. */
  lemma VowelMembership(c: char)
    ensures c in Vowels <==> c in {'a', 'e', 'i', 'o', 'u', 'A', 'E', 'I', 'O', 'U'}
  {
    if c in Vowels {
      var i :| 0 <= i < |Vowels| && Vowels[i] == c;
    }
  }

  /** count_vowels("hello") is 2. */
  lemma CountVowelsHello()
    ensures CountVowels("hello") == 2
  {
    VowelMembership('h'); VowelMembership('e'); VowelMembership('l'); VowelMembership('o');
    assert "hello"[1..] == "ello" && "ello"[1..] == "llo" && "llo"[1..] == "lo" && "lo"[1..] == "o";
  }

  /** Upper- and lower-case vowels count alike. */
  lemma CountVowelsCaseAlike()
    ensures CountVowels("HELLO") == 2
    ensures CountVowels("AEIOU") == CountVowels("aeiou") == 5
  {
    VowelMembership('H'); VowelMembership('E'); VowelMembership('L'); VowelMembership('O');
    assert "HELLO"[1..] == "ELLO" && "ELLO"[1..] == "LLO" && "LLO"[1..] == "LO" && "LO"[1..] == "O";
    AllVowels("AEIOU");
    AllVowels("aeiou");
  }

  lemma AllVowels(s: string)
    requires forall i :: 0 <= i < |s| ==> s[i] in {'a', 'e', 'i', 'o', 'u', 'A', 'E', 'I', 'O', 'U'}
    ensures CountVowels(s) == |s|
  {
    forall i | 0 <= i < |s| ensures s[i] in Vowels {
      VowelMembership(s[i]);
    }
    CountVowelsExtremes(s);
  }
}
