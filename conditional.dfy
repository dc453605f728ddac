/** The conditionals lesson: an if/elif/else chain on x, the age conditions combined with
    `and`, `or` and `not`, the nested score grading, the ternary is_adult, and a `match`
    on an HTTP status code. Each printed line becomes the value the branch chooses. */
module Conditionals {

  /** The three branches of the if/elif/else chain on x. */
  datatype Comparison = LessThanFive | ExactlyTen | AtLeastFiveButNotTen

  /** `if x < 5: ... elif x == 10: ... else: ...`: exactly one branch is taken, and each
      branch is taken exactly when its own condition holds and no earlier one does. */
  function ClassifyX(x: int): (r: Comparison)
    ensures r == LessThanFive <==> x < 5
    ensures r == ExactlyTen <==> x == 10
    ensures r == AtLeastFiveButNotTen <==> 5 <= x && x != 10
  {
    if x < 5 then LessThanFive
    else if x == 10 then ExactlyTen
    else AtLeastFiveButNotTen
  }

  /** The if/else before it (`x < 5` or not) agrees with the first branch of the chain. */
  function LessThanFiveOrNot(x: int): (r: bool)
    ensures r <==> ClassifyX(x) == LessThanFive
  {
    if x < 5 then true else false
  }

  /** With x = 10 the if/else takes its else branch and the chain picks "exactly 10". */
  lemma ComparisonTrace()
    ensures !LessThanFiveOrNot(10)
    ensures ClassifyX(10) == ExactlyTen
  {
  }

  // ---------------------------------------------------------------------------
  // Age conditions

  /** `age > 18 and age < 30`: the young-adult message. Both bounds are strict: 18 and
      30 are excluded. */
  function IsYoungAdult(age: int): (r: bool)
    ensures r <==> 19 <= age <= 29
  {
    age > 18 && age < 30
  }

  /** `age < 18 or age > 60` selects the underage-or-senior message; its else branch, the
      working-age message, fires exactly for 18 <= age <= 60. */
  function InWorkingAgeGroup(age: int): (r: bool)
    ensures r <==> 18 <= age <= 60
  {
    if age < 18 || age > 60 then false else true
  }

  /** `not (age < 18)`: the not-a-minor message. */
  function NotMinor(age: int): (r: bool)
    ensures r <==> age >= 18
  {
    !(age < 18)
  }

  /** `True if age >= 18 else False`. */
  function IsAdult(age: int): (r: bool)
    ensures r <==> age >= 18
  {
    if age >= 18 then true else false
  }

  /** The ternary and the negated condition decide the same thing for every age, and the
      age groups nest: a young adult is of working age, and anyone of working age is an
      adult. Age 18 itself is of working age but not a young adult. */
  lemma AgeConditionsRelate(age: int)
    ensures IsAdult(age) == NotMinor(age)
    ensures IsYoungAdult(age) ==> InWorkingAgeGroup(age)
    ensures InWorkingAgeGroup(age) ==> IsAdult(age)
    ensures InWorkingAgeGroup(18) && !IsYoungAdult(18)
  {
  }

  /** The lesson's trace with age = 20: young adult, working age, not a minor, adult. */
  lemma AgeTrace()
    ensures IsYoungAdult(20)
    ensures InWorkingAgeGroup(20)
    ensures NotMinor(20) && IsAdult(20)
  {
  }

  // ---------------------------------------------------------------------------
  // Nested grading

  /** `if score >= 50: (if score >= 80: "Great job!" else "You passed!") else "You failed."` */
  function Grade(score: int): (r: string)
    ensures r == "Great job!" <==> score >= 80
    ensures r == "You passed!" <==> 50 <= score < 80
    ensures r == "You failed." <==> score < 50
  {
    if score >= 50 then
      if score >= 80 then "Great job!" else "You passed!"
    else
      "You failed."
  }

  /** The same grading written flat, highest threshold first, as an elif chain. */
  function FlatGrade(score: int): string
  {
    if score >= 80 then "Great job!"
    else if score >= 50 then "You passed!"
    else "You failed."
  }

  /** Where each message stands, worst first. */
  function Rank(message: string): nat
  {
    if message == "Great job!" then 2 else if message == "You passed!" then 1 else 0
  }

  /** The nested and the flat grading agree on every score, and a higher score never gets
      a worse message. */
  lemma GradeProperties(score: int, better: int)
    requires score <= better
    ensures Grade(score) == FlatGrade(score)
    ensures Rank(Grade(score)) <= Rank(Grade(better))
  {
  }

  /** score = 85 prints "Great job!"; the thresholds 80 and 50 are inclusive. */
  lemma GradeTrace()
    ensures Grade(85) == "Great job!"
    ensures Grade(80) == "Great job!" && Grade(79) == "You passed!"
    ensures Grade(50) == "You passed!" && Grade(49) == "You failed."
  {
  }

  // ---------------------------------------------------------------------------
  // match on a status code

  /** `match status_code`: 200, 404 and 500 have their own messages; the wildcard case
      answers every other code. */
  function StatusMessage(code: int): (r: string)
    ensures code == 200 ==> r == "OK"
    ensures code == 404 ==> r == "Not Found"
    ensures code == 500 ==> r == "Server Error"
    ensures r == "Unknown status code" <==> code != 200 && code != 404 && code != 500
  {
    match code
    case 200 => "OK"
    case 404 => "Not Found"
    case 500 => "Server Error"
    case _ => "Unknown status code"
  }

  /** Distinct known codes get distinct messages, so the message tells the code back. */
  lemma StatusMessageDistinguishes(c: int, d: int)
    requires StatusMessage(c) != "Unknown status code"
    requires StatusMessage(c) == StatusMessage(d)
    ensures c == d
  {
  }

  /** status_code = 200 prints "OK". */
  lemma StatusTrace()
    ensures StatusMessage(200) == "OK"
    ensures StatusMessage(302) == "Unknown status code"
  {
  }
}
