/** The object-oriented lesson: BankAccount, whose deposit and withdraw update a protected
    balance in place with a guard against overdraft, and the Dog class variable `species`,
    shared by every instance and reassigned by the class method change_species. */
module ObjectOriented {

  // ---------------------------------------------------------------------------
  // BankAccount

  /** One call on an account, for reasoning about sequences of calls. */
  datatype Transaction = Deposit(amount: int) | Withdraw(amount: int)

  /** The balance after one transaction; a withdrawal larger than the balance is refused. */
  function Apply(balance: int, t: Transaction): (r: int)
    ensures t.Deposit? ==> r - balance == t.amount
    ensures t.Withdraw? && t.amount > balance ==> r == balance
    ensures t.Withdraw? && t.amount <= balance ==> balance - r == t.amount
  {
    match t
    case Deposit(amount) => balance + amount
    case Withdraw(amount) => if amount > balance then balance else balance - amount
  }

  /** The balance after a sequence of transactions, applied in order. Non-negative
      deposits alone never lower the balance; non-negative withdrawals alone never raise
      it, nor take a non-negative balance below 0. */
  function ApplyAll(balance: int, ts: seq<Transaction>): (r: int)
    decreases |ts|
    ensures (forall i :: 0 <= i < |ts| ==> ts[i].Deposit? && ts[i].amount >= 0) ==> r >= balance
    ensures (forall i :: 0 <= i < |ts| ==> ts[i].Withdraw? && ts[i].amount >= 0) ==>
      r <= balance && (balance >= 0 ==> r >= 0)
  {
    if ts == [] then balance else ApplyAll(Apply(balance, ts[0]), ts[1..])
  }

  predicate NonNegativeAmounts(ts: seq<Transaction>)
  {
    forall i :: 0 <= i < |ts| ==> ts[i].amount >= 0
  }

  /** With non-negative amounts, a non-negative balance stays non-negative across any
      sequence of deposits and withdrawals. */
  lemma {:induction false} BalanceStaysNonNegative(balance: int, ts: seq<Transaction>)
    requires balance >= 0
    requires NonNegativeAmounts(ts)
    ensures ApplyAll(balance, ts) >= 0
    decreases |ts|
  {
    if ts != [] {
      assert NonNegativeAmounts(ts[1..]) by {
        forall i | 0 <= i < |ts[1..]| ensures ts[1..][i].amount >= 0 {
          assert ts[1..][i] == ts[i + 1];
        }
      }
      BalanceStaysNonNegative(Apply(balance, ts[0]), ts[1..]);
    }
  }

  /** Withdrawing the whole balance is allowed and leaves 0; withdrawing one more is refused. */
  lemma WithdrawWholeBalance(balance: int)
    ensures Apply(balance, Withdraw(balance)) == 0
    ensures Apply(balance, Withdraw(balance + 1)) == balance
  {
  }

  /** Transactions compose: running ts then us is running ts + us. */
  lemma {:induction false} ApplyAllAppend(balance: int, ts: seq<Transaction>, us: seq<Transaction>)
    ensures ApplyAll(balance, ts + us) == ApplyAll(ApplyAll(balance, ts), us)
    decreases |ts|
  {
    if ts != [] {
      assert (ts + us)[1..] == ts[1..] + us;
      ApplyAllAppend(Apply(balance, ts[0]), ts[1..], us);
    } else {
      assert ts + us == us;
    }
  }

  class BankAccount {
    var balance: int

    constructor (balance: int)
      ensures this.balance == balance
    {
      this.balance := balance;
    }

    /** deposit(amount): the balance grows by exactly amount. */
    method Deposit(amount: int)
      modifies this
      ensures balance == old(balance) + amount
      ensures balance == Apply(old(balance), Transaction.Deposit(amount))
    {
      balance := balance + amount;
    }

    /** withdraw(amount): refused, reporting insufficient funds and leaving the balance
        alone, when amount exceeds the balance; otherwise the balance shrinks by amount. */
    method Withdraw(amount: int) returns (insufficient: bool)
      modifies this
      ensures insufficient <==> amount > old(balance)
      ensures insufficient ==> balance == old(balance)
      ensures !insufficient ==> balance == old(balance) - amount
      ensures balance == Apply(old(balance), Transaction.Withdraw(amount))
    {
      if amount > balance {
        insufficient := true;
      } else {
        insufficient := false;
        balance := balance - amount;
      }
    }

    /** get_balance(): the balance; nothing changes. */
    method GetBalance() returns (b: int)
      ensures b == balance
    {
      b := balance;
    }
  }

  /** Runs a sequence of transactions on an account, one call per transaction. */
  method Run(account: BankAccount, ts: seq<Transaction>)
    modifies account
    ensures account.balance == ApplyAll(old(account.balance), ts)
  {
    for i := 0 to |ts|
      invariant ApplyAll(old(account.balance), ts) == ApplyAll(account.balance, ts[i..])
    {
      assert ts[i..][1..] == ts[i + 1..];
      match ts[i]
      case Deposit(amount) =>
        account.Deposit(amount);
      case Withdraw(amount) =>
        var _ := account.Withdraw(amount);
    }
  }

  /** The lesson's trace: 1000, deposit 500 gives 1500, withdrawing 2000 is refused,
      withdrawing 100 gives 1400. */
  method BankAccountExample() returns (afterDeposit: int, refused: bool, final: int)
    ensures afterDeposit == 1500 && refused && final == 1400
  {
    var account := new BankAccount(1000);
    account.Deposit(500);
    afterDeposit := account.GetBalance();
    refused := account.Withdraw(2000);
    var _ := account.Withdraw(100);
    final := account.GetBalance();
  }

  // ---------------------------------------------------------------------------
  // Dog: the class variable `species` and the class method change_species

  /** The class object Dog itself, which holds the class variable `species`. */
  class DogClass {
    var species: string

    constructor ()
      ensures species == "Canis lupus familiaris"
    {
      species := "Canis lupus familiaris";
    }

    /** change_species(cls, new_species): reassigns the class variable, so every instance
        of this class then reads the new value. */
    method ChangeSpecies(newSpecies: string, ghost dogs: set<Dog>)
      requires forall d :: d in dogs ==> d.cls == this
      modifies this
      ensures species == newSpecies
      ensures forall d :: d in dogs ==> d.Species() == newSpecies
    {
      species := newSpecies;
    }
  }

  /** An instance of Dog: its own name and breed, and its class. */
  class Dog {
    const name: string
    const breed: string
    const cls: DogClass

    constructor (cls: DogClass, name: string, breed: string)
      ensures this.cls == cls && this.name == name && this.breed == breed
    {
      this.cls := cls;
      this.name := name;
      this.breed := breed;
    }

    /** self.species: an instance without an attribute of its own reads the class's. */
    function Species(): (r: string)
      reads cls
      ensures r == cls.species
    {
      cls.species
    }
  }

  /** The lesson's trace: two dogs share the species "Canis lupus familiaris"; after
      Dog.change_species("New Species") both read "New Species". */
  method SpeciesExample() returns (before1: string, before2: string, after1: string, after2: string)
    ensures before1 == before2 == "Canis lupus familiaris"
    ensures after1 == after2 == "New Species"
  {
    var dogClass := new DogClass();
    var dog1 := new Dog(dogClass, "Buddy", "Golden Retriever");
    var dog2 := new Dog(dogClass, "Max", "Bulldog");
    before1, before2 := dog1.Species(), dog2.Species();
    dogClass.ChangeSpecies("New Species", {dog1, dog2});
    after1, after2 := dog1.Species(), dog2.Species();
  }
}
