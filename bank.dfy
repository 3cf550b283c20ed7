/** The bank-account hierarchy of OOP/bank.py.

    The source has a base class BankAccount and two subclasses that add one
    constant each. Here the three classes are one class, Account, whose
    constant `kind` says which of the three it was created as; every method
    that a subclass overrides dispatches on that tag. The balance is a
    `real`: the source's floating-point rounding is not modelled. */
module Bank {

  /** Which class of the hierarchy an account is, with the subclass's constant. */
  datatype Kind =
    | Plain                              // BankAccount
    | Savings(interestRate: real)        // SavingsAccount
    | Checking(overdraftFee: real)       // CheckingAccount

  /** A request a caller can make of an account. */
  datatype Request = Deposit(amount: real) | Withdraw(amount: real) | ApplyInterest

  // The effect of each operation on the balance, as functions of the balance.

  /** BankAccount.deposit: only a positive amount is credited. */
  function Deposited(balance: real, amount: real): real {
    if amount > 0.0 then balance + amount else balance
  }

  /** The guard of BankAccount.withdraw: a positive amount the funds cover. */
  predicate CanWithdraw(balance: real, amount: real) {
    0.0 < amount <= balance
  }

  /** BankAccount.withdraw: a refused withdrawal changes nothing. */
  function Withdrawn(balance: real, amount: real): real {
    if CanWithdraw(balance, amount) then balance - amount else balance
  }

  /** CheckingAccount.withdraw: within the balance it is the base withdrawal;
      beyond it the amount and the flat fee are both charged, with no floor. */
  function CheckingWithdrawn(balance: real, amount: real, fee: real): real {
    if amount <= balance then Withdrawn(balance, amount) else balance - amount - fee
  }

  /** SavingsAccount.apply_interest: the interest is credited through deposit. */
  function WithInterest(balance: real, rate: real): real {
    Deposited(balance, balance * rate)
  }

  /** A request the account's class offers: only savings accounts apply interest. */
  predicate Offers(kind: Kind, req: Request) {
    req.ApplyInterest? ==> kind.Savings?
  }

  predicate OffersAll(kind: Kind, reqs: seq<Request>) {
    forall i :: 0 <= i < |reqs| ==> Offers(kind, reqs[i])
  }

  /** The balance after one request, with the method the account's class uses. */
  function Apply(kind: Kind, balance: real, req: Request): real
    requires Offers(kind, req)
  {
    match req
    case Deposit(amount) => Deposited(balance, amount)
    case Withdraw(amount) =>
      if kind.Checking? then CheckingWithdrawn(balance, amount, kind.overdraftFee)
      else Withdrawn(balance, amount)
    case ApplyInterest => WithInterest(balance, kind.interestRate)
  }

  /** The balance after a sequence of requests, in order. */
  function Run(kind: Kind, balance: real, reqs: seq<Request>): real
    requires OffersAll(kind, reqs)
    decreases |reqs|
  {
    if reqs == [] then balance
    else Run(kind, Apply(kind, balance, reqs[0]), reqs[1..])
  }

  /** One request never makes a non-negative balance negative, unless the
      account is a checking account, whose overdraft branch has no floor. */
  lemma StepKeepsNonNegative(kind: Kind, balance: real, req: Request)
    requires !kind.Checking? && Offers(kind, req) && balance >= 0.0
    ensures Apply(kind, balance, req) >= 0.0
  {
  }

  /** Interest goes through deposit's positivity guard, so it never lowers
      the balance: it is added when it is positive and ignored otherwise. */
  lemma InterestNeverDecreases(balance: real, rate: real)
    ensures WithInterest(balance, rate) >= balance
    ensures balance * rate > 0.0 ==> WithInterest(balance, rate) == balance + balance * rate
    ensures balance * rate <= 0.0 ==> WithInterest(balance, rate) == balance
  {
  }

  /** A plain or savings account that starts non-negative stays non-negative
      under any sequence of deposits, withdrawals and interest payments. */
  lemma {:induction false} RunKeepsNonNegative(kind: Kind, balance: real, reqs: seq<Request>)
    requires !kind.Checking? && OffersAll(kind, reqs) && balance >= 0.0
    ensures Run(kind, balance, reqs) >= 0.0
    decreases |reqs|
  {
    if reqs != [] {
      StepKeepsNonNegative(kind, balance, reqs[0]);
      assert OffersAll(kind, reqs[1..]) by {
        forall i | 0 <= i < |reqs[1..]| ensures Offers(kind, reqs[1..][i]) {
          assert reqs[1..][i] == reqs[i + 1];
        }
      }
      RunKeepsNonNegative(kind, Apply(kind, balance, reqs[0]), reqs[1..]);
    }
  }

  /** Two requests in a row are applied one after the other. */
  lemma RunTwo(kind: Kind, balance: real, first: Request, second: Request)
    requires Offers(kind, first) && Offers(kind, second)
    ensures OffersAll(kind, [first, second])
    ensures Run(kind, balance, [first, second]) == Apply(kind, Apply(kind, balance, first), second)
  {
    var reqs := [first, second];
    var middle := Apply(kind, balance, first);
    assert reqs[0] == first && reqs[1..] == [second];
    assert Run(kind, middle, [second]) == Run(kind, Apply(kind, middle, second), []);
  }

  /** Depositing a positive amount and withdrawing it again restores a
      non-negative balance, for every kind of account: the withdrawal is
      within the balance, so even a checking account takes the base path. */
  lemma DepositThenWithdraw(kind: Kind, balance: real, amount: real)
    requires balance >= 0.0 && amount > 0.0
    ensures OffersAll(kind, [Deposit(amount), Withdraw(amount)])
    ensures Run(kind, balance, [Deposit(amount), Withdraw(amount)]) == balance
  {
    RunTwo(kind, balance, Deposit(amount), Withdraw(amount));
  }

  /** On an overdrawn checking account the same round trip is not neutral:
      the withdrawal exceeds the balance, so the overdraft fee is charged. */
  lemma OverdrawnDepositThenWithdraw(fee: real, balance: real, amount: real)
    requires balance < 0.0 && amount > 0.0
    ensures OffersAll(Checking(fee), [Deposit(amount), Withdraw(amount)])
    ensures Run(Checking(fee), balance, [Deposit(amount), Withdraw(amount)]) == balance - fee
  {
    RunTwo(Checking(fee), balance, Deposit(amount), Withdraw(amount));
  }

  /** The overdraft branch never checks that the amount is positive: on an
      overdrawn checking account, a non-positive "withdrawal" above the
      balance is charged (a negative amount is credited) and the fee taken,
      where the base withdrawal would refuse it and change nothing. */
  lemma OverdraftAcceptsNegativeAmount(balance: real, amount: real, fee: real)
    requires balance < amount <= 0.0
    ensures CheckingWithdrawn(balance, amount, fee) == balance - amount - fee
    ensures Withdrawn(balance, amount) == balance
  {
  }

  /** One instance: withdrawing -50 from a balance of -100 with a fee of 35
      leaves -85, where the base withdrawal leaves -100. */
  lemma OverdraftNegativeAmountExample()
    ensures CheckingWithdrawn(-100.0, -50.0, 35.0) == -85.0
    ensures Withdrawn(-100.0, -50.0) == -100.0
  {
  }

  /** An account of any of the three classes. */
  class Account {
    /** Set once by the constructor; no method of the source reassigns it. */
    const owner: string
    /** The class the account was created as; fixed for its lifetime. */
    const kind: Kind
    /** The private balance of the source, updated in place. */
    var balance: real

    /** BankAccount.__init__, with the subclass's constant carried by `kind`. */
    constructor (owner: string, initialBalance: real, kind: Kind)
      ensures this.owner == owner && this.kind == kind && balance == initialBalance
    {
      this.owner := owner;
      this.kind := kind;
      balance := initialBalance;
    }

    /** BankAccount._get_balance */
    function GetBalance(): (b: real)
      reads this
      ensures b == balance
    {
      balance
    }

    /** BankAccount._set_balance: overwrites the balance with no check. */
    method SetBalance(amount: real)
      modifies this
      ensures balance == amount
    {
      balance := amount;
    }

    /** CheckingAccount._get_owner: the owner given at construction. Only
        checking accounts define it. */
    function GetOwner(): (o: string)
      requires kind.Checking?
      ensures o == owner
    {
      owner
    }

    /** BankAccount.deposit */
    method Deposit(amount: real)
      modifies this
      ensures amount > 0.0 ==> balance == old(balance) + amount
      ensures amount <= 0.0 ==> balance == old(balance)
      ensures balance == Apply(kind, old(balance), Request.Deposit(amount))
    {
      if amount > 0.0 {
        balance := balance + amount;
      }
    }

    /** BankAccount.withdraw, which CheckingAccount.withdraw reaches through super(). */
    method BaseWithdraw(amount: real)
      modifies this
      ensures balance != old(balance) <==> 0.0 < amount <= old(balance)
      ensures CanWithdraw(old(balance), amount) ==> balance == old(balance) - amount
      ensures !CanWithdraw(old(balance), amount) ==> balance == old(balance)
      ensures balance == Withdrawn(old(balance), amount)
    {
      if amount > 0.0 && amount <= balance {
        balance := balance - amount;
      }
    }

    /** `withdraw` as the account's class defines it: the base method for a
        plain or savings account, the overriding one for a checking account. */
    method Withdraw(amount: real)
      modifies this
      ensures !kind.Checking? ==> balance == Withdrawn(old(balance), amount)
      ensures kind.Checking? && amount <= old(balance) ==> balance == Withdrawn(old(balance), amount)
      ensures kind.Checking? && amount > old(balance) ==>
                balance == old(balance) - amount - kind.overdraftFee
      ensures kind.Checking? && amount > old(balance) && kind.overdraftFee >= 0.0 ==> balance < 0.0
      ensures balance == Apply(kind, old(balance), Request.Withdraw(amount))
    {
      if kind.Checking? {
        var current := GetBalance();
        if amount <= current {
          BaseWithdraw(amount);
        } else {
          var newBalance := current - amount - kind.overdraftFee;
          SetBalance(newBalance);
        }
      } else {
        BaseWithdraw(amount);
      }
    }

    /** SavingsAccount.apply_interest: balance * rate, credited through Deposit. */
    method ApplyInterest()
      requires kind.Savings?
      modifies this
      ensures old(balance) * kind.interestRate > 0.0 ==>
                balance == old(balance) + old(balance) * kind.interestRate
      ensures old(balance) * kind.interestRate <= 0.0 ==> balance == old(balance)
      ensures balance == Apply(kind, old(balance), Request.ApplyInterest)
    {
      var current := GetBalance();
      var interest := current * kind.interestRate;
      Deposit(interest);
    }

    /** A sequence of requests made of this account one after another, each
        through the method the account's class uses. */
    method Perform(reqs: seq<Request>)
      requires OffersAll(kind, reqs)
      modifies this
      ensures balance == Run(kind, old(balance), reqs)
    {
      var i := 0;
      while i < |reqs|
        invariant 0 <= i <= |reqs|
        invariant OffersAll(kind, reqs[i..])
        invariant Run(kind, balance, reqs[i..]) == Run(kind, old(balance), reqs)
      {
        ghost var before := balance;
        assert reqs[i..][0] == reqs[i] && reqs[i..][1..] == reqs[i + 1..];
        match reqs[i] {
          case Deposit(amount) => Deposit(amount);
          case Withdraw(amount) => Withdraw(amount);
          case ApplyInterest => ApplyInterest();
        }
        assert balance == Apply(kind, before, reqs[i]);
        i := i + 1;
      }
      assert reqs[i..] == [];
    }
  }

  /** The script at the bottom of OOP/bank.py: three accounts, each given
      deposit(100) then withdraw(50), then interest for the savings account.
      Returns each final balance; Bob's interest is in real arithmetic. */
  method Demo() returns (alice: real, bob: real, carol: real, bobWithInterest: real)
    ensures alice == 550.0 && bob == 1050.0 && carol == 250.0
    ensures bobWithInterest == 1050.0 + 1050.0 * 0.03
  {
    var acctBase := new Account("Alice", 500.0, Plain);
    var acctSavings := new Account("Bob", 1000.0, Savings(0.03));
    var acctChecking := new Account("Carol", 200.0, Checking(35.0));
    var accounts := [acctBase, acctSavings, acctChecking];
    ghost var initial := [500.0, 1000.0, 200.0];
    ghost var script := [Request.Deposit(100.0), Request.Withdraw(50.0)];

    var i := 0;
    while i < |accounts|
      invariant 0 <= i <= |accounts|
      invariant forall j :: 0 <= j < i ==> accounts[j].balance == Run(accounts[j].kind, initial[j], script)
      invariant forall j :: i <= j < |accounts| ==> accounts[j].balance == initial[j]
    {
      var acc := accounts[i];
      acc.Deposit(100.0);
      ghost var afterDeposit := acc.balance;
      acc.Withdraw(50.0);
      assert script[1..] == [Request.Withdraw(50.0)];
      assert acc.balance == Run(acc.kind, afterDeposit, script[1..]);
      i := i + 1;
    }
    assert accounts[0] == acctBase && accounts[1] == acctSavings && accounts[2] == acctChecking;
    RunTwo(Plain, 500.0, script[0], script[1]);
    RunTwo(Savings(0.03), 1000.0, script[0], script[1]);
    RunTwo(Checking(35.0), 200.0, script[0], script[1]);
    // Carol's withdrawal of 50 is within her balance of 300: no overdraft.
    assert CanWithdraw(300.0, 50.0);
    alice, bob, carol := acctBase.balance, acctSavings.balance, acctChecking.balance;

    i := 0;
    while i < |accounts|
      invariant 0 <= i <= |accounts|
      invariant acctBase.balance == alice && acctChecking.balance == carol
      invariant acctSavings.balance == if i <= 1 then bob else WithInterest(bob, 0.03)
    {
      var acc := accounts[i];
      if acc.kind.Savings? {
        acc.ApplyInterest();
      }
      i := i + 1;
    }
    bobWithInterest := acctSavings.balance;
  }
}
