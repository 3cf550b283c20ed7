# Bank accounts, a remote-control iterator and a counting generator

A Dafny model of three small stateful pieces of a Python repository of
language-feature demonstrations:

- **Bank accounts** (`bank.dfy`, module `Bank`): a `BankAccount` with an owner
  and a balance; `deposit` and `withdraw` are guarded updates that leave the
  balance alone when the request is invalid. `SavingsAccount.apply_interest`
  credits `balance * rate` through `deposit`, so it inherits `deposit`'s
  positivity guard. `CheckingAccount.withdraw` overrides `withdraw`: within the
  balance it defers to the base method, beyond it it charges the amount and a
  flat overdraft fee with no floor and no check that the amount is positive.
  Dafny has no class inheritance here, so the three classes are one class
  `Account` whose constant `kind` (`Plain`, `Savings(rate)` or
  `Checking(fee)`) selects the overriding method, the way Python's dispatch
  does. The owner and the kind are `const`: nothing ever reassigns them.
  The functions `Deposited`, `Withdrawn`, `CheckingWithdrawn`, `WithInterest`,
  `Apply` and `Run` give each operation's effect on the balance as a value,
  and the methods are proved against them.
- **`RemoteControl`** (`remote_control.dfy`, module `Iteration`): a cursor
  `idx` over a fixed channel list; every `__next__` adds 2 to `idx` and then
  either stops (`StopIteration`, modelled as `None`) or yields
  `channels[idx - 1]`. The list is generalised to any list through the
  constructor `Over`; the source's own list is `Channels`.
- **`count_up_to`** (`count_up_to.dfy`, module `Generator`): an unbounded
  generator yielding 1, 2, 3, ... as an object with the generator's local
  `count` and a flag for whether the body has reached its first `yield`, and
  the `for`/`break` loop that prints 1 to 5 and stops on 6.

Balances are `real`: the model is an idealisation of Python's floats.

## Model

| member | source | states |
|---|---|---|
| Bank.Account.constructor | OOP/bank.py:2-4 | the owner, the initial balance and the account's class are those given; owner and class are constants, so no later operation changes them |
| Bank.Account.GetBalance | OOP/bank.py:24-25 | returns the current balance |
| Bank.Account.SetBalance | OOP/bank.py:27-28 | the balance becomes exactly the given amount, with no check |
| Bank.Account.GetOwner | OOP/bank.py:62-64 | on a checking account, the only class that defines it, returns the owner fixed at construction |
| Bank.Account.Deposit | OOP/bank.py:6-11 | a positive amount raises the balance by exactly that amount; any other amount leaves it unchanged |
| Bank.Account.BaseWithdraw | OOP/bank.py:13-18 | changes the balance iff 0 < amount <= balance, and then lowers it by exactly the amount; otherwise the balance is unchanged |
| Bank.Account.Withdraw | OOP/bank.py:51-58 | plain and savings accounts use the base withdrawal; a checking account within its balance behaves exactly as the base one (so a non-positive amount is a no-op); beyond it the balance becomes balance - amount - fee, which is negative whenever the fee is non-negative |
| Bank.Account.ApplyInterest | OOP/bank.py:37-40 | the balance becomes balance + balance * rate when that interest is positive, and is unchanged otherwise, because the interest goes through deposit's guard |
| Bank.InterestNeverDecreases | OOP/bank.py:37-40 | interest never lowers the balance, and is added exactly when balance * rate > 0 |
| Bank.StepKeepsNonNegative | OOP/bank.py:6-18 | a deposit, base withdrawal or interest payment keeps a non-negative balance non-negative |
| Bank.RunKeepsNonNegative | OOP/bank.py:6-18 | a plain or savings account that starts non-negative stays non-negative under any sequence of deposits, withdrawals and interest payments |
| Bank.DepositThenWithdraw | OOP/bank.py:6-18 | depositing a positive amount and withdrawing it again restores a non-negative balance, for every class of account |
| Bank.OverdrawnDepositThenWithdraw | OOP/bank.py:51-58 | on an overdrawn checking account the same round trip costs exactly the overdraft fee |
| Bank.OverdraftAcceptsNegativeAmount | OOP/bank.py:53-58 | for every overdrawn balance, non-positive amount above it and fee, the overdraft branch sets the balance to balance - amount - fee, where the base withdrawal would refuse and change nothing |
| Bank.OverdraftNegativeAmountExample | OOP/bank.py:53-58 | withdrawing -50 from -100 with fee 35 leaves -85, where the base withdrawal leaves -100 |
| Bank.Account.Perform | OOP/bank.py:76-78 | making a sequence of requests of an account, each through its class's method, leaves the balance `Run` gives from the old balance |
| Bank.Demo | OOP/bank.py:67-86 | after deposit(100) and withdraw(50) Alice has 550, Bob 1050 and Carol 250 (Carol's withdrawal is within her balance), and Bob's interest gives 1050 + 1050 * 0.03 in real arithmetic |
| Iteration.RemoteControl.constructor | iterator_generator/iteration.py:2-4 | a fresh remote control has idx 0 and the four-channel list |
| Iteration.RemoteControl.Over | iterator_generator/iteration.py:2-4 | the same fresh state over any channel list |
| Iteration.RemoteControl.Iter | iterator_generator/iteration.py:6-7 | returns the object itself, so iteration shares its cursor |
| Iteration.RemoteControl.Next | iterator_generator/iteration.py:9-14 | idx grows by exactly 2 on every call; the call stops iff idx passes the end of the list, and otherwise idx - 1 is a valid index and the value is channels[idx - 1] |
| Iteration.Results | iterator_generator/iteration.py:9-14 | k successive calls give k results |
| Iteration.ResultAt | iterator_generator/iteration.py:10-14 | the k-th of successive calls sees the cursor advanced by 2k |
| Iteration.FreshResult | iterator_generator/iteration.py:4-14 | from a fresh remote control, call k yields channels[2k - 1] when 2k is within the list's length, and stops otherwise |
| Iteration.StopIsFinal | iterator_generator/iteration.py:10-12 | once a call stops, every later call stops too |
| Iteration.SuccessesFrom | iterator_generator/iteration.py:10-14 | from cursor 2m, the number of calls that yield a value is the number of channel pairs left past position 2m, capped by the number of calls |
| Iteration.SuccessCount | iterator_generator/iteration.py:4-14 | a fresh remote control over a list of length n yields values on exactly floor(n / 2) calls |
| Iteration.ChannelsResults | iterator_generator/iteration.py:3-14 | for the source's list the calls give "CNN", then "ESPN", then a stop |
| Iteration.CallNext | iterator_generator/iteration.py:9-14 | any number of successive next calls, from any cursor, return exactly `Results` over the list from that cursor, and advance the cursor by twice the number of calls |
| Iteration.FreshCalls | iterator_generator/iteration.py:2-14 | on a fresh remote control over any list of length n, call k yields channels[2k - 1] while 2k <= n and stops afterwards, and exactly floor(n / 2) of the calls (capped by their number) yield a value |
| Iteration.Driver | iterator_generator/iteration.py:16-19 | the two next calls of the script return "CNN" and "ESPN" |
| Generator.Counting | iterator_generator/generator.py:1-5 | the first k values yielded form a sequence of length k |
| Generator.CountingAt | iterator_generator/generator.py:2-5 | the k-th value yielded is k |
| Generator.CountingShape | iterator_generator/generator.py:2-5 | the first value is 1, each value is the previous plus 1, and the values are positive and strictly increasing |
| Generator.CountUpTo.constructor | iterator_generator/generator.py:1 | a new generator has yielded nothing |
| Generator.CountUpTo.Next | iterator_generator/generator.py:2-5 | every resumption yields a value, with no end; the first yields 1 and each later one the previous value plus 1 |
| Generator.FirstYields | iterator_generator/generator.py:1-5 | the first k values drawn from a fresh generator are exactly 1, 2, ..., k |
| Generator.Driver | iterator_generator/generator.py:8-12 | the loop prints exactly 1, 2, 3, 4, 5 in order and terminates on reading 6 |

## Left out

- Printing: every `print`, including `check_balance` (OOP/bank.py:20-21), which only prints, and the `:.2f` / `:.1f` formatting of `apply_interest`.
- Floating-point semantics: balances and `balance * interest_rate` are real numbers, so the demo's result after interest is stated in real arithmetic, not as the float the source computes.
- Bank.Account.Withdraw: the Python subclass fields `interest_rate` and `overdraft_fee` are ordinary attributes a caller could reassign; here they are constants of the account's kind, since nothing in the source reassigns them.
- Bank.Account.GetOwner: requires a checking account, since `_get_owner` exists only on `CheckingAccount`; calling it on another class is an attribute error in Python, not modelled.
- Bank.Account.ApplyInterest: requires a savings account, since the method exists only on `SavingsAccount`; calling it on another class is an attribute error in Python, not modelled.
- Iteration.RemoteControl.Next: `channels` is a constant and `idx` a `nat`; Python code outside the class could rebind either, which no code in the source does.
- The Python iteration protocol itself (`iter`, `next`, a `for` loop calling `__next__` until `StopIteration`) is modelled by explicit method calls; `StopIteration` is `None`.
- Generics over the channel element type: channel names are strings, as in the source.
- The other files of the repository (exception handling on a file, threads, a timing decorator and a unit test against a module not in the repository) are not part of this model: they consist of I/O, concurrency and wall-clock timing.
