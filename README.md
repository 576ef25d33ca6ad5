# Bank account ledger

A model of the account of the Go package `bank`: an `Account`
owned by a `Customer` (name, address, phone), identified by a `Number`, with a
`Balance` that is the only thing the operations change.

- `Deposit(amount)` adds a positive amount to the balance and refuses a zero
  or negative one (`InvalidAmount`), leaving the balance as it was.
- `Withdraw(amount)` takes an amount out of the balance and refuses one that
  exceeds it (`InsufficientFunds`), leaving the balance as it was.
- `Transfer(amount, dest)` is a withdrawal from this account followed by a
  deposit into `dest`; when the withdrawal is refused, neither balance moves.
- `Statement()` renders `"<Number> - <Name> - <Balance>"` with both numbers in
  decimal.

The model follows the behaviour that the package's test suite,
`src/bankcore/bank_test.go`, pins down.

Layout:

- `decimal.dfy`, module `Decimal`: decimal text of an integer (`IntToString`,
  a `-` sign before the digits of a negative number, no leading zeros) and the
  parser `ParseInt`, which accepts exactly the texts `IntToString` prints.
- `bank.dfy`, module `Bank`: the `Customer` datatype; the balance arithmetic
  as pure functions (`Credit` for a deposit, `Debit` for a withdrawal, `Move`
  for a transfer) returning either the new balance(s) or an `Error`; the
  statement line `StatementText` with its parser `ParseStatement`, which
  accepts exactly the lines `StatementText` prints; and the
  `Account` class, whose methods update `Balance` in place, touch nothing but
  `Balance` (their `modifies` frames name that field alone), and are proved
  to agree with the pure functions. A Go `error` return is an `Outcome`: `Pass`
  for nil, `Fail(e)` otherwise.
- `bank_tests.dfy`, module `BankTests`: each test of the suite as a method
  that builds the same accounts, makes the same calls and proves in its
  postcondition what the test checks. `TransferScenario` proves both balances
  after the transfer; the test itself, at `src/bankcore/bank_test.go:118`,
  joins its two checks with `&&`, so it would only notice a transfer that got
  both balances wrong.

## Model

| member | source | states |
|---|---|---|
| `Bank.Credit` | src/bankcore/bank_test.go:34-54 | a deposit succeeds exactly when the amount is positive and then raises the balance by exactly the amount; otherwise it fails with `InvalidAmount` |
| `Bank.Debit` | src/bankcore/bank_test.go:68-73 | a withdrawal succeeds exactly when 0 < amount <= balance, lowers the balance by exactly the amount and never leaves it negative; otherwise it fails with `InvalidAmount` or `InsufficientFunds` |
| `Bank.Move` | src/bankcore/bank_test.go:116-146 | a transfer succeeds exactly when 0 < amount <= source balance; the source loses the amount, the destination gains it, the sum of the two is conserved; a failed transfer fails with the withdrawal's error |
| `Bank.DepositThenWithdraw` | src/bankcore/bank_test.go:68-73 | a deposit followed by a withdrawal of the same amount returns a non-negative balance to its original value |
| `Bank.WithdrawAll` | src/bankcore/bank_test.go:68-73 | withdrawing the whole of a positive balance succeeds and leaves 0 |
| `Bank.BalancesStayNonNegative` | src/bankcore/bank_test.go:144-146 | no successful deposit, withdrawal or transfer drives a non-negative balance below zero |
| `Bank.StatementRoundTrip` | src/bankcore/bank_test.go:87-91 | the statement line parses back into the number, the name (whatever characters it holds) and the balance it was printed from |
| `Bank.ParseStatementSound` | src/bankcore/bank_test.go:87-91 | every line the statement parser accepts is exactly the statement line of the number, name and balance it returns, so a line with a leading zero or any other non-decimal number is not a statement |
| `Bank.StatementInjective` | src/bankcore/bank_test.go:87-91 | two statement lines are equal only when number, name and balance are all equal |
| `Bank.Account.constructor` | src/bankcore/bank_test.go:8-20 | an account is built with the given customer, number and balance, so a customer named "John" gives a non-empty name |
| `Bank.Account.Deposit` | src/bankcore/bank_test.go:34-54 | the error return and the new balance are those of `Credit` on the old balance (unchanged on error); customer and number are unchanged |
| `Bank.Account.Withdraw` | src/bankcore/bank_test.go:68-73 | the error return and the new balance are those of `Debit` on the old balance (unchanged on error); customer and number are unchanged |
| `Bank.Account.Transfer` | src/bankcore/bank_test.go:116-146 | the error return and both new balances are those of `Move` (neither balance changes on error); the sum of the two balances is conserved; only the two `Balance` fields change |
| `Bank.Account.Statement` | src/bankcore/bank_test.go:87-91 | the statement is a read of the account whose text parses back to the account's number, customer name and balance |
| `Decimal.NatToString` | src/bankcore/bank_test.go:89 | the decimal text of a natural number is a non-empty run of digits with no leading zero; zero is "0" |
| `Decimal.IntToString` | src/bankcore/bank_test.go:89 | the decimal text of an integer starts with '-' exactly when it is negative, is otherwise all digits, has no leading zero after the sign, and zero is "0" |
| `Decimal.IntToStringRoundTrip` | src/bankcore/bank_test.go:89 | parsing the decimal text of any integer gives that integer back |
| `Decimal.ParseIntSound` | src/bankcore/bank_test.go:89 | every text the integer parser accepts is exactly the decimal text of the integer it returns |
| `Decimal.IntToStringInjective` | src/bankcore/bank_test.go:89 | distinct integers have distinct decimal texts |
| `BankTests.AccountScenario` | src/bankcore/bank_test.go:7-21 | an account built for "John" has a non-empty name |
| `BankTests.DepositScenario` | src/bankcore/bank_test.go:23-39 | depositing 10 into an empty account succeeds and leaves 10 |
| `BankTests.DepositInvalidScenario` | src/bankcore/bank_test.go:41-55 | depositing -10 fails with `InvalidAmount` and the balance stays 0 |
| `BankTests.WithdrawScenario` | src/bankcore/bank_test.go:57-74 | depositing 10 then withdrawing 10 succeeds and leaves 0 |
| `BankTests.StatementScenario` | src/bankcore/bank_test.go:76-93 | after a deposit of 100, account 1001 of John prints exactly "1001 - John - 100" |
| `BankTests.ZeroBalanceStatementScenario` | src/bankapi/main_test.go:12-30 | account 1001 of John with a zero balance prints exactly "1001 - John - 0" |
| `BankTests.TransferScenario` | src/bankcore/bank_test.go:95-121 | transferring 100 from 1100 to 0 succeeds and leaves 1000 and 100 |
| `BankTests.TransferInvalidScenario` | src/bankcore/bank_test.go:123-147 | transferring 100 out of an empty account fails with `InsufficientFunds` and both balances stay 0 |

## Left out

- The HTTP statement endpoint and the process-wide `accounts` registry of `src/bankapi/main_test.go`: request routing, query parsing and the response body are I/O around a `Statement()` call that is modelled above.
- Concurrency: balances and the registry have no locking; the model is a single-threaded sequence of calls.
- Numeric width and floating point: `Number` and `Balance` are unbounded integers; no overflow and no float formatting is modelled (the tests use whole numbers only).
- `Address` and `Phone` are carried as data; nothing reads them.
- Bank.Account.Withdraw: the tests do not say what a zero or negative withdrawal does; the model refuses it with `InvalidAmount`, the same check `Deposit` makes, and a transfer of such an amount is refused by that withdrawal.
- Bank.Account.Transfer: requires `dest != this`; a transfer from an account to itself is not covered by the tests and is not modelled.
