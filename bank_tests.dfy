/**
 * The scenarios of the package's test suite, each a method whose
 * postcondition is what the test asserts about the accounts it builds.
 */
module BankTests {
  import opened Bank

  /** An account built from a customer named "John" carries a non-empty name. */
  method AccountScenario() returns (name: string)
    ensures name != ""
  {
    var account := new Account(Customer("John", "Los Angeles, California", "(213) 555 0417"), 1001, 0);
    name := account.Customer.Name;
  }

  /** A deposit of 10 into an empty account leaves a balance of 10. */
  method DepositScenario() returns (err: Outcome, balance: int)
    ensures err == Pass && balance == 10
  {
    var account := new Account(Customer("John", "Los Angeles, California", "(213) 555 0147"), 1001, 0);
    err := account.Deposit(10);
    balance := account.Balance;
  }

  /** A deposit of -10 is refused, and the balance stays 0. */
  method DepositInvalidScenario() returns (err: Outcome, balance: int)
    ensures err == Fail(InvalidAmount) && balance == 0
  {
    var account := new Account(Customer("John", "Los Angeles, California", "(213) 555 0147"), 1001, 0);
    err := account.Deposit(-10);
    balance := account.Balance;
  }

  /** Depositing 10 and withdrawing 10 brings the balance back to 0. */
  method WithdrawScenario() returns (err: Outcome, balance: int)
    ensures err == Pass && balance == 0
  {
    var account := new Account(Customer("John", "Los Angeles, California", "(213) 555 0417"), 1001, 0);
    var _ := account.Deposit(10);
    err := account.Withdraw(10);
    balance := account.Balance;
  }

  /** After a deposit of 100, account 1001 of John prints "1001 - John - 100". */
  method StatementScenario() returns (statement: string)
    ensures statement == "1001 - John - 100"
  {
    var account := new Account(Customer("John", "Los Angeles, California", "(213) 555 0417"), 1001, 0);
    var _ := account.Deposit(100);
    statement := account.Statement();
    assert Decimal.NatToString(1001) == "1001";
    assert Decimal.NatToString(100) == "100";
  }

  /** Account 1001 of John, built with a zero balance, prints "1001 - John - 0". */
  method ZeroBalanceStatementScenario() returns (statement: string)
    ensures statement == "1001 - John - 0"
  {
    var account := new Account(Customer("John", "Los Angeles, California", "(213) 555 0147"), 1001, 0);
    statement := account.Statement();
    assert statement == StatementText(1001, "John", 0);
    assert Decimal.IntToString(1001) == "1001";
    assert Decimal.IntToString(0) == "0";
  }

  /** A transfer of 100 from a balance of 1100 to one of 0 leaves 1000 and 100. */
  method TransferScenario() returns (err: Outcome, balanceA: int, balanceB: int)
    ensures err == Pass && balanceA == 1000 && balanceB == 100
  {
    var accountA := new Account(Customer("Bruma", "Vegeta's Palace", "(999) 999 9991"), 1001, 1100);
    var accountB := new Account(Customer("Vegeta", "Vegeta's Palace", "(999) 999 9999"), 1002, 0);
    err := accountA.Transfer(100, accountB);
    balanceA, balanceB := accountA.Balance, accountB.Balance;
  }

  /** A transfer of 100 out of an empty account is refused, and both balances stay 0. */
  method TransferInvalidScenario() returns (err: Outcome, balanceA: int, balanceB: int)
    ensures err == Fail(InsufficientFunds) && balanceA == 0 && balanceB == 0
  {
    var accountA := new Account(Customer("Bruma", "Vegeta's Palace", "(999) 999 9991"), 1001, 0);
    var accountB := new Account(Customer("Vegeta", "Vegeta's Palace", "(999) 999 9999"), 1002, 0);
    err := accountA.Transfer(100, accountB);
    balanceA, balanceB := accountA.Balance, accountB.Balance;
  }
}
