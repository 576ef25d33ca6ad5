/**
 * The account of package `bank`: a customer's account with a number and a
 * balance, the three operations that change the balance
 * (deposit, withdraw, transfer) and the one-line statement.
 *
 * The balance arithmetic is stated once, as pure functions on balances
 * (Credit, Debit, Move); the methods of Account change the Balance field in
 * place and are proved to agree with those functions.
 */
module Bank {
  import Decimal

  /** The account holder. Immutable: no operation of the ledger changes it. */
  datatype Customer = Customer(Name: string, Address: string, Phone: string)

  /** The two ways a balance operation is refused. */
  datatype Error =
    | InvalidAmount      // the amount is zero or negative
    | InsufficientFunds  // the amount exceeds the balance it is taken from

  /** What a balance operation computes: the new balance (or balances), or why it was refused. */
  datatype Result<T> = Ok(value: T) | Err(error: Error) {
    /** The error return of the Go method: nil on success, the error otherwise. */
    function ToOutcome(): Outcome {
      match this
      case Ok(_) => Pass
      case Err(e) => Fail(e)
    }

    /** The value on success, the given default on failure. */
    function GetOr(default: T): T {
      match this
      case Ok(v) => v
      case Err(_) => default
    }
  }

  /** An `error` return value: Pass stands for nil. */
  datatype Outcome = Pass | Fail(error: Error)

  // ---------------------------------------------------------------------
  // Balance arithmetic
  // ---------------------------------------------------------------------

  /** Depositing `amount` into an account that holds `balance`. */
  function Credit(balance: int, amount: int): (r: Result<int>)
    ensures r.Ok? <==> amount > 0
    ensures r.Err? ==> r.error == InvalidAmount
    ensures r.Ok? ==> r.value - balance == amount
  {
    if amount <= 0 then Err(InvalidAmount) else Ok(balance + amount)
  }

  /** Withdrawing `amount` from an account that holds `balance`. */
  function Debit(balance: int, amount: int): (r: Result<int>)
    ensures r.Ok? <==> 0 < amount <= balance
    ensures r.Err? ==> r.error == (if amount <= 0 then InvalidAmount else InsufficientFunds)
    ensures r.Ok? ==> balance - r.value == amount && r.value >= 0
  {
    if amount <= 0 then Err(InvalidAmount)
    else if balance < amount then Err(InsufficientFunds)
    else Ok(balance - amount)
  }

  /**
   * Transferring `amount` from a source holding `src` to a destination
   * holding `dst`: a withdrawal from the source followed by a deposit into
   * the destination. The result is the pair (new source, new destination).
   */
  function Move(src: int, dst: int, amount: int): (r: Result<(int, int)>)
    ensures r.Ok? <==> 0 < amount <= src
    ensures r.Err? ==> Debit(src, amount) == Err(r.error)
    ensures r.Ok? ==> r.value.0 == src - amount && r.value.1 == dst + amount
    ensures r.Ok? ==> r.value.0 + r.value.1 == src + dst
  {
    match Debit(src, amount)
    case Err(e) => Err(e)
    case Ok(s) =>
      match Credit(dst, amount)
      case Err(e) => Err(e)
      case Ok(d) => Ok((s, d))
  }

  /** A deposit followed by a withdrawal of the same amount restores the balance. */
  lemma DepositThenWithdraw(balance: int, amount: int)
    requires balance >= 0 && amount > 0
    ensures Credit(balance, amount).Ok?
    ensures Debit(Credit(balance, amount).value, amount) == Ok(balance)
  {
  }

  /** Withdrawing the whole of a positive balance succeeds and leaves zero. */
  lemma WithdrawAll(balance: int)
    requires balance > 0
    ensures Debit(balance, balance) == Ok(0)
  {
  }

  /** No successful operation drives a non-negative balance below zero. */
  lemma BalancesStayNonNegative(src: int, dst: int, amount: int)
    requires src >= 0 && dst >= 0
    ensures Credit(src, amount).Ok? ==> Credit(src, amount).value >= 0
    ensures Debit(src, amount).Ok? ==> Debit(src, amount).value >= 0
    ensures Move(src, dst, amount).Ok? ==> Move(src, dst, amount).value.0 >= 0 && Move(src, dst, amount).value.1 >= 0
  {
  }

  // ---------------------------------------------------------------------
  // The statement line "<Number> - <Name> - <Balance>"
  // ---------------------------------------------------------------------

  const Separator: string := " - "

  predicate NoSpace(s: string) {
    forall k :: 0 <= k < |s| ==> s[k] != ' '
  }

  /** The index of the first space in `s`, or |s| when there is none. */
  function FirstSpace(s: string): (i: nat)
    ensures i <= |s|
    ensures forall k :: 0 <= k < i ==> s[k] != ' '
    ensures i < |s| ==> s[i] == ' '
  {
    if s == [] || s[0] == ' ' then 0 else 1 + FirstSpace(s[1..])
  }

  /** The index of the last space in `s`, or -1 when there is none. */
  function LastSpace(s: string): (j: int)
    ensures -1 <= j < |s|
    ensures forall k :: j < k < |s| ==> s[k] != ' '
    ensures j >= 0 ==> s[j] == ' '
  {
    if s == [] then -1
    else if s[|s| - 1] == ' ' then |s| - 1
    else LastSpace(s[..|s| - 1])
  }

  /** The statement line of an account with the given number, holder name and balance. */
  function StatementText(number: int, name: string, balance: int): string {
    Decimal.IntToString(number) + Separator + name + Separator + Decimal.IntToString(balance)
  }

  /**
   * Reads a statement line back: the number is the text before the first
   * space, the balance the text after the last space, and the name what lies
   * between the two separators.
   */
  function ParseStatement(s: string): Decimal.Option<(int, string, int)> {
    var i := FirstSpace(s);
    var j := LastSpace(s);
    if i + 3 <= j - 2 && s[i..i + 3] == Separator && s[j - 2..j + 1] == Separator then
      match (Decimal.ParseInt(s[..i]), Decimal.ParseInt(s[j + 1..]))
      case (Some(n), Some(b)) => Decimal.Some((n, s[i + 3..j - 2], b))
      case _ => Decimal.None
    else Decimal.None
  }

  lemma IntToStringNoSpace(n: int)
    ensures NoSpace(Decimal.IntToString(n))
  {
    var s := Decimal.IntToString(n);
    forall k | 0 <= k < |s| ensures s[k] != ' ' {
      assert Decimal.IsDigit(s[k]) || s[k] == '-';
    }
  }

  lemma {:induction false} FirstSpaceAfter(x: string, y: string)
    requires NoSpace(x) && |y| > 0 && y[0] == ' '
    ensures FirstSpace(x + y) == |x|
  {
    if x != [] {
      assert (x + y)[1..] == x[1..] + y;
      FirstSpaceAfter(x[1..], y);
    }
  }

  lemma {:induction false} LastSpaceBefore(x: string, y: string)
    requires NoSpace(y) && |x| > 0 && x[|x| - 1] == ' '
    ensures LastSpace(x + y) == |x| - 1
  {
    if y != [] {
      assert (x + y)[..|x + y| - 1] == x + y[..|y| - 1];
      LastSpaceBefore(x, y[..|y| - 1]);
    }
  }

  /** Where the separators of a statement line sit, and what lies around them. */
  lemma {:induction false} StatementLayout(a: string, name: string, b: string)
    requires NoSpace(a) && NoSpace(b)
    ensures var s := a + Separator + name + Separator + b;
      var i, j := |a|, |a| + |name| + 5;
      && FirstSpace(s) == i && LastSpace(s) == j
      && s[..i] == a && s[i..i + 3] == Separator
      && s[i + 3..j - 2] == name
      && s[j - 2..j + 1] == Separator && s[j + 1..] == b
  {
    var s := a + Separator + name + Separator + b;
    var head := a + Separator + name + Separator;
    assert s == a + (Separator + name + Separator + b);
    assert s == head + b;
    FirstSpaceAfter(a, Separator + name + Separator + b);
    LastSpaceBefore(head, b);
  }

  /**
   * The statement line determines the account it was printed from: parsing
   * it gives back the number, the holder's name (whatever characters it
   * holds) and the balance.
   */
  lemma {:induction false} StatementRoundTrip(number: int, name: string, balance: int)
    ensures ParseStatement(StatementText(number, name, balance)) == Decimal.Some((number, name, balance))
  {
    var a, b := Decimal.IntToString(number), Decimal.IntToString(balance);
    IntToStringNoSpace(number);
    IntToStringNoSpace(balance);
    StatementLayout(a, name, b);
    Decimal.IntToStringRoundTrip(number);
    Decimal.IntToStringRoundTrip(balance);
  }

  /**
   * Conversely, every line ParseStatement accepts is the statement line of
   * what it returns: the parser reads statement lines and nothing else.
   */
  lemma {:induction false} ParseStatementSound(s: string)
    requires ParseStatement(s).Some?
    ensures var (number, name, balance) := ParseStatement(s).value;
      s == StatementText(number, name, balance)
  {
    var i, j := FirstSpace(s), LastSpace(s);
    var a, name, b := s[..i], s[i + 3..j - 2], s[j + 1..];
    Decimal.ParseIntSound(a);
    Decimal.ParseIntSound(b);
    Reassemble(s, i, j);
    assert ParseStatement(s).value == (Decimal.ParseInt(a).value, name, Decimal.ParseInt(b).value);
  }

  /** A line cut around its two separators is the concatenation of its pieces. */
  lemma Reassemble(s: string, i: nat, j: int)
    requires i + 3 <= j - 2 && j < |s|
    requires s[i..i + 3] == Separator && s[j - 2..j + 1] == Separator
    ensures s == s[..i] + Separator + s[i + 3..j - 2] + Separator + s[j + 1..]
  {
    assert s == s[..i] + s[i..i + 3] + s[i + 3..j - 2] + s[j - 2..j + 1] + s[j + 1..];
  }

  /** Two accounts print the same statement only if number, name and balance all agree. */
  lemma StatementInjective(n1: int, name1: string, b1: int, n2: int, name2: string, b2: int)
    requires StatementText(n1, name1, b1) == StatementText(n2, name2, b2)
    ensures n1 == n2 && name1 == name2 && b1 == b2
  {
    StatementRoundTrip(n1, name1, b1);
    StatementRoundTrip(n2, name2, b2);
  }

  // ---------------------------------------------------------------------
  // The account entity
  // ---------------------------------------------------------------------

  /**
   * An account. Only Balance is ever updated; Customer and Number are fixed
   * once the account is built, and every method's frame is Balance alone.
   */
  class Account {
    var Customer: Customer
    var Number: int
    var Balance: int

    /** The struct literal `Account{Customer: ..., Number: ..., Balance: ...}`. */
    constructor (customer: Customer, number: int, balance: int)
      ensures Customer == customer && Number == number && Balance == balance
    {
      Customer, Number, Balance := customer, number, balance;
    }

    /** Adds a positive amount to the balance; a non-positive amount is refused and changes nothing. */
    method Deposit(amount: int) returns (err: Outcome)
      modifies this`Balance
      ensures err == Credit(old(Balance), amount).ToOutcome()
      ensures Balance == Credit(old(Balance), amount).GetOr(old(Balance))
      ensures Customer == old(Customer) && Number == old(Number)
    {
      if amount <= 0 {
        return Fail(InvalidAmount);
      }
      Balance := Balance + amount;
      return Pass;
    }

    /** Takes an amount out of the balance; a non-positive amount or one above the balance is refused. */
    method Withdraw(amount: int) returns (err: Outcome)
      modifies this`Balance
      ensures err == Debit(old(Balance), amount).ToOutcome()
      ensures Balance == Debit(old(Balance), amount).GetOr(old(Balance))
      ensures Customer == old(Customer) && Number == old(Number)
    {
      if amount <= 0 {
        return Fail(InvalidAmount);
      }
      if Balance < amount {
        return Fail(InsufficientFunds);
      }
      Balance := Balance - amount;
      return Pass;
    }

    /**
     * Moves an amount from this account to `dest`: a withdrawal here, then a
     * deposit there. When the withdrawal is refused neither balance changes.
     */
    method Transfer(amount: int, dest: Account) returns (err: Outcome)
      requires dest != this
      modifies this`Balance, dest`Balance
      ensures err == Move(old(Balance), old(dest.Balance), amount).ToOutcome()
      ensures (Balance, dest.Balance)
           == Move(old(Balance), old(dest.Balance), amount).GetOr((old(Balance), old(dest.Balance)))
      ensures Balance + dest.Balance == old(Balance) + old(dest.Balance)
      ensures Customer == old(Customer) && Number == old(Number)
      ensures dest.Customer == old(dest.Customer) && dest.Number == old(dest.Number)
    {
      err := Withdraw(amount);
      if err.Fail? {
        return;
      }
      err := dest.Deposit(amount);
    }

    /** The statement line of this account; reading it changes nothing. */
    function Statement(): (s: string)
      reads this
      ensures ParseStatement(s) == Decimal.Some((Number, Customer.Name, Balance))
    {
      StatementRoundTrip(Number, Customer.Name, Balance);
      StatementText(Number, Customer.Name, Balance)
    }
  }
}
