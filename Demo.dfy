/** The demonstration run of the bank as a verified client: it uses only the
    contracts of `Bank` and `Account`, and its postconditions are the balances
    and histories the run ends with.
 */
module Demo {
  import opened Ledger
  import opened BankLedger

  /** John opens with 1000 and Jane with 500; John deposits 500, withdraws 200
      and transfers 300 to Jane. Every step succeeds, so none of them would
      have raised an error. */
  method TestBankOperations() returns (johnFinal: int, janeFinal: int,
                                       johnHistory: seq<Txn>, janeHistory: seq<Txn>)
    ensures johnFinal == 1000 && janeFinal == 800
    ensures johnHistory == [Txn.Deposit(500), Txn.Withdrawal(200), Txn.Transfer(300, "Jane Doe")]
    ensures janeHistory == [Txn.Received(300, "John Doe")]
  {
    var bank := new Bank();
    var created := bank.CreateAccount("John Doe", 1000);
    var john := created.value;
    created := bank.CreateAccount("Jane Doe", 500);
    var jane := created.value;
    assert bank.accounts == [john, jane];

    var outcome := john.Deposit(500);
    assert outcome == Done && john.balance == 1500;
    outcome := john.Withdraw(200);
    assert outcome == Done && john.balance == 1300;
    outcome := john.Transfer(300, jane);
    assert outcome == Done;

    johnFinal := john.CheckBalance();
    janeFinal := jane.CheckBalance();
    johnHistory, janeHistory := john.history, jane.history;
  }

  /** A withdrawal of zero fails as an invalid argument, one beyond the balance
      fails for insufficient funds, and neither changes the balance. */
  method RejectedWithdrawals() returns (zero: Outcome, tooMuch: Outcome, final: int)
    ensures zero == Failed(InvalidArgument)
    ensures tooMuch == Failed(InsufficientFunds)
    ensures final == 1000
  {
    var bank := new Bank();
    var created := bank.CreateAccount("John Doe", 1000);
    var john := created.value;
    zero := john.Withdraw(0);
    tooMuch := john.Withdraw(999999);
    final := john.CheckBalance();
  }

  /** Reading the balance twice with nothing in between gives the same value. */
  method CheckBalanceTwice(account: Account) returns (first: int, second: int)
    ensures first == second == account.balance
  {
    first := account.CheckBalance();
    second := account.CheckBalance();
  }
}
