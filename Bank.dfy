/** The bank and its accounts as heap objects: an account's balance and
    history are fields its operations update in place, and a transfer also
    writes the recipient's fields. Each operation validates before it mutates,
    and on failure returns the error kind instead of raising it.
 */
module BankLedger {
  import opened Ledger

  class Account {
    /** The holder's name, fixed at construction. */
    const name: string
    var balance: int
    var history: seq<Txn>
    /** The balance the account was opened with. */
    ghost const opening: int

    /** The ledger identity every operation keeps, and every record moves a
        positive amount. */
    ghost predicate Valid()
      reads this
    {
      && Balanced(State(), opening)
      && forall t | t in history :: t.amount > 0
    }

    function State(): AccountState
      reads this
    {
      AccountState(balance, history)
    }

    /** Like the JavaScript `Account` constructor, this one accepts any opening balance;
        only `Bank.CreateAccount` rejects a negative one. */
    constructor (name: string, balance: int := 0)
      ensures this.name == name && this.balance == balance && history == []
      ensures opening == balance && Valid()
    {
      this.name := name;
      this.balance := balance;
      history := [];
      opening := balance;
    }

    method Deposit(amount: int) returns (r: Outcome)
      requires Valid()
      modifies this
      ensures Valid()
      ensures r == CheckCredit(amount)
      ensures r == Done ==> balance == old(balance) + amount
      ensures r == Done ==> history == old(history) + [Txn.Deposit(amount)]
      ensures r != Done ==> balance == old(balance) && history == old(history)
      ensures old(balance) >= 0 ==> balance >= 0
    {
      r := CheckCredit(amount);
      if r != Done {
        return;
      }
      PostKeepsBalanced(State(), opening, Txn.Deposit(amount));
      balance := balance + amount;
      history := history + [Txn.Deposit(amount)];
    }

    method Withdraw(amount: int) returns (r: Outcome)
      requires Valid()
      modifies this
      ensures Valid()
      ensures r == CheckDebit(amount, old(balance))
      ensures r == Done ==> balance == old(balance) - amount && balance >= 0
      ensures r == Done ==> history == old(history) + [Txn.Withdrawal(amount)]
      ensures r != Done ==> balance == old(balance) && history == old(history)
      ensures old(balance) >= 0 ==> balance >= 0
    {
      r := CheckDebit(amount, balance);
      if r != Done {
        return;
      }
      PostKeepsBalanced(State(), opening, Txn.Withdrawal(amount));
      balance := balance - amount;
      history := history + [Txn.Withdrawal(amount)];
    }

    /** Moves `amount` from this account to `recipient`. Nothing forbids the
        recipient from being this very account: then the balance ends where it
        started and the history gains a `Transfer` and then a `Received` record. */
    method Transfer(amount: int, recipient: Account) returns (r: Outcome)
      requires Valid() && recipient.Valid()
      modifies this, recipient
      ensures Valid() && recipient.Valid()
      ensures r == CheckDebit(amount, old(balance))
      ensures r != Done ==>
        balance == old(balance) && history == old(history) &&
        recipient.balance == old(recipient.balance) && recipient.history == old(recipient.history)
      ensures r == Done && recipient != this ==>
        balance == old(balance) - amount && balance >= 0 &&
        history == old(history) + [Txn.Transfer(amount, recipient.name)] &&
        recipient.balance == old(recipient.balance) + amount &&
        recipient.history == old(recipient.history) + [Txn.Received(amount, name)]
      ensures recipient != this ==> balance + recipient.balance == old(balance + recipient.balance)
      ensures r == Done && recipient == this ==>
        balance == old(balance) &&
        history == old(history) + [Txn.Transfer(amount, name), Txn.Received(amount, name)]
      ensures old(balance) >= 0 ==> balance >= 0
      ensures old(recipient.balance) >= 0 ==> recipient.balance >= 0
    {
      r := CheckDebit(amount, balance);
      if r != Done {
        return;
      }
      ghost var sent := Post(State(), Txn.Transfer(amount, recipient.name));
      PostKeepsBalanced(State(), opening, Txn.Transfer(amount, recipient.name));
      if recipient == this {
        PostKeepsBalanced(sent, opening, Txn.Received(amount, name));
        assert old(history) + [Txn.Transfer(amount, name)] + [Txn.Received(amount, name)]
            == old(history) + [Txn.Transfer(amount, name), Txn.Received(amount, name)];
      } else {
        PostKeepsBalanced(recipient.State(), recipient.opening, Txn.Received(amount, name));
      }
      balance := balance - amount;
      recipient.balance := recipient.balance + amount;
      history := history + [Txn.Transfer(amount, recipient.name)];
      recipient.history := recipient.history + [Txn.Received(amount, name)];
    }

    method CheckBalance() returns (b: int)
      ensures b == balance
    {
      b := balance;
    }
  }

  class Bank {
    /** The accounts in creation order. */
    var accounts: seq<Account>

    /** No account is registered twice. */
    ghost predicate Valid()
      reads this
    {
      forall i, j :: 0 <= i < j < |accounts| ==> accounts[i] != accounts[j]
    }

    constructor ()
      ensures accounts == [] && Valid()
    {
      accounts := [];
    }

    /** Opens an account, registers it and hands the caller the same object the
        bank keeps. */
    method CreateAccount(name: string, initialDeposit: int := 0) returns (r: Result<Account>)
      requires Valid()
      modifies this
      ensures Valid()
      ensures r.Failure? <==> initialDeposit < 0
      ensures r.Failure? ==> r.error == InvalidArgument && accounts == old(accounts)
      ensures r.Success? ==>
        fresh(r.value) && accounts == old(accounts) + [r.value] &&
        r.value.name == name && r.value.balance == initialDeposit && r.value.balance >= 0 &&
        r.value.history == [] && r.value.opening == initialDeposit && r.value.Valid()
    {
      if initialDeposit < 0 {
        return Failure(InvalidArgument);
      }
      var account := new Account(name, initialDeposit);
      accounts := accounts + [account];
      r := Success(account);
    }
  }
}
