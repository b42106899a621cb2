# Bank ledger in Dafny

A model of a minimal banking ledger. A `Bank` keeps the accounts it opened in
creation order. An `Account` has a fixed holder name, a balance and an
append-only transaction history. Accounts accept deposits, withdrawals and
transfers to another account, and report their balance. Every operation validates
its arguments before it changes anything. On success it makes exactly one balance
change and one history append per account it touches. The exception is a transfer
to the account itself: it appends Transfer then Received to that one history and
leaves the balance unchanged.

- `Ledger.dfy` (module `Ledger`) holds the values:
  - the transaction record `Txn`, with the variants `Deposit`, `Withdrawal`,
    `Transfer` (which names the recipient) and `Received` (which names the sender);
  - the error kinds `InvalidArgument` and `InsufficientFunds`;
  - the two validation checks `CheckCredit` and `CheckDebit`;
  - the ledger identity: balance = opening balance + signed sum of the history.
    Deposits and received transfers count positive; withdrawals and sent transfers
    count negative.
- `Bank.dfy` (module `BankLedger`) holds the two classes. Their methods update
  `balance`, `history` and `accounts` in place. `Transfer` also writes the
  recipient's fields. An operation that would throw in the original returns the
  error kind instead (`Outcome`, or `Result` for `CreateAccount`) and leaves
  every field as it was.
- `Demo.dfy` (module `Demo`) holds client methods that use only the contracts:
  - the demonstration run (John 1000, Jane 500; deposit 500, withdraw 200,
    transfer 300), whose postconditions are the final balances and histories;
  - two rejected withdrawals;
  - a repeated balance read.

`Account.Valid()` is the ledger identity, stated against a ghost opening balance,
together with the fact that every history record carries a positive amount.
The constructor establishes it and every account operation keeps it, including a
transfer to the account itself. `Bank.Valid()` says that no account is registered
twice.

## Model

| member | source | states |
|---|---|---|
| `Ledger.CheckCredit` | Bank.js:27-29 | a deposit amount is accepted exactly when it is positive; otherwise the error is InvalidArgument |
| `Ledger.CheckDebit` | Bank.js:38-43 | a debit is accepted exactly when 0 < amount <= balance; InvalidArgument exactly when amount <= 0 (positivity is checked first); InsufficientFunds exactly when the amount is positive and exceeds the balance |
| `Ledger.SignedSumSnoc` | Bank.js:30-34 | appending one record changes the signed sum of the history by exactly that record's signed amount |
| `Ledger.PostKeepsBalanced` | Bank.js:30-34 | one balance change paired with one matching history append keeps balance == opening + signed sum of the history |
| `Ledger.ReplayIsBalanced` | Bank.js:20-72 | posting any history, record by record, onto a freshly opened account yields that history and a balance equal to opening + signed sum |
| `Ledger.BalancedIffReplay` | Bank.js:20-72 | an account state satisfies the ledger identity if and only if it is the replay of its own history from the opening balance |
| `BankLedger.Account.constructor` | Bank.js:20-24 | a new account has the given name, the given balance (0 by default) and an empty history, and satisfies the ledger identity |
| `BankLedger.Account.Deposit` | Bank.js:26-35 | a non-positive amount fails with InvalidArgument and changes nothing; otherwise the balance rises by exactly the amount and exactly one Deposit record is appended; the ledger identity and a non-negative balance are kept |
| `BankLedger.Account.Withdraw` | Bank.js:37-49 | fails with InvalidArgument when amount <= 0, or with InsufficientFunds when amount > balance, changing nothing; otherwise the balance falls by the amount and stays non-negative, and exactly one Withdrawal record is appended; the ledger identity is kept |
| `BankLedger.Account.Transfer` | Bank.js:51-73 | fails under the same two checks before any mutation. For a distinct recipient: the sender loses the amount, the recipient gains it, their sum is preserved, and each gains one record (Transfer naming the recipient, Received naming the sender). For a transfer to itself: the balance is unchanged and Transfer then Received are appended. Both ledger identities and non-negative balances are kept |
| `BankLedger.Account.CheckBalance` | Bank.js:75-77 | returns the current balance and changes nothing |
| `BankLedger.Bank.constructor` | Bank.js:4-6 | a new bank has no accounts |
| `BankLedger.Bank.CreateAccount` | Bank.js:8-15 | fails with InvalidArgument exactly when the initial deposit is negative, leaving the registry unchanged; otherwise it appends exactly one fresh account to the end of the registry and returns that same object, with the given name, balance == initial deposit (0 by default, never negative) and an empty history; no account is registered twice |
| `Demo.TestBankOperations` | Bank.js:83-111 | after the demonstration run John's balance is 1000 with history [Deposit 500, Withdrawal 200, Transfer 300 to Jane Doe], and Jane's is 800 with history [Received 300 from John Doe] |
| `Demo.RejectedWithdrawals` | Bank.js:37-49 | on an account holding 1000, withdrawing 0 fails with InvalidArgument and withdrawing 999999 fails with InsufficientFunds; the balance stays 1000 |
| `Demo.CheckBalanceTwice` | Bank.js:75-77 | two balance reads with nothing in between return the same value |

## Left out

- Amounts and balances are unbounded integers. JavaScript's floating-point numbers, their rounding, and non-numeric or `undefined` arguments are not modelled.
- The error messages are modelled as the two error kinds. Raising an error becomes a returned `Failed`/`Failure` value, and the caller may go on afterwards.
- As in the original, outside code can assign `balance`, `history` and `accounts` directly. The model promises nothing about an object changed that way, because the account methods require `Valid()`. Unlike in the original, `name` is a constant.
- `BankLedger.Account.constructor` accepts a negative opening balance, as the original does. Only `Bank.CreateAccount` guarantees a non-negative start. So the account methods promise a non-negative balance afterwards only when it was non-negative before. The exception is the sender after a successful withdrawal or transfer, which is always non-negative.
- The opening balance that the ledger identity refers to is a ghost field of the model. The original account does not store it.
- The console output of the demonstration, `module.exports` and the load-time call of the demonstration are not modelled. The demonstration's return value is the postcondition of `Demo.TestBankOperations`.
- There is no concurrency. Every call runs to completion before the next starts, as in the original.
