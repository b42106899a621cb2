/** The value side of the bank ledger: transaction records, the error kinds the
    account operations fail with, the validation each operation performs before
    it mutates anything, and the ledger identity that ties an account's balance
    to its transaction history.
 */
module Ledger {

  /** One record of an account's transaction history. `Transfer` is the record
      kept by the sender (naming the recipient), `Received` the one kept by the
      recipient (naming the sender). */
  datatype Txn =
    | Deposit(amount: int)
    | Withdrawal(amount: int)
    | Transfer(amount: int, to: string)
    | Received(amount: int, from: string)

  /** The two kinds of error the operations raise. */
  datatype Error = InvalidArgument | InsufficientFunds

  /** The outcome of an operation that returns nothing when it succeeds. */
  datatype Outcome = Done | Failed(error: Error)

  /** The outcome of an operation that returns a value when it succeeds. */
  datatype Result<T> = Success(value: T) | Failure(error: Error)

  /** Deposits and received transfers add to the balance; withdrawals and sent
      transfers take from it. */
  function Signed(t: Txn): int
  {
    match t
    case Deposit(a) => a
    case Received(a, _) => a
    case Withdrawal(a) => -a
    case Transfer(a, _) => -a
  }

  /** Net effect of a history on the balance. */
  function SignedSum(h: seq<Txn>): int
  {
    if h == [] then 0 else Signed(h[0]) + SignedSum(h[1..])
  }

  /** Appending one record changes the net effect by that record's signed amount. */
  lemma {:induction false} SignedSumSnoc(h: seq<Txn>, t: Txn)
    ensures SignedSum(h + [t]) == SignedSum(h) + Signed(t)
  {
    if h == [] {
      assert [] + [t] == [t];
      assert [t][1..] == [];
    } else {
      assert (h + [t])[0] == h[0];
      assert (h + [t])[1..] == h[1..] + [t];
      SignedSumSnoc(h[1..], t);
    }
  }

  /** Validation of a credit (deposit): the amount must be positive. */
  function CheckCredit(amount: int): (r: Outcome)
    ensures r == Done <==> amount > 0
    ensures r != Done ==> r == Failed(InvalidArgument)
  {
    if amount <= 0 then Failed(InvalidArgument) else Done
  }

  /** Validation of a debit (withdrawal or sent transfer) against the current
      balance: positivity is checked first, then sufficiency of funds. */
  function CheckDebit(amount: int, balance: int): (r: Outcome)
    ensures r == Done <==> 0 < amount <= balance
    ensures r == Failed(InvalidArgument) <==> amount <= 0
    ensures r == Failed(InsufficientFunds) <==> 0 < amount && balance < amount
  {
    if amount <= 0 then Failed(InvalidArgument)
    else if amount > balance then Failed(InsufficientFunds)
    else Done
  }

  /** The mutable part of an account: its balance and its history. */
  datatype AccountState = AccountState(balance: int, history: seq<Txn>)

  /** Posting a record: one balance change paired with one history append. */
  function Post(s: AccountState, t: Txn): AccountState
  {
    AccountState(s.balance + Signed(t), s.history + [t])
  }

  /** The ledger identity: the balance is the opening balance plus the net
      effect of the history. */
  predicate Balanced(s: AccountState, opening: int)
  {
    s.balance == opening + SignedSum(s.history)
  }

  /** Posting a record keeps the ledger identity. */
  lemma PostKeepsBalanced(s: AccountState, opening: int, t: Txn)
    requires Balanced(s, opening)
    ensures Balanced(Post(s, t), opening)
  {
    SignedSumSnoc(s.history, t);
  }

  /** The state reached by posting the records of `h` one after the other to a
      fresh account opened with `opening`. */
  function Replay(opening: int, h: seq<Txn>): AccountState
  {
    if h == [] then AccountState(opening, [])
    else Post(Replay(opening, h[..|h| - 1]), h[|h| - 1])
  }

  /** Replaying a history yields that history and a balanced state. */
  lemma {:induction false} ReplayIsBalanced(opening: int, h: seq<Txn>)
    ensures Replay(opening, h).history == h
    ensures Balanced(Replay(opening, h), opening)
  {
    if h != [] {
      var init, last := h[..|h| - 1], h[|h| - 1];
      ReplayIsBalanced(opening, init);
      PostKeepsBalanced(Replay(opening, init), opening, last);
      assert init + [last] == h;
    }
  }

  /** A state is balanced exactly when it is the replay of its own history:
      the balance is determined by the opening balance and the history. */
  lemma BalancedIffReplay(s: AccountState, opening: int)
    ensures Balanced(s, opening) <==> s == Replay(opening, s.history)
  {
    ReplayIsBalanced(opening, s.history);
  }
}
