/** Input records, the error taxonomy and the persisted form of a deposit or
    withdrawal (src/transaction.rs). */
module Transactions {
  import opened Results

  /** The source's unsigned integer types: clients are u16, transaction ids u32. */
  type u16 = x: int | 0 <= x < 0x1_0000
  type u32 = x: int | 0 <= x < 0x1_0000_0000

  /** The exact decimal type of amounts, modelled as an unbounded exact number. */
  type Decimal = real

  datatype TransactionType = Deposit | Withdrawal | Dispute | Resolve | Chargeback

  /** One decoded input row. */
  datatype Transaction = Transaction(
    transactionType: TransactionType,
    client: u16,
    tx: u32,
    amount: Option<Decimal>)

  datatype TransactionError =
    | NotEnoughFunds
    | RefferencedTransactionDoesNotExist
    | RefferencedTransactionIsNotDisputed
    | RefferencedTransactionIsDisputed
    | AccountLocked

  /** The text the `Display` implementation writes for each error. */
  function Message(e: TransactionError): (text: string)
  {
    match e
    case NotEnoughFunds => "Not enough funds to process transaction"
    case RefferencedTransactionIsDisputed => "The referenced transaction is already disputed"
    case RefferencedTransactionDoesNotExist => "The referenced transaction does not yet exist"
    case RefferencedTransactionIsNotDisputed => "The referenced transaction is not disputed"
    case AccountLocked => "The Account is locked after a chargeback"
  }

  /** Every error has its own message: the mapping is injective. */
  lemma MessagesDistinct(e1: TransactionError, e2: TransactionError)
    ensures Message(e1) == Message(e2) <==> e1 == e2
  {
    if e1 != e2 {
      var m1, m2 := Message(e1), Message(e2);
      // The five messages already differ in length.
      assert |m1| != |m2|;
    }
  }

  /** Deposits and withdrawals are the only kinds that carry an amount of their
      own and the only kinds the processor persists. */
  predicate IsDepositOrWithdrawal(t: Transaction)
  {
    t.transactionType.Deposit? || t.transactionType.Withdrawal?
  }

  /** What the processor demands of a record: a deposit or withdrawal without an
      amount would make it panic on `unwrap`. */
  predicate HasRequiredAmount(t: Transaction)
  {
    IsDepositOrWithdrawal(t) ==> t.amount.Some?
  }

  /** The value held by a `PersistedTransaction`. */
  datatype Persisted = Persisted(transaction: Transaction, disputed: bool)

  /** A stored deposit or withdrawal together with its dispute flag; the flag
      is updated in place. */
  class PersistedTransaction {
    var disputed: bool
    const transaction: Transaction

    /** The value this object holds. */
    function View(): Persisted
      reads this
    {
      Persisted(transaction, disputed)
    }

    /** Wraps `t` unchanged, not disputed. */
    constructor (t: Transaction)
      ensures View() == Persisted(t, false)
    {
      disputed := false;
      transaction := t;
    }

    function IsDisputed(): (b: bool)
      reads this
      ensures b == View().disputed
    {
      disputed
    }

    /** Marks the record disputed whatever it was, so a second call changes nothing. */
    method SetDisputed()
      modifies this
      ensures View() == old(View()).(disputed := true)
    {
      disputed := true;
    }

    /** Clears the flag whatever it was, so a second call changes nothing. */
    method SetNotDisputed()
      modifies this
      ensures View() == old(View()).(disputed := false)
    {
      disputed := false;
    }
  }
}
