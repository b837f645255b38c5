/** The per-client ledger cell and its five-operation state machine
    (src/account.rs). */
module Accounts {
  import opened Results
  import opened Transactions

  datatype AccountTransactionType = Deposit | Withdrawal | AddHold | NegHold | Chargeback

  /** An operation on one account, with the amount it moves. */
  datatype AccountTransaction = AccountTransaction(
    transactionType: AccountTransactionType,
    amount: Decimal)

  /** The balances and lock of an account, the part of `Account` that `apply` changes. */
  datatype AccountState = AccountState(available: Decimal, held: Decimal, locked: bool)

  /** The state of a freshly created account. */
  function Initial(): AccountState
  {
    AccountState(0.0, 0.0, false)
  }

  /** The total reported for an account: its available and held funds together. */
  function Total(s: AccountState): Decimal
  {
    s.available + s.held
  }

  /** How much a successful operation adds to `available`. */
  function AvailableChange(t: AccountTransaction): Decimal
  {
    match t.transactionType
    case Deposit => t.amount
    case Withdrawal => -t.amount
    case AddHold => -t.amount
    case NegHold => t.amount
    case Chargeback => 0.0
  }

  /** How much a successful operation adds to `held`. */
  function HeldChange(t: AccountTransaction): Decimal
  {
    match t.transactionType
    case Deposit => 0.0
    case Withdrawal => 0.0
    case AddHold => t.amount
    case NegHold => -t.amount
    case Chargeback => -t.amount
  }

  /** Why an account refuses an operation, if it does: a locked account refuses
      everything, an unlocked one only a withdrawal of more than is available. */
  function Refusal(s: AccountState, t: AccountTransaction): Option<TransactionError>
  {
    if s.locked then Some(AccountLocked)
    else if t.transactionType.Withdrawal? && s.available < t.amount then Some(NotEnoughFunds)
    else None
  }

  /** `Account::apply` on values, as a reference definition: an operation that
      is not refused moves both balances by the change table and locks the
      account exactly on a chargeback; a refused one leaves the state as it was
      and reports why. */
  function Transition(s: AccountState, t: AccountTransaction): Result<AccountState, TransactionError>
  {
    match Refusal(s, t)
    case Some(e) => Err(e)
    case None =>
      Ok(AccountState(s.available + AvailableChange(t), s.held + HeldChange(t), t.transactionType.Chargeback?))
  }

  /** The effects `apply` promises: a locked account refuses everything with
      `AccountLocked`, an unlocked one refuses only an uncovered withdrawal,
      with `NotEnoughFunds`; a deposit raises the total by its amount, a
      withdrawal or chargeback lowers it by its amount, a hold or its release
      leaves it alone; and a withdrawal never leaves `available` negative. */
  lemma TransitionEffects(s: AccountState, t: AccountTransaction)
    ensures var r := Transition(s, t);
            && (s.locked ==> r == Err(AccountLocked))
            && (!s.locked ==>
                  (r.Err? <==> t.transactionType.Withdrawal? && s.available < t.amount) &&
                  (r.Err? ==> r.error == NotEnoughFunds))
            && (r.Ok? ==>
                  Total(r.value) == Total(s) +
                    (match t.transactionType
                     case Deposit => t.amount
                     case Withdrawal => -t.amount
                     case AddHold => 0.0
                     case NegHold => 0.0
                     case Chargeback => -t.amount))
            && (r.Ok? && t.transactionType.Withdrawal? ==> r.value.available >= 0.0)
  {
  }

  /** The state an operation leaves behind, whether it succeeded or not. */
  function After(s: AccountState, t: AccountTransaction): AccountState
  {
    match Transition(s, t)
    case Ok(next) => next
    case Err(_) => s
  }

  /** Placing a hold and releasing it again succeed on an unlocked account and
      restore both balances exactly; the total never moves. */
  lemma HoldRoundTrip(s: AccountState, amount: Decimal)
    requires !s.locked
    ensures var held := Transition(s, AccountTransaction(AddHold, amount));
            && held.Ok?
            && Total(held.value) == Total(s)
            && Transition(held.value, AccountTransaction(NegHold, amount)) == Ok(s)
  {
  }

  /** After a chargeback every further operation fails with `AccountLocked`. */
  lemma ChargebackIsTerminal(s: AccountState, amount: Decimal, next: AccountTransaction)
    requires !s.locked
    ensures var charged := Transition(s, AccountTransaction(AccountTransactionType.Chargeback, amount));
            && charged.Ok?
            && charged.value.available == s.available
            && Transition(charged.value, next) == Err(AccountLocked)
  {
  }

  /** A client's account; `apply` updates its balances and lock in place. */
  class Account {
    const client: u16
    var available: Decimal
    var held: Decimal
    var locked: bool

    /** The balances and lock of this account as a value. */
    function State(): AccountState
      reads this
    {
      AccountState(available, held, locked)
    }

    /** A new account for `clientId`: nothing available, nothing held, unlocked. */
    constructor (clientId: u16)
      ensures client == clientId
      ensures State() == Initial()
    {
      client := clientId;
      available := 0.0;
      held := 0.0;
      locked := false;
    }

    /** Applies one operation; on an error nothing changes. */
    method Apply(transaction: AccountTransaction) returns (r: Result<(), TransactionError>)
      modifies this
      ensures State() == After(old(State()), transaction)
      ensures r == if Transition(old(State()), transaction).Ok? then Ok(())
                   else Err(Transition(old(State()), transaction).error)
    {
      if locked {
        return Err(AccountLocked);
      }
      match transaction.transactionType
      case Deposit =>
        available := available + transaction.amount;
        r := Ok(());
      case Withdrawal =>
        if available >= transaction.amount {
          available := available - transaction.amount;
          r := Ok(());
        } else {
          r := Err(NotEnoughFunds);
        }
      case AddHold =>
        held := held + transaction.amount;
        available := available - transaction.amount;
        r := Ok(());
      case NegHold =>
        held := held - transaction.amount;
        available := available + transaction.amount;
        r := Ok(());
      case Chargeback =>
        held := held - transaction.amount;
        locked := true;
        r := Ok(());
    }

    function GetAvailable(): (a: Decimal)
      reads this
      ensures a == State().available
    {
      available
    }

    function GetHeld(): (h: Decimal)
      reads this
      ensures h == State().held
    {
      held
    }
  }
}
