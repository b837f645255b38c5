/** The engine's own scenarios (src/test.rs), stated for every client, id and
    amount rather than for the one each test picks, and two more that pin down
    behaviour the code has but the tests do not exercise. Each runs on a fresh
    `TransactionProcessor`. Every step is first worked out on values, as a
    fact about `Step`; the method then drives the object through the same
    records and reads the result back from it. */
module Scenarios {
  import opened Results
  import opened Transactions
  import opened Accounts
  import opened Processor

  // ---------------------------------------------------------------------------
  // The records the scenarios apply.

  function DepositOf(c: u16, tx: u32, amount: Decimal): Transaction
  {
    Transaction(TransactionType.Deposit, c, tx, Some(amount))
  }

  function WithdrawalOf(c: u16, tx: u32, amount: Decimal): Transaction
  {
    Transaction(TransactionType.Withdrawal, c, tx, Some(amount))
  }

  function DisputeOf(c: u16, tx: u32): Transaction
  {
    Transaction(Dispute, c, tx, None)
  }

  function ChargebackOf(c: u16, tx: u32): Transaction
  {
    Transaction(TransactionType.Chargeback, c, tx, None)
  }

  /** The store after client `c` deposits `amount` under `tx` on an empty processor. */
  function Deposited(c: u16, tx: u32, amount: Decimal): Store
  {
    Store(map[c := AccountState(amount, 0.0, false)], map[tx := Persisted(DepositOf(c, tx, amount), false)])
  }

  /** The store after the depositor disputes the deposit. */
  function DisputedDeposit(c: u16, tx: u32, amount: Decimal): Store
  {
    Store(map[c := AccountState(0.0, amount, false)], map[tx := Persisted(DepositOf(c, tx, amount), true)])
  }

  // ---------------------------------------------------------------------------
  // Each step on values.

  lemma StepDepositOnEmpty(c: u16, tx: u32, amount: Decimal)
    ensures Step(Store(map[], map[]), DepositOf(c, tx, amount)) == Outcome(Ok(()), Deposited(c, tx, amount))
  {
    var s := Store(map[], map[]);
    var t := DepositOf(c, tx, amount);
    var operation := AccountTransaction(AccountTransactionType.Deposit, amount);
    assert ToAccountTransaction(t, Referenced(s.transactions, tx)) == Ok(operation);
    assert UpdateTransactions(s.transactions, t) == Ok(Deposited(c, tx, amount).transactions);
    assert AccountOf(s.bank, c) == Initial();
    assert Transition(Initial(), operation) == Ok(AccountState(amount, 0.0, false));
    StepReachesAccount(s, t);
  }

  /** The depositor disputes the deposit: the funds move to held. */
  lemma StepDisputeOfDeposit(c: u16, tx: u32, amount: Decimal)
    ensures Step(Deposited(c, tx, amount), DisputeOf(c, tx)) == Outcome(Ok(()), DisputedDeposit(c, tx, amount))
  {
    var s := Deposited(c, tx, amount);
    var t := DisputeOf(c, tx);
    var operation := AccountTransaction(AddHold, amount);
    assert ToAccountTransaction(t, Referenced(s.transactions, tx)) == Ok(operation);
    assert s.transactions[tx := Persisted(DepositOf(c, tx, amount), true)] == map[tx := Persisted(DepositOf(c, tx, amount), true)];
    assert UpdateTransactions(s.transactions, t) == Ok(map[tx := Persisted(DepositOf(c, tx, amount), true)]);
    assert Transition(AccountState(amount, 0.0, false), operation) == Ok(AccountState(0.0, amount, false));
    assert s.bank[c := AccountState(0.0, amount, false)] == map[c := AccountState(0.0, amount, false)];
    StepReachesAccount(s, t);
  }

  /** Another client disputes the deposit: the hold is placed on a new account
      of theirs. */
  lemma StepDisputeByOther(c: u16, tx: u32, amount: Decimal, other: u16)
    requires other != c
    ensures Step(Deposited(c, tx, amount), DisputeOf(other, tx)) ==
            Outcome(Ok(()), Store(map[c := AccountState(amount, 0.0, false), other := AccountState(-amount, amount, false)],
                                  map[tx := Persisted(DepositOf(c, tx, amount), true)]))
  {
    var s := Deposited(c, tx, amount);
    var t := DisputeOf(other, tx);
    var operation := AccountTransaction(AddHold, amount);
    assert ToAccountTransaction(t, Referenced(s.transactions, tx)) == Ok(operation);
    assert s.transactions[tx := Persisted(DepositOf(c, tx, amount), true)] == map[tx := Persisted(DepositOf(c, tx, amount), true)];
    assert UpdateTransactions(s.transactions, t) == Ok(map[tx := Persisted(DepositOf(c, tx, amount), true)]);
    assert AccountOf(s.bank, other) == Initial();
    assert Transition(Initial(), operation) == Ok(AccountState(-amount, amount, false));
    StepReachesAccount(s, t);
  }

  lemma StepChargebackOfDispute(c: u16, tx: u32, amount: Decimal)
    ensures Step(DisputedDeposit(c, tx, amount), ChargebackOf(c, tx)) ==
            Outcome(Ok(()), Store(map[c := AccountState(0.0, 0.0, true)], map[tx := Persisted(DepositOf(c, tx, amount), false)]))
  {
    var s := DisputedDeposit(c, tx, amount);
    var t := ChargebackOf(c, tx);
    var operation := AccountTransaction(AccountTransactionType.Chargeback, amount);
    assert ToAccountTransaction(t, Referenced(s.transactions, tx)) == Ok(operation);
    assert s.transactions[tx := Persisted(DepositOf(c, tx, amount), false)] == map[tx := Persisted(DepositOf(c, tx, amount), false)];
    assert UpdateTransactions(s.transactions, t) == Ok(map[tx := Persisted(DepositOf(c, tx, amount), false)]);
    assert Transition(AccountState(0.0, amount, false), operation) == Ok(AccountState(0.0, 0.0, true));
    assert s.bank[c := AccountState(0.0, 0.0, true)] == map[c := AccountState(0.0, 0.0, true)];
    StepReachesAccount(s, t);
  }

  lemma StepDepositOnLocked(c: u16, tx: u32, amount: Decimal)
    ensures var s := Store(map[c := AccountState(0.0, 0.0, true)], map[tx := Persisted(DepositOf(c, tx, amount), false)]);
            Step(s, DepositOf(c, tx, amount)) == Outcome(Err(AccountLocked), s)
  {
    var s := Store(map[c := AccountState(0.0, 0.0, true)], map[tx := Persisted(DepositOf(c, tx, amount), false)]);
    var t := DepositOf(c, tx, amount);
    var operation := AccountTransaction(AccountTransactionType.Deposit, amount);
    assert ToAccountTransaction(t, Referenced(s.transactions, tx)) == Ok(operation);
    assert s.transactions[tx := Persisted(t, false)] == s.transactions;
    assert UpdateTransactions(s.transactions, t) == Ok(s.transactions);
    assert Transition(AccountState(0.0, 0.0, true), operation) == Err(AccountLocked);
    assert s.bank[c := AccountState(0.0, 0.0, true)] == s.bank;
    StepReachesAccount(s, t);
  }

  lemma StepWithdrawalOverBalance(c: u16, tx: u32, amount: Decimal, withdrawn: u32, requested: Decimal)
    requires amount < requested
    ensures var s := Deposited(c, tx, amount);
            Step(s, WithdrawalOf(c, withdrawn, requested)) ==
            Outcome(Err(NotEnoughFunds), Store(s.bank, s.transactions[withdrawn := Persisted(WithdrawalOf(c, withdrawn, requested), false)]))
  {
    var s := Deposited(c, tx, amount);
    var t := WithdrawalOf(c, withdrawn, requested);
    var operation := AccountTransaction(AccountTransactionType.Withdrawal, requested);
    assert ToAccountTransaction(t, Referenced(s.transactions, withdrawn)) == Ok(operation);
    assert Transition(AccountState(amount, 0.0, false), operation) == Err(NotEnoughFunds);
    assert s.bank[c := AccountState(amount, 0.0, false)] == s.bank;
    StepReachesAccount(s, t);
  }

  // ---------------------------------------------------------------------------
  // The scenarios, on the object.

  /** One deposit: the client's account exists with the amount available and
      nothing held, and exactly one record is persisted. */
  method ApplyOne(c: u16, tx: u32, amount: Decimal) returns (available: Decimal, held: Decimal, persisted: nat)
    ensures available == amount && held == 0.0
    ensures persisted == 1
  {
    var engine := new TransactionProcessor();
    var _ := engine.Apply(DepositOf(c, tx, amount));
    StepDepositOnEmpty(c, tx, amount);
    assert engine.Ledger == Deposited(c, tx, amount).bank;
    available := engine.bank[c].GetAvailable();
    held := engine.bank[c].GetHeld();
    persisted := |engine.transactions|;
  }

  /** A fresh processor that has applied a deposit and its dispute. */
  method DepositAndDispute(c: u16, tx: u32, amount: Decimal)
    returns (engine: TransactionProcessor, deposited: Result<(), TransactionError>, disputed: Result<(), TransactionError>)
    ensures fresh(engine) && fresh(engine.bank.Values) && fresh(engine.transactions.Values)
    ensures engine.Valid()
    ensures deposited == Ok(()) && disputed == Ok(())
    ensures engine.State() == DisputedDeposit(c, tx, amount)
  {
    engine := new TransactionProcessor();
    deposited := engine.Apply(DepositOf(c, tx, amount));
    StepDepositOnEmpty(c, tx, amount);
    assert engine.State() == Deposited(c, tx, amount);
    disputed := engine.Apply(DisputeOf(c, tx));
    StepDisputeOfDeposit(c, tx, amount);
  }

  /** A deposit and its dispute both succeed; the funds move from available to
      held. */
  method DisputeTransaction(c: u16, tx: u32, amount: Decimal)
    returns (deposited: Result<(), TransactionError>, disputed: Result<(), TransactionError>,
             available: Decimal, held: Decimal)
    ensures deposited == Ok(()) && disputed == Ok(())
    ensures available == 0.0 && held == amount
  {
    var engine;
    engine, deposited, disputed := DepositAndDispute(c, tx, amount);
    assert engine.Ledger == DisputedDeposit(c, tx, amount).bank;
    available := engine.bank[c].GetAvailable();
    held := engine.bank[c].GetHeld();
  }

  /** Deposit, dispute and chargeback succeed and lock the account; the same
      deposit applied again is then refused with `AccountLocked`, while its
      record is stored again, undisputed. */
  method ChargebackLocks(c: u16, tx: u32, amount: Decimal)
    returns (results: seq<Result<(), TransactionError>>, final: AccountState, record: Persisted)
    ensures results == [Ok(()), Ok(()), Ok(()), Err(AccountLocked)]
    ensures final == AccountState(0.0, 0.0, true)
    ensures record == Persisted(DepositOf(c, tx, amount), false)
  {
    var engine, deposited, disputed := DepositAndDispute(c, tx, amount);
    var charged := engine.Apply(ChargebackOf(c, tx));
    StepChargebackOfDispute(c, tx, amount);
    var again := engine.Apply(DepositOf(c, tx, amount));
    StepDepositOnLocked(c, tx, amount);
    results := [deposited, disputed, charged, again];
    assert engine.Ledger == map[c := AccountState(0.0, 0.0, true)];
    final := engine.bank[c].State();
    record := engine.transactions[tx].View();
  }

  /** A withdrawal of more than is available is refused with `NotEnoughFunds`
      and leaves the balance alone, yet the withdrawal is persisted. */
  method WithdrawalBeyondFunds(c: u16, tx: u32, amount: Decimal, withdrawn: u32, requested: Decimal)
    returns (result: Result<(), TransactionError>, available: Decimal, record: Persisted)
    requires amount < requested
    ensures result == Err(NotEnoughFunds)
    ensures available == amount
    ensures record == Persisted(WithdrawalOf(c, withdrawn, requested), false)
  {
    var engine := new TransactionProcessor();
    var _ := engine.Apply(DepositOf(c, tx, amount));
    StepDepositOnEmpty(c, tx, amount);
    result := engine.Apply(WithdrawalOf(c, withdrawn, requested));
    StepWithdrawalOverBalance(c, tx, amount, withdrawn, requested);
    assert engine.Ledger == Deposited(c, tx, amount).bank;
    assert withdrawn in engine.Records;
    available := engine.bank[c].GetAvailable();
    record := engine.transactions[withdrawn].View();
  }

  /** A dispute names a record by id only: another client disputing the
      deposit succeeds, and the hold lands on that client's new account, while
      the depositor's balances are untouched. */
  method DisputeByAnotherClient(c: u16, tx: u32, amount: Decimal, other: u16)
    returns (disputed: Result<(), TransactionError>, owner: AccountState, disputer: AccountState)
    requires other != c
    ensures disputed == Ok(())
    ensures owner == AccountState(amount, 0.0, false)
    ensures disputer == AccountState(-amount, amount, false)
  {
    var engine := new TransactionProcessor();
    var _ := engine.Apply(DepositOf(c, tx, amount));
    StepDepositOnEmpty(c, tx, amount);
    disputed := engine.Apply(DisputeOf(other, tx));
    StepDisputeByOther(c, tx, amount, other);
    assert engine.Ledger == map[c := AccountState(amount, 0.0, false), other := AccountState(-amount, amount, false)];
    owner := engine.bank[c].State();
    disputer := engine.bank[other].State();
  }
}
