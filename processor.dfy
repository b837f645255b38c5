/** The transaction processor (src/main.rs): the bank of accounts keyed by
    client, the persisted deposits and withdrawals keyed by transaction id, and
    `apply`, which turns an input record into an account operation, persists or
    flags the referenced record, and applies the operation to the client's
    account. */
module Processor {
  import opened Results
  import opened Transactions
  import opened Accounts

  /** The two maps the processor owns, as values. */
  datatype Store = Store(bank: map<u16, AccountState>, transactions: map<u32, Persisted>)

  /** What one call of `apply` returns, and the store it leaves behind. */
  datatype Outcome = Outcome(result: Result<(), TransactionError>, store: Store)

  /** Every persisted record is a deposit or withdrawal with an amount, stored
      under its own id; this is what makes the `unwrap` of a referenced record's
      amount safe. */
  predicate WellFormedRecords(m: map<u32, Persisted>)
  {
    forall k | k in m ::
      && IsDepositOrWithdrawal(m[k].transaction)
      && m[k].transaction.amount.Some?
      && m[k].transaction.tx == k
  }

  predicate WellFormed(s: Store)
  {
    WellFormedRecords(s.transactions)
  }

  /** The account `apply` works on for client `c`: the stored one, or a new one. */
  function AccountOf(bank: map<u16, AccountState>, c: u16): AccountState
  {
    if c in bank then bank[c] else Initial()
  }

  /** `transactions.get(tx)`: the persisted record with that id, if any. */
  function Referenced(m: map<u32, Persisted>, tx: u32): Option<Transaction>
  {
    if tx in m then Some(m[tx].transaction) else None
  }

  /** The account operation each input kind becomes. */
  function OperationOf(k: TransactionType): AccountTransactionType
  {
    match k
    case Deposit => AccountTransactionType.Deposit
    case Withdrawal => AccountTransactionType.Withdrawal
    case Dispute => AddHold
    case Resolve => NegHold
    case Chargeback => AccountTransactionType.Chargeback
  }

  /** `to_account_transaction`, with the lookup of the referenced record passed
      in as `referenced`. Deposits and withdrawals use their own amount; the
      dispute family uses the referenced record's amount and fails when there
      is none. */
  function ToAccountTransaction(t: Transaction, referenced: Option<Transaction>)
    : (r: Result<AccountTransaction, TransactionError>)
    requires HasRequiredAmount(t)
    requires referenced.Some? ==> referenced.value.amount.Some?
    ensures r.Ok? <==> IsDepositOrWithdrawal(t) || referenced.Some?
    ensures r.Err? ==> r.error == RefferencedTransactionDoesNotExist
    ensures r.Ok? ==> r.value.transactionType == OperationOf(t.transactionType)
    ensures r.Ok? ==>
              r.value.amount == (if IsDepositOrWithdrawal(t) then t.amount.value else referenced.value.amount.value)
  {
    match t.transactionType
    case Deposit => Ok(AccountTransaction(AccountTransactionType.Deposit, t.amount.value))
    case Withdrawal => Ok(AccountTransaction(AccountTransactionType.Withdrawal, t.amount.value))
    case Dispute =>
      if referenced.Some? then Ok(AccountTransaction(AddHold, referenced.value.amount.value))
      else Err(RefferencedTransactionDoesNotExist)
    case Resolve =>
      if referenced.Some? then Ok(AccountTransaction(NegHold, referenced.value.amount.value))
      else Err(RefferencedTransactionDoesNotExist)
    case Chargeback =>
      if referenced.Some? then Ok(AccountTransaction(AccountTransactionType.Chargeback, referenced.value.amount.value))
      else Err(RefferencedTransactionDoesNotExist)
  }

  /** The first half of `apply`: a deposit or withdrawal is persisted (replacing
      any record with the same id); a dispute sets the referenced record's flag
      and a resolve or chargeback clears it, each only when the flag is in the
      other position. */
  function UpdateTransactions(m: map<u32, Persisted>, t: Transaction)
    : (r: Result<map<u32, Persisted>, TransactionError>)
    // A deposit or withdrawal always ends up stored, fresh and undisputed.
    ensures IsDepositOrWithdrawal(t) ==> r.Ok? && t.tx in r.value && r.value[t.tx] == Persisted(t, false)
    // The dispute family needs the record, with the flag opposite to the one it sets.
    ensures !IsDepositOrWithdrawal(t) ==>
      (r.Ok? <==> t.tx in m && m[t.tx].disputed != t.transactionType.Dispute?)
    ensures r.Err? ==>
              r.error == (if t.tx !in m then RefferencedTransactionDoesNotExist
                          else if t.transactionType.Dispute? then RefferencedTransactionIsDisputed
                          else RefferencedTransactionIsNotDisputed)
    ensures r.Ok? && !IsDepositOrWithdrawal(t) ==>
      t.tx in r.value && r.value[t.tx] == m[t.tx].(disputed := t.transactionType.Dispute?)
    // Only the record `t.tx` is touched.
    ensures r.Ok? ==> r.value.Keys == m.Keys + {t.tx}
    ensures r.Ok? ==> forall k | k in m && k != t.tx :: r.value[k] == m[k]
    ensures r.Ok? && WellFormedRecords(m) && HasRequiredAmount(t) ==> WellFormedRecords(r.value)
  {
    match t.transactionType
    case Deposit => Ok(m[t.tx := Persisted(t, false)])
    case Withdrawal => Ok(m[t.tx := Persisted(t, false)])
    case Dispute =>
      if t.tx !in m then Err(RefferencedTransactionDoesNotExist)
      else if m[t.tx].disputed then Err(RefferencedTransactionIsDisputed)
      else Ok(m[t.tx := m[t.tx].(disputed := true)])
    case Resolve =>
      if t.tx !in m then Err(RefferencedTransactionDoesNotExist)
      else if m[t.tx].disputed then Ok(m[t.tx := m[t.tx].(disputed := false)])
      else Err(RefferencedTransactionIsNotDisputed)
    case Chargeback =>
      if t.tx !in m then Err(RefferencedTransactionDoesNotExist)
      else if m[t.tx].disputed then Ok(m[t.tx := m[t.tx].(disputed := false)])
      else Err(RefferencedTransactionIsNotDisputed)
  }

  /** `TransactionProcessor::apply` on values. Translation first; then the
      record is persisted or flagged; then the account of `t.client` is created
      if absent and the operation applied to it. A failure at any step returns
      at once, keeping what the earlier steps did. */
  function Step(s: Store, t: Transaction): (o: Outcome)
    requires WellFormed(s) && HasRequiredAmount(t)
    ensures WellFormed(o.store)
    // Only the account of `t.client` and the record `t.tx` can change, and
    // neither map loses a key.
    ensures s.bank.Keys <= o.store.bank.Keys <= s.bank.Keys + {t.client}
    ensures forall c | c in s.bank && c != t.client :: o.store.bank[c] == s.bank[c]
    ensures s.transactions.Keys <= o.store.transactions.Keys <= s.transactions.Keys + {t.tx}
    ensures forall k | k in s.transactions && k != t.tx :: o.store.transactions[k] == s.transactions[k]
    // When no account was reached, the call changed nothing at all.
    ensures o.result.Ok? ==> t.client in o.store.bank
    ensures t.client !in o.store.bank ==> o.store == s && o.result.Err?
  {
    match ToAccountTransaction(t, Referenced(s.transactions, t.tx))
    case Err(e) => Outcome(Err(e), s)
    case Ok(operation) =>
      match UpdateTransactions(s.transactions, t)
      case Err(e) => Outcome(Err(e), s)
      case Ok(transactions) =>
        var account := AccountOf(s.bank, t.client);
        match Transition(account, operation)
        case Err(e) => Outcome(Err(e), Store(s.bank[t.client := account], transactions))
        case Ok(next) => Outcome(Ok(()), Store(s.bank[t.client := next], transactions))
  }

  predicate AllHaveRequiredAmount(ts: seq<Transaction>)
  {
    forall i | 0 <= i < |ts| :: HasRequiredAmount(ts[i])
  }

  /** The replay loop of `main`: every record is applied in order and a failing
      one is reported and skipped. */
  function Run(s: Store, ts: seq<Transaction>): (r: Store)
    requires WellFormed(s) && AllHaveRequiredAmount(ts)
    ensures WellFormed(r)
    ensures s.bank.Keys <= r.bank.Keys
    ensures s.transactions.Keys <= r.transactions.Keys
    decreases |ts|
  {
    if ts == [] then s else Run(Step(s, ts[0]).store, ts[1..])
  }

  /** A record that cannot be translated is refused and changes nothing. */
  lemma StepStopsAtTranslation(s: Store, t: Transaction)
    requires WellFormed(s) && HasRequiredAmount(t)
    requires ToAccountTransaction(t, Referenced(s.transactions, t.tx)).Err?
    ensures Step(s, t) == Outcome(Err(ToAccountTransaction(t, Referenced(s.transactions, t.tx)).error), s)
  {
  }

  /** A record whose persist-or-flag step fails is refused and changes nothing. */
  lemma StepStopsAtRecords(s: Store, t: Transaction)
    requires WellFormed(s) && HasRequiredAmount(t)
    requires ToAccountTransaction(t, Referenced(s.transactions, t.tx)).Ok?
    requires UpdateTransactions(s.transactions, t).Err?
    ensures Step(s, t) == Outcome(Err(UpdateTransactions(s.transactions, t).error), s)
  {
  }

  /** Once translation and the record update have succeeded, `apply` comes down
      to the account operation on the client's account. */
  lemma StepReachesAccount(s: Store, t: Transaction)
    requires WellFormed(s) && HasRequiredAmount(t)
    requires ToAccountTransaction(t, Referenced(s.transactions, t.tx)).Ok?
    requires UpdateTransactions(s.transactions, t).Ok?
    ensures var operation := ToAccountTransaction(t, Referenced(s.transactions, t.tx)).value;
            var account := AccountOf(s.bank, t.client);
            var transition := Transition(account, operation);
            Step(s, t) == Outcome(
              if transition.Ok? then Ok(()) else Err(transition.error),
              Store(s.bank[t.client := After(account, operation)], UpdateTransactions(s.transactions, t).value))
  {
  }

  // ---------------------------------------------------------------------------
  // Properties of one call of `apply`.

  /** A dispute, resolve or chargeback of an unknown id fails with
      `RefferencedTransactionDoesNotExist`, changes neither map and creates no account. */
  lemma MissingReferenceRejected(s: Store, t: Transaction)
    requires WellFormed(s) && HasRequiredAmount(t)
    requires !IsDepositOrWithdrawal(t) && t.tx !in s.transactions
    ensures Step(s, t) == Outcome(Err(RefferencedTransactionDoesNotExist), s)
  {
  }

  /** A deposit or withdrawal is always stored, fresh and undisputed, over any
      earlier record with its id, and the client's account exists afterwards,
      even when the account refuses the operation; the account takes the
      matching operation for the record's own amount. */
  lemma DepositOrWithdrawalPersisted(s: Store, t: Transaction)
    requires WellFormed(s) && HasRequiredAmount(t) && IsDepositOrWithdrawal(t)
    ensures var o := Step(s, t);
            var operation := AccountTransaction(OperationOf(t.transactionType), t.amount.value);
            var account := AccountOf(s.bank, t.client);
            && o.store.transactions == s.transactions[t.tx := Persisted(t, false)]
            && t.client in o.store.bank
            && o.store.bank == s.bank[t.client := After(account, operation)]
            && o.result == (if Transition(account, operation).Ok? then Ok(())
                            else Err(Transition(account, operation).error))
            && (o.result.Err? ==> o.result.error in {NotEnoughFunds, AccountLocked})
  {
  }

  /** Disputing a disputed record, or resolving or charging back an undisputed
      one, fails and changes nothing. */
  lemma FlagMismatchRejected(s: Store, t: Transaction)
    requires WellFormed(s) && HasRequiredAmount(t)
    requires !IsDepositOrWithdrawal(t) && t.tx in s.transactions
    requires s.transactions[t.tx].disputed == t.transactionType.Dispute?
    ensures Step(s, t) == Outcome(
      Err(if t.transactionType.Dispute? then RefferencedTransactionIsDisputed
          else RefferencedTransactionIsNotDisputed), s)
  {
  }

  /** A dispute-family record whose flag check passes flips the flag and applies
      the matching hold operation, for the referenced record's amount, to the
      account of `t.client`: whichever client the referenced record belongs to. */
  lemma DisputeFamilyEffect(s: Store, t: Transaction)
    requires WellFormed(s) && HasRequiredAmount(t)
    requires !IsDepositOrWithdrawal(t) && t.tx in s.transactions
    requires s.transactions[t.tx].disputed != t.transactionType.Dispute?
    ensures var o := Step(s, t);
            var operation := AccountTransaction(
              OperationOf(t.transactionType), s.transactions[t.tx].transaction.amount.value);
            var account := AccountOf(s.bank, t.client);
            && o.store.transactions == s.transactions[t.tx := s.transactions[t.tx].(disputed := t.transactionType.Dispute?)]
            && o.store.bank == s.bank[t.client := After(account, operation)]
            && o.result == (if Transition(account, operation).Ok? then Ok(()) else Err(AccountLocked))
  {
  }

  /** The flag is flipped before the account is reached, so the flip stays even
      when the account is locked and the call fails. */
  lemma FlagFlipSurvivesLockedAccount(s: Store, t: Transaction)
    requires WellFormed(s) && HasRequiredAmount(t)
    requires !IsDepositOrWithdrawal(t) && t.tx in s.transactions
    requires s.transactions[t.tx].disputed != t.transactionType.Dispute?
    requires AccountOf(s.bank, t.client).locked
    ensures var o := Step(s, t);
            && o.result == Err(AccountLocked)
            && o.store.transactions[t.tx].disputed == t.transactionType.Dispute?
            && o.store.bank == s.bank[t.client := AccountOf(s.bank, t.client)]
  {
  }

  /** Dispute then resolve of an undisputed record on an unlocked account both
      succeed, and leave the record and every balance as they were (the
      client's account now existing if it did not). */
  lemma DisputeThenResolveRestores(s: Store, c: u16, tx: u32)
    requires WellFormed(s)
    requires tx in s.transactions && !s.transactions[tx].disputed
    requires !AccountOf(s.bank, c).locked
    ensures var disputed := Step(s, Transaction(Dispute, c, tx, None));
            var resolved := Step(disputed.store, Transaction(Resolve, c, tx, None));
            && disputed.result == Ok(())
            && resolved.result == Ok(())
            && resolved.store == Store(s.bank[c := AccountOf(s.bank, c)], s.transactions)
  {
    var p := s.transactions[tx];
    var account := AccountOf(s.bank, c);
    var hold := AccountTransaction(AddHold, p.transaction.amount.value);
    HoldRoundTrip(account, p.transaction.amount.value);
    var first := Transaction(Dispute, c, tx, None);
    DisputeFamilyEffect(s, first);
    var middle := Step(s, first).store;
    assert middle.transactions == s.transactions[tx := p.(disputed := true)];
    assert middle.bank == s.bank[c := After(account, hold)];
    var second := Transaction(Resolve, c, tx, None);
    DisputeFamilyEffect(middle, second);
    assert middle.transactions[tx := p] == s.transactions;
    assert middle.bank[c := account] == s.bank[c := account];
  }

  /** A locked account is frozen: no call changes it, and a call for its own
      client that gets as far as the account fails with `AccountLocked`. */
  lemma LockedAccountFrozen(s: Store, t: Transaction, c: u16)
    requires WellFormed(s) && HasRequiredAmount(t)
    requires c in s.bank && s.bank[c].locked
    ensures c in Step(s, t).store.bank && Step(s, t).store.bank[c] == s.bank[c]
    ensures t.client == c ==> Step(s, t).result.Err?
  {
  }

  // ---------------------------------------------------------------------------
  // Properties of a whole replay.

  /** Once locked, an account keeps its balances and its lock for the rest of
      any replay. */
  lemma {:induction false} LockedAccountStaysFrozen(s: Store, ts: seq<Transaction>, c: u16)
    requires WellFormed(s) && AllHaveRequiredAmount(ts)
    requires c in s.bank && s.bank[c].locked
    ensures c in Run(s, ts).bank && Run(s, ts).bank[c] == s.bank[c]
    decreases |ts|
  {
    if ts != [] {
      LockedAccountFrozen(s, ts[0], c);
      LockedAccountStaysFrozen(Step(s, ts[0]).store, ts[1..], c);
    }
  }

  /** A replay of deposits only, all to client `c`. */
  predicate DepositsTo(ts: seq<Transaction>, c: u16)
  {
    forall i | 0 <= i < |ts| ::
      ts[i].transactionType.Deposit? && ts[i].client == c && ts[i].amount.Some?
  }

  function AmountSum(ts: seq<Transaction>): Decimal
    requires forall i | 0 <= i < |ts| :: ts[i].amount.Some?
  {
    if ts == [] then 0.0 else ts[0].amount.value + AmountSum(ts[1..])
  }

  /** Deposits to an unlocked client add up: `available` grows by their sum and
      `held` is unchanged. */
  lemma {:induction false} DepositsAccumulate(s: Store, ts: seq<Transaction>, c: u16)
    requires WellFormed(s) && DepositsTo(ts, c)
    requires !AccountOf(s.bank, c).locked
    ensures AllHaveRequiredAmount(ts)
    ensures var before := AccountOf(s.bank, c);
            AccountOf(Run(s, ts).bank, c) == before.(available := before.available + AmountSum(ts))
    decreases |ts|
  {
    if ts != [] {
      var next := Step(s, ts[0]).store;
      assert DepositsTo(ts[1..], c) by {
        forall i | 0 <= i < |ts[1..]| ensures ts[1..][i] == ts[i + 1] { }
      }
      DepositsAccumulate(next, ts[1..], c);
    }
  }

  /** Deposits of non-negative amounts and withdrawals only. */
  predicate CashOnly(ts: seq<Transaction>)
  {
    forall i | 0 <= i < |ts| ::
      && IsDepositOrWithdrawal(ts[i])
      && ts[i].amount.Some?
      && (ts[i].transactionType.Deposit? ==> ts[i].amount.value >= 0.0)
  }

  predicate NoOverdraft(bank: map<u16, AccountState>)
  {
    forall c | c in bank :: bank[c].available >= 0.0
  }

  /** Without disputes, no account's `available` ever goes below zero. */
  lemma {:induction false} CashOnlyNeverOverdraws(s: Store, ts: seq<Transaction>)
    requires WellFormed(s) && CashOnly(ts) && NoOverdraft(s.bank)
    ensures AllHaveRequiredAmount(ts)
    ensures NoOverdraft(Run(s, ts).bank)
    decreases |ts|
  {
    if ts != [] {
      var t := ts[0];
      var next := Step(s, t).store;
      assert NoOverdraft(next.bank) by {
        forall c | c in next.bank ensures next.bank[c].available >= 0.0 {
          if c == t.client {
            assert AccountOf(s.bank, c).available >= 0.0;
          }
        }
      }
      assert CashOnly(ts[1..]) by {
        forall i | 0 <= i < |ts[1..]| ensures ts[1..][i] == ts[i + 1] { }
      }
      CashOnlyNeverOverdraws(next, ts[1..]);
    }
  }

  // ---------------------------------------------------------------------------
  // The processor object.

  /** The engine: `bank` maps each client to its account object and
      `transactions` maps each persisted id to its record object; `apply`
      updates both in place. `Ledger` and `Records` are their values. */
  class TransactionProcessor {
    var bank: map<u16, Account>
    var transactions: map<u32, PersistedTransaction>
    ghost var Ledger: map<u16, AccountState>
    ghost var Records: map<u32, Persisted>

    /** Every account is stored under its own client and every record under its
        own id (so no two keys share an object), every record is well formed,
        and the ghost maps hold the objects' values. */
    ghost predicate Valid()
      reads this, bank.Values, transactions.Values
    {
      ValidBank() && ValidTransactions()
    }

    ghost predicate ValidBank()
      reads this`bank, this`Ledger, bank.Values
    {
      && bank.Keys == Ledger.Keys
      && (forall c | c in bank :: bank[c].client == c && bank[c].State() == Ledger[c])
    }

    ghost predicate ValidTransactions()
      reads this`transactions, this`Records, transactions.Values
    {
      && transactions.Keys == Records.Keys
      && (forall k | k in transactions :: transactions[k].View() == Records[k])
      && WellFormedRecords(Records)
    }

    /** Both maps as values. */
    ghost function State(): Store
      reads this
    {
      Store(Ledger, Records)
    }

    /** A processor with no accounts and no persisted records. */
    constructor ()
      ensures Valid()
      ensures bank == map[] && transactions == map[]
      ensures State() == Store(map[], map[])
    {
      bank := map[];
      transactions := map[];
      Ledger := map[];
      Records := map[];
    }

    /** Applies one input record: exactly `Step` on the stored values. */
    method Apply(t: Transaction) returns (r: Result<(), TransactionError>)
      requires Valid() && HasRequiredAmount(t)
      modifies this, bank.Values, transactions.Values
      ensures Valid()
      ensures fresh(bank.Values - old(bank.Values))
      ensures fresh(transactions.Values - old(transactions.Values))
      ensures WellFormed(old(State())) && Step(old(State()), t) == Outcome(r, State())
    {
      ghost var s := State();
      var referenced := if t.tx in transactions then Some(transactions[t.tx].transaction) else None;
      assert referenced == Referenced(s.transactions, t.tx);
      var translated := ToAccountTransaction(t, referenced);
      if translated.Err? {
        StepStopsAtTranslation(s, t);
        return Err(translated.error);
      }
      r := PersistOrFlag(t);
      if r.Err? {
        StepStopsAtRecords(s, t);
        return;
      }
      r := ApplyToAccount(t.client, translated.value);
      StepReachesAccount(s, t);
    }

    /** The end of `apply`: the client's account, created if absent, applies
        the operation. */
    method ApplyToAccount(client: u16, operation: AccountTransaction) returns (r: Result<(), TransactionError>)
      requires Valid()
      modifies this`bank, this`Ledger, bank.Values
      ensures Valid()
      ensures fresh(bank.Values - old(bank.Values))
      ensures Ledger == old(Ledger)[client := After(AccountOf(old(Ledger), client), operation)]
      ensures var current := AccountOf(old(Ledger), client);
              r == if Transition(current, operation).Ok? then Ok(()) else Err(Transition(current, operation).error)
    {
      var _ := AccountFor(client);
      r := Operate(client, operation);
    }

    /** `account.apply(account_transaction)` on the stored account of `client`. */
    method Operate(client: u16, operation: AccountTransaction) returns (r: Result<(), TransactionError>)
      requires Valid() && client in bank
      modifies this`Ledger, bank[client]
      ensures Valid()
      ensures Ledger == old(Ledger)[client := After(old(Ledger)[client], operation)]
      ensures r == if Transition(old(Ledger)[client], operation).Ok? then Ok(())
                   else Err(Transition(old(Ledger)[client], operation).error)
    {
      var account := bank[client];
      label Reached:
      r := account.Apply(operation);
      Ledger := Ledger[client := account.State()];
      assert ValidBank() by {
        forall c | c in bank
          ensures bank[c].client == c && bank[c].State() == Ledger[c]
        {
          if c != client {
            assert bank[c] != account;
            assert bank[c].State() == old@Reached(bank[c].State());
          }
        }
      }
    }

    /** The `match` of `apply` on the record kind: persists a deposit or
        withdrawal, or checks and flips the referenced record's flag. */
    method PersistOrFlag(t: Transaction) returns (r: Result<(), TransactionError>)
      requires Valid() && HasRequiredAmount(t)
      modifies this`transactions, this`Records, transactions.Values
      ensures Valid()
      ensures fresh(transactions.Values - old(transactions.Values))
      ensures match UpdateTransactions(old(Records), t)
              case Ok(m) => r == Ok(()) && Records == m
              case Err(e) => r == Err(e) && Records == old(Records)
    {
      match t.transactionType {
        case Deposit | Withdrawal =>
          Persist(t);
          r := Ok(());
        case Dispute =>
          if t.tx !in transactions {
            return Err(RefferencedTransactionDoesNotExist);
          }
          if transactions[t.tx].IsDisputed() {
            return Err(RefferencedTransactionIsDisputed);
          }
          SetFlag(t.tx, true);
          r := Ok(());
        case Resolve =>
          if t.tx !in transactions {
            return Err(RefferencedTransactionDoesNotExist);
          }
          if !transactions[t.tx].IsDisputed() {
            return Err(RefferencedTransactionIsNotDisputed);
          }
          SetFlag(t.tx, false);
          r := Ok(());
        case Chargeback =>
          if t.tx !in transactions {
            return Err(RefferencedTransactionDoesNotExist);
          }
          if !transactions[t.tx].IsDisputed() {
            return Err(RefferencedTransactionIsNotDisputed);
          }
          SetFlag(t.tx, false);
          r := Ok(());
      }
    }

    /** `transactions.insert(tx, PersistedTransaction::new(transaction))`: a
        fresh, undisputed record replaces any record with the same id. */
    method Persist(t: Transaction)
      requires Valid() && IsDepositOrWithdrawal(t) && t.amount.Some?
      modifies this`transactions, this`Records
      ensures Valid()
      ensures fresh(transactions.Values - old(transactions.Values))
      ensures Records == old(Records)[t.tx := Persisted(t, false)]
    {
      var p := new PersistedTransaction(t);
      transactions := transactions[t.tx := p];
      Records := Records[t.tx := p.View()];
    }

    /** Sets (`set_disputed`) or clears (`set_not_disputed`) the flag of the
        record `tx`, in place. */
    method SetFlag(tx: u32, disputed: bool)
      requires Valid() && tx in transactions
      modifies this`Records, transactions[tx]
      ensures Valid()
      ensures Records == old(Records)[tx := old(Records)[tx].(disputed := disputed)]
    {
      var p := transactions[tx];
      if disputed {
        p.SetDisputed();
      } else {
        p.SetNotDisputed();
      }
      Records := Records[tx := p.View()];
    }

    /** `bank.entry(client).or_insert(Account::new(client))`. */
    method AccountFor(client: u16) returns (account: Account)
      requires Valid()
      modifies this`bank, this`Ledger
      ensures Valid()
      ensures fresh(bank.Values - old(bank.Values))
      ensures client in bank && bank[client] == account
      ensures account.State() == AccountOf(old(Ledger), client)
      ensures Ledger == old(Ledger)[client := AccountOf(old(Ledger), client)]
    {
      if client in bank {
        account := bank[client];
      } else {
        account := new Account(client);
        bank := bank[client := account];
        Ledger := Ledger[client := account.State()];
      }
    }
  }
}
