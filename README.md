# payment_processor — a verified model of the transaction engine

The engine replays a log of transaction records against per-client
accounts. Each record is a deposit, withdrawal, dispute, resolve or
chargeback, for a client (`u16`) and a transaction id (`u32`).

- **Account** (`src/account.rs`): holds `available`, `held` and `locked`. Its
  `apply` runs one of five operations: Deposit, Withdrawal, AddHold, NegHold
  or Chargeback. A locked account refuses everything. A withdrawal of more
  than is available is refused. A chargeback releases the hold and locks the
  account for good.
- **Records** (`src/transaction.rs`): the input record type, the five errors
  with their messages, and `PersistedTransaction`. That is a stored deposit or
  withdrawal plus a dispute flag that is flipped in place.
- **TransactionProcessor** (`src/main.rs`): owns the bank (client → account)
  and the persisted records (id → record). Its `apply` does three things, in
  this order:
  1. It turns the record into an account operation. The dispute family takes
     the referenced record's amount.
  2. It persists a deposit or withdrawal, or checks and flips the referenced
     record's flag.
  3. It applies the operation to the account of the record's client, creating
     that account if absent.

  A failure at any step returns at once and keeps what the earlier steps did.

## How the model is built

The model follows the code's own order and quirks, without correcting them:

- A record is persisted, or its flag flipped, *before* the account is
  reached. So a refused withdrawal is still stored, and a dispute on a locked
  account still flips the flag.
- A second deposit or withdrawal with an existing id replaces the stored
  record.
- A dispute, resolve or chargeback acts on the account of its *own* client.
  Nothing checks that this client owns the referenced record.

The model keeps these behaviours of the code:

- A locked account keeps its balances. The record of a call that reaches it
  is nevertheless persisted or flipped.
- Transaction ids are not unique in practice: a duplicate overwrites.
- The withdrawal error is named `NotEnoughFunds`, and the reference errors
  keep the code's spelling `Refferenced…`.

The model has two layers:

- Values: `Accounts.Transition` is a reference definition of `Account::apply`,
  and `Processor.Step` is one of `TransactionProcessor::apply`. Both rest on
  the value types `AccountState`, `Persisted` and `Store`. `Processor.Run`
  replays a sequence of records, as `main` does.
- Objects: the classes `Accounts.Account`, `Transactions.PersistedTransaction`
  and `Processor.TransactionProcessor` update their fields in place, as the
  code does. Each method is proved equal to the value-level definition.
  - `TransactionProcessor` carries two ghost maps, `Ledger` and `Records`, which
    hold the values of its account and record objects.
  - Its `Valid()` ties each object to its entry. It also makes every stored
    record a deposit or withdrawal that carries an amount and sits under its
    own id.

The properties are proved about the value layer. The engine's tests
(`src/test.rs`) are restated for every client, id and amount.

## Model

| member | source | states |
|---|---|---|
| Transactions.Message | src/transaction.rs:38-50 | The text displayed for each of the five errors, word for word; its injectivity is `MessagesDistinct`. |
| Transactions.MessagesDistinct | src/transaction.rs:38-50 | Two errors have the same displayed message exactly when they are the same error. |
| Transactions.PersistedTransaction.constructor | src/transaction.rs:57-62 | A new record holds the given transaction unchanged and is not disputed. |
| Transactions.PersistedTransaction.IsDisputed | src/transaction.rs:63-65 | Reports the stored dispute flag. |
| Transactions.PersistedTransaction.SetDisputed | src/transaction.rs:66-68 | Afterwards the record is disputed and its transaction is unchanged, whatever the flag was, so a second call changes nothing. |
| Transactions.PersistedTransaction.SetNotDisputed | src/transaction.rs:69-71 | Afterwards the record is not disputed and its transaction is unchanged, whatever the flag was. |
| Accounts.Initial | src/account.rs:63-70 | The state of a new account: nothing available, nothing held, unlocked. |
| Accounts.Total | src/account.rs:21 | The total reported for an account: available plus held. |
| Accounts.Transition | src/account.rs:27-62 | The reference definition of `apply` on values: a locked account refuses with AccountLocked, an unlocked one refuses an uncovered withdrawal with NotEnoughFunds, otherwise both balances move by the operation's change and the account ends locked exactly after a chargeback; its properties are `TransitionEffects`, `HoldRoundTrip` and `ChargebackIsTerminal`, and `Account.Apply` is proved equal to it. |
| Accounts.TransitionEffects | src/account.rs:27-62 | A locked account refuses every operation with AccountLocked. An unlocked account refuses exactly a withdrawal of more than is available, with NotEnoughFunds. A successful deposit raises the total by its amount; a withdrawal or chargeback lowers it by its amount; AddHold and NegHold leave it unchanged. A successful withdrawal never leaves `available` negative. |
| Accounts.HoldRoundTrip | src/account.rs:45-54 | On an unlocked account AddHold succeeds and keeps the total. NegHold of the same amount then succeeds and restores the state exactly. |
| Accounts.ChargebackIsTerminal | src/account.rs:29-59 | A chargeback on an unlocked account succeeds and leaves `available` alone. Every later operation on the result is refused with AccountLocked. |
| Accounts.Account.constructor | src/account.rs:63-70 | A new account belongs to the given client, with 0 available, 0 held and unlocked. |
| Accounts.Account.Apply | src/account.rs:27-62 | The in-place update leaves exactly the state the reference transition gives, or the old state on refusal. Its result is Ok or the transition's error. |
| Accounts.Account.GetAvailable | src/account.rs:71-73 | Returns the account's available funds. |
| Accounts.Account.GetHeld | src/account.rs:74-76 | Returns the account's held funds. |
| Processor.ToAccountTransaction | src/main.rs:119-166 | Translation fails exactly for a dispute-family record whose referenced id is missing, and the error is then RefferencedTransactionDoesNotExist. Otherwise the operation is the kind's counterpart. Its amount comes from the record for a deposit or withdrawal, and from the referenced record otherwise. |
| Processor.UpdateTransactions | src/main.rs:67-111 | A deposit or withdrawal is always stored, undisputed, under its id. A dispute-family record succeeds exactly when its id is present and the flag is opposite to the one it sets; the error names which check failed. Only the record `tx` changes, and stored records stay well formed. |
| Processor.Step | src/main.rs:64-118 | Only the record's client account and the record `tx` can change, and neither map loses a key. Stored records stay well formed. If the client has no account afterwards, the call changed nothing and failed. |
| Processor.Run | src/main.rs:28-33 | Replaying records in order keeps the records well formed and never removes an account or a record. |
| Processor.MissingReferenceRejected | src/main.rs:135-163 | A dispute, resolve or chargeback of an unknown id fails with RefferencedTransactionDoesNotExist. Neither map changes and no account is created. |
| Processor.DepositOrWithdrawalPersisted | src/main.rs:68-116 | A deposit or withdrawal is stored undisputed, over any earlier record with its id. The client's existing or new account takes the matching operation for the record's own amount, the result is that operation's outcome, and the account exists afterwards even if it refused the operation. The only possible errors are NotEnoughFunds and AccountLocked. |
| Processor.FlagMismatchRejected | src/main.rs:75-110 | Disputing a disputed record fails with RefferencedTransactionIsDisputed. Resolving or charging back an undisputed one fails with RefferencedTransactionIsNotDisputed. Either way nothing changes. |
| Processor.DisputeFamilyEffect | src/main.rs:75-117 | When the flag check passes, the flag flips. The hold operation for the referenced record's amount is applied to the account of the record's own client, whoever owns the referenced deposit. The only possible error is AccountLocked. |
| Processor.FlagFlipSurvivesLockedAccount | src/main.rs:75-116 | On a locked account a dispute-family record fails with AccountLocked. The record's flag stays flipped and the account is unchanged. |
| Processor.DisputeThenResolveRestores | src/main.rs:75-98 | Disputing then resolving an undisputed record on an unlocked account both succeed. They leave every record and every balance as before; the account now exists. |
| Processor.LockedAccountFrozen | src/main.rs:112-116 | No call changes a locked account. A call for that client fails. |
| Processor.LockedAccountStaysFrozen | src/main.rs:28-33 | A locked account keeps its balances and lock for the rest of any replay. |
| Processor.DepositsAccumulate | src/main.rs:28-33 | Deposits to one unlocked client raise `available` by the sum of their amounts and leave `held` and the lock alone. |
| Processor.CashOnlyNeverOverdraws | src/account.rs:37-44 | A replay of withdrawals and non-negative deposits never takes any account's `available` below zero. |
| Processor.TransactionProcessor.constructor | src/main.rs:58-63 | A new processor has no accounts and no records. |
| Processor.TransactionProcessor.Apply | src/main.rs:64-118 | The in-place `apply` returns exactly `Step`'s result and leaves exactly `Step`'s store. The processor stays valid, and the only new objects are fresh ones. |
| Processor.TransactionProcessor.PersistOrFlag | src/main.rs:67-111 | The persist-or-flag match leaves the records exactly as the value-level update gives, or unchanged with its error. |
| Processor.TransactionProcessor.Persist | src/main.rs:69-72 | A new undisputed record for the transaction replaces any record with its id. Nothing else changes. |
| Processor.TransactionProcessor.SetFlag | src/main.rs:75-110 | Only the flag of record `tx` changes, in place, to the given value. |
| Processor.TransactionProcessor.AccountFor | src/main.rs:112-115 | The client's account is the stored one, or a new account added under that client. |
| Processor.TransactionProcessor.ApplyToAccount | src/main.rs:112-117 | The client's account, created if absent, takes the reference transition's state, and the result reports that transition. |
| Processor.TransactionProcessor.Operate | src/main.rs:116 | Only the stored account of `client` changes, to the state the transition gives. |
| Scenarios.StepDepositOnEmpty | src/test.rs:8-23 | On an empty processor a deposit succeeds. It leaves one account holding the amount available, and one undisputed record. |
| Scenarios.ApplyOne | src/test.rs:8-23 | After one deposit on a new processor, the client's account has the amount available and nothing held, and exactly one record is stored. |
| Scenarios.StepDisputeOfDeposit | src/test.rs:26-49 | The depositor's dispute succeeds. The funds move from available to held and the record is marked disputed. |
| Scenarios.DepositAndDispute | src/test.rs:27-43 | On a new processor the deposit and its dispute both succeed and leave the disputed store. |
| Scenarios.DisputeTransaction | src/test.rs:26-49 | After a deposit and its dispute, both Ok, 0 is available and the amount is held. |
| Scenarios.StepChargebackOfDispute | src/test.rs:52-84 | Charging back the disputed deposit succeeds. The account is left at 0 available, 0 held and locked, and the record undisputed. |
| Scenarios.StepDepositOnLocked | src/test.rs:85-89 | A deposit on the locked account fails with AccountLocked, and the store is unchanged. |
| Scenarios.ChargebackLocks | src/test.rs:52-90 | Deposit, dispute and chargeback succeed, and the repeated deposit fails with AccountLocked. The account ends at 0/0/locked, with the record stored undisputed. |
| Scenarios.StepWithdrawalOverBalance | src/main.rs:68-116 | A withdrawal of more than the deposited amount fails with NotEnoughFunds. The balances stay as they were, but the withdrawal is persisted. |
| Scenarios.WithdrawalBeyondFunds | src/main.rs:68-116 | On the object, a withdrawal of more than the balance fails with NotEnoughFunds. `available` stays at the deposit, and the withdrawal record is stored undisputed. |
| Scenarios.StepDisputeByOther | src/main.rs:112-116 | Another client disputing the deposit succeeds. The hold lands on a new account of theirs (-amount available, amount held), and the depositor's account is untouched. |
| Scenarios.DisputeByAnotherClient | src/main.rs:112-116 | On the object, the same: the dispute succeeds, the depositor keeps amount/0, and the disputer ends at -amount/amount. |

## Left out

- `main`, `open_file`, `read_csv` and `print_totals` are not part of this model. They cover command-line parsing, file and console I/O, CSV decoding and the `Display` output of accounts. The replay loop of `main` is modelled as `Processor.Run`, and the error messages as `Transactions.Message`.
- Amounts are exact unbounded reals. The 96-bit mantissa, the scale limit and the overflow panics of the decimal library are not modelled.
- The `u16` and `u32` client and id types are subset types of `int`. No arithmetic is done on them.
- The `unwrap` of a missing amount on a deposit or withdrawal would panic. Here it is the precondition `HasRequiredAmount` on `Step` and `TransactionProcessor.Apply`, and `AllHaveRequiredAmount` (every record meets `HasRequiredAmount`) on `Run`. The `unwrap` of a referenced record's amount cannot fail, because the processor's invariant (`WellFormedRecords`) keeps every stored record a deposit or withdrawal with an amount.
- `HashMap` iteration order only affects the printed totals, so the maps are Dafny `map`s.
- The output file's column layout and value rendering are not modelled.
- Processor.TransactionProcessor.PersistOrFlag: it keeps the code's `Vacant` arms for a missing id. Through `apply` those arms are never reached, because translation already fails with the same error.
- Processor.CashOnlyNeverOverdraws: requires deposit amounts to be non-negative. The code accepts a negative deposit, which lowers `available` and can take it below zero, so the stronger claim does not hold of the code.
- Scenarios.ApplyOne, Scenarios.DisputeTransaction, Scenarios.ChargebackLocks: the tests use client 1, id 1 and amount 1. These members are stated for every client, id and amount.
