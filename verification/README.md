# many-ledger in Dafny

A model of the state machine of many-ledger: the storage object behind the ledger, the module
entry points that guard it, and the migrations that run when a block is committed, together
with proofs of what holds over every run of calls.

## How it is built

- `Types.dfy`, `AccountRules.dfy` and `Allocation.dfy` hold the stored values, the arithmetic of
  roles and defaults, and the derivation of subresources.
- `Machine.dfy` holds the state and nineteen *effects*. An effect is one indivisible change: a
  store write with the event that logs it. A `Machine` is a state with the effects so far.
- `Operations.dfy` specifies every operation: which effects it performs, in which order, and when
  it refuses. Effects performed before a refusal stay performed, as they do in the store.
  Multisig executions nest; the parameter `depth` is the call stack, and running out of it is
  the answer `Overflow`, the abort of the process. Payloads are not restricted in any way.
- `Storage.dfy` is the storage object: a class whose methods update its fields step by step, loops
  included, each proved to equal its operation on the whole old state. `Scans.dfy` holds the
  loops over ranges and batches, `IdStore.dfy` the identity store with its retry loop, and
  `EventListing.dfy` the listing method. Every write of the object goes through one method that
  demands strictly sorted byte keys; mint and burn, whose keys may come in any order, are refused
  when they do not come in that one. `Batches.dfy` says what a batch writes and when it is
  sorted, `Keys.dfy` is about the byte order of keys.
- Reads find every write, but a scan of the store finds only what was committed. The state keeps
  the committed transactions and symbols beside the store; the sweep and the lookups of symbols
  use those. `Sweeping.dfy` holds what follows from it.
- `Legality.dfy` says when each effect is allowed (`Enabled`), without reference to the
  operations, and proves that operations perform allowed effects only. The other files prove
  invariants of every allowed effect, hence of every run: `Supply`, `Replay`, `EventSourcing`,
  `TxHistory`, `Registry`, `EventIds`, `Counters`, `Authorisation`. `Genesis.dfy` puts them
  together. `Termination.dfy` says exactly when nested executions end, `SelfWithdrawal.dfy` exactly
  when they fail.
- `Outcomes.dfy` says what every call has to answer and leave behind, as a relation spelled out field
  by field with literal constants, which uses none of the functions that perform an operation.
  `CallContracts.dfy` and, for payloads and nested executions, `Executions.dfy` prove that every
  call does so; `Determinacy.dfy` that the relation leaves no choice. `Reuse.dfy` and
  `Reloading.dfy` are about identifiers over commits and over reloads.

The functions of `Operations` carry no contract of their own to speak of; each has a row below
through the method that implements it, and `Executions.CallExact` ties all of them to their outcomes.

## Where the code falls short of what one might expect

A property that fails is stated with the exact condition under which it holds and, beside it, a
case in which it fails.

- Blocks one and two share the identifier base zero, because the height before the increment is
  shifted (src/many-ledger/src/storage/abci.rs:12 and :30, src/many-ledger/src/storage.rs:201).
  No later run loses an event exactly when nothing stored lies above the new base, for the first
  block exactly when it logged nothing: `IdReuse.CommitExact`, `IdReuse.FirstBlockMustBeSilent`,
  `EventIds.FirstBlockCollision`.
- A mint that lists the anonymous address forgets what that address held, because its balance is
  read as nothing (src/many-ledger/src/storage/ledger.rs:40-42). Over a run, supply is
  conserved exactly when no mint did: `Supply.ConservedExactly`, `Supply.AnonymousMintForgets`. The
  gap is known at every moment, to the supply and to the log, and a burn never underflows for it:
  `Supply.GapAlong`, `EventSourcing.BalancesApart`, `Supply.BurnSucceedsExactly`.
- The sweep at the end of a block scans before the commit, so it finds the transactions of the block
  before (src/many-ledger/src/storage/abci.rs:10-18, src/many-ledger/src/storage/iterator.rs:17-32).
  A transaction closed in a block stays as it was closed exactly unless the sweep of that block
  finds its earlier record pending and timed out, in which case it becomes expired and loses the
  approvals of the block: `TxHistory.ClosedForGood`, `Sweeping.ExecutedThenExpired`,
  `Sweeping.ExpiredThoughExecuted`. Approvals are what the log says exactly when none is lost so:
  `EventSourcing.RecordsAlwaysSourced`, `EventSourcing.ApprovalsAreLatest`,
  `Sweeping.ApprovalTakenBack`. And a transaction submitted in a block is not swept in it, whatever
  its timeout: `TxHistory.SweepExact`, `TxHistory.ExecutionAfterSweep`,
  `Sweeping.ExecutedAfterTimeout`. No payload runs twice for it: `TxHistory.PayloadsRunOnce`.
- Symbols are looked up by a scan too, so a token can be minted, burned or updated only from the
  block after its creation on: `Supply.MintSucceedsExactly`, `CallContracts.UpdateTokenExact`,
  `Sweeping.NewTokenNotYetListed`.
- Mint and burn write balances in the order of addresses, while the store takes them only in the
  order of their printed form. They succeed exactly when both agree on the distribution:
  `Supply.MintSucceedsExactly`, `Supply.BurnSucceedsExactly`, `Supply.UnsortedMintRefused`.
- A transaction can order its own execution. The nested calls end exactly when the chain of
  executions does not come back: `Termination.TerminationExact`,
  `Termination.SelfExecutionIsEndless`.
- Mints, burns and creations do not touch the account counters. Counters stay exact exactly for
  neutral ones: `Counters.CountsStepExact`, `Counters.MintMiscounts`. After others a send can
  decrement a counter that is zero: `CallContracts.SendExact` says exactly when,
  `CallContracts.NeutralRunsCount` that it needs such a mint, burn or creation, and
  `CallContracts.UncountedMintBlocksSend` is a case.
- A token migration whose token identity is the root identity can hand out the address of an
  existing account: `Allocation.MigrationExact`, `Allocation.MigrationCanReplace`.
- Keys hold 32 bytes of an identifier, so a longer bound lists a wrong range. A bound is listed
  from, or to, rightly exactly when it fits: `Keys.KeyExact`, `EventListing.ScanExact`,
  `EventListing.LongBoundListsMore`.
- A token cannot be updated to the ticker it already has: `CallContracts.UpdateTokenExact`,
  `CallContracts.OwnTickerRefused`.
- Whoever approved once may revoke after losing the role: `CallContracts.RevokeExact`,
  `CallContracts.FormerApproverRevokes`.
- A transaction can withdraw itself, directly or through the transactions it executes; executing
  it then fails, with its effects done. It does exactly when the chain of executions, followed
  from the state before the call, ends in such a withdrawal: `SelfWithdrawal.ExecutionOutcome`,
  `CallContracts.ExecuteExact`, `SelfWithdrawal.SelfWithdrawalFails`.
- The early exit of the expiry sweep is never taken on sound transactions; the comment beside it
  gives it as an optimisation. That is part of the proof of `CheckTimedOutMultisigTransactions`.
- The expiry sweep logs no event, so replay accounts for terms and approvals of a transaction but
  not for its terminal state.

## Assumptions

- The store behaves as a map that accepts exactly the strictly sorted batches; a read finds every
  write, a scan what was committed last; encodings are injective.
- Addresses print injectively (`PrintsInjectively`), deriving a subresource keeps the hash of its
  identity, and the largest subresource identifier is 0x7FFFFFFF; the crate that defines them is
  not part of this model.
- Any one listed role suffices for a role check, creating an account makes the creator its owner,
  and inserting a feature that is present reports it; these come from crates not part of this model.
- Tokens and event identifiers are numbers, identified by their padded key; amounts are unbounded.
- The token migration is active from genesis in the machine; `Allocation` alone also covers a
  ledger before it and the hand-over.
- `Commit` takes as parameters which migrations become active. Where reloads matter, a migration
  becomes active with the commit that reaches its configured height, and is active on a reloaded
  node whose stored height has reached it; the crate that schedules migrations is not part of
  this model. Every block brings its time there.
- The clock, and the checksum of a recall phrase, are parameters too. The packing of phrases
  follows BIP-39, section "Generating the mnemonic".

## Model

| member | source | states |
|---|---|---|
| Geneses.EveryRunIsSound | src/many-ledger/src/storage.rs:129-206 | Any run of calls from an accepted initial state, with any payloads, that is answered and keeps its blocks within bounds ends in a state with fresh identifiers, supplies that cover the balances, self-owned accounts below their counter, sound transactions, and accounts, terms and open approvals that the log accounts for; the log accounts for all approvals exactly when no sweep took one back, supplies equal the balances exactly when no mint went over an anonymous holding, and the log accounts for everything exactly when neither was. |
| Geneses.GenesisSound | src/many-ledger/src/storage/ledger_tokens.rs:88-159 | An accepted initial store satisfies every invariant, and both token registers agree exactly when the configured tickers are distinct. |
| Geneses.GenesisExact | src/many-ledger/src/storage/ledger_tokens.rs:63-159 | The new ledger holds the configured balances, one token for each symbol with the configured name, decimals, maximum and owner and the sum of its balances as both supplies, one account for each configured one, and the configured identities and counter. |
| Geneses.WithAccountsSound | src/many-ledger/src/storage/account.rs:69-96 | Initial accounts get distinct fresh addresses and own themselves, one for each configured account, with its description, roles and features and its multisig arguments filled in as at a creation; nothing but the accounts and their counter changes. |
| Legality.CallsLegal | src/many-ledger/src/storage/multisig.rs:35-156 | Every run of calls, however its executions nest, is a sequence of effects each of which was allowed, by the stand-alone predicate Enabled, in the state it happened in. |
| Legality.AnswerLegal | src/many-ledger/src/storage/multisig.rs:409-542 | One call extends a legal run to a legal run. |
| Legality.RunPayloadLegal | src/many-ledger/src/storage/multisig.rs:35-156 | So does running the payload of a pending transaction with a quorum, through all nested approvals, executions and withdrawals. |
| Legality.ExecuteInternalLegal | src/many-ledger/src/storage/multisig.rs:566-603 | So does a whole execution. |
| Storage.LedgerStorage.Handle | src/many-ledger/src/module/multisig.rs:9-76 | Each call does to the storage object exactly what the specification of its operation says, and what its spelled-out outcome says, crashes exactly when that overflows the stack, and leaves the object ready for the next call. |
| Executions.CallExact | src/many-ledger/src/module/multisig.rs:9-76 | Every call of every kind that is answered, through all executions nested in it, relates the state before, the answer and the whole state after as its outcome in Outcomes spells out, field by field and with the reason of a refusal; commits, migrations and begin of block included. |
| Executions.PayloadExact | src/many-ledger/src/storage/multisig.rs:35-156 | Whatever the payload of a transaction, it does what a direct call of its account would: a transfer moves tokens if the source gives the account a role, a created account is owned by it, changes, submissions, approvals, revocations, executions and withdrawals are made in its name. |
| Executions.RunExact | src/many-ledger/src/storage/multisig.rs:566-603 | A whole execution is the outcome of the payload, the closing of the transaction as executed manually or automatically unless it is closed already, and the logged answer of the payload. |
| Executions.ApproveMeets | src/many-ledger/src/storage/multisig.rs:409-450 | An approval, by call or payload: refused for the reason that is the case; else recorded and logged at once, and followed by the whole execution exactly when the transaction is automatic and the voters including this one reach the threshold. |
| Executions.ExecuteMeets | src/many-ledger/src/storage/multisig.rs:483-515 | An execution on request, by call or payload: refused for the reason that is the case; else, for an owner or the submitter and with a quorum, the whole execution. |
| Executions.ExecutedTransfer | src/many-ledger/src/storage/multisig.rs:39-61 | Executing a ready transfer on request answers Ok in the response exactly when the account at the source is enabled, gives the multisig account owner or transact role, covers the positive amount between different named addresses, and no counter would fall below zero; exactly then the source loses the amount, the receiver gains it, no other balance changes and one send is logged before the execution; otherwise no balance changes. |
| Executions.ApprovedTransfer | src/many-ledger/src/storage/multisig.rs:427-450 | An approval that completes the quorum of an automatic transfer does the same, from the state with the approval. |
| Executions.CommitMeets | src/many-ledger/src/storage/abci.rs:7-36 | A commit leaves each record swept and, with the memo migration, with its memo fields joined, each event likewise, counters recounted with theirs, the height one more, the identifiers at the old height times 2^32 modulo 2^64, and everything else as it was. |
| Determinacy.OutcomesDetermined | src/many-ledger/src/module/multisig.rs:9-76 | The outcomes leave no choice: two answers to the same call, with all executions nested in it, both accept or both refuse, with the same value if they accept, and leave the same state in every field, logged responses included. |
| CallContracts.SubmitExact | src/many-ledger/src/storage/multisig.rs:294-397 | A submission, by call or payload, is accepted exactly when the sender owns, or may submit to without overriding a default, the enabled account with the multisig feature; the stored record and its event hold what was asked for in every field: the new memo once the memo migration ran, the two legacy fields before; an identifier is spent either way and a refusal changes nothing else. |
| CallContracts.ApproveExact | src/many-ledger/src/storage/multisig.rs:409-450 | Refused without change unless the sender may approve the open transaction; otherwise the approval counts, and the transaction is executed exactly when it is automatic and the approvals including this one reach the threshold; that execution closes it and fails exactly when its chain, started in the state with the approval, ends in its own withdrawal. |
| CallContracts.ExecuteExact | src/many-ledger/src/storage/multisig.rs:483-515 | Refused without change unless an owner or the submitter asks for an open transaction with a quorum; otherwise the transaction ends closed: as withdrawn, with an error, exactly when its chain of executions ends in its own withdrawal, else as executed manually, with a logged answer. |
| SelfWithdrawal.ExecutionOutcome | src/many-ledger/src/storage/multisig.rs:566-603 | An execution that ends leaves its transaction closed and answers with the answer of its payload, refusals included, which Executions.PayloadExact determines; it fails exactly when, in the state before it, the chain of executions it starts ends in a withdrawal of that transaction by an account that may withdraw it. |
| SelfWithdrawal.PayloadCloses | src/many-ledger/src/storage/multisig.rs:133-151 | Running a payload with everything nested in it closes a transaction being run exactly when its chain ends in the withdrawal of that transaction, and then as withdrawn. |
| SelfWithdrawal.SelfWithdrawalFails | src/many-ledger/src/storage/multisig.rs:148-151 | The failing case: a ready transaction that withdraws itself, of an account that owns itself, is executed in vain by its submitter at every depth. |
| CallContracts.FormerApproverRevokes | src/many-ledger/src/storage/multisig.rs:462-472 | Whoever is listed and holds no role any more cannot approve, and revokes. |
| CallContracts.RevokeExact | src/many-ledger/src/storage/multisig.rs:452-481 | Open to whoever may approve and to whoever is listed already; takes exactly the sender off the approvers, logs it, changes nothing else. |
| CallContracts.WithdrawExact | src/many-ledger/src/storage/multisig.rs:517-542 | Accepted exactly for an owner or the submitter of an open transaction, which is closed as withdrawn and logged. |
| CallContracts.RevokeUndoesApproval | src/many-ledger/src/storage/multisig.rs:427-480 | Revoking after an approval that executed nothing is accepted and leaves the approvers there were, without the sender; only the log and that record differ. |
| Termination.TerminationExact | src/many-ledger/src/storage/multisig.rs:35-156 | Executing a stored transaction overflows every stack exactly when its chain of executions comes back to a transaction being run; otherwise a stack as deep as the number of stored transactions is enough. |
| Termination.CallTerminationExact | src/many-ledger/src/storage/multisig.rs:409-515 | A call aborts at every depth exactly when it starts such an execution; any other call is answered. |
| Termination.OverflowIsLongChain | src/many-ledger/src/storage/multisig.rs:566-572 | An execution overflows a stack of n frames exactly when it leads to n nested executions. |
| Termination.ReturnIsEndless | src/many-ledger/src/storage/multisig.rs:133-146 | A chain that comes back to its own token never ends, although approvals change the state on the way. |
| Termination.SelfExecutionIsEndless | src/many-ledger/src/storage/multisig.rs:143-146 | A concrete family: a ready transaction that orders its own execution overflows every stack. |
| Termination.SmallerTokensTerminate | src/many-ledger/src/storage/multisig.rs:121-151 | If every submitted payload, nested submissions included, approves or executes only tokens smaller than its own, every call is answered. |
| TxHistory.TxsSoundAlways | src/many-ledger/src/storage/multisig.rs:158-185 | In every reachable state a transaction is disabled exactly when it is not pending, its timeout is at most the maximum after its creation, and no record holds both memo forms. |
| TxHistory.PayloadsRunOnce | src/many-ledger/src/storage/multisig.rs:566-603 | Over any run that is answered, for any payloads, each payload runs at most once, and every transaction whose payload ran is closed. |
| TxHistory.ExecuteInternalOnce | src/many-ledger/src/storage/multisig.rs:566-603 | An execution whose chain avoids the open ones runs no payload a second time. |
| TxHistory.ClosedForGood | src/many-ledger/src/storage/multisig.rs:176-180 | Once closed, a transaction stays closed. It keeps its terminal state and every other field, memo fields up to the migration, exactly unless a later sweep finds its committed record still pending and timed out; then it ends as expired, and was not expired before. |
| TxHistory.TermsKept | src/many-ledger/src/storage/multisig.rs:364-380 | Account, payload, threshold, timeout, submitter, automatic flag and creation of a stored transaction never change. |
| TxHistory.ExecutionAfterSweep | src/many-ledger/src/storage/abci.rs:7-18 | A transaction stored when a block ends is executed later only if it was submitted in that very block or its timeout lies after the time of that block. |
| TxHistory.SweepExact | src/many-ledger/src/storage/multisig.rs:193-232 | What a sweep does to an open transaction: it stays open exactly when it was submitted in the block that ends or its timeout lies later; else it is its record of the block before, closed as expired. |
| TxHistory.CommittedPastAlways | src/many-ledger/src/storage/iterator.rs:13-32 | In every reachable state a scan finds, of stored transactions only, a record that differs from the stored one at most in approvers and state, and not at all once it is closed; whatever is expired was committed so. |
| Sweeping.ExecutedThenExpired | src/many-ledger/src/storage/abci.rs:7-18 | The failing case of ClosedForGood: whatever an execution on request closes, when the committed record is pending and timed out, is expired by the end of the block, with the approvals of the block before. |
| Sweeping.ExpiredThoughExecuted | src/many-ledger/src/storage/multisig.rs:193-232 | Any owner of an account with the multisig feature has such a run: submit, commit, let the timeout come, execute, commit; the payload ran and the record says expired. |
| Sweeping.ExecutedAfterTimeout | src/many-ledger/src/storage/multisig.rs:193-232 | The failing case of expiry: a transaction submitted with timeout zero outlives the sweep of its block and is executed in the next, whatever the time then is. |
| Sweeping.ApprovalTakenBack | src/many-ledger/src/storage/multisig.rs:193-232 | An approval given in the block in which the timeout has come, if it executes nothing, counts and is gone when the block ends. |
| Sweeping.NewTokenNotYetListed | src/many-ledger/src/storage/ledger_tokens.rs:174-188 | A token created in a block is neither minted nor burned nor updated in it, and is found from the commit on. |
| Storage.LedgerStorage.CreateMultisigTransaction | src/many-ledger/src/storage/multisig.rs:294-397 | The imperative submission equals its specification on the whole state. |
| Storage.LedgerStorage.ApproveMultisig | src/many-ledger/src/storage/multisig.rs:409-450 | The imperative approval, with its nested execution, equals its specification. |
| Storage.LedgerStorage.RevokeMultisig | src/many-ledger/src/storage/multisig.rs:452-481 | The imperative revocation equals its specification. |
| Storage.LedgerStorage.ExecuteMultisig | src/many-ledger/src/storage/multisig.rs:483-515 | The imperative execution on request equals its specification. |
| Storage.LedgerStorage.WithdrawMultisig | src/many-ledger/src/storage/multisig.rs:517-542 | The imperative withdrawal equals its specification. |
| Storage.LedgerStorage.DisableMultisigTransaction | src/many-ledger/src/storage/multisig.rs:544-564 | Closes a pending transaction with the given state, refuses a closed or unknown one. |
| Storage.LedgerStorage.ExecuteMultisigTransactionInternal | src/many-ledger/src/storage/multisig.rs:566-603 | Runs the payload, then closes the transaction whatever the payload answered. |
| Storage.LedgerStorage.RunPayload | src/many-ledger/src/storage/multisig.rs:35-156 | Each kind of payload runs in the name of the account, through the same methods a direct call uses. |
| Storage.LedgerStorage.CheckTimedOutMultisigTransactions | src/many-ledger/src/storage/multisig.rs:193-232 | The descending loop over the committed transactions, with its early exit, writes over the stored ones exactly the committed records that are pending and whose timeout has come, closed as expired, by one batch that is strictly sorted by its byte keys once reversed, and changes nothing else. |
| Storage.LedgerStorage.SetMultisigDefaults | src/many-ledger/src/storage/multisig.rs:234-275 | Sets the given defaults, the timeout clipped to the maximum, and logs them; does nothing to an account without the feature. |
| EventSourcing.EventSourced | src/many-ledger/src/storage/ledger_commands.rs:83-93 | In a reachable state, nested executions and the memo migration included, balances, account records and the terms and approvals of all transactions are what replaying the log in identifier order over the genesis state gives, exactly when no mint before listed the anonymous address while it held some of the symbol and no sweep before took approvals of its block back. |
| EventSourcing.RecordsAlwaysSourced | src/many-ledger/src/storage/event.rs:52-75 | Account records and the terms and approvals of all transactions are what the log gives exactly when no sweep on the way took approvals of its block back. |
| EventSourcing.AlwaysFollows | src/many-ledger/src/storage/event.rs:52-75 | In every reachable state whatever, account records and the terms of all transactions are what the log gives, and so are the approvers of every transaction not committed as closed. |
| EventSourcing.ApproversFollow | src/many-ledger/src/storage/multisig.rs:409-481 | The approvers of one stored transaction are what the log gives exactly when no sweep on the way took approvals of it back. |
| EventSourcing.BalancesApart | src/many-ledger/src/storage/ledger_mintburn.rs:45-51 | In every reachable state the balances the log gives exceed those stored by what the mints have forgotten, for the anonymous address, and equal them for every other. |
| Replay.ViewStep | src/many-ledger/src/storage/event.rs:52-75 | Every effect but the memo migration changes balances, accounts and transactions exactly as the event it logs says, and not at all if it logs none, precisely unless it is a mint over an anonymous holding or a sweep that takes approvals of its block back. |
| Replay.MintIsCredit | src/many-ledger/src/storage/ledger_mintburn.rs:30-71 | What a mint writes credits every listed address with its amount exactly when it lists no anonymous address with a positive holding. |
| Replay.BurnIsDebit | src/many-ledger/src/storage/ledger_mintburn.rs:86-125 | What an accepted burn writes takes from every listed address exactly its amount. |
| Replay.CreateIsCredit | src/many-ledger/src/storage/ledger_tokens.rs:243-297 | What a creation writes credits the listed addresses of a symbol nobody held. |
| Replay.SendIsMove | src/many-ledger/src/storage/ledger_commands.rs:62-85 | The two entries of a send move the amount and touch no other holding. |
| Replay.HoldingsRegisteredStep | src/many-ledger/src/storage/ledger_tokens.rs:239-299 | No effect leaves a balance of an unregistered symbol. |
| EventSourcing.LogMigrates | src/many-ledger/src/migration/memo.rs:44-110 | Replaying the rewritten log gives the rewritten view, for every log. |
| EventSourcing.ViewMigrates | src/many-ledger/src/migration/memo.rs:171-175 | Both halves of the memo migration rewrite the stored records and the log alike. |
| EventSourcing.MigrationIdempotent | src/many-ledger/src/migration/memo.rs:112-169 | Migrating twice is migrating once; legacy fields are cleared and text comes before data. |
| EventSourcing.SubmissionsAlwaysAgree | src/many-ledger/src/storage/multisig.rs:358-394 | In every reachable state the log holds exactly one submission for each stored transaction, right behind its token, and it agrees with the record on submitter, account, payload, threshold, timeout, automatic flag and all memo fields. |
| EventSourcing.ApprovalsAreLatest | src/many-ledger/src/storage/multisig.rs:344-347 | What the record of a transaction says of everyone is their latest submit, approve or revoke on it, direct or nested, exactly when no sweep took approvals of it back; and none did while it is pending. |
| EventSourcing.ExecutionHasQuorum | src/many-ledger/src/storage/multisig.rs:182-184 | Every execution starts with at least threshold distinct addresses whose latest word in the log is an approval. |
| Supply.ConservedExactly | src/many-ledger/src/storage/ledger_mintburn.rs:21-130 | After any operations the balances of every symbol add up to its total and to its circulating supply, and nobody holds an unregistered symbol, exactly when no mint on the way went over an anonymous holding. |
| Supply.GapAlong | src/many-ledger/src/storage/ledger_mintburn.rs:45-71 | After any operations whatever the supplies of a symbol exceed the sum of its balances by exactly what its mints have forgotten. |
| Supply.CoveredAlways | src/many-ledger/src/storage/ledger_mintburn.rs:108-116 | In every reachable state both supplies are equal and at least the sum of the balances. |
| Supply.MintConservesExactly | src/many-ledger/src/storage/ledger_mintburn.rs:45-51 | A mint conserves exactly when it does not list the anonymous address while that address holds some of the symbol. |
| Supply.AnonymousMintForgets | src/many-ledger/src/storage/ledger_mintburn.rs:45-51 | The concrete failure: five held by the anonymous address become one, of a supply of six. |
| Supply.MintTotal | src/many-ledger/src/storage/ledger_mintburn.rs:30-71 | A mint adds the whole distribution to the sum of its symbol, less the anonymous holding it forgets, and leaves every other sum alone. |
| Supply.BurnTotal | src/many-ledger/src/storage/ledger_mintburn.rs:86-125 | An accepted burn takes exactly the whole distribution from the sum of its symbol. |
| Supply.CreateTotal | src/many-ledger/src/storage/ledger_tokens.rs:245-261 | A creation adds the whole distribution to the sum of its symbol. |
| Supply.SendTotal | src/many-ledger/src/storage/ledger_commands.rs:62-85 | A send changes the sum of no symbol. |
| Supply.MintSucceedsExactly | src/many-ledger/src/storage/ledger_mintburn.rs:26-76 | A mint by the token identity of a stored symbol succeeds exactly when the symbol was there at the last commit, the printed addresses come in order, no amount is zero and, unless nothing is distributed, circulating plus the whole sum stays within the maximum; a failing mint writes nothing. |
| Supply.BurnSucceedsExactly | src/many-ledger/src/storage/ledger_mintburn.rs:83-130 | In every reachable state a burn by the token identity of a stored symbol succeeds exactly when the symbol was there at the last commit, the printed addresses come in order and every listed address covers its positive amount; the supply subtraction never goes below zero and a failing burn writes nothing. |
| Supply.UnsortedMintRefused | src/many-ledger/src/storage/ledger_mintburn.rs:45-73 | The failing case: of the two orders of two addresses one is minted, and the store refuses the other. |
| Legality.MintCheckExact | src/many-ledger/src/storage/ledger_mintburn.rs:30-43 | The running partial-sum check is a check of the whole sum. |
| Legality.BurnCheckExact | src/many-ledger/src/storage/ledger_mintburn.rs:86-99 | The running check of a burn is a check of every entry. |
| Scans.TotalSupply | src/many-ledger/src/storage/ledger_tokens.rs:51-61 | The nested loop computes, for exactly the symbols held, the sum of their balances. |
| CallContracts.SendExact | src/many-ledger/src/module/ledger_commands.rs:11-42 | A send is accepted exactly when the sender may spend from the source, it covers the positive amount, and no counter would fall below zero; it is refused for a counter exactly when the counter of positive holdings is zero while the send empties its source for a receiver that holds some; it moves the amount, logs it, and touches no other balance; a refusal changes nothing. |
| CallContracts.MoveExact | src/many-ledger/src/storage/ledger_commands.rs:35-98 | Moving tokens out of a source that may be spent, for a send or a payload, succeeds exactly when both addresses may hold some, the source covers the positive amount and no counter would fall below zero; it shifts the amount, counts it, logs it and leaves every other entry. |
| CallContracts.MintExact | src/many-ledger/src/module/ledger_mintburn.rs:22-57 | A mint is accepted exactly as below; every listed address then holds its amount more, no other entry changes, both supplies grow by the sum, every other field of the token stays, and one event is logged. |
| CallContracts.BurnExact | src/many-ledger/src/module/ledger_mintburn.rs:59-102 | A burn is accepted exactly when the token identity asks, the symbol is listed, every listed address covers its positive amount, the supplies cover the sum, the printed addresses come in order and partial burns are not asked for; it takes exactly the amounts and the sum, and logs one event. |
| CallContracts.NeutralRunsCount | src/many-ledger/src/storage/data.rs:69-80 | While mints, burns and creations since the counters were initialised are neutral, no send is refused for a counter. |
| CallContracts.ExactCountsSend | src/many-ledger/src/storage/data.rs:69-80 | Nor is one in any state whose counters are exact. |
| CallContracts.UncountedMintBlocksSend | src/many-ledger/src/storage/data.rs:69-80 | The failing case, from exact counters: mint one to B, A pays five to C, B pays its one to C, mint one to B; now B may pay and covers the amount, and its payment takes the counter below zero. |
| CallContracts.CreateTokenExact | src/many-ledger/src/module/ledger_tokens.rs:18-57 | A token is created exactly when the token identity asks, may act for the owner named, the ticker is free and an identifier is left; it gets the first free symbol, the owner named, the sender if none is, or nobody, the listed balances and their sum as both supplies; it was not stored before although a scan does not find the symbols of this block. |
| CallContracts.OwnTickerRefused | src/many-ledger/src/storage/ledger_tokens.rs:367-370 | A token cannot be given the ticker it has. |
| CallContracts.UpdateTokenExact | src/many-ledger/src/module/ledger_tokens.rs:74-111 | A token is updated exactly when it was there at the last commit, it has an owner the sender may act for and the new ticker is taken by no token, its own included; supplies and maximum stay. |
| Storage.LedgerStorage.StorageSend | src/many-ledger/src/storage/ledger_commands.rs:35-98 | The imperative send, with its counters and its two-key batch, equals its specification. |
| Storage.LedgerStorage.ApplyInKeyOrder | src/many-ledger/src/storage/ledger_commands.rs:66-85 | Whichever key comes first, the batch handed to the store is strictly sorted and both balances are written. |
| Storage.LedgerStorage.Send | src/many-ledger/src/module/ledger_commands.rs:11-42 | The entry point with its authority checks equals its specification. |
| Storage.LedgerStorage.MintToken | src/many-ledger/src/storage/ledger_mintburn.rs:21-76 | The mint equals the running check, then the order of the printed addresses, and else writes the new balances and supplies; an error leaves the store unchanged. |
| Storage.LedgerStorage.MintEntries | src/many-ledger/src/storage/ledger_mintburn.rs:30-56 | The loop computes the running check, one entry for each new balance, and the sum. |
| Storage.LedgerStorage.Mint | src/many-ledger/src/module/ledger_mintburn.rs:22-57 | The entry point of minting equals its specification. |
| Storage.LedgerStorage.BurnToken | src/many-ledger/src/storage/ledger_mintburn.rs:78-130 | The burn equals the check, then the supply subtraction, then the order of the printed addresses, and else writes the new balances and supplies; an error leaves the store unchanged. |
| Storage.LedgerStorage.BurnEntries | src/many-ledger/src/storage/ledger_mintburn.rs:86-106 | The loop computes the check, one entry for each new balance, and the sum. |
| Storage.LedgerStorage.TryBatch | src/many-ledger/src/storage/ledger_mintburn.rs:69-71 | A batch is written exactly when its byte keys strictly increase, else it is refused without effect. |
| Storage.LedgerStorage.Burn | src/many-ledger/src/module/ledger_mintburn.rs:59-102 | The entry point of burning equals its specification. |
| Storage.LedgerStorage.InitialBatch | src/many-ledger/src/storage/ledger_tokens.rs:243-255 | The loop collects one entry for each listed balance and adds up their sum. |
| Storage.LedgerStorage.StorageCreateToken | src/many-ledger/src/storage/ledger_tokens.rs:225-302 | The imperative creation equals the creation effect at the next free symbol; the batch it sorts and writes is strictly sorted by its byte keys. |
| Storage.LedgerStorage.CreateToken | src/many-ledger/src/module/ledger_tokens.rs:18-57 | The entry point of token creation equals its specification. |
| Storage.LedgerStorage.UpdateInfo | src/many-ledger/src/storage/ledger_tokens.rs:364-383 | Overwrites exactly the fields given. |
| Storage.LedgerStorage.StorageUpdateToken | src/many-ledger/src/storage/ledger_tokens.rs:342-408 | Refuses a taken ticker without change, else writes both registers and logs. |
| Storage.LedgerStorage.UpdateToken | src/many-ledger/src/module/ledger_tokens.rs:74-111 | The entry point of token update equals its specification. |
| Authorisation.BalanceDropNeedsAuthority | src/many-ledger/src/module/account.rs:101-115 | An effect lowers a balance only if it is a send by its address or by an owner or feature-backed transact role of its enabled account, a transfer ordered by a pending multisig transaction with a quorum whose account holds owner or transact role there, or a burn by the token identity that lists the address. |
| Authorisation.RunDropNeedsAuthority | src/many-ledger/src/module/ledger_commands.rs:20-41 | Over any run of calls, a call that lowered a balance is a send call from that address by itself or such a role holder, a burn call of the token identity that lists it, or an approval or execution in which some effect is a transfer out of it ordered by a then pending transaction with a quorum. |
| Authorisation.DropNeedsEffect | src/many-ledger/src/storage/ledger_commands.rs:43-85 | Between any two states of a run, a lower balance was taken from by an effect between them, on authority at that moment. |
| Authorisation.CallsMoveTokensAsNamed | src/many-ledger/src/module/ledger_commands.rs:20-41 | A send or burn call performs at most the one effect it names, in the name of its caller; every other call moves tokens by multisig order only. |
| Legality.TokenAclMeans | src/many-ledger/src/storage/account.rs:35-50 | The token access check passes exactly for the address itself, or an owner or token-feature role of its enabled account. |
| Counters.CountsStepExact | src/many-ledger/src/storage/data.rs:33-90 | Exact counters stay exact under an effect exactly when it is neutral: every send is; a mint, burn or creation only under the stated conditions on holdings. |
| Counters.CountsAlwaysExact | src/many-ledger/src/migration/data.rs:78-97 | From the initialising recount on, while mints, burns and creations are neutral, the incremental counters equal a full recount. |
| Counters.MintMiscounts | src/many-ledger/src/storage/ledger_mintburn.rs:69-71 | The concrete failure: a mint to a second address leaves the counters at one. |
| Counters.SendRecounts | src/many-ledger/src/storage/data.rs:41-88 | A send takes the recount before to the recount after, and takes no counter of a recount below zero. |
| Counters.MintRecounts | src/many-ledger/src/storage/ledger_mintburn.rs:30-71 | A mint leaves the recount unchanged exactly when every listed address already holds some of the symbol. |
| Counters.BurnRecounts | src/many-ledger/src/storage/ledger_mintburn.rs:86-125 | A burn leaves it unchanged exactly when every listed address keeps some. |
| Counters.CreateRecounts | src/many-ledger/src/storage/ledger_tokens.rs:245-255 | A creation leaves it unchanged exactly when it distributes nothing. |
| Scans.CountBalances | src/many-ledger/src/migration/data.rs:21-40 | The counting loop counts the entries and the non-zero entries. |
| Storage.LedgerStorage.UpdateAccountCount | src/many-ledger/src/storage/data.rs:33-90 | The three in-place updates equal the specification of the counters, and are refused without effect exactly when one would fall below zero. |
| Storage.LedgerStorage.InitialiseCounts | src/many-ledger/src/migration/data.rs:78-97 | Stores the recount. |
| EventIds.IssuedIncrease | src/many-ledger/src/storage/event.rs:36-39 | Within the block bounds the identifiers handed out strictly increase across blocks, and everything stored is stored under one of them. |
| EventIds.IdsAlways | src/many-ledger/src/storage/event.rs:41-75 | Within the block bounds no identifier in use lies above the latest one, every event is stored under its own identifier, and the stored count is the number of stored events. |
| IdReuse.CommitExact | src/many-ledger/src/storage/abci.rs:12-30 | For a height below 2^32, in any reachable state with an account address left: no run of calls after the commit, its blocks bounded, replaces a stored event or transaction or miscounts the events, exactly when nothing stored lies above the base of the next block. |
| IdReuse.EventReplaced | src/many-ledger/src/storage/multisig.rs:294-302 | The run that does, from any state with an event above its latest identifier: refused submissions up to that event, then one accepted account creation. |
| IdReuse.FirstBlockMustBeSilent | src/many-ledger/src/storage.rs:198-202 | At height zero that is exactly when the first block logged nothing. |
| IdReuse.FreshReusesNothing | src/many-ledger/src/storage/event.rs:52-75 | From fresh identifiers on, every allowed bounded run keeps every stored event up to the memo migration, the terms of every transaction, and an exact count. |
| EventIds.FirstBlockCollision | src/many-ledger/src/storage.rs:198-202 | The concrete failure: an event of the first block is overwritten by the first of the second, and the count says two for one stored event. |
| Reloading.ReloadsAreInvisible | src/many-ledger/src/storage.rs:137-168 | Over any run of blocks with reloads after any of them, whatever the clocks of the reloaded nodes, a node aborts exactly when one that keeps running does; else both give the same answers, identifiers included, and end in the same state but for the clock of a node that just reloaded. |
| EventIds.LoadAfterCommit | src/many-ledger/src/storage.rs:146-154 | Opening the store of a commit gives the identifier base the commit gave. |
| EventIds.IdsWithinAlways | src/many-ledger/src/storage/event.rs:36-39 | Identifiers stay below 2^64 and twice the number of effects since the store was opened, however long a block is. |
| EventIds.NextBlockBase | src/many-ledger/src/storage/abci.rs:12-30 | For a height below 2^32 the next identifiers start above the old height times 2^32. |
| Storage.LedgerStorage.Load | src/many-ledger/src/storage.rs:129-169 | Opening a store yields exactly the state the specification of reloading gives. |
| Storage.LedgerStorage.LogEvent | src/many-ledger/src/storage/event.rs:52-75 | Stores the event under a new identifier and increments the count, as one strictly sorted batch. |
| Storage.LedgerStorage.Commit | src/many-ledger/src/storage/abci.rs:7-36 | Sweep over the committed transactions, height, storage commit, migrations, storage commit and identifier base, in this order, equal the specification of a commit. |
| Storage.LedgerStorage.SetTime | src/many-ledger/src/storage.rs:101-103 | Sets the clock and nothing else. |
| Storage.LedgerStorage.MigrateMemos | src/many-ledger/src/migration/memo.rs:171-175 | Both halves of the memo migration, in order and each committed, equal its effect. |
| Storage.LedgerStorage.UpdateMultisigSubmitEvents | src/many-ledger/src/migration/memo.rs:44-110 | The loop over the log rewrites exactly the submissions with a legacy memo and no new one, in a batch strictly sorted by its byte keys. |
| Storage.LedgerStorage.UpdateMultisigStorage | src/many-ledger/src/migration/memo.rs:112-169 | The loop over the transactions rewrites exactly those with a legacy memo and no new one, in a batch strictly sorted by its byte keys. |
| Keys.KeysAreNumeric | src/many-ledger/src/storage/event.rs:22-33 | Keys of identifiers of at most 32 bytes are equal exactly when the numbers are and ordered as the numbers are; multisig keys alike. |
| Keys.KeyExact | src/many-ledger/src/storage/event.rs:22-33 | The key of an identifier of any length stands for its number, in equality and in order against every identifier that fits, exactly when it has at most 32 bytes or is zero. |
| Keys.LongIdsCollide | src/many-ledger/src/storage/event.rs:24-28 | The failing case: with a 33rd byte two identifiers share one key. |
| Keys.ScanVisitsRange | src/many-ledger/src/storage/iterator.rs:54-84 | For every combination of bounds that fit a scan visits exactly the events whose identifiers lie in the range. |
| Keys.BoundExact | src/many-ledger/src/storage/iterator.rs:61-73 | A scan from a bound, and a scan to a bound, visits its range for all identifiers exactly when the bound fits: at most 32 bytes or zero where it is used as it is, below 2^256 - 1 where it is incremented. |
| Keys.LogBatchSorted | src/many-ledger/src/storage/event.rs:60-71 | The entry of an event precedes the event count in key order. |
| Keys.ScanStaysInside | src/many-ledger/src/storage/iterator.rs:69-73 | A scan visits nothing but event keys, the event count in particular not. |
| Keys.LexIsNumeric | src/many-ledger/src/storage/event.rs:16-33 | For byte strings of equal length key order is numeric order. |
| Keys.SameSymbolKeysDiffer | src/many-ledger/src/storage/ledger_commands.rs:66-79 | Two addresses have different balance keys for the same symbol. |
| Scans.Ascending | src/many-ledger/src/storage/iterator.rs:76-79 | An ascending scan visits every key once, in increasing order. |
| Scans.Descending | src/many-ledger/src/storage/iterator.rs:17-32 | A descending scan visits every key once, in decreasing order. |
| Scans.CollectDone | src/many-ledger/src/storage/multisig.rs:197-227 | A batch collected by a complete scan and put in increasing order is sorted and turns the store into the intended one, if that keeps the records the scan does not find. |
| Batches.TxEntriesSorted | src/many-ledger/src/storage/multisig.rs:221-226 | A numerically increasing batch of transactions whose identifiers fit is strictly sorted by its byte keys. |
| Batches.EventEntriesSorted | src/many-ledger/src/migration/memo.rs:102-107 | And so is one of events. |
| Batches.CreationApplied | src/many-ledger/src/storage/ledger_tokens.rs:243-297 | The batch of a token creation, sorted by key, is strictly sorted and writes exactly the listed balances and the record of the symbol. |
| Batches.SupplyEntriesSorted | src/many-ledger/src/storage/ledger_mintburn.rs:49-73 | The batch of a mint or a burn, which ends with the record of the token, is strictly sorted exactly when the printed addresses of its distribution come in order. |
| Batches.SupplyEntriesWrite | src/many-ledger/src/storage/ledger_mintburn.rs:49-73 | It writes the new balances and the record of the token. |
| Batches.SortSorts | src/many-ledger/src/storage/ledger_tokens.rs:294-297 | Sorting a batch with distinct keys gives a strictly sorted one with the same entries. |
| Batches.SortWrites | src/many-ledger/src/storage/ledger_tokens.rs:294-297 | Sorting the batch of a creation does not change what it writes. |
| Storage.WithinFits | src/many-ledger/src/storage/event.rs:16-19 | Identifiers below three times 2^64 fit the 32 bytes of a key. |
| EventListing.List | src/many-ledger/src/module/event.rs:110-143 | The chained filters, with their loop over attribute filters, list the first events of the scan that satisfy all filters, at most the smaller of the count and 100; for bounds that fit, the list is what ListExact says. |
| EventListing.ListExact | src/many-ledger/src/module/event.rs:110-143 | For bounds that fit, the list is in the requested order, holds only stored events that were asked for, at most the smaller of the count and 100, and leaves one out only when it is full of events that precede it; asked for is spelled out: identifier and time within inclusive or exclusive bounds, about a given account, of a given kind, and admitted by every set of states. |
| EventListing.AskedExact | src/many-ledger/src/module/event.rs:16-107 | The filters of the chain together pass exactly the events asked for in those terms. |
| EventListing.ScanIsRange | src/many-ledger/src/storage/iterator.rs:54-84 | For bounds that fit, the events whose byte keys lie between the keys of the bounds are exactly the stored ones in the range, in the requested order. |
| EventListing.ScanExact | src/many-ledger/src/storage/iterator.rs:61-73 | A scan from a bound, or to one, is the range for every store exactly when the bound fits. |
| EventListing.LongBoundListsMore | src/many-ledger/src/storage/event.rs:24-28 | The failing case: asked for everything from identifier 5 written with 33 bytes on, the list holds event 1. |
| EventListing.ScanInKeyOrder | src/many-ledger/src/storage/iterator.rs:76-79 | The ascending order of identifiers is the byte order of their keys. |
| EventListing.SelectTwice | src/many-ledger/src/module/event.rs:135-138 | Filtering twice is filtering by both. |
| Allocation.AllocationExact | src/many-ledger/src/storage.rs:282-328 | Allocation fails exactly when every identifier from the counter to the maximum is a symbol; otherwise it gives the first that is none, and the counter grows past it. |
| Allocation.NextFree | src/many-ledger/src/storage.rs:302-309 | The search returns the least free identifier, or none exactly when there is none. |
| Allocation.AccountsNeverReplaced | src/many-ledger/src/storage/account.rs:100-105 | Over any run of account and token creations and commits in which a token migration is safe when it happens, no account address is handed out twice. |
| Allocation.MigrationExact | src/many-ledger/src/migration/tokens.rs:17-49 | After the hand-over of the counter no run of creations hands out an account address twice, exactly when the token identity is not the root identity or its configured counter lies above every account created so far. |
| Allocation.MigrationHandsOver | src/many-ledger/src/migration/tokens.rs:17-49 | The root identity derives accounts and goes on from the legacy counter, unless it is the token identity too; the token identity and its counter are as configured. |
| Allocation.MigrationCanReplace | src/many-ledger/src/migration/tokens.rs:128-131 | The concrete failure: with the root identity as token identity and a low counter, an existing account address is handed out again. |
| Storage.LedgerStorage.GetNextSubresource | src/many-ledger/src/storage.rs:282-328 | The search loop equals the specification of allocation; a failure writes nothing. |
| AccountRules.ThresholdNeverUnderflows | src/many-ledger/src/storage/account.rs:107-128 | Once the account owns itself the default threshold is never negative and is the number of eligible addresses other than the account. |
| AccountRules.FinishedThreshold | src/many-ledger/src/storage/account.rs:111-146 | A new account keeps the multisig arguments asked for, the timeout cut at 15984000; without them it gets that number as its threshold, a timeout of 86400, and no automatic execution. |
| AccountRules.ChangeRoles | src/many-ledger/src/storage/account.rs:198-274 | Who holds which role after a change, address by address and role by role. |
| AccountRules.ChangeKeepsOwnership | src/many-ledger/src/storage/account.rs:222-231 | No accepted change takes the own ownership of an account away, and the logged change explains the new record. |
| CallContracts.CreateAccountExact | src/many-ledger/src/storage/account.rs:100-164 | An account is created, by call or payload, exactly when its roles belong to its features and an identifier is left; it gets the first free address; creator and account are the only owners added; its features are those asked for with threshold, timeout and automatic execution as given or, in this order, the number of eligible others, a day, and none. |
| CallContracts.ChangeAccountExact | src/many-ledger/src/module/account.rs:134-274 | A change, by call or payload, is accepted exactly when an owner asks for it on an enabled account and it is neither self-disowning nor an inadmissible feature or role; one record changes into what the change says, field by field: a disabled account is no longer enabled, defaults are those given or as before, features and roles are the old and the added ones; the event tells it. |
| Registry.AccountsAlwaysSound | src/many-ledger/src/storage/account.rs:107-108 | In every reachable state every account lists itself as owner and lies below the counter of account addresses. |
| Registry.CreationIsFresh | src/many-ledger/src/storage/account.rs:105-157 | Creating an account never replaces a stored one. |
| Registry.DisabledForGood | src/many-ledger/src/storage/account.rs:276-284 | The record of a disabled account never changes again, whatever is executed. |
| Registry.TickersAlwaysAgree | src/many-ledger/src/storage/ledger_tokens.rs:211-223 | In every reachable state the symbol-to-ticker map and the token records hold the same symbols and tickers, and tickers are pairwise distinct. |
| Storage.LedgerStorage.OwnItself | src/many-ledger/src/storage/account.rs:107-146 | The record of a new account with its defaults. |
| Storage.LedgerStorage.StorageAddAccount | src/many-ledger/src/storage/account.rs:100-164 | The imperative account creation equals its specification. |
| Storage.LedgerStorage.AddAccount | src/many-ledger/src/storage/multisig.rs:65-71 | Creation by payload: no feature is demanded, the roles must belong to the features. |
| Storage.LedgerStorage.CreateAccount | src/many-ledger/src/module/account.rs:118-132 | Creation by call: an empty feature set is refused first. |
| Storage.LedgerStorage.DisableAccount | src/many-ledger/src/storage/account.rs:166-182 | The imperative disabling equals its specification. |
| Storage.LedgerStorage.SetDescription | src/many-ledger/src/storage/account.rs:184-196 | The imperative description change equals its specification. |
| Storage.LedgerStorage.AddRolesTo | src/many-ledger/src/storage/account.rs:198-215 | The imperative granting of roles equals its specification. |
| Storage.LedgerStorage.RemoveRolesFrom | src/many-ledger/src/storage/account.rs:217-245 | The imperative removal of roles equals its specification. |
| Storage.LedgerStorage.AddFeaturesTo | src/many-ledger/src/storage/account.rs:247-274 | The imperative addition of features equals its specification. |
| Storage.LedgerStorage.ChangeAccount | src/many-ledger/src/module/account.rs:259-274 | An empty feature set is refused by the call, not by a payload. |
| Scans.AddEachRole | src/many-ledger/src/storage/account.rs:203-207 | The nested loop grants exactly the listed roles and leaves no entry behind for an empty list. |
| Scans.RemoveEachRole | src/many-ledger/src/storage/account.rs:233-237 | The nested loop removes exactly the listed roles. |
| IdStores.PhrasesInjective | src/many-ledger/src/module/idstore.rs:69-79 | Distinct seeds below 2^40 have distinct recall phrases, whatever the checksum. |
| IdStores.PhraseExact | src/many-ledger/src/module/idstore.rs:67-79 | A phrase has two to five words by the size of its seed; read back, its first bits are the seed and the rest the leading bits of the checksum. |
| IdStores.StoreExact | src/many-ledger/src/module/idstore.rs:35-92 | A request is refused exactly for an anonymous sender, an address that is no public key, a credential identifier outside 16 to 1023 bytes or an invalid key, without effect; else at most eight seeds are tried, and the credential is stored under the first free phrase and the address, over what was there. |
| IdStores.StoreFailsExactly | src/many-ledger/src/module/idstore.rs:59-91 | Below the seed limit an acceptable request fails exactly when the phrases of the next eight seeds are all taken. |
| IdStores.SearchExact | src/many-ledger/src/module/idstore.rs:59-87 | The search stops at the first free phrase, and what it has skipped was taken. |
| IdStores.FirstTrySucceeds | src/many-ledger/src/module/idstore.rs:59-91 | If all stored phrases came from earlier seeds, an acceptable request succeeds at the first try, and they still do afterwards. |
| IdStores.PhrasesKeepResolving | src/many-ledger/src/storage/idstore.rs:96-148 | Over any run of requests every phrase ever returned keeps resolving to its credential, none is returned twice, and phrases stored before keep theirs. |
| IdStores.AddressesResolveToLatest | src/many-ledger/src/storage/idstore.rs:177-190 | An address resolves to the credential of its latest successful request. |
| IdStores.IdStore.GetFromAddress | src/many-ledger/src/storage/idstore.rs:177-190 | Answers with what an address resolves to. |
| IdStores.IdStore.GetFromRecallPhrase | src/many-ledger/src/storage/idstore.rs:159-175 | Answers with what a phrase resolves to; the retry loop asks it. |
| IdStores.IdStore.StoreCredential | src/many-ledger/src/module/idstore.rs:35-92 | The retry loop equals the specification of a request on the whole state. |

## Left out

- Storage.LedgerStorage.CheckTimedOutMultisigTransactions: requires the transactions to be sound (`TxsSound`) and identifiers to fit their 32 bytes, which `Handle` establishes in every state it leaves; on an unsound store the early exit could skip a transaction.
- Storage.LedgerStorage.Handle: a commit is covered for the first 2^64 effects since the store was opened, which bounds identifiers well below 2^256; the event count of the code has 64 bits as well.
- Storage.LedgerStorage.BurnToken: where the code's subtraction of the supply would abort, it answers `SupplyUnderflow`, which `Supply.BurnSucceedsExactly` shows never happens in a reachable state.
- Storage.LedgerStorage.UpdateAccountCount: where the code's decrement of a zero counter aborts with overflow checks and wraps around without, the send is refused with `CounterUnderflow` and changes nothing, inside payloads as well; what follows a wrap is not modelled.
- Storage.LedgerStorage.Load: does not model the set of migrations read from configuration; the clock of a reloaded node is given.
- Storage.LedgerStorage.Commit: does not model the scheduler of migrations, root hashes, or the hotfixes at single blocks.
- Storage.LedgerStorage.StorageCreateToken: does not model extended information; its record appears only as a key of the batch.
- Storage.LedgerStorage.UpdateMultisigSubmitEvents: does not model the length limits of memos, which can make the migration fail.
- Storage.LedgerStorage.CreateMultisigTransaction: does not model a clock overflow when the deadline is computed.
- EventSourcing.EventSourced: does not rebuild token records, tickers or terminal states from the log; the code logs no expiry.
- Supply.ConservedExactly: assumes the token migration active from genesis, because that migration takes supplies from configuration.
- IdStores.IdStore.StoreCredential: does not model the second existence check of the storage, which looks under a key without prefix that nothing writes.
- Determinacy.OutcomesDetermined: where several reasons to refuse a call for a send, a mint, a burn or a token are true, leaves open which of them is given; within payloads the reason is determined as well.
- Geneses.GenesisSound: does not model the validation of configured account identifiers, nor the refusal of initial balances and symbols whose keys are not in order, so it accepts more initial states than the code.
- EventListing.List: takes the events a scan finds, which are the committed ones; leaves what an event is about, and its kind, as parameters; the total count returned beside the events is left out.
- Ledger operation outside a blockchain, where every write is committed at once and identifiers restart on reload.
- Adding and removing extended token information, token and account information queries, role listings: members that only read or repeat simpler versions of the operations above.
- Encodings, signatures, credentials' key formats, WebAuthn, the request dispatcher, logging and the command line.
- many-kvstore, whose operations repeat simpler versions of the ledger's.
- The contents of a response beyond its sender, answer and time.
- A build in which anyone may create tokens.
