# Payments engine: a verified model

A double-entry payments engine in PostgreSQL and Go, modelled in two layers.

**The class layer** follows the packages: the ledger repository and service over
the account, journal and transaction tables (`LedgerRepository.dfy`), the
transaction repository (`TransactionRepository.dfy`), the transfer service with
its idempotency store, compensation and deferred unlock (`TransferService.dfy`),
settlement netting (`Settlement.dfy`), the daily netting run
(`BatchProcessor.dfy`), the status change of an account (`AccountService.dfy`)
and the lifecycle table (`Lifecycle.dfy`). Each method is proved against a
specification in `Ledger.dfy`, `Netting.dfy` or `Protocol.dfy`.

**The step layer** (`Protocol.dfy`) is a state machine with one step per database
statement, cache command or server decision. Any number of transfers, single
posts and netting runs interleave; statuses change and cache entries vanish at any
time; a statement may take effect and still report an error; a commit is sent,
takes effect and is reported in three separate steps. A database transaction
keeps its writes private and its rows locked until it ends. The state has a few
history fields (who created a row, whose transaction took effect, the committed
units in order) that no step's guard reads, except that a caller learns the
outcome of its own commit.

`Invariant.dfy` states one invariant of every reachable state, `Steps.dfy`,
`Commits.dfy` and `Safety.dfy` prove that each step keeps it, and
`Guarantees.dfy` and `AccountGuarantees.dfy` draw the theorems about every run.
`Locking.dfy` treats row locks and deadlock, and `LockOrder.dfy` carries the lock
order over to engine runs. `Refinement.dfy` ties the layers:
a call of the class layer on an otherwise idle database is a stretch of an engine
run with the same tables, cache and result, whatever faults it meets, so what
holds in every run holds after every call.

Amounts and balances are integers counting 0.0001, the scale of the amount
columns; account ids are a total order, as UUIDs are; times are integers.

Things the code does that its documentation does not lead one to expect, each
with the exact condition under which the expected property holds:

- The ascending-id order does not protect transfers. Creating the row takes shared
  locks on the source and then the destination (its references to accounts), and the
  two posts lock in two rounds. Transfers that share a clearing account can deadlock
  if and only if two of them clash (`TransfersDeadlockIff`): p pays into q's source,
  and that source sorts below the clearing account, or q pays back into p's source or
  into the clearing account; or both pay from one account above the clearing account
  and q pays into the clearing account. Posts of one entry never deadlock among
  themselves.
- A CLOSED account can be reopened by a racing status change. It stays closed in a
  run if and only if no call that asks for another status has a closing write between
  its read and its write (`ClosedStaysIff`); and a set of calls can reopen an account
  if and only if it starts open, one call closes it, and another asks for a status
  that is neither CLOSED nor the only open one there is for it to read
  (`CanReopenIff`).
- A settlement window is 24 hours from what local midnight resolves to. Windows tile
  time if and only if every date of the zone begins at its midnight and has 24 hours
  (`WindowsTileTime`); transfers that settle between two windows are in no run's
  window (`LongDayLosesItsLastHour`), and there are zones where that happens
  (`LastHourIsLost`).
- A failed begin followed by a failed fail-step caches the zero transaction
  (`ZeroIsReachable`), and later calls return it. `Transfer` says exactly when; the row
  it stands for never settles (`CacheHoldsFinalResults`).
- Netting an account's transfer to itself would lose the sign of a negative net;
  the transactions table forbids such rows, and the flow laws are stated so that
  they hold for all inputs.

## Model

| member | source | states |
|---|---|---|
| Guarantees.Serializable | internal/transaction/service.go:378-499 | In every state of every run the committed accounts and journal are those obtained by executing the committed units one at a time in commit order with every check passing; the transfers among them are exactly the SETTLED and RECONCILED rows, each once |
| Guarantees.AtomicOutcome | internal/transaction/service.go:391-499 | A SETTLED or RECONCILED row has exactly its clearing and settlement entries, a PENDING or FAILED row none, no other status is visible, and no entry refers to a missing row, even when COMMIT reports an error after taking effect |
| Guarantees.EntriesNameTheRow | internal/transaction/service.go:323-491 | In every state of every run the two entries of a settled row, written out: POSTED, in the row's currency, by the transfer service, the first debiting the row's source and crediting the clearing account, the second debiting that and crediting the row's destination, each by the row's amount |
| Guarantees.RowsAreRequested | internal/transaction/service.go:323-334 | In every state of every run the key, source, destination, amount and currency of a row are those of the request that created it |
| Guarantees.UnsettledRows | internal/transaction/repository.go:91-124 | A committed row is PENDING, FAILED, SETTLED or RECONCILED and has a settling time exactly in the last two |
| Guarantees.ExactlyOncePerKey | internal/transaction/service.go:247-262 | Whatever callers sharing a key do and whenever the marker vanishes, at most one row has the key and at most one pair of entries belongs to it |
| Guarantees.RowsPersist | internal/transaction/repository.go:91-124 | A row is never deleted, its key, source, destination, amount and currency never change, its status only moves forward along the table, a settled row keeps its settling time and FAILED is final |
| Guarantees.RowsChangeAtMostThrice | internal/transaction/transaction.go:53-60 | In any run a committed row changes no more often than its rank rises, hence at most three times |
| Guarantees.StableReplay | internal/transaction/service.go:151-212 | Every call that returns a transaction for a key: there is exactly one row with that key, and the call returns an earlier stage of it, whether from the cache, after the unique-key violation or as its creator; or the zero transaction, and then the row never settles in the whole run |
| Guarantees.CacheHoldsFinalResults | internal/transaction/service.go:501-504 | Besides the marker the cache holds for a key only the final state of its row (SETTLED if and only if the row is), or the zero transaction of a row that never settles in the whole run |
| Guarantees.DoomedNeverSettles | internal/transaction/service.go:378-386 | A row whose creator failed to begin its database transaction is settled in no later state |
| Guarantees.ReconciledExactlyOnce | internal/settlement/batch_processor.go:26-68 | The lists of committed netting runs are pairwise disjoint, together they are the RECONCILED rows, and each run's positions are the netting of exactly the rows it flipped |
| Guarantees.RunsAreDisjoint | internal/settlement/batch_processor.go:57-63 | For any log of units: the rows reconciled are those of some run's list, and no two runs share one |
| Guarantees.LosersCannotFinish | internal/settlement/batch_processor.go:57-63 | With its updates done a netting run can commit if and only if it flipped every row it listed |
| Guarantees.EntriesForLog | internal/transaction/service.go:404-491 | The journal of a history of units holds for each transaction its two legs in order if it settled in that history, and nothing otherwise |
| AccountGuarantees.BalancesAgree | internal/ledger/repository.go:420-465 | In every state of every run each balance is the opening balance plus the journal's lines signed by account type, and each version counts the entries and status changes of its account |
| AccountGuarantees.BooksBalance | internal/ledger/ledger.go:64-84 | In every run and currency debit-normal minus credit-normal balances never changes, every entry balances, the trial balance nets to zero, and no balance becomes negative |
| AccountGuarantees.JournalIsProper | internal/ledger/repository.go:394-418 | In every state of every run each journal entry has its header, balances, and has only DEBIT and CREDIT lines of positive amounts |
| AccountGuarantees.ClearingNetsOut | api/handler/health_handler.go:73 | An account that is no transfer's end and that no single post touches keeps its balance in every committed state, however many transfers clear through it |
| AccountGuarantees.FrozenMeansStill | internal/ledger/repository.go:286-339 | While an account is not ACTIVE in the committed state its balance is constant and no new journal line refers to it |
| AccountGuarantees.FirstLegIffCovered | internal/ledger/repository.go:347-359 | With its rows locked between accounts fit to settle, a transfer can post its first leg if and only if the locked source balance covers the amount, whatever the earlier snapshot said |
| AccountGuarantees.SecondLegNeverShort | internal/transaction/service.go:452-465 | Between accounts fit to settle the second leg is always accepted |
| AccountGuarantees.LockStepsAgree | internal/ledger/repository.go:286-292 | Locking in the engine is locking in the deadlock model: the same steps are possible with the same effect |
| LockOrder.PostsNeverDeadlockInRuns | internal/ledger/repository.go:272-292 | In every run of the engine, while the open transactions are single posts, no cycle of them waits and some open transaction is not waiting |
| LockOrder.RunsAscend | internal/ledger/repository.go:286-292 | In every state of every run whatever a single post holds is below whatever it still has to lock |
| Safety.StepKeeps | internal/transaction/service.go:214-516 | Every step of the engine keeps the invariant on transactions, rows, cache, calls and history |
| Safety.RunsAreSafe | internal/transaction/service.go:214-516 | The invariant holds in every state of every run |
| Safety.UpdatesAreEdges | internal/transaction/repository.go:91-124 | Every status update made inside a database transaction, and every fail-step, is an edge of the lifecycle table |
| Safety.StepGrows | internal/transaction/repository.go:118-124 | No step deletes a row, changes its transfer, moves its status backwards or re-attributes it |
| Safety.Footprint | internal/transaction/service.go:214-516 | Only the insert, the fail-step and a commit change rows, only a status change and a commit change accounts or the journal |
| Commits.CommitIsSerial | internal/transaction/service.go:497-499 | What a commit publishes is the serial execution of its unit on the committed accounts, although its reads were made earlier |
| Commits.LoggedRows | internal/transaction/repository.go:231-235 | The settled rows are those of the settled units and the RECONCILED rows those of the netting units |
| Commits.CommitKeeps | internal/transaction/service.go:497-499 | A commit keeps the invariant, including that of every other open transaction |
| Commits.FailRowKeeps | internal/transaction/repository.go:302-318 | The fail-step keeps the invariant although a commit of unknown outcome may have preceded it |
| Locking.PostsNeverDeadlock | internal/ledger/repository.go:272-292 | In any schedule of posts of one entry each the wait-for graph has no cycle and some transaction is not waiting |
| Locking.TransfersDeadlockIff | internal/transaction/service.go:334-465 | Transfers sharing a clearing account, which may itself be an end of some, can deadlock in some schedule of their inserts and posts if and only if two of them clash |
| Locking.DeadlockNeedsClash | migrations/000004_create_transactions.up.sql:14-15 | In any deadlock of transfers, shared locks of the inserts included, two of the transfers clash |
| Locking.ClashDeadlocks | internal/transaction/service.go:334-465 | Any two transfers that clash have a schedule that ends with each waiting for the other |
| Ledger.GroupedRefinesLineByLine | internal/ledger/repository.go:420-465 | One grouped delta per account gives the balances of applying the lines one by one, and raises each touched account's version by exactly one |
| Ledger.BalanceAgreesWithJournal | internal/ledger/repository.go:420-465 | Over any history of accepted entries and status changes: balance = opening balance + signed lines, version = opening version + entries + status changes |
| Ledger.NeverOverdrawn | internal/ledger/repository.go:347-359 | No history makes a balance negative if none was |
| Ledger.EquationIsInvariant | internal/ledger/ledger.go:64-84 | No history moves debit-normal minus credit-normal balances, in any currency |
| Ledger.EquationCounts | internal/ledger/repository.go:430-445 | What the equation adds up: each account of the currency once, for its balance if it is an ASSET or EXPENSE account and against it otherwise |
| Ledger.TrialBalanceByAccount | internal/ledger/repository.go:116-178 | The trial balance summed by account equals total debits minus total credits over the POSTED entries |
| Ledger.TrialBalanceOfAppended | internal/ledger/repository.go:122-129 | One more entry changes no total, no net and no listed account if it is of another currency or not POSTED; otherwise it adds to each account's debits its DEBIT lines there and to its credits its CREDIT lines |
| Ledger.SidesAre | internal/ledger/repository.go:122-123 | The side of an entry, and of an account in it, is the sum over its lines of the amounts that are on that side (and account) |
| Ledger.BalancedJournalNetsToZero | internal/ledger/repository.go:172-177 | A journal of balanced entries has net total zero |
| Ledger.TrialBalanceOfAccount | internal/ledger/repository.go:116-178 | An account's journal movement is plus or minus its trial-balance net when its entries are POSTED in its currency |
| Ledger.BalanceIsTrialBalance | internal/ledger/repository.go:116-178 | For an account opened at zero with all entries POSTED the stored balance is plus or minus its trial-balance net |
| Ledger.PostAllIsAfterPosts | internal/ledger/repository.go:211-242 | Entries accepted one after the other change each account by the sum of their deltas, touch only ACTIVE accounts, and change nothing else |
| Ledger.PostAllFrame | internal/ledger/repository.go:276-342 | Acceptance of a list of entries depends only on the accounts it touches |
| Ledger.AcceptedExactly | internal/ledger/repository.go:211-359 | An entry is accepted if and only if its header is complete, its lines are DEBIT or CREDIT and positive and balance, and each of their accounts exists, is ACTIVE, holds the currency and covers its own lines, however many |
| Ledger.AppliedExactly | internal/ledger/repository.go:420-465 | An accepted entry changes each account by its debits and credits there, signed by account type, and its version by one if it has a line there, and nothing else |
| Ledger.NetDeltaIs | internal/ledger/repository.go:430-445 | Debits minus credits for ASSET and EXPENSE accounts, credits minus debits for the others |
| Ledger.LegsMove | internal/transaction/service.go:404-461 | The two legs together do nothing to the clearing account, even when it is an end of the transfer |
| Ledger.TransferMoves | internal/transaction/service.go:404-461 | A settled transfer takes exactly the amount off the source's credit position and puts it on the destination's, whatever the account types, and moves no other balance |
| Ledger.SettlesIffCovered | internal/transaction/service.go:404-465 | Between distinct ACTIVE credit-normal accounts of one currency with no negative balance both legs are accepted if and only if the source covers the amount, and the second cannot run short |
| LedgerRepository.Repository.CollectAccountIDs | internal/ledger/repository.go:260-270 | Lists each account of the entry once |
| LedgerRepository.Repository.LoadAndLockAccounts | internal/ledger/repository.go:276-342 | Succeeds if and only if all accounts exist, are ACTIVE and have the currency, with their types and balances; a missing account is reported first |
| LedgerRepository.Repository.ComputeNetDeltas | internal/ledger/repository.go:420-451 | The loop over lines computes each touched account's net delta |
| LedgerRepository.Repository.CheckSufficientBalances | internal/ledger/repository.go:347-359 | True if and only if no balance would go below zero, in any order of visiting |
| LedgerRepository.Repository.InsertHeaderAndLines | internal/ledger/repository.go:361-418 | Appends the entry if and only if every line is DEBIT or CREDIT and of a positive amount, and otherwise names a fault that some line has |
| LedgerRepository.Repository.ApplyBalanceUpdates | internal/ledger/repository.go:453-465 | Adds each delta to its account and one to its version, in any order, and changes no other account |
| LedgerRepository.Repository.ValidateEntryHeader | internal/ledger/repository.go:244-258 | Succeeds if and only if the header is complete, and names the first thing missing |
| LedgerRepository.Repository.Assess | internal/ledger/repository.go:216-226 | Gives the deltas if and only if every account is fit and none would run short, and otherwise an error that is true of some account |
| LedgerRepository.Repository.InsertJournalEntryTx | internal/ledger/repository.go:211-242 | Accepts exactly the entries InsertOk describes, all of whose lines are positive, with the effect of the specification; says which refusal is returned when |
| LedgerRepository.RunsShortExactly | internal/ledger/repository.go:347-359 | When an entry is refused for short funds, in terms of its lines and accounts |
| LedgerRepository.Repository.InsertJournalEntry | internal/ledger/repository.go:186-202 | The same in a transaction of its own: all of the entry or nothing |
| LedgerRepository.Repository.GetTrialBalance | internal/ledger/repository.go:116-178 | One row per account that has a line in a POSTED entry of the currency, and no other, with its totals; the net total is the sum of the rows' nets and debits minus credits over the journal, reported balanced if and only if zero |
| LedgerRepository.Service.CheckBalanced | internal/ledger/ledger.go:64-81 | Succeeds if and only if every line is DEBIT or CREDIT and the totals agree, with the right error otherwise |
| LedgerRepository.Service.PostJournalEntryTx | internal/ledger/ledger.go:64-84 | Accepts exactly the entries PostOk describes, all of whose lines are positive, and tells unbalanced entries, bad types and short funds apart |
| LedgerRepository.Service.PostJournalEntry | internal/ledger/ledger.go:40-60 | Accepts an entry if and only if it is complete, its lines are positive DEBITs and CREDITs that balance, and every account exists, is ACTIVE, holds the currency and covers its lines; each account then moves by its own lines; an entry whose only fault is an amount is refused for the amount; anything refused leaves the tables as they were |
| Netting.NettingShape | internal/settlement/settlement.go:53-76 | Positions have positive amounts and at most one per unordered pair and currency |
| Netting.NettingIsCanonical | internal/settlement/settlement.go:53-97 | Any permutation of the input has one and the same netting, so neither input order nor map order shows |
| Netting.NettingPreservesFlows | internal/settlement/settlement.go:37-74 | For every account and currency outflow minus inflow over the positions equals that over the input |
| Netting.NettingIsFixpoint | internal/settlement/settlement.go:31-78 | Netting the positions again gives the same flows |
| Netting.NettingIsMinimal | internal/settlement/settlement.go:31-78 | No list of non-negative flows with the same net on every pair moves less in total |
| Netting.SameNetsSameFlows | internal/settlement/settlement.go:37-51 | Lists with equal nets on all pairs of distinct accounts move the same value through every account |
| Netting.PositionLessIsStrictOrder | internal/settlement/settlement.go:87-97 | positionLess is irreflexive, transitive and total up to equal from, to and currency |
| Netting.SortedMeansAscending | internal/settlement/settlement.go:87-97 | Sorted positions ascend by source, then destination, then currency, where the earlier text has the smaller character at the first difference or ends there |
| Netting.PositionsArePaid | internal/settlement/settlement.go:37-74 | Every netting, pair by pair, in terms of what each account pays the other |
| Netting.NetIsPaid | internal/settlement/settlement.go:40-51 | The net of a pair is what the low account pays minus what the high one pays, and its count the number of flows between them |
| Settlement.NetPositions | internal/settlement/settlement.go:31-78 | There is a position from a to b exactly if a pays b more than b pays a, over the difference and with the number of flows between the two; positions ascend by source, then destination, then the text of the currency |
| Settlement.SortPositions | internal/settlement/settlement.go:76 | The sort keeps the positions and puts them in ascending order of source, destination and the text of the currency |
| Lifecycle.Transaction.TransitionTo | internal/transaction/transaction.go:53-79 | Which of the pairs of statuses are allowed, one by one; an allowed one raises the rank, any other changes nothing and returns the right error |
| Lifecycle.LivesAreShort | internal/transaction/transaction.go:53-60 | A history along the table has at most three changes, a SETTLED row never becomes FAILED, and final statuses are final |
| Lifecycle.FollowsIsReachability | internal/transaction/transaction.go:53-60 | The order used in the run theorems is reachability in the table, both directions |
| TransactionRepository.Repository.CreateTransaction | internal/transaction/repository.go:237-261 | Inserts if and only if the constraints hold and the key is new; a duplicate key is reported exactly when the key is taken |
| TransactionRepository.Repository.UpdateStatus | internal/transaction/repository.go:283-300 | Updates exactly if the row still has the expected status; the settling time is never erased |
| TransactionRepository.Repository.FailTransaction | internal/transaction/repository.go:302-318 | Fails a PENDING or PROCESSING row, returns any other as it stands |
| TransactionRepository.Repository.GetTransactionByIdempotencyKey | internal/transaction/repository.go:332-342 | Finds a row with the key if and only if there is one |
| TransactionRepository.Repository.ListSettledBetween | internal/transaction/repository.go:383-402 | Lists a row exactly if it is SETTLED, its settling time is in the window and the currency asked for is empty or its own, each once, by settling time and id |
| TransactionRepository.Repository.BulkUpdateStatus | internal/transaction/repository.go:413-422 | Changes exactly the given rows that have the expected status and counts them |
| TransactionRepository.WindowIsCalendarDay | internal/transaction/repository.go:355-363 | A day's window is its calendar day if and only if that date begins at its midnight and has 24 hours |
| TransactionRepository.WindowsTileTime | internal/transaction/repository.go:355-363 | Every moment is in its own day's window and no other if and only if every date of the zone begins at its midnight and has 24 hours |
| TransactionRepository.LongDayLosesItsLastHour | internal/transaction/repository.go:355-363 | A transfer settled after one window ends and before the next begins is selected by no day's run |
| TransactionRepository.LastHourIsLost | internal/transaction/repository.go:355-363 | In a zone with a 25-hour day a transfer of that day is selected by no day's run |
| TransferService.Service.TryReturnCached | internal/transaction/service.go:151-170 | Goes on if and only if there is no store or nothing under the key; a marker means in progress, anything else is returned |
| TransferService.Service.AcquireExclusive | internal/transaction/service.go:174-198 | Claims a free key and only a free key; a taken one ends the call with what it holds |
| TransferService.Service.StoreResult | internal/transaction/service.go:200-212 | Caches the answer, and reports an error exactly when the store does |
| TransferService.Service.PostBothLegs | internal/transaction/service.go:414-495 | Succeeds if and only if no statement fails and both entries are acceptable one after the other; then the tables show both legs and the SETTLED row; short funds are reported as such for the first leg only |
| TransferService.Service.CommitBothLegs | internal/transaction/service.go:378-499 | Begin to commit is all or nothing, also when the commit takes effect and reports an error, and is a stretch of an engine run |
| TransferService.Service.FailOrFetch | internal/transaction/repository.go:302-318 | Fails the row unless it is past failing, and tells the caller what it became exactly when no error intervenes |
| TransferService.Service.FailTx | internal/transaction/service.go:391-402 | Compensation fails the row and caches what it became; if it cannot, the claim is still to be released, except that a call that never began caches the zero transaction: exactly then, when the row's fate is not told and the store takes it |
| TransferService.Service.CreateOrFind | internal/transaction/service.go:334-352 | Creates a PENDING row with the fields of the request or, if the key is taken, returns the row that has it |
| TransferService.Service.CheckSnapshots | internal/transaction/service.go:264-319 | Passes if and only if all three accounts are read and the currency, status and balance checks pass, and otherwise says which error the service returns |
| TransferService.RefusalIs | internal/transaction/service.go:284-319 | Which error a request meets, by the accounts: missing ends, their currencies, their statuses, the funds, then the clearing account |
| TransferService.Service.Settle | internal/transaction/service.go:378-515 | After the row is created: it is left PENDING, FAILED, or SETTLED with both legs; without faults which of these is decided by the two entries being acceptable |
| TransferService.Service.Claim | internal/transaction/service.go:240-262 | Claims if and only if nothing is cached, nobody gets in between and the store answers; if another caller does get in between, its value stays and decides how the call ends |
| TransferService.Service.Transfer | internal/transaction/service.go:214-516 | For every combination of faults: at most one row is added, under a new key, with the fields of the request and PENDING, FAILED or SETTLED; the journal grows by its two entries, written out, exactly if it is SETTLED; an improper request is refused as invalid, and a proper one is called invalid, or of the wrong currency, only when its accounts are; the zero transaction is cached exactly when a call that created its row cannot begin, cannot learn the fail-step's result and the store takes it; without faults the outcome and the error are the ideal ones and the cache remembers them; a replay changes nothing; and the call is a stretch of an engine run ending with the same outcome |
| TransferService.ZeroIsReachable | internal/transaction/service.go:378-386 | Whatever the accounts and the cached request, if it passes the checks some run caches the zero transaction and leaves the row PENDING |
| TransferService.ZeroCanBeCached | internal/transaction/service.go:378-386 | A concrete such run |
| TransferService.MoneyMovesOnlyBySettling | internal/transaction/service.go:404-499 | From the effect of any call: the journal grows by exactly the two legs if and only if its row is SETTLED, and then the amount moved from source to destination and no other balance changed |
| TransferService.IdealSettlesIffCovered | internal/transaction/service.go:294-465 | Between accounts fit to settle and without faults, a call that claims a new key settles if and only if the source covers the amount, and otherwise reports insufficient funds and leaves nothing behind |
| Refinement.Settles | internal/transaction/service.go:404-499 | The database transaction of a transfer with acceptable legs can run, alone, from begin to commit, with exactly the effect of posting both |
| Refinement.Compensates | internal/transaction/service.go:391-402 | The compensation steps lead to the failed or fetched row, the cached answer and the released claim of the class layer |
| Refinement.LockAll | internal/ledger/repository.go:286-292 | A transaction alone in the database gets every lock it wants, in ascending order |
| Refinement.PostIsRun | internal/ledger/ledger.go:40-60 | A single post by itself is a run whose one effect is the entry |
| Refinement.NettingIsRun | internal/settlement/batch_processor.go:26-68 | A netting run without races is a run that flips exactly the listed rows |
| Refinement.ReachedStatesAreInRuns | internal/transaction/service.go:214-516 | What is reached from a state of a run is a state of a run, so calls inherit every guarantee |
| Refinement.ReachedStatesAreSerial | internal/transaction/service.go:214-516 | So the tables that a sequence of calls leaves are those of its committed units executed one at a time |
| BatchProcessor.RunDailyNetting | internal/settlement/batch_processor.go:16-68 | Without database errors it succeeds if and only if other runs spare all that is due: the rows that are SETTLED, settled in the 24 hours from the day's midnight, and of the currency if one is given. It then flips exactly those, counts them, and returns their netting, in that currency; on an error it changes nothing, unless its commit took effect and reported an error, and then it has flipped exactly those |
| BatchProcessor.BulkReconcile | internal/settlement/batch_processor.go:52-57 | Flips and counts exactly the listed rows that are still SETTLED |
| BatchProcessor.RacedRows | internal/settlement/batch_processor.go:57-63 | The rows that others spare are still SETTLED, and they are as many as were listed if and only if none was taken |
| AccountService.UpdateAccountStatus | internal/account/service.go:95-131 | Accepts exactly a change from another status than CLOSED and than the new one, by what it read; writes over whatever is there, raises the version, and reports each refusal by its own error |
| AccountService.Reopening | internal/account/service.go:96-111 | A run that reopens the account has a call that read another status than CLOSED, with a closing write before its own |
| AccountService.ClosedStaysIff | internal/account/service.go:96-111 | In a run of any number of overlapping changes CLOSED is final if and only if no call that asks for another status has a closing write between its read and its write: a condition on the calls and the order of their steps alone |
| AccountService.CanReopenIff | internal/account/service.go:96-111 | Which sets of calls can reopen an account, told from the starting status and what they ask for, both directions |
| AccountService.ClosedCanReopen | internal/account/service.go:96-111 | Two racing calls that reopen a closed account |

## Left out

- HTTP handlers, DTOs, middleware, logging, configuration and seeding: plumbing around the calls modelled here.
- Audit events: written outside the transfer's database transaction, best effort.
- JSON encoding of cached transactions: the cached value is an abstract record distinct from the marker, so a value that does not decode is not modelled; descriptions, rails, metadata, failure reasons and creation times are not part of a row.
- The money package: amounts are integers tagged with a currency. Amounts finer than 0.0001, which the request check accepts and each NUMERIC(18,4) column rounds for itself, and overflow of that type, are not modelled.
- Account creation, currency lists, code generation and the entries query of an account: easy members only.
- The key prefix of the idempotency store and the clearing account's code: the store is keyed by idempotency key, and the code stands for the id it resolves to.
- Line sequence numbers, descriptions, references and posting times of journal entries, and the order of trial-balance rows by account code.
- Isolation conflicts, deadlock victims and lost connections: steps that may end a transaction at any time, so the runs considered include all those of REPEATABLE READ and more.
- The engine model inserts a row in one step; the shared locks of that insert are in the lock model only, taken in the order in which the table declares its references. Schedules that mix transfers with single posts, and the row locks that two netting runs take in different orders, have no deadlock condition here; the engine model lets such a transaction abort.
- Posts by callers other than transfers that name a transaction: a single post in the engine model has none. Entries with status REVERSED are modelled; an unset status means POSTED.
- Liveness: nothing is proved to happen eventually; a row can stay PENDING when the fail-step fails or its caller crashes.
- The class layer runs one caller at a time, so its tables are saved when a transaction begins and restored when it rolls back; how callers interleave is the business of the step layer. Races that a method must answer for are parameters: what another caller caches, which rows other runs take, which status another call writes.
- sort.Slice is modelled by insertion of each position at its place; for positions of distinct pairs every sort gives the same list.
- The third check of UpdateAccountStatus, on frozen accounts: between the three statuses of the enumeration it never refuses anything the others allow.
- LedgerRepository.Repository.InsertJournalEntryTx: does not say what part of a refused entry the open transaction contains, because the caller can only roll it back.
- AccountGuarantees.ClearingNetsOut: requires that no transfer has the account as source or destination and no single post touches it, because nothing in the code checks it.
- TransferService.Service.Transfer: the refinement to an engine run is claimed when no other caller gets between lookup and claim; that case is covered by the step layer. Errors other than those the service names are one, Wrapped.
- A zone in which clocks going back over midnight make a date come twice: the zones modelled have each date in one piece.
