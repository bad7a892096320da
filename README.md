# tx-keeper: the commit/rollback coordinator, modelled in Dafny

tx-keeper groups a list of "commit" actions and a list of "rollback"
actions behind one `Transaction` object. `DoCommit` runs the commit
actions in order. `DoRollback` runs the rollback actions in order. Both
stop at the first action that fails and report its stage and zero-based
index. By default a commit is refused while no rollback action is
registered; the `WithNoCheckRollback` option turns that check off. A
rollback with no rollback actions is always refused.

The model has five modules:

- `Wrappers` (wrappers.dfy): the `Option` type. `None` stands for Go's
  nil error.
- `TxErrors` (errors.dfy): `TxError`, its `Error()` string and the two
  sentinel errors of transaction/error.go.
- `Format` (format.dfy): the `%d` rendering that `fmt.Errorf` applies to
  the failing index.
- `Transactions` (transaction.dfy): the data types of
  transaction/transaction.go, and the `Transaction` class with the source's
  three mutable fields: `commit`, `rollback` and `checkRollback`. The
  constructor runs the options loop and `WithCommit`/`WithRollback`
  overwrite a field, as in the source. The `for i, fn := range` loop of
  `doCommit`/`doRollback` is the method `RunActions`, with a while loop
  and its invariants.
- `Scenarios` (scenarios.dfy): client methods written only against the
  class's contracts. Most follow the scenarios of
  transaction/transaction_test.go. `LaterCommitWins`, `CommitTwice` and
  `RollbackTwice` follow the code at transaction/transaction.go:78-108
  instead. The doc comments at transaction/transaction.go:77 and :84 say
  that `WithCommit`/`WithRollback` "adds" a function, but the code at :79
  and :86 replaces the whole group; the model follows the code.

**Callbacks.** A callback is foreign code. An action is
`Function(fn: F, args: seq<A>)`, where the callable `F` and the untyped
arguments `A` are type parameters. Both are stored and forwarded
unchanged. What each callback returns in one run is given by an `Oracle`:
a function from the action's position in its group to `None` (nil) or
`Some(ActionError(msg))`. Each run also returns its trace: the
`Invocation(index, fn, args)` of every call it made, in order. Ordering,
short-circuiting and "no action invoked" are stated against that trace.

**Specification of a run.** `IsRunOf` describes one run of a group. The
result is nil exactly when every action succeeds, and then the trace is
every action in order, each with its own arguments. Otherwise the result
is `ActionFailed(stage, k, inner)` for the first failing action `k`,
and the trace is exactly the calls to actions `0..k`. `Run` is a separate
recursive reference definition of the same run. The lemmas show that
`Run` meets `IsRunOf` and that `IsRunOf` allows only one result and one
trace, and `RunActions` is proved equal to `Run`.

`DoCommit` and `DoRollback` have no `modifies` clause. The verifier
therefore guarantees that they change none of the three fields. A second
call sees the same state and, given the same callback outcomes, repeats
the same run (`CommitTwice`, `RollbackTwice`).

The sentinel messages are those of transaction/error.go:15 and :18, for
example "cannot do commit. Rollback function is not set" (a full stop,
with "Rollback" capitalised). A wrapped action error reads
"tx-keeper: error <stage> on func <index>: <inner message>". The emptiness
checks test only the length of the group's action list.

## Model

| member | source | states |
|---|---|---|
| `TxErrors.ErrorString` | transaction/error.go:9-11 | the rendered error starts with the prefix "tx-keeper: " and the rest is exactly the message |
| `TxErrors.ErrorStringInjective` | transaction/error.go:9-11 | two errors render to the same string if and only if they carry the same message |
| `TxErrors.ErrCannotDoCommit` | transaction/error.go:15 | the commit sentinel renders as "tx-keeper: cannot do commit. Rollback function is not set" |
| `TxErrors.ErrCannotDoRollback` | transaction/error.go:18 | the rollback sentinel renders as "tx-keeper: cannot do rollback. Rollback function is not set" |
| `TxErrors.SentinelsDistinct` | transaction/error.go:13-19 | the two sentinels differ, as values and as strings |
| `Format.Decimal` | transaction/transaction.go:114 | the `%d` of an index is a well-formed numeral (digits only, no leading zero) whose value is the index |
| `Format.DecimalInjective` | transaction/transaction.go:114 | different indices are rendered differently |
| `Transactions.WithNoCheckRollback` | transaction/transaction.go:40-44 | applying the option leaves the flag false, whatever it was before |
| `Transactions.ConfigureClears` | transaction/transaction.go:48-55 | after the options are applied in order, the flag is still set exactly when it started set and no `WithNoCheckRollback` was given |
| `Transactions.NewCommit` | transaction/transaction.go:64-68 | the group holds exactly one action, which has the given callable and the given arguments |
| `Transactions.NewRollback` | transaction/transaction.go:71-75 | the group holds exactly one action, which has the given callable and the given arguments |
| `Transactions.RunNilIff` | transaction/transaction.go:111-130 | a run returns nil if and only if no action of the group fails |
| `Transactions.IsRunOfUnique` | transaction/transaction.go:111-130 | the result and the trace of a run are determined by the group and the callback outcomes |
| `Transactions.RunStopsAtFirstFailure` | transaction/transaction.go:112-115 | if action k is the first to fail, the run returns that action's error wrapped with the stage and index k, and it calls exactly actions 0..k, in order, each with its own arguments |
| `Transactions.RunCallsAll` | transaction/transaction.go:112-118 | if no action fails, the run returns nil after calling every action exactly once, in index order, with its own stored arguments |
| `Transactions.RunFromMeetsSpec` | transaction/transaction.go:112-118 | the reference run starting at position i meets that specification for the actions from i onwards (proof by induction) |
| `Transactions.RunMeetsSpec` | transaction/transaction.go:111-130 | the recursive reference definition `Run` meets the specification `IsRunOf` |
| `Transactions.RunActions` | transaction/transaction.go:112-118 | the range loop with an early return meets `IsRunOf` and equals the reference run |
| `Transactions.RunCommit` | transaction/transaction.go:111-119 | `doCommit` runs the commit group, and failures are tagged with the stage "commit" |
| `Transactions.RunRollback` | transaction/transaction.go:122-130 | `doRollback` runs the rollback group, and failures are tagged with the stage "rollback" |
| `Transactions.Message` | transaction/transaction.go:113-115 | every error the coordinator returns renders with the prefix "tx-keeper: "; a sentinel renders as its own `Error()` string; a wrapped error ends with the inner error's message |
| `Transactions.Transaction.constructor` | transaction/transaction.go:48-61 | the flag is true unless a `WithNoCheckRollback` option is given, and both groups are empty |
| `Transactions.Transaction.WithCommit` | transaction/transaction.go:78-82 | the commit group is replaced wholesale; the rollback group and the flag are unchanged; the receiver itself is returned |
| `Transactions.Transaction.WithRollback` | transaction/transaction.go:85-89 | the rollback group is replaced wholesale; the commit group and the flag are unchanged; the receiver itself is returned |
| `Transactions.Transaction.DoCommit` | transaction/transaction.go:93-99 | with the check on and an empty rollback group, returns the commit sentinel and calls nothing; otherwise it is a run of the commit group; it changes no field |
| `Transactions.Transaction.DoRollback` | transaction/transaction.go:102-108 | with an empty rollback group, returns the rollback sentinel and calls nothing, whatever the flag; otherwise it is a run of the rollback group; it changes no field |
| `Scenarios.NewTransactionFlags` | transaction/transaction_test.go:22-36 | `NewTransaction()` has the check on; `NewTransaction(WithNoCheckRollback())` has it off; a no-op option leaves it on |
| `Scenarios.CommitCountsArguments` | transaction/transaction_test.go:97-115 | a commit callback over the arguments 1..5 succeeds, and its arguments sum to 15 |
| `Scenarios.RollbackCountsArguments` | transaction/transaction_test.go:202-220 | the same for a rollback callback |
| `Scenarios.CommitRefusedWithoutRollback` | transaction/transaction_test.go:116-129 | with the check on and no rollback actions, commit returns the commit sentinel and makes no call |
| `Scenarios.RollbackRefusedWhenEmpty` | transaction/transaction_test.go:221-226 | with no rollback actions, rollback returns the rollback sentinel and makes no call, whatever the options |
| `Scenarios.CommitFailureMessage` | transaction/transaction_test.go:130-144 | a failing commit callback yields "tx-keeper: error commit on func 0: some error" |
| `Scenarios.CommitFailureText` | transaction/transaction.go:114 | the wrapped error of commit action 0 with inner message "some error" renders as "tx-keeper: error commit on func 0: some error" |
| `Scenarios.RollbackFailureMessage` | transaction/transaction_test.go:227-240 | a failing rollback callback yields "tx-keeper: error rollback on func 0: some error" |
| `Scenarios.RollbackFailureText` | transaction/transaction.go:125 | the wrapped error of rollback action 0 with inner message "some error" renders as "tx-keeper: error rollback on func 0: some error" |
| `Scenarios.LaterCommitWins` | transaction/transaction.go:78-82 | after two `WithCommit` calls, only the second group's actions run |
| `Scenarios.CommitTwice` | transaction/transaction.go:93-99 | two `DoCommit` calls on an unmodified transaction, with the same callback outcomes, return the same result and make the same calls |
| `Scenarios.RollbackTwice` | transaction/transaction.go:102-108 | the same for `DoRollback` |

## Left out

- `context.Context`: the coordinator only passes it to the callbacks. Deadlines and cancellation are the callbacks' business.
- Callback bodies and their side effects: a callback's result is given by the oracle. The count of 15 in the tests is computed from the trace, not from a shared variable.
- Untyped `...any` arguments: they are an opaque sequence over a type parameter, with no type assertions.
- Pointer aliasing of `*Commit` and `*Rollback`: groups are values. A caller that mutates a group's slice after `WithCommit` is not modelled.
- Nil callables and panicking callbacks: a nil `Fn` (as in the zero `Function{}`) panics at transaction/transaction.go:113 and :124, after the earlier calls and without returning, and a callback's panic propagates out of `DoCommit`/`DoRollback`. The oracle gives every call a result, so the model has neither case.
- Nil group pointers: the model has no nil groups. In the Go code a nil rollback group panics at transaction/transaction.go:103, and at :94 when the check is on. A nil commit group panics at :112.
- Caller-defined options: Go's `Option` (transaction/transaction.go:37) is any `func(*Transaction)`. The model has only `WithNoCheckRollback` and a no-op option (`NoOp`). Options that set the flag back to true, or touch the groups before they are installed, are not modelled. A nil option, which panics at transaction/transaction.go:54, is not modelled either.
- `errors.Is`, `errors.Unwrap` and pointer identity of the sentinels: sentinels are compared as values. The `%w` wrapping is the `inner` field of `ActionFailed`.
- `fmt.Errorf` formatting beyond `%d` of a natural number and `%w` of the inner error's message.
- The test file's `sync.Mutex` and testify assertions: test scaffolding and concurrency.
- txkeeper.go (type aliases and re-exported variables only) and example/main.go (console printing and logging).
