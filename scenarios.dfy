/**
 * Client code written against the contracts of the `Transaction` class
 * alone, following the scenarios of transaction/transaction_test.go. The
 * callables are named by strings and the arguments are integers, as in
 * the tests' counting callback.
 */
module Scenarios {

  import opened Wrappers
  import opened TxErrors
  import opened Transactions

  /** A run in which every callback returns nil. */
  function NoneFails(): Oracle
  {
    _ => None
  }

  /** A run in which the callback at position `k` returns `e`, all others nil. */
  function FailsAt(k: nat, e: ActionError): Oracle
  {
    j => if j == k then Some(e) else None
  }

  function Sum(xs: seq<int>): int
  {
    if xs == [] then 0 else xs[0] + Sum(xs[1..])
  }

  lemma SumOneToFive()
    ensures Sum([1, 2, 3, 4, 5]) == 15
  {
  }

  /** What the tests' counting callback accumulates: every argument of every call. */
  function SumOfArgs<F>(trace: seq<Invocation<F, int>>): int
  {
    if trace == [] then 0 else Sum(trace[0].args) + SumOfArgs(trace[1..])
  }

  /**
   * `NewTransaction()` checks for a rollback group; `WithNoCheckRollback`
   * turns that off; an option that does nothing leaves it on.
   */
  method NewTransactionFlags() returns (plain: bool, unchecked: bool, noOp: bool)
    ensures plain && !unchecked && noOp
  {
    var t1 := new Transaction<string, int>([]);
    var t2 := new Transaction<string, int>([WithNoCheckRollback()]);
    var t3 := new Transaction<string, int>([NoOp]);
    plain, unchecked, noOp := t1.checkRollback, t2.checkRollback, t3.checkRollback;
  }

  /** A commit callback given the arguments 1..5 sees them all: the count is 15. */
  method CommitCountsArguments() returns (err: Option<Error>, count: int)
    ensures err == None && count == 15
  {
    var t0 := new Transaction<string, int>([WithNoCheckRollback()]);
    var t := t0.WithCommit(NewCommit("count", [1, 2, 3, 4, 5]));
    var trace;
    err, trace := t.DoCommit(NoneFails());
    RunCallsAll(CommitStage, t.commit.fns, NoneFails(), err, trace);
    assert trace == [Invocation(0, "count", [1, 2, 3, 4, 5])];
    assert trace[1..] == [];
    SumOneToFive();
    count := SumOfArgs(trace);
    assert count == Sum(trace[0].args) + SumOfArgs(trace[1..]);
  }

  /** The same for a rollback group. */
  method RollbackCountsArguments() returns (err: Option<Error>, count: int)
    ensures err == None && count == 15
  {
    var t0 := new Transaction<string, int>([WithNoCheckRollback()]);
    var t := t0.WithRollback(NewRollback("count", [1, 2, 3, 4, 5]));
    var trace;
    err, trace := t.DoRollback(NoneFails());
    RunCallsAll(RollbackStage, t.rollback.fns, NoneFails(), err, trace);
    assert trace == [Invocation(0, "count", [1, 2, 3, 4, 5])];
    assert trace[1..] == [];
    SumOneToFive();
    count := SumOfArgs(trace);
    assert count == Sum(trace[0].args) + SumOfArgs(trace[1..]);
  }

  /** With the check on and no rollback group, commit is refused and nothing runs. */
  method CommitRefusedWithoutRollback(opts: seq<TxOption>, c: Commit<string, int>, outcome: Oracle)
    returns (err: Option<Error>, calls: nat)
    requires NoCheckRollback !in opts
    ensures err == Some(Sentinel(ErrCannotDoCommit())) && calls == 0
  {
    var t0 := new Transaction<string, int>(opts);
    var t := t0.WithCommit(c);
    var trace;
    err, trace := t.DoCommit(outcome);
    calls := |trace|;
  }

  /** With an empty rollback group, rollback is refused and nothing runs, whatever the options. */
  method RollbackRefusedWhenEmpty(opts: seq<TxOption>, outcome: Oracle)
    returns (err: Option<Error>, calls: nat)
    ensures err == Some(Sentinel(ErrCannotDoRollback())) && calls == 0
  {
    var t := new Transaction<string, int>(opts);
    var trace;
    err, trace := t.DoRollback(outcome);
    calls := |trace|;
  }

  /** A commit callback that fails is reported by stage and index. */
  method CommitFailureMessage() returns (msg: string)
    ensures msg == "tx-keeper: " + "error commit on func 0: " + "some error"
  {
    var t0 := new Transaction<string, int>([WithNoCheckRollback()]);
    var t := t0.WithCommit(NewCommit("fail", []));
    var outcome := FailsAt(0, ActionError("some error"));
    var err, trace := t.DoCommit(outcome);
    RunStopsAtFirstFailure(CommitStage, t.commit.fns, outcome, err, trace, 0);
    CommitFailureText();
    msg := Message(err.value);
  }

  lemma CommitFailureText()
    ensures Message(ActionFailed(CommitStage, 0, ActionError("some error")))
         == "tx-keeper: " + "error commit on func 0: " + "some error"
  {
  }

  /** A rollback callback that fails is reported by stage and index. */
  method RollbackFailureMessage() returns (msg: string)
    ensures msg == "tx-keeper: " + "error rollback on func 0: " + "some error"
  {
    var t0 := new Transaction<string, int>([]);
    var t := t0.WithRollback(NewRollback("fail", []));
    var outcome := FailsAt(0, ActionError("some error"));
    var err, trace := t.DoRollback(outcome);
    RunStopsAtFirstFailure(RollbackStage, t.rollback.fns, outcome, err, trace, 0);
    RollbackFailureText();
    msg := Message(err.value);
  }

  lemma RollbackFailureText()
    ensures Message(ActionFailed(RollbackStage, 0, ActionError("some error")))
         == "tx-keeper: " + "error rollback on func 0: " + "some error"
  {
  }

  /** A second `WithCommit` supersedes the first: only its actions are run. */
  method LaterCommitWins<F, A>(c1: Commit<F, A>, c2: Commit<F, A>, r: Rollback<F, A>, outcome: Oracle)
    returns (err: Option<Error>, trace: seq<Invocation<F, A>>)
    requires |r.fns| != 0
    ensures IsRunOf(CommitStage, c2.fns, outcome, err, trace)
  {
    var t := new Transaction<F, A>([]);
    t := t.WithRollback(r);
    t := t.WithCommit(c1);
    t := t.WithCommit(c2);
    err, trace := t.DoCommit(outcome);
  }

  /** Nothing marks a transaction as done: a second `DoCommit` runs the same way again. */
  method CommitTwice<F, A>(t: Transaction<F, A>, outcome: Oracle)
    returns (err1: Option<Error>, trace1: seq<Invocation<F, A>>,
             err2: Option<Error>, trace2: seq<Invocation<F, A>>)
    ensures err1 == err2 && trace1 == trace2
  {
    err1, trace1 := t.DoCommit(outcome);
    err2, trace2 := t.DoCommit(outcome);
    if !(t.checkRollback && |t.rollback.fns| == 0) {
      IsRunOfUnique(CommitStage, t.commit.fns, outcome, err1, trace1, err2, trace2);
    }
  }

  /** The same holds for `DoRollback`. */
  method RollbackTwice<F, A>(t: Transaction<F, A>, outcome: Oracle)
    returns (err1: Option<Error>, trace1: seq<Invocation<F, A>>,
             err2: Option<Error>, trace2: seq<Invocation<F, A>>)
    ensures err1 == err2 && trace1 == trace2
  {
    err1, trace1 := t.DoRollback(outcome);
    err2, trace2 := t.DoRollback(outcome);
    if |t.rollback.fns| != 0 {
      IsRunOfUnique(RollbackStage, t.rollback.fns, outcome, err1, trace1, err2, trace2);
    }
  }
}
