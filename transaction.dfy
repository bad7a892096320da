/**
 * The commit/rollback coordinator of transaction/transaction.go.
 *
 * A user callback is foreign code. The model keeps the callable as an
 * opaque value of type `F` and its arguments as an opaque sequence over `A`;
 * what the callback at position `i` of a group returns during one run is
 * given by an `Oracle`. Every run reports the sequence of invocations it
 * made (its trace), so ordering and short-circuiting can be stated.
 */
module Transactions {

  import opened Wrappers
  import opened TxErrors
  import Format

  // ---------------------------------------------------------------- data

  /** One deferred action: a callable and the arguments it is called with. */
  datatype Function<F, A> = Function(fn: F, args: seq<A>)

  /** The actions run by `DoCommit`, earliest-registered first. */
  datatype Commit<F, A> = Commit(fns: seq<Function<F, A>>)

  /** The actions run by `DoRollback`, earliest-registered first. */
  datatype Rollback<F, A> = Rollback(fns: seq<Function<F, A>>)

  /**
   * The construction options: the package's own `WithNoCheckRollback`, and
   * a caller-defined option that leaves the transaction as it is.
   */
  datatype TxOption = NoCheckRollback | NoOp

  /** The stage named in a wrapped action error. */
  datatype Stage = CommitStage | RollbackStage

  /** The error a user callback returned, known by its message. */
  datatype ActionError = ActionError(msg: string)

  /**
   * What `DoCommit` and `DoRollback` return when they fail: one of the
   * sentinel `TxError`s, or a callback's error wrapped with the stage and
   * the zero-based index of the failing action (the `%w` wrapping).
   */
  datatype Error =
    | Sentinel(tx: TxError)
    | ActionFailed(stage: Stage, index: nat, inner: ActionError)

  /** What the action at each position of a group returns in one run. */
  type Oracle = nat -> Option<ActionError>

  /** One call made by a run: the action's position, callable and arguments. */
  datatype Invocation<F, A> = Invocation(index: nat, fn: F, args: seq<A>)

  /** The result of a run (None is Go's nil) and the calls it made. */
  datatype Execution<F, A> = Execution(result: Option<Error>, trace: seq<Invocation<F, A>>)

  // ---------------------------------------------------------------- options

  /** What applying one option does to the `checkRollback` flag. */
  function Apply(o: TxOption, checkRollback: bool): bool
  {
    match o
    case NoCheckRollback => false
    case NoOp => checkRollback
  }

  /** `WithNoCheckRollback()`: the option that clears the flag. */
  function WithNoCheckRollback(): (o: TxOption)
    ensures forall flag :: !Apply(o, flag)
  {
    NoCheckRollback
  }

  /** The flag after applying `opts` in order, starting from `flag`. */
  function Configure(opts: seq<TxOption>, flag: bool): bool
  {
    if opts == [] then flag else Configure(opts[1..], Apply(opts[0], flag))
  }

  /** The flag survives the options exactly when none of them clears it. */
  lemma {:induction false} ConfigureClears(opts: seq<TxOption>, flag: bool)
    ensures Configure(opts, flag) <==> flag && NoCheckRollback !in opts
  {
    if opts != [] {
      ConfigureClears(opts[1..], Apply(opts[0], flag));
      assert opts[0] in opts;
    }
  }

  // ---------------------------------------------------------------- groups

  /** `NewCommit(fn, args...)`: a commit group of exactly that one action. */
  function NewCommit<F, A>(fn: F, args: seq<A>): (c: Commit<F, A>)
    ensures |c.fns| == 1 && c.fns[0].fn == fn && c.fns[0].args == args
  {
    Commit([Function(fn, args)])
  }

  /** `NewRollback(fn, args...)`: a rollback group of exactly that one action. */
  function NewRollback<F, A>(fn: F, args: seq<A>): (r: Rollback<F, A>)
    ensures |r.fns| == 1 && r.fns[0].fn == fn && r.fns[0].args == args
  {
    Rollback([Function(fn, args)])
  }

  // ---------------------------------------------------------------- runs

  /** Every action in positions `lo..hi` returns nil. */
  ghost predicate Succeeds(outcome: Oracle, lo: nat, hi: nat)
  {
    forall j :: lo <= j < hi ==> outcome(j).None?
  }

  /** The calls of a whole group in order, each with its own stored arguments. */
  function Calls<F, A>(fns: seq<Function<F, A>>): (calls: seq<Invocation<F, A>>)
    ensures |calls| == |fns|
  {
    seq(|fns|, j requires 0 <= j < |fns| => Invocation(j, fns[j].fn, fns[j].args))
  }

  /**
   * The specification of one run of a group (`doCommit`, `doRollback`):
   * nil exactly when every action succeeds, after calling all of them in
   * order; otherwise the action error of the first failing action `k`,
   * tagged with the stage and `k`, after calling exactly actions 0..k.
   */
  ghost predicate IsRunOf<F, A>(stage: Stage, fns: seq<Function<F, A>>, outcome: Oracle,
                                err: Option<Error>, trace: seq<Invocation<F, A>>)
  {
    match err
    case None => Succeeds(outcome, 0, |fns|) && trace == Calls(fns)
    case Some(e) =>
      e.ActionFailed? && e.stage == stage && e.index < |fns| &&
      Succeeds(outcome, 0, e.index) && outcome(e.index) == Some(e.inner) &&
      trace == Calls(fns)[..e.index + 1]
  }

  /** A run reports nil exactly when no action fails. */
  lemma RunNilIff<F, A>(stage: Stage, fns: seq<Function<F, A>>, outcome: Oracle,
                        err: Option<Error>, trace: seq<Invocation<F, A>>)
    requires IsRunOf(stage, fns, outcome, err, trace)
    ensures err == None <==> Succeeds(outcome, 0, |fns|)
  {
  }

  /** The specification determines the result and the trace of a run. */
  lemma IsRunOfUnique<F, A>(stage: Stage, fns: seq<Function<F, A>>, outcome: Oracle,
                            err1: Option<Error>, trace1: seq<Invocation<F, A>>,
                            err2: Option<Error>, trace2: seq<Invocation<F, A>>)
    requires IsRunOf(stage, fns, outcome, err1, trace1)
    requires IsRunOf(stage, fns, outcome, err2, trace2)
    ensures err1 == err2 && trace1 == trace2
  {
  }

  /** If action `k` is the first to fail, exactly actions 0..k are called. */
  lemma RunStopsAtFirstFailure<F, A>(stage: Stage, fns: seq<Function<F, A>>, outcome: Oracle,
                                     err: Option<Error>, trace: seq<Invocation<F, A>>, k: nat)
    requires IsRunOf(stage, fns, outcome, err, trace)
    requires k < |fns| && Succeeds(outcome, 0, k) && outcome(k).Some?
    ensures err == Some(ActionFailed(stage, k, outcome(k).value))
    ensures |trace| == k + 1
    ensures forall j :: 0 <= j <= k ==> trace[j] == Invocation(j, fns[j].fn, fns[j].args)
  {
  }

  /** If no action fails, every action is called once, in order, with its own arguments. */
  lemma RunCallsAll<F, A>(stage: Stage, fns: seq<Function<F, A>>, outcome: Oracle,
                          err: Option<Error>, trace: seq<Invocation<F, A>>)
    requires IsRunOf(stage, fns, outcome, err, trace)
    requires Succeeds(outcome, 0, |fns|)
    ensures err == None
    ensures |trace| == |fns|
    ensures forall j :: 0 <= j < |fns| ==> trace[j] == Invocation(j, fns[j].fn, fns[j].args)
  {
  }

  /** A reference definition of a run, one action at a time from position `i`. */
  function RunFrom<F, A>(stage: Stage, fns: seq<Function<F, A>>, outcome: Oracle, i: nat): Execution<F, A>
    decreases |fns| - i
  {
    if i >= |fns| then Execution(None, [])
    else
      var call := Invocation(i, fns[i].fn, fns[i].args);
      match outcome(i)
      case Some(e) => Execution(Some(ActionFailed(stage, i, e)), [call])
      case None =>
        var rest := RunFrom(stage, fns, outcome, i + 1);
        Execution(rest.result, [call] + rest.trace)
  }

  function Run<F, A>(stage: Stage, fns: seq<Function<F, A>>, outcome: Oracle): Execution<F, A>
  {
    RunFrom(stage, fns, outcome, 0)
  }

  /** Splitting off the first call of a slice of a group's calls. */
  lemma CallsSplit<F, A>(fns: seq<Function<F, A>>, i: nat, j: nat)
    requires i < j <= |fns|
    ensures Calls(fns)[i..j] == [Invocation(i, fns[i].fn, fns[i].args)] + Calls(fns)[i + 1..j]
  {
  }

  lemma {:induction false} RunFromMeetsSpec<F, A>(stage: Stage, fns: seq<Function<F, A>>, outcome: Oracle, i: nat)
    requires i <= |fns|
    ensures RunFrom(stage, fns, outcome, i).result.None? ==>
      Succeeds(outcome, i, |fns|) && RunFrom(stage, fns, outcome, i).trace == Calls(fns)[i..|fns|]
    ensures RunFrom(stage, fns, outcome, i).result.Some? ==>
      var e := RunFrom(stage, fns, outcome, i).result.value;
      e.ActionFailed? && e.stage == stage && i <= e.index < |fns| &&
      Succeeds(outcome, i, e.index) && outcome(e.index) == Some(e.inner) &&
      RunFrom(stage, fns, outcome, i).trace == Calls(fns)[i..e.index + 1]
    decreases |fns| - i
  {
    if i < |fns| && outcome(i).None? {
      RunFromMeetsSpec(stage, fns, outcome, i + 1);
      var rest := RunFrom(stage, fns, outcome, i + 1);
      CallsSplit(fns, i, if rest.result.None? then |fns| else rest.result.value.index + 1);
    } else if i < |fns| {
      CallsSplit(fns, i, i + 1);
    }
  }

  /** The reference definition meets the specification of a run. */
  lemma RunMeetsSpec<F, A>(stage: Stage, fns: seq<Function<F, A>>, outcome: Oracle)
    ensures IsRunOf(stage, fns, outcome, Run(stage, fns, outcome).result, Run(stage, fns, outcome).trace)
  {
    RunFromMeetsSpec(stage, fns, outcome, 0);
    assert Calls(fns)[0..|fns|] == Calls(fns);
  }

  /**
   * The `for i, fn := range fns` loop shared by `doCommit` and `doRollback`:
   * call each action in turn and return at the first error, wrapped.
   */
  method RunActions<F, A>(stage: Stage, fns: seq<Function<F, A>>, outcome: Oracle)
    returns (err: Option<Error>, trace: seq<Invocation<F, A>>)
    ensures IsRunOf(stage, fns, outcome, err, trace)
    ensures Execution(err, trace) == Run(stage, fns, outcome)
  {
    trace := [];
    var i := 0;
    while i < |fns|
      invariant 0 <= i <= |fns|
      invariant Succeeds(outcome, 0, i)
      invariant trace == Calls(fns)[..i]
    {
      trace := trace + [Invocation(i, fns[i].fn, fns[i].args)];
      assert trace == Calls(fns)[..i + 1];
      var r := outcome(i);
      if r.Some? {
        err := Some(ActionFailed(stage, i, r.value));
        RunMeetsSpec(stage, fns, outcome);
        IsRunOfUnique(stage, fns, outcome, err, trace, Run(stage, fns, outcome).result, Run(stage, fns, outcome).trace);
        return;
      }
      i := i + 1;
    }
    err := None;
    assert trace == Calls(fns);
    RunMeetsSpec(stage, fns, outcome);
    IsRunOfUnique(stage, fns, outcome, err, trace, Run(stage, fns, outcome).result, Run(stage, fns, outcome).trace);
  }

  /** `doCommit`: run the commit group with errors tagged "commit". */
  method RunCommit<F, A>(c: Commit<F, A>, outcome: Oracle) returns (err: Option<Error>, trace: seq<Invocation<F, A>>)
    ensures IsRunOf(CommitStage, c.fns, outcome, err, trace)
  {
    err, trace := RunActions(CommitStage, c.fns, outcome);
  }

  /** `doRollback`: run the rollback group with errors tagged "rollback". */
  method RunRollback<F, A>(r: Rollback<F, A>, outcome: Oracle) returns (err: Option<Error>, trace: seq<Invocation<F, A>>)
    ensures IsRunOf(RollbackStage, r.fns, outcome, err, trace)
  {
    err, trace := RunActions(RollbackStage, r.fns, outcome);
  }

  // ---------------------------------------------------------------- messages

  function StageName(stage: Stage): string
  {
    match stage
    case CommitStage => "commit"
    case RollbackStage => "rollback"
  }

  /** The text `fmt.Errorf` puts between the prefix and the wrapped error. */
  function WrapText(stage: Stage, i: nat): string
  {
    "error " + StageName(stage) + " on func " + Format.Decimal(i) + ": "
  }

  /**
   * `err.Error()` for what the coordinator returns: a sentinel's own
   * message, or "tx-keeper: error <stage> on func <index>: <inner>".
   */
  function Message(e: Error): (s: string)
    ensures HasPrefix(s)
    ensures e.Sentinel? ==> s == ErrorString(e.tx)
    ensures e.ActionFailed? ==> |e.inner.msg| <= |s| && s[|s| - |e.inner.msg|..] == e.inner.msg
  {
    match e
    case Sentinel(t) => ErrorString(t)
    case ActionFailed(stage, i, inner) => Prefix + WrapText(stage, i) + inner.msg
  }

  // ---------------------------------------------------------------- the coordinator

  class Transaction<F, A> {
    var commit: Commit<F, A>
    var rollback: Rollback<F, A>
    var checkRollback: bool

    /**
     * `NewTransaction(opts...)`: the flag starts true, the options are
     * applied in order, then both groups are installed empty.
     */
    constructor (opts: seq<TxOption>)
      ensures checkRollback == Configure(opts, true)
      ensures checkRollback <==> NoCheckRollback !in opts
      ensures commit == Commit([]) && rollback == Rollback([])
    {
      checkRollback := true;
      new;
      var i := 0;
      while i < |opts|
        invariant 0 <= i <= |opts|
        invariant Configure(opts, true) == Configure(opts[i..], checkRollback)
      {
        assert opts[i..][1..] == opts[i + 1..];
        checkRollback := Apply(opts[i], checkRollback);
        i := i + 1;
      }
      commit := Commit([]);
      rollback := Rollback([]);
      ConfigureClears(opts, true);
    }

    /** `WithCommit(c)`: replace the commit group wholesale; return the receiver. */
    method WithCommit(c: Commit<F, A>) returns (t: Transaction<F, A>)
      modifies this
      ensures t == this
      ensures commit == c
      ensures rollback == old(rollback) && checkRollback == old(checkRollback)
    {
      commit := c;
      t := this;
    }

    /** `WithRollback(r)`: replace the rollback group wholesale; return the receiver. */
    method WithRollback(r: Rollback<F, A>) returns (t: Transaction<F, A>)
      modifies this
      ensures t == this
      ensures rollback == r
      ensures commit == old(commit) && checkRollback == old(checkRollback)
    {
      rollback := r;
      t := this;
    }

    /**
     * `DoCommit`: refuse, calling nothing, when a rollback group is
     * required but empty; otherwise run the commit group. It changes no
     * field (it has no modifies clause).
     */
    method DoCommit(outcome: Oracle) returns (err: Option<Error>, trace: seq<Invocation<F, A>>)
      ensures checkRollback && |rollback.fns| == 0 ==>
        err == Some(Sentinel(ErrCannotDoCommit())) && trace == []
      ensures !(checkRollback && |rollback.fns| == 0) ==>
        IsRunOf(CommitStage, commit.fns, outcome, err, trace)
    {
      if checkRollback && |rollback.fns| == 0 {
        return Some(Sentinel(ErrCannotDoCommit())), [];
      }
      err, trace := RunCommit(commit, outcome);
    }

    /**
     * `DoRollback`: refuse, calling nothing, when the rollback group is
     * empty, whatever the flag; otherwise run the rollback group. It
     * changes no field (it has no modifies clause).
     */
    method DoRollback(outcome: Oracle) returns (err: Option<Error>, trace: seq<Invocation<F, A>>)
      ensures |rollback.fns| == 0 ==>
        err == Some(Sentinel(ErrCannotDoRollback())) && trace == []
      ensures |rollback.fns| != 0 ==>
        IsRunOf(RollbackStage, rollback.fns, outcome, err, trace)
    {
      if |rollback.fns| == 0 {
        return Some(Sentinel(ErrCannotDoRollback())), [];
      }
      err, trace := RunRollback(rollback, outcome);
    }
  }
}
