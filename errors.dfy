/**
 * The coordinator's own error values (transaction/error.go): a `TxError`
 * carries a message and renders it behind the package prefix, and two
 * sentinel values report the two precondition failures.
 */
module TxErrors {

  /** The package prefix that `TxError.Error()` puts before every message. */
  const Prefix: string := "tx-keeper: "

  /** True when `s` begins with the package prefix. */
  predicate HasPrefix(s: string)
  {
    |Prefix| <= |s| && s[..|Prefix|] == Prefix
  }

  datatype TxError = TxError(msg: string)

  /** `TxError.Error()`: the prefix followed by the message, nothing else. */
  function ErrorString(e: TxError): (s: string)
    ensures HasPrefix(s)
    ensures s[|Prefix|..] == e.msg
  {
    Prefix + e.msg
  }

  /** Two errors render alike exactly when they carry the same message. */
  lemma ErrorStringInjective(e1: TxError, e2: TxError)
    ensures ErrorString(e1) == ErrorString(e2) <==> e1 == e2
  {
  }

  /** Returned by `DoCommit` when a rollback group is required but empty. */
  function ErrCannotDoCommit(): (e: TxError)
    ensures ErrorString(e) == "tx-keeper: " + "cannot do commit. Rollback function is not set"
  {
    TxError("cannot do commit. Rollback function is not set")
  }

  /** Returned by `DoRollback` when the rollback group is empty. */
  function ErrCannotDoRollback(): (e: TxError)
    ensures ErrorString(e) == "tx-keeper: " + "cannot do rollback. Rollback function is not set"
  {
    TxError("cannot do rollback. Rollback function is not set")
  }

  /** The two sentinels are different values with different messages. */
  lemma SentinelsDistinct()
    ensures ErrCannotDoCommit() != ErrCannotDoRollback()
    ensures ErrorString(ErrCannotDoCommit()) != ErrorString(ErrCannotDoRollback())
  {
  }
}
