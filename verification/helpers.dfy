/**
  Model of helpers.go: normalising a database handle into a transaction,
  committing or rolling back with composed errors, rewriting a token into a
  cursor name, and measuring the destination a fetch filled.
 */
module Helpers {
  import opened Wrappers

  // ---------------------------------------------------------------------------
  // Errors
  // ---------------------------------------------------------------------------

  /** An error as github.com/pkg/errors builds it: a leaf with its own message,
      or a message wrapped around a cause. */
  datatype Error = Leaf(msg: string) | Wrap(msg: string, cause: Error)

  /** The text `Error()` returns: each wrapping message, then ": ", then the
      text of its cause. */
  function Text(e: Error): string
  {
    match e
    case Leaf(m) => m
    case Wrap(m, c) => m + ": " + Text(c)
  }

  /** The innermost error of a wrap chain (what errors.Cause digs out). */
  function Root(e: Error): Error
  {
    match e
    case Leaf(_) => e
    case Wrap(_, c) => Root(c)
  }

  predicate EndsWith(s: string, suffix: string)
  {
    |suffix| <= |s| && s[|s| - |suffix|..] == suffix
  }

  predicate Contains(s: string, part: string)
  {
    exists i :: 0 <= i <= |s| && part <= s[i..]
  }

  const TableContext := "error in table: "

  /** Err: the error wrapped with the name of the table it concerns. */
  function Err(name: string, err: Error): (r: Error)
    ensures r.Wrap? && r.cause == err && Root(r) == Root(err)
    ensures TableContext + name <= Text(r)
    ensures EndsWith(Text(r), Text(err))
  {
    Wrap(TableContext + name, err)
  }

  /** What Rollback returns: the prior error itself when the rollback
      succeeds; otherwise the prior error as the cause, wrapped with the text
      of the rollback failure in table context. */
  function RollbackOutcome(resource: string, prior: Error, rollbackFailure: Option<Error>): (r: Error)
    ensures rollbackFailure.None? ==> r == prior
    ensures rollbackFailure.Some? ==>
      && r.Wrap? && r.cause == prior && Root(r) == Root(prior)
      && TableContext + resource <= Text(r)
      && Contains(Text(r), Text(rollbackFailure.value))
      && EndsWith(Text(r), Text(prior))
  {
    match rollbackFailure
    case None => prior
    case Some(rb) =>
      var r := Wrap(Text(Err(resource, rb)), prior);
      assert Text(rollbackFailure.value) <= Text(r)[|TableContext + resource| + 2..];
      r
  }

  /** What Commit returns: nothing when the commit succeeds; otherwise the
      commit failure in table context, composed with the outcome of the
      rollback that follows it. */
  function CommitOutcome(resource: string, commitFailure: Option<Error>, rollbackFailure: Option<Error>): (r: Option<Error>)
    ensures r.None? <==> commitFailure.None?
    ensures commitFailure.Some? ==>
      && Root(r.value) == Root(commitFailure.value)
      && Contains(Text(r.value), Text(commitFailure.value))
    ensures commitFailure.Some? && rollbackFailure.None? ==>
      r == Some(Err(resource, commitFailure.value))
    ensures commitFailure.Some? && rollbackFailure.Some? ==>
      && r.value.Wrap? && r.value.cause == Err(resource, commitFailure.value)
      && Contains(Text(r.value), Text(rollbackFailure.value))
  {
    match commitFailure
    case None => None
    case Some(c) =>
      var wrapped := Err(resource, c);
      var r := RollbackOutcome(resource, wrapped, rollbackFailure);
      assert EndsWith(Text(r), Text(c)) by {
        assert EndsWith(Text(r), Text(wrapped));
      }
      assert Text(c) <= Text(r)[|Text(r)| - |Text(c)|..];
      Some(r)
  }

  // ---------------------------------------------------------------------------
  // Transactions
  // ---------------------------------------------------------------------------

  /** The isolation levels of database/sql. */
  datatype Isolation =
    | LevelDefault | LevelReadUncommitted | LevelReadCommitted | LevelWriteCommitted
    | LevelRepeatableRead | LevelSnapshot | LevelSerializable | LevelLinearizable

  datatype TxStatus = Active | Committed | RolledBack

  /** A request the code made of the driver's transaction. */
  datatype TxCall = CommitCall | RollbackCall

  /** A driver transaction. What the driver answers to a commit or a rollback
      is fixed when the transaction begins; the transaction remembers every
      request made of it. */
  class Tx {
    const isolation: Isolation
    const commitFailure: Option<Error>
    const rollbackFailure: Option<Error>
    var status: TxStatus
    var calls: seq<TxCall>

    constructor Begin(isolation: Isolation, commitFailure: Option<Error>, rollbackFailure: Option<Error>)
      ensures this.isolation == isolation
      ensures this.commitFailure == commitFailure && this.rollbackFailure == rollbackFailure
      ensures status == Active && calls == []
    {
      this.isolation := isolation;
      this.commitFailure := commitFailure;
      this.rollbackFailure := rollbackFailure;
      status := Active;
      calls := [];
    }

    /** The driver's commit. */
    method Commit() returns (err: Option<Error>)
      modifies this
      ensures err == commitFailure
      ensures calls == old(calls) + [CommitCall]
      ensures status == if err.None? then Committed else old(status)
    {
      err := commitFailure;
      calls := calls + [CommitCall];
      if err.None? {
        status := Committed;
      }
    }

    /** The driver's rollback. */
    method Rollback() returns (err: Option<Error>)
      modifies this
      ensures err == rollbackFailure
      ensures calls == old(calls) + [RollbackCall]
      ensures status == if err.None? then RolledBack else old(status)
    {
      err := rollbackFailure;
      calls := calls + [RollbackCall];
      if err.None? {
        status := RolledBack;
      }
    }
  }

  /** A connection pool, given by what the driver answers when a transaction
      is begun on it and, for a transaction it begins, to its commit and
      rollback. */
  datatype DB = DB(beginFailure: Option<Error>, commitFailure: Option<Error>, rollbackFailure: Option<Error>)

  /** The untyped handle ConditionalTx accepts: a pool, a transaction (which
      may be a nil *sqlx.Tx), or anything else. */
  datatype Handle = DBHandle(db: DB) | TxHandle(tx: Tx?) | OtherHandle

  const InvalidDbType := Leaf("invalid db type used")

  /** The error ConditionalTx reports for a handle. */
  function AcquireError(h: Handle): Option<Error>
  {
    match h
    case DBHandle(db) => db.beginFailure
    case TxHandle(_) => None
    case OtherHandle => Some(InvalidDbType)
  }

  /** NewTx: begin a transaction on the pool at the default isolation level. */
  method NewTx(db: DB) returns (tx: Tx?, err: Option<Error>)
    ensures err == db.beginFailure
    ensures err.Some? ==> tx == null
    ensures err.None? ==>
      && tx != null && fresh(tx)
      && tx.isolation == LevelDefault && tx.status == Active && tx.calls == []
      && tx.commitFailure == db.commitFailure && tx.rollbackFailure == db.rollbackFailure
  {
    if db.beginFailure.Some? {
      return null, db.beginFailure;
    }
    tx := new Tx.Begin(LevelDefault, db.commitFailure, db.rollbackFailure);
    err := None;
  }

  /** ConditionalTx: a transaction handle passes through unchanged (a nil
      one too, with no error), a pool gets a new transaction, anything else
      is refused. */
  method ConditionalTx(h: Handle) returns (tx: Tx?, err: Option<Error>)
    ensures err == AcquireError(h)
    ensures err.Some? ==> tx == null
    ensures err.None? && tx == null <==> h.TxHandle? && h.tx == null
    ensures h.TxHandle? ==> tx == h.tx
    ensures h.OtherHandle? ==> err == Some(InvalidDbType)
    ensures h.DBHandle? && err.None? ==>
      && fresh(tx) && tx.isolation == LevelDefault && tx.status == Active && tx.calls == []
  {
    match h
    case DBHandle(db) =>
      tx, err := NewTx(db);
      if err.Some? {
        return null, err;
      }
    case TxHandle(t) =>
      return t, None;
    case OtherHandle =>
      return null, Some(InvalidDbType);
  }

  /** Commit: commit the transaction; when that fails, roll it back and
      report both. */
  method Commit(tx: Tx, resource: string) returns (err: Option<Error>)
    modifies tx
    ensures err == CommitOutcome(resource, tx.commitFailure, tx.rollbackFailure)
    ensures tx.calls == old(tx.calls) + if tx.commitFailure.None? then [CommitCall] else [CommitCall, RollbackCall]
    ensures tx.status == if tx.commitFailure.None? then Committed
                         else if tx.rollbackFailure.None? then RolledBack
                         else old(tx.status)
  {
    var commitErr := tx.Commit();
    if commitErr.Some? {
      var r := Rollback(tx, resource, Err(resource, commitErr.value));
      return Some(r);
    }
    return None;
  }

  /** Rollback: roll the transaction back, keeping the prior error and
      chaining a rollback failure onto it. */
  method Rollback(tx: Tx, resource: string, err: Error) returns (r: Error)
    modifies tx
    ensures r == RollbackOutcome(resource, err, tx.rollbackFailure)
    ensures tx.calls == old(tx.calls) + [RollbackCall]
    ensures tx.status == if tx.rollbackFailure.None? then RolledBack else old(tx.status)
  {
    var rollbackErr := tx.Rollback();
    if rollbackErr.Some? {
      return Wrap(Text(Err(resource, rollbackErr.value)), err);
    }
    return err;
  }

  // ---------------------------------------------------------------------------
  // Cursor names
  // ---------------------------------------------------------------------------

  const CursorPrefix := "streamer_cursor_"

  /** strings.ReplaceAll(s, "-", "_"). */
  function ReplaceDashes(s: string): (r: string)
    ensures |r| == |s|
    ensures forall i :: 0 <= i < |s| ==> r[i] == if s[i] == '-' then '_' else s[i]
    ensures '-' !in r
  {
    if s == [] then []
    else [if s[0] == '-' then '_' else s[0]] + ReplaceDashes(s[1..])
  }

  /** CursorNameGenerator, given the textual UUID it draws as `token`. */
  function CursorNameGenerator(token: string): (name: string)
    ensures CursorPrefix <= name
    ensures '-' !in name
    ensures |name| == |CursorPrefix| + |token|
    ensures forall i :: 0 <= i < |token| ==>
      name[|CursorPrefix| + i] == if token[i] == '-' then '_' else token[i]
  {
    assert '-' !in CursorPrefix;
    CursorPrefix + ReplaceDashes(token)
  }

  // ---------------------------------------------------------------------------
  // Result sizes
  // ---------------------------------------------------------------------------

  /** The shapes of value LengthOf tells apart: nil, a slice of some length,
      a pointer (a nil pointer points at Nil), anything else. */
  datatype Value = Nil | Slice(length: nat) | Pointer(elem: Value) | Other

  /** LengthOf: the length of a slice, seen through at most one pointer;
      zero for anything else. */
  function LengthOf(item: Value): (n: nat)
    ensures item.Slice? ==> n == item.length
    ensures item.Pointer? && item.elem.Slice? ==> n == item.elem.length
    ensures n > 0 ==> item == Slice(n) || item == Pointer(Slice(n))
  {
    var v := if item.Pointer? then item.elem else item;
    if v.Slice? then v.length else 0
  }
}
