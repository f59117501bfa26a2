/**
  Model of streamer.go: the Streamer builder and its batch-cursor loop Do.

  The database behind the transaction is an Oracle: the query yields `rows`
  rows, and each FETCH hands back the next min(remaining, size) of them. The
  oracle also says whether the DECLARE fails, at which iteration (if any) a
  FETCH fails, and from which iteration on the context is done. Do reports
  what it did as a trace of events and returns the error it ends with.
 */
module BatchStream {
  import opened Wrappers
  import opened Helpers

  const DefaultBatchSize := 2000

  /** A positional query argument; the model only carries it along. */
  datatype Arg = Arg(text: string)

  /** The caller's per-batch function (type Fn), known only by a tag. */
  datatype BatchFn = BatchFn(tag: nat)

  /** Where the cursor name comes from: the default generator, or the
      closure the CursorName setter installs. */
  datatype NameSource = Generated | Fixed(name: string)

  /** The name the source yields when called; `token` is the UUID text the
      default generator would draw. */
  function NameFor(src: NameSource, token: string): (name: string)
    ensures src.Fixed? ==> name == src.name
    ensures src.Generated? ==> CursorPrefix <= name && '-' !in name
  {
    match src
    case Generated => CursorNameGenerator(token)
    case Fixed(n) => n
  }

  // ---------------------------------------------------------------------------
  // SQL text
  // ---------------------------------------------------------------------------

  predicate IsDigit(c: char)
  {
    '0' <= c <= '9'
  }

  predicate AllDigits(s: string)
  {
    forall i :: 0 <= i < |s| ==> IsDigit(s[i])
  }

  function DigitChar(d: nat): (c: char)
    requires d < 10
    ensures IsDigit(c) && c as int - '0' as int == d
  {
    ('0' as int + d) as char
  }

  /** The %d rendering of a natural number. */
  function Decimal(n: nat): (s: string)
    ensures s != [] && AllDigits(s)
    decreases n
  {
    if n < 10 then [DigitChar(n)]
    else Decimal(n / 10) + [DigitChar(n % 10)]
  }

  /** Reads a run of decimal digits back as a number. */
  function ParseDecimal(s: string): nat
    requires AllDigits(s)
    decreases |s|
  {
    if s == [] then 0
    else 10 * ParseDecimal(s[..|s| - 1]) + (s[|s| - 1] as int - '0' as int)
  }

  const DeclareKeyword := "DECLARE "
  const CursorForKeyword := " CURSOR FOR "
  const FetchKeyword := "FETCH "
  const FromKeyword := " FROM "
  const DeclareContext := "error declaring cursor"

  /** `DECLARE <name> CURSOR FOR <query>`. */
  function DeclareSql(name: string, query: string): (s: string)
    ensures |s| == |DeclareKeyword| + |name| + |CursorForKeyword| + |query|
    ensures DeclareKeyword <= s
    ensures s[|DeclareKeyword|..|DeclareKeyword| + |name|] == name
    ensures s[|DeclareKeyword| + |name|..|s| - |query|] == CursorForKeyword
    ensures s[|s| - |query|..] == query
  {
    DeclareKeyword + name + CursorForKeyword + query
  }

  /** `FETCH <size> FROM <name>;`. */
  function FetchSql(size: nat, name: string): (s: string)
    ensures |s| > |FetchKeyword| + |FromKeyword| + |name| + 1
    ensures FetchKeyword <= s
    ensures AllDigits(s[|FetchKeyword|..|s| - |FromKeyword| - |name| - 1])
    ensures s[|s| - |FromKeyword| - |name| - 1..] == FromKeyword + name + ";"
  {
    FetchKeyword + Decimal(size) + FromKeyword + name + ";"
  }

  /** A FETCH statement read back: how many rows, from which cursor. */
  datatype FetchCmd = FetchCmd(count: nat, cursor: string)

  /** Length of the run of digits that starts `s`. */
  function DigitRun(s: string): (k: nat)
    ensures k <= |s| && AllDigits(s[..k])
    ensures k < |s| ==> !IsDigit(s[k])
    decreases |s|
  {
    if s == [] || !IsDigit(s[0]) then 0
    else
      var k := 1 + DigitRun(s[1..]);
      assert s[..k] == [s[0]] + s[1..][..k - 1];
      k
  }

  function ParseFetch(sql: string): Option<FetchCmd>
  {
    if !(FetchKeyword <= sql) then None
    else
      var body := sql[|FetchKeyword|..];
      var k := DigitRun(body);
      var tail := body[k..];
      if k == 0 || |tail| < |FromKeyword| + 1 || !(FromKeyword <= tail) || tail[|tail| - 1] != ';' then None
      else Some(FetchCmd(ParseDecimal(body[..k]), tail[|FromKeyword|..|tail| - 1]))
  }

  // ---------------------------------------------------------------------------
  // The database oracle and the observable trace
  // ---------------------------------------------------------------------------

  /** A FETCH that fails at iteration `at` with `err`. */
  datatype FetchFailure = FetchFailure(at: nat, err: Error)

  datatype Oracle = Oracle(
    rows: nat,                          // rows the declared query yields
    declareFailure: Option<Error>,      // what ExecContext answers to DECLARE
    fetchFailure: Option<FetchFailure>, // a FETCH that SelectContext fails
    cancelledFrom: Option<nat>,         // ctx.Done() is closed from this iteration on
    ctxErr: Error)                      // what ctx.Err() returns then

  /** What Do did, in order: declare the cursor, ask the caller for a
      destination (Retrieve), fetch into it, call the completion function
      the caller supplied (Complete, with the batch's size). */
  datatype Event =
    | Declare(sql: string, args: seq<Arg>)
    | Retrieve(idx: nat)
    | Fetch(idx: nat, sql: string)
    | Complete(idx: nat, rows: nat)

  function IterationOf(e: Event): nat
  {
    if e.Declare? then 0 else e.idx
  }

  /** The error Do returns and the events it produced. */
  datatype Run = Run(err: Option<Error>, events: seq<Event>)

  function Prepend(events: seq<Event>, r: Run): Run
  {
    Run(r.err, events + r.events)
  }

  predicate Cancelled(o: Oracle, idx: nat)
  {
    o.cancelledFrom.Some? && o.cancelledFrom.value <= idx
  }

  function FetchError(o: Oracle, idx: nat): Option<Error>
  {
    if o.fetchFailure.Some? && o.fetchFailure.value.at == idx then Some(o.fetchFailure.value.err) else None
  }

  /** The caller's destination once a FETCH has filled it: a pointer to a
      slice holding the rows the cursor still had, at most `size` of them. */
  function Fetched(remaining: nat, size: nat): Value
  {
    Pointer(Slice(if remaining < size then remaining else size))
  }

  /** The shape every trace of the loop has, from iteration `idx` on: each
      iteration is Retrieve, then Fetch of the same statement, then either
      the end of the run or a completion; a completion is for a batch of at
      most `size` rows that is non-empty or the first; a short batch ends the
      run. */
  predicate Protocol(events: seq<Event>, sql: string, size: nat, idx: nat)
    decreases |events|
  {
    || events == []
    || (&& |events| >= 2
        && events[0] == Retrieve(idx)
        && events[1] == Fetch(idx, sql)
        && (|events| == 2
            || (&& events[2].Complete?
                && events[2].idx == idx
                && events[2].rows <= size
                && (events[2].rows > 0 || idx == 1)
                && (events[2].rows < size ==> |events| == 3)
                && Protocol(events[3..], sql, size, idx + 1))))
  }

  /** The loop of Do from iteration `idx` on, with `remaining` rows left in
      the cursor: each FETCH brings back min(remaining, size) rows. */
  function Iterate(o: Oracle, size: nat, sql: string, idx: nat, remaining: nat): (r: Run)
    requires size > 0 && idx >= 1
    ensures r.events == [] <==> Cancelled(o, idx)
    ensures r.err.Some? ==> o.cancelledFrom.Some? || o.fetchFailure.Some?
    decreases remaining
  {
    if Cancelled(o, idx) then Run(Some(o.ctxErr), [])
    else if FetchError(o, idx).Some? then Run(FetchError(o, idx), [Retrieve(idx), Fetch(idx, sql)])
    else if remaining == 0 && idx > 1 then Run(None, [Retrieve(idx), Fetch(idx, sql)])
    else if remaining < size then Run(None, [Retrieve(idx), Fetch(idx, sql), Complete(idx, remaining)])
    else Prepend([Retrieve(idx), Fetch(idx, sql), Complete(idx, size)], Iterate(o, size, sql, idx + 1, remaining - size))
  }

  /** An iteration the context or a failing FETCH interrupts ends the run. */
  lemma IterateInterrupted(o: Oracle, size: nat, sql: string, idx: nat, remaining: nat)
    requires size > 0 && idx >= 1 && (Cancelled(o, idx) || FetchError(o, idx).Some?)
    ensures Iterate(o, size, sql, idx, remaining)
         == if Cancelled(o, idx) then Run(Some(o.ctxErr), [])
            else Run(FetchError(o, idx), [Retrieve(idx), Fetch(idx, sql)])
  {
  }

  /** One iteration of the loop that hands over a full batch and goes on. */
  lemma IterateContinues(o: Oracle, size: nat, sql: string, idx: nat, remaining: nat)
    requires size > 0 && idx >= 1 && !Cancelled(o, idx) && FetchError(o, idx).None? && remaining >= size
    ensures Iterate(o, size, sql, idx, remaining)
         == Prepend([Retrieve(idx), Fetch(idx, sql), Complete(idx, size)], Iterate(o, size, sql, idx + 1, remaining - size))
  {
  }

  /** One iteration of the loop whose batch is short: the run ends there,
      with a completion unless the batch is empty and not the first. */
  lemma IterateStops(o: Oracle, size: nat, sql: string, idx: nat, remaining: nat)
    requires size > 0 && idx >= 1 && !Cancelled(o, idx) && FetchError(o, idx).None? && remaining < size
    ensures Iterate(o, size, sql, idx, remaining)
         == Run(None, if remaining == 0 && idx > 1 then [Retrieve(idx), Fetch(idx, sql)]
                      else [Retrieve(idx), Fetch(idx, sql), Complete(idx, remaining)])
  {
  }

  /** All of Do: the outcome of acquiring the transaction, the DECLARE, then
      the loop from its first iteration. */
  function Execute(acquired: Option<Error>, name: string, query: string, args: seq<Arg>, size: nat, o: Oracle): (r: Run)
    requires size > 0
    ensures acquired.Some? ==> r.err == acquired && r.events == []
    ensures acquired.None? ==> r.events != [] && r.events[0] == Declare(DeclareSql(name, query), args)
    ensures r.err.Some? ==>
      acquired.Some? || o.declareFailure.Some? || o.cancelledFrom.Some? || o.fetchFailure.Some?
  {
    if acquired.Some? then Run(acquired, [])
    else
      var declare := [Declare(DeclareSql(name, query), args)];
      if o.declareFailure.Some? then Run(Some(Wrap(DeclareContext, o.declareFailure.value)), declare)
      else Prepend(declare, Iterate(o, size, FetchSql(size, name), 1, o.rows))
  }

  /** The fetch loop of Do, after the DECLARE: `declared` is the trace so
      far. Each iteration checks the context, asks for a destination,
      fetches into it and hands the batch over; a short batch ends it. */
  method FetchBatches(o: Oracle, size: nat, cursorName: string, declared: seq<Event>)
    returns (err: Option<Error>, trace: seq<Event>)
    requires size > 0
    ensures Run(err, trace) == Prepend(declared, Iterate(o, size, FetchSql(size, cursorName), 1, o.rows))
  {
    ghost var sql := FetchSql(size, cursorName);
    ghost var whole := Prepend(declared, Iterate(o, size, sql, 1, o.rows));
    trace := declared;
    var idx := 0;
    var remaining: nat := o.rows;
    while true
      invariant whole == Prepend(trace, Iterate(o, size, sql, idx + 1, remaining))
      decreases remaining
    {
      idx := idx + 1;
      if Cancelled(o, idx) {
        IterateInterrupted(o, size, sql, idx, remaining);
        return Some(o.ctxErr), trace;
      }

      var fetch := FetchSql(size, cursorName);
      assert fetch == sql;
      ghost var before := trace;
      trace := trace + [Retrieve(idx), Fetch(idx, fetch)];
      var fetchErr := FetchError(o, idx);
      if fetchErr.Some? {
        IterateInterrupted(o, size, sql, idx, remaining);
        return fetchErr, trace;
      }
      var data := Fetched(remaining, size);
      var resultSize := LengthOf(data);
      assert resultSize == if remaining < size then remaining else size;

      if resultSize == 0 && idx > 1 {
        IterateStops(o, size, sql, idx, remaining);
        return None, trace;
      }

      trace := trace + [Complete(idx, resultSize)];
      if resultSize < size {
        IterateStops(o, size, sql, idx, remaining);
        return None, trace;
      }
      IterateContinues(o, size, sql, idx, remaining);
      assert trace == before + [Retrieve(idx), Fetch(idx, sql), Complete(idx, size)];
      remaining := remaining - resultSize;
    }
  }

  // ---------------------------------------------------------------------------
  // The Streamer
  // ---------------------------------------------------------------------------

  class Streamer {
    var fn: Option<BatchFn>
    var size: int
    var query: string
    var args: seq<Arg>
    var cursorNameGenerator: NameSource

    /** New: batch size 2000, the default generator, everything else empty. */
    constructor New()
      ensures size == DefaultBatchSize && cursorNameGenerator == Generated
      ensures fn == None && query == "" && args == []
    {
      fn := None;
      size := DefaultBatchSize;
      query := "";
      args := [];
      cursorNameGenerator := Generated;
    }

    method Args(a: seq<Arg>) returns (s: Streamer)
      modifies this
      ensures s == this && args == a
      ensures fn == old(fn) && size == old(size) && query == old(query)
      ensures cursorNameGenerator == old(cursorNameGenerator)
    {
      args := a;
      return this;
    }

    method BatchSize(n: int) returns (s: Streamer)
      modifies this
      ensures s == this && size == n
      ensures fn == old(fn) && query == old(query) && args == old(args)
      ensures cursorNameGenerator == old(cursorNameGenerator)
    {
      size := n;
      return this;
    }

    method CursorName(name: string) returns (s: Streamer)
      modifies this
      ensures s == this && cursorNameGenerator == Fixed(name)
      ensures forall token :: NameFor(cursorNameGenerator, token) == name
      ensures fn == old(fn) && size == old(size) && query == old(query) && args == old(args)
    {
      cursorNameGenerator := Fixed(name);
      return this;
    }

    method EachBatch(f: BatchFn) returns (s: Streamer)
      modifies this
      ensures s == this && fn == Some(f)
      ensures size == old(size) && query == old(query) && args == old(args)
      ensures cursorNameGenerator == old(cursorNameGenerator)
    {
      fn := Some(f);
      return this;
    }

    method Query(q: string) returns (s: Streamer)
      modifies this
      ensures s == this && query == q
      ensures fn == old(fn) && size == old(size) && args == old(args)
      ensures cursorNameGenerator == old(cursorNameGenerator)
    {
      query := q;
      return this;
    }

    /** Do: stream the query through a cursor, `size` rows per FETCH. */
    method Do(o: Oracle, db: Handle, token: string) returns (err: Option<Error>, trace: seq<Event>)
      requires fn.Some? && size > 0
      requires !(db.TxHandle? && db.tx == null)
      ensures Run(err, trace) == Execute(AcquireError(db), NameFor(cursorNameGenerator, token), query, args, size, o)
    {
      var tx, txErr := ConditionalTx(db);
      if txErr.Some? {
        return txErr, [];
      }

      var cursorName := NameFor(cursorNameGenerator, token);
      trace := [Declare(DeclareSql(cursorName, query), args)];
      if o.declareFailure.Some? {
        return Some(Wrap(DeclareContext, o.declareFailure.value)), trace;
      }

      err, trace := FetchBatches(o, size, cursorName, trace);
    }
  }
}
