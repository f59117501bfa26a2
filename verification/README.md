# sqlxstreamer, modelled in Dafny

sqlxstreamer streams the result of a SQL query in fixed-size batches. It uses a
named server-side cursor inside a transaction. A `Streamer` is configured
through chained setters (`Query`, `Args`, `BatchSize`, `CursorName`,
`EachBatch`). `Do` then works in four steps:

- it turns the handle it is given into a transaction (`ConditionalTx`);
- it issues `DECLARE <name> CURSOR FOR <query>` once;
- it loops: check the context, ask the caller's callback for a destination
  and a completion function, issue `FETCH <size> FROM <name>;`, measure the
  batch with `LengthOf`, then decide whether to stop;
- it returns the first error it meets, or nil.

The helpers commit or roll back a transaction with composed errors, and build
the default cursor name from a UUID.

The model has four files:

- `wrappers.dfy`: `Option`, for Go's nil-able errors and pointers.
- `helpers.dfy` (module `Helpers`): error values with their pkg/errors text
  (`Error`, `Text`, `Root`) and `Err`. A driver transaction (`Tx`, a class with
  a status and a log of commit and rollback requests) and `NewTx`,
  `ConditionalTx`, `Commit`, `Rollback`. `CursorNameGenerator` over the UUID
  text, given as an input. `LengthOf` over a small sum type of values.
- `streamer.dfy` (module `BatchStream`): the `Streamer` class with its
  constructor, setters and `Do`. `Do` acquires the transaction and declares
  the cursor, then runs its loop, kept in the method `FetchBatches`. The loop
  carries invariants and is proved equal to the specification function
  `Iterate`; `Do` as a whole is proved equal to `Execute`. The
  database is an `Oracle` with these parts:
  - the number of rows the query yields;
  - whether the DECLARE fails;
  - the iteration at which a FETCH fails, if any;
  - the iteration from which the context is done, if any.

  Each FETCH hands back min(remaining, size) rows. It fills the caller's
  destination, which becomes a pointer to a slice of that many rows, and
  `LengthOf` measures it. `Do` returns its error and a trace of events:
  `Declare`, `Retrieve` (the callback was asked for a destination), `Fetch`,
  `Complete` (the completion function was called).
- `stream_laws.dfy` (module `StreamLaws`): what the loop promises. Every trace
  follows the callback → fetch → completion protocol. The counting law holds
  for R rows in batches of B. Cancellation, a failing FETCH, a failing
  DECLARE or a failing begin cut a run short as described. One cursor name
  serves the whole run, and the FETCH text reads back as exactly the batch
  size and that name.

Behaviour of the code worth knowing, which the model keeps:

- Nothing checks that the batch size is positive; `Do` requires it instead of
  reporting a configuration error.
- When the query yields no rows, the completion function is still called
  once, for the empty first batch.
- When a commit fails and the rollback succeeds, `Commit` returns the commit
  error wrapped with `error in table: <resource>`, not the bare commit error
  (`CommitOutcome`).
- `Do` never commits or rolls back. When it is given a pool, the transaction
  it begins there is neither committed nor handed back to the caller.
- A failing DECLARE is returned wrapped with `error declaring cursor`, and
  nothing is rolled back.

## Model

| member | source | states |
|---|---|---|
| `Helpers.Err` | helpers.go:51-53 | The result wraps the given error as its cause, keeps its root, starts with `error in table: <name>` and ends with the cause's text |
| `Helpers.RollbackOutcome` | helpers.go:44-49 | A successful rollback returns the prior error unchanged; a failed one returns the prior error as cause (same root, text ending with it), wrapped with a message that starts with the table context and contains the rollback failure's text |
| `Helpers.CommitOutcome` | helpers.go:35-41 | No error if and only if the commit succeeds; otherwise the result keeps the commit error as root and contains its text, equals `Err(resource, commitErr)` when the rollback succeeds, and when both fail wraps `Err(resource, commitErr)` as its cause and contains the rollback failure's text |
| `Helpers.Tx.Begin` | helpers.go:30 | A begun transaction is active, has had no requests, and has the isolation level it was asked for |
| `Helpers.Tx.Commit` | helpers.go:36 | The driver's commit answers with its failure, logs one commit request, and marks the transaction committed only on success |
| `Helpers.Tx.Rollback` | helpers.go:45 | The driver's rollback answers with its failure, logs one rollback request, and marks the transaction rolled back only on success |
| `Helpers.NewTx` | helpers.go:29-31 | A failed begin returns nil and the begin error; otherwise a fresh, active transaction at the default isolation level |
| `Helpers.ConditionalTx` | helpers.go:15-27 | A transaction handle is returned unchanged with no error; a pool gets a fresh transaction at the default isolation level, or nil and the begin error; any other handle gets nil and `invalid db type used`; an error always comes with nil, and nil comes with no error exactly for a nil `*sqlx.Tx` handle |
| `Helpers.Commit` | helpers.go:35-41 | Returns `CommitOutcome`; a successful commit makes no rollback request, a failed one makes exactly one, after the commit |
| `Helpers.Rollback` | helpers.go:44-49 | Returns `RollbackOutcome` for the prior error and makes exactly one rollback request |
| `Helpers.ReplaceDashes` | helpers.go:56 | Same length; every `-` becomes `_` and every other character stays in place |
| `Helpers.CursorNameGenerator` | helpers.go:55-57 | The name starts with `streamer_cursor_`, contains no `-`, is 16 characters longer than the token, and keeps every other character of the token in place |
| `Helpers.LengthOf` | helpers.go:59-70 | The length of a slice or of a pointer to a slice; a positive result only for those two shapes, so nil, non-slices and pointers to pointers give 0; never negative |
| `BatchStream.NameFor` | streamer.go:67 | A name fixed by the `CursorName` setter comes back whatever the token; a generated name has the cursor prefix and no `-` |
| `BatchStream.Decimal` | streamer.go:82 | The `%d` rendering of the batch size is a non-empty run of digits |
| `BatchStream.Streamer.New` | streamer.go:24-26 | Batch size 2000, the default name generator, no callback, empty query and no arguments |
| `BatchStream.Streamer.Args` | streamer.go:29-32 | Sets the arguments, leaves every other field unchanged, returns the same Streamer |
| `BatchStream.Streamer.BatchSize` | streamer.go:35-38 | Sets the batch size, leaves every other field unchanged, returns the same Streamer |
| `BatchStream.Streamer.CursorName` | streamer.go:41-46 | Installs a fixed name that the generator then returns for every token; other fields unchanged; returns the same Streamer |
| `BatchStream.Streamer.EachBatch` | streamer.go:49-52 | Sets the callback, leaves every other field unchanged, returns the same Streamer |
| `BatchStream.Streamer.Query` | streamer.go:55-58 | Sets the query, leaves every other field unchanged, returns the same Streamer |
| `BatchStream.DeclareSql` | streamer.go:68 | The DECLARE text is `DECLARE `, then the cursor name, then ` CURSOR FOR `, then the query, and nothing else |
| `BatchStream.FetchSql` | streamer.go:82 | The FETCH text starts with `FETCH ` and ends with ` FROM <name>;`; `FetchSqlRoundTrip` pins the number between them to the batch size |
| `BatchStream.Iterate` | streamer.go:73-105 | The loop from iteration idx produces no event exactly when the context is already done at idx, and it ends in an error only when the context is cancelled or a FETCH fails |
| `BatchStream.Execute` | streamer.go:61-106 | A failed acquire gives its error and no events; otherwise the run opens with the DECLARE of the name and query. An error comes only from the acquire, the DECLARE, a cancellation or a failing FETCH |
| `BatchStream.FetchBatches` | streamer.go:74-104 | The loop's returned error and trace are exactly those of `Iterate` from the first iteration with all rows remaining, after the events so far: the cancellation check, the callback, the FETCH and its error, `LengthOf`, the two termination rules and the completion call |
| `BatchStream.Streamer.Do` | streamer.go:61-106 | The returned error and the trace are exactly those of `Execute`: acquire, one DECLARE with the generated name, then the fetch loop |
| `StreamLaws.IterateFollowsProtocol` | streamer.go:74-104 | Each iteration is callback, then FETCH, then either the end of the run or a completion. A completion has at most `size` rows and is non-empty or the first. A short batch ends the run |
| `StreamLaws.ProtocolEvents` | streamer.go:82-101 | In a protocol trace there is no DECLARE, every FETCH issues the same statement, and no completion exceeds the batch size |
| `StreamLaws.ChunksSum` | streamer.go:95-104 | The batches of R rows by B sum to R |
| `StreamLaws.ChunksCount` | streamer.go:95-104 | There are ceil(R/B) batches of R rows by B |
| `StreamLaws.ChunksBounds` | streamer.go:95-104 | Each batch holds 1 to B rows, and all but the last are full |
| `StreamLaws.FetchCountIsQuotient` | streamer.go:82-99 | A failure-free loop over `remaining` rows issues remaining div size + 1 FETCHes |
| `StreamLaws.IterateCounts` | streamer.go:74-104 | With no failure and no cancellation, the loop from any iteration ends without error. Its FETCHes are counted by `FetchCount`, and its completions are `Chunks`, or `[0]` for an empty first batch |
| `StreamLaws.IterateEndsOnEmptyFetch` | streamer.go:95-99 | When the remaining rows are a multiple of the size, and the loop is not at its first iteration with zero rows, the run ends on the FETCH of iteration idx + remaining div size, with no completion after it |
| `StreamLaws.LoopCounts` | streamer.go:74-104 | From the first iteration with no failure: no error, R div B + 1 FETCHes, the completions `Chunks(R, B)` or `[0]`, and an empty final FETCH when B divides a positive R |
| `StreamLaws.CountingLaw` | streamer.go:95-104 | For R rows and B > 0 with no errors: nil after R div B + 1 fetches and max(1, ceil(R/B)) completions delivering all R rows. When R is a positive multiple of B, the last event is an empty FETCH with no completion |
| `StreamLaws.CompletionArithmetic` | streamer.go:97-103 | The completion list has max(1, ceil(R/B)) entries summing to R, one fewer than R div B + 1 when B divides a positive R |
| `StreamLaws.Example4500` | streamer.go:95-104 | 4500 rows in batches of 2000: completions for 2000, 2000 and 500, three fetches, no error |
| `StreamLaws.CancellationTruncates` | streamer.go:74-80 | Cancellation from iteration c gives the uncancelled run cut just before iteration c: no callback or FETCH of iteration c or later. The error is `ctx.Err()` whenever the uncancelled run reached c; otherwise that run is unchanged |
| `StreamLaws.FetchFailureTruncates` | streamer.go:90-94 | A FETCH failing at iteration k gives the failure-free run up to k, then that iteration's callback and FETCH, with no completion and the FETCH's error. A run that never reaches k is unchanged |
| `StreamLaws.EarlyFailures` | streamer.go:62-71 | A failed acquire returns its error with no events. A failed DECLARE returns it wrapped with `error declaring cursor`, after the DECLARE alone, before any callback or FETCH |
| `StreamLaws.DecimalRoundTrip` | streamer.go:82 | Reading the `%d` text of the batch size back gives the batch size |
| `StreamLaws.ParseFetchOf` | streamer.go:82 | Any `FETCH <digits> FROM <name>;` text reads back as the number those digits denote and that name |
| `StreamLaws.FetchSqlRoundTrip` | streamer.go:82 | `FETCH <size> FROM <name>;` reads back as exactly that size and that cursor name |
| `StreamLaws.LoopUsesOneCursor` | streamer.go:74-104 | The loop issues no DECLARE, and every FETCH in it reads back as the batch size and the cursor name |
| `StreamLaws.CursorNameOnce` | streamer.go:67-82 | A run's first event is the single DECLARE of the name. No other DECLARE follows, and every FETCH reads back as the configured batch size from that same name |

## Left out

- SQL execution (`ExecContext`, `SelectContext`, `Rebind`, `BeginTxx`) is foreign driver code. The `Oracle` stands in for it, with the pool's begin, commit and rollback answers. Placeholder rebinding and the query's argument values are carried along but not interpreted.
- `context.Context` is reduced to a per-iteration "done" flag (`cancelledFrom`) and the error `ctx.Err()` returns. The context passed to the begin, the DECLARE and the FETCH is not modelled; the oracle's failures stand in for its effect there.
- Helpers.CursorNameGenerator: does not state that names are unique across calls, because the UUID is random and foreign. The UUID text is an input (`token`), and only the deterministic rewrite is modelled.
- `reflect` is reduced to the value shapes `LengthOf` tells apart (nil, slice, pointer, other).
- The destination the callback supplies is modelled as a pointer to a slice that the FETCH fills with the batch. A destination sqlx would reject, and sqlx appending to an already non-empty slice, are not modelled.
- A callback that does not call `retrieve` (which would panic at streamer.go:101) is not modelled: the callback always supplies both a destination and a completion function. A callback that reconfigures the Streamer while `Do` runs is not modelled either.
- BatchStream.Streamer.Do: requires a positive batch size, a set callback, and a handle that is not a nil `*sqlx.Tx`. The code never checks the size; a nil callback panics at streamer.go:90; a nil transaction passes `ConditionalTx` without error and then panics when the DECLARE is rebound and executed at streamer.go:69.
- Helpers.ConditionalTx: a nil `*sqlx.DB` is not modelled (a pool is a value here); `BeginTxx` dereferences it and panics. A nil `*sqlx.Tx` is modelled and comes back as (nil, nil).
- Helpers.Rollback: the prior error is never nil in the model. What pkg/errors' `Wrap` does with a nil error is library behaviour outside this model.
- Error values keep only their messages and wrap chain, not pkg/errors' stack traces or formatting verbs.
- A driver transaction answers every commit or rollback with a failure fixed when it begins. A real driver's "transaction already done" answer to a second request is not modelled.
- Concurrency: executions are sequential; overlapping uses of one transaction are not modelled.
