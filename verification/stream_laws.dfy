/**
  What the loop of Do promises: the shape of every trace, the number of
  fetches and completions when nothing fails, and how a cancellation, a
  failing FETCH or a failing DECLARE cut a run short.
 */
module StreamLaws {
  import opened Wrappers
  import opened Helpers
  import opened BatchStream

  // ---------------------------------------------------------------------------
  // Counting events
  // ---------------------------------------------------------------------------

  /** How many FETCH statements a trace issues. */
  function Fetches(events: seq<Event>): nat
  {
    if events == [] then 0
    else (if events[0].Fetch? then 1 else 0) + Fetches(events[1..])
  }

  /** The sizes of the batches handed to completion functions, in order. */
  function Completions(events: seq<Event>): seq<nat>
  {
    if events == [] then []
    else (if events[0].Complete? then [events[0].rows] else []) + Completions(events[1..])
  }

  lemma CountsAppend(a: seq<Event>, b: seq<Event>)
    ensures Fetches(a + b) == Fetches(a) + Fetches(b)
    ensures Completions(a + b) == Completions(a) + Completions(b)
  {
    FetchesAppend(a, b);
    CompletionsAppend(a, b);
  }

  lemma {:induction false} FetchesAppend(a: seq<Event>, b: seq<Event>)
    ensures Fetches(a + b) == Fetches(a) + Fetches(b)
  {
    if a == [] {
      assert a + b == b;
    } else {
      var ab := a + b;
      assert ab[0] == a[0] && ab[1..] == a[1..] + b;
      FetchesAppend(a[1..], b);
    }
  }

  lemma {:induction false} CompletionsAppend(a: seq<Event>, b: seq<Event>)
    ensures Completions(a + b) == Completions(a) + Completions(b)
  {
    if a == [] {
      assert a + b == b;
    } else {
      var ab := a + b;
      var head := if a[0].Complete? then [a[0].rows] else [];
      assert ab[0] == a[0] && ab[1..] == a[1..] + b;
      CompletionsAppend(a[1..], b);
      assert Completions(ab) == head + (Completions(a[1..]) + Completions(b));
      assert head + (Completions(a[1..]) + Completions(b)) == (head + Completions(a[1..])) + Completions(b);
    }
  }

  lemma MulAtLeast(m: int, d: int)
    requires m >= 1 && d > 0
    ensures m * d >= d
  {
  }

  /** Euclidean division is determined by its quotient and remainder. */
  lemma DivUnique(y: int, d: int, k: int, r: int)
    requires d > 0 && 0 <= r < d && y == k * d + r
    ensures y / d == k && y % d == r
  {
    var q, s := y / d, y % d;
    assert y == q * d + s;
    assert (k - q) * d == s - r;
    if k - q >= 1 {
      MulAtLeast(k - q, d);
    } else if q - k >= 1 {
      MulAtLeast(q - k, d);
    }
  }

  lemma DivStep(x: nat, d: nat)
    requires d > 0
    ensures (x + d) / d == x / d + 1
    ensures (x + d) % d == x % d
  {
    DivUnique(x + d, d, x / d + 1, x % d);
  }

  function Sum(s: seq<nat>): nat
  {
    if s == [] then 0 else s[0] + Sum(s[1..])
  }

  /** `rows` cut into batches of `size`: full batches, then the remainder if
      there is one. */
  function Chunks(rows: nat, size: nat): seq<nat>
    requires size > 0
    decreases rows
  {
    if rows == 0 then []
    else if rows < size then [rows]
    else [size] + Chunks(rows - size, size)
  }

  /** The batches cover the rows exactly. */
  lemma {:induction false} ChunksSum(rows: nat, size: nat)
    requires size > 0
    ensures Sum(Chunks(rows, size)) == rows
    decreases rows
  {
    if rows >= size {
      ChunksSum(rows - size, size);
      assert Chunks(rows, size)[1..] == Chunks(rows - size, size);
    }
  }

  /** There are ceil(rows / size) batches. */
  lemma {:induction false} ChunksCount(rows: nat, size: nat)
    requires size > 0
    ensures |Chunks(rows, size)| == (rows + size - 1) / size
    decreases rows
  {
    if rows == 0 {
      DivUnique(size - 1, size, 0, size - 1);
    } else if rows < size {
      DivUnique(rows + size - 1, size, 1, rows - 1);
    } else {
      ChunksCount(rows - size, size);
      DivStep(rows - size + size - 1, size);
    }
  }

  /** Each batch is non-empty and at most `size`, and all but the last are
      full. */
  lemma {:induction false} ChunksBounds(rows: nat, size: nat)
    requires size > 0
    ensures forall i :: 0 <= i < |Chunks(rows, size)| ==> 0 < Chunks(rows, size)[i] <= size
    ensures forall i :: 0 <= i < |Chunks(rows, size)| - 1 ==> Chunks(rows, size)[i] == size
    decreases rows
  {
    if rows >= size {
      var c, rest := Chunks(rows, size), Chunks(rows - size, size);
      ChunksBounds(rows - size, size);
      assert forall i :: 1 <= i < |c| ==> c[i] == rest[i - 1];
    }
  }

  // ---------------------------------------------------------------------------
  // The shape of a run
  // ---------------------------------------------------------------------------

  /** Every run of the loop follows the protocol: callback, fetch, then a
      completion only for a non-empty or first batch. */
  lemma {:induction false} IterateFollowsProtocol(o: Oracle, size: nat, sql: string, idx: nat, remaining: nat)
    requires size > 0 && idx >= 1
    ensures Protocol(Iterate(o, size, sql, idx, remaining).events, sql, size, idx)
    decreases remaining
  {
    if !Cancelled(o, idx) && FetchError(o, idx).None? {
      if remaining < size {
        IterateStops(o, size, sql, idx, remaining);
      } else {
        IterateContinues(o, size, sql, idx, remaining);
        var rest := Iterate(o, size, sql, idx + 1, remaining - size);
        IterateFollowsProtocol(o, size, sql, idx + 1, remaining - size);
        assert Iterate(o, size, sql, idx, remaining).events[3..] == rest.events;
      }
    }
  }

  /** What the protocol says of single events: no DECLARE, every FETCH is
      the same statement, iterations start at `idx`. */
  lemma {:induction false} ProtocolEvents(events: seq<Event>, sql: string, size: nat, idx: nat)
    requires Protocol(events, sql, size, idx)
    ensures forall i :: 0 <= i < |events| ==> !events[i].Declare? && events[i].idx >= idx
    ensures forall i :: 0 <= i < |events| && events[i].Fetch? ==> events[i].sql == sql
    ensures forall i :: 0 <= i < |events| && events[i].Complete? ==> events[i].rows <= size
    decreases |events|
  {
    if |events| > 2 {
      ProtocolEvents(events[3..], sql, size, idx + 1);
      forall i | 3 <= i < |events|
        ensures events[i] == events[3..][i - 3]
      {
      }
    }
  }

  // ---------------------------------------------------------------------------
  // Counting law
  // ---------------------------------------------------------------------------

  /** An oracle under which no FETCH fails and the context is never done. */
  predicate Clean(o: Oracle)
  {
    o.fetchFailure.None? && o.cancelledFrom.None?
  }

  /** How many FETCH statements a run with no failure issues. */
  function FetchCount(remaining: nat, size: nat): nat
    requires size > 0
    decreases remaining
  {
    if remaining < size then 1 else 1 + FetchCount(remaining - size, size)
  }

  lemma {:induction false} FetchCountIsQuotient(remaining: nat, size: nat)
    requires size > 0
    ensures FetchCount(remaining, size) == remaining / size + 1
    decreases remaining
  {
    if remaining < size {
      DivUnique(remaining, size, 0, remaining);
    } else {
      FetchCountIsQuotient(remaining - size, size);
      DivStep(remaining - size, size);
    }
  }

  lemma HeadCounts(idx: nat, sql: string)
    ensures Fetches([Retrieve(idx), Fetch(idx, sql)]) == 1
    ensures Completions([Retrieve(idx), Fetch(idx, sql)]) == []
  {
    var head := [Retrieve(idx), Fetch(idx, sql)];
    assert head[1..] == [Fetch(idx, sql)];
    assert head[1..][1..] == [];
    assert Fetches(head[1..]) == 1 + Fetches(head[1..][1..]);
    assert Completions(head[1..]) == Completions(head[1..][1..]);
  }

  lemma LeadCounts(idx: nat, sql: string, n: nat)
    ensures Fetches([Retrieve(idx), Fetch(idx, sql), Complete(idx, n)]) == 1
    ensures Completions([Retrieve(idx), Fetch(idx, sql), Complete(idx, n)]) == [n]
  {
    var head := [Retrieve(idx), Fetch(idx, sql)];
    HeadCounts(idx, sql);
    CountsAppend(head, [Complete(idx, n)]);
    assert [Complete(idx, n)][1..] == [];
    assert head + [Complete(idx, n)] == [Retrieve(idx), Fetch(idx, sql), Complete(idx, n)];
  }

  lemma {:induction false} IterateCounts(o: Oracle, size: nat, sql: string, idx: nat, remaining: nat)
    requires size > 0 && idx >= 1 && Clean(o)
    ensures Iterate(o, size, sql, idx, remaining).err.None?
    ensures Fetches(Iterate(o, size, sql, idx, remaining).events) == FetchCount(remaining, size)
    ensures Completions(Iterate(o, size, sql, idx, remaining).events)
            == if remaining == 0 && idx == 1 then [0] else Chunks(remaining, size)
    decreases remaining
  {
    if remaining < size {
      IterateStops(o, size, sql, idx, remaining);
      HeadCounts(idx, sql);
      LeadCounts(idx, sql, remaining);
    } else {
      var lead := [Retrieve(idx), Fetch(idx, sql), Complete(idx, size)];
      var rest := Iterate(o, size, sql, idx + 1, remaining - size);
      IterateContinues(o, size, sql, idx, remaining);
      IterateCounts(o, size, sql, idx + 1, remaining - size);
      LeadCounts(idx, sql, size);
      CountsAppend(lead, rest.events);
    }
  }

  /** When the rows run out exactly at a batch boundary, the run ends on a
      FETCH that brings nothing back and gets no completion. */
  lemma {:induction false} IterateEndsOnEmptyFetch(o: Oracle, size: nat, sql: string, idx: nat, remaining: nat)
    requires size > 0 && idx >= 1 && Clean(o)
    requires remaining % size == 0 && (remaining > 0 || idx > 1)
    ensures var events := Iterate(o, size, sql, idx, remaining).events;
            events != [] && events[|events| - 1] == Fetch(idx + remaining / size, sql)
    decreases remaining
  {
    if remaining == 0 {
      IterateStops(o, size, sql, idx, remaining);
    } else {
      if remaining < size {
        DivUnique(remaining, size, 0, remaining);
      }
      IterateContinues(o, size, sql, idx, remaining);
      DivStep(remaining - size, size);
      IterateEndsOnEmptyFetch(o, size, sql, idx + 1, remaining - size);
    }
  }

  function Max(a: int, b: int): int
  {
    if a < b then b else a
  }

  /** The counting law of Do for R rows in batches of B, with no failure
      and no cancellation: R / B + 1 fetches; completions for the batches of
      Chunks(R, B), or for the one empty batch when R is zero, so
      max(1, ceil(R / B)) of them, delivering all R rows; when R is a
      positive multiple of B the run ends on an empty FETCH that gets no
      completion. */
  lemma CountingLaw(name: string, query: string, args: seq<Arg>, size: nat, o: Oracle)
    requires size > 0 && Clean(o) && o.declareFailure.None?
    ensures var r := Execute(None, name, query, args, size, o);
      && r.err.None?
      && Fetches(r.events) == o.rows / size + 1
      && Completions(r.events) == (if o.rows == 0 then [0] else Chunks(o.rows, size))
      && |Completions(r.events)| == Max(1, (o.rows + size - 1) / size)
      && Sum(Completions(r.events)) == o.rows
      && (o.rows > 0 && o.rows % size == 0 ==>
            && r.events[|r.events| - 1] == Fetch(o.rows / size + 1, FetchSql(size, name))
            && Fetches(r.events) == |Completions(r.events)| + 1)
  {
    var sql := FetchSql(size, name);
    var loop := Iterate(o, size, sql, 1, o.rows);
    var r := Execute(None, name, query, args, size, o);
    assert r == Prepend([Declare(DeclareSql(name, query), args)], loop);
    AfterDeclare(Declare(DeclareSql(name, query), args), loop, r);
    LoopCounts(o, size, sql);
    CompletionArithmetic(o.rows, size);
  }

  /** A DECLARE in front of the loop's run adds no FETCH and no completion
      and leaves the error and the last event alone. */
  lemma AfterDeclare(declare: Event, loop: Run, r: Run)
    requires declare.Declare? && r == Prepend([declare], loop)
    ensures r.err == loop.err
    ensures Fetches(r.events) == Fetches(loop.events)
    ensures Completions(r.events) == Completions(loop.events)
    ensures loop.events != [] ==> r.events[|r.events| - 1] == loop.events[|loop.events| - 1]
  {
    CountsAppend([declare], loop.events);
    assert [declare][1..] == [];
  }

  /** The counting law for the loop alone, from its first iteration. */
  lemma LoopCounts(o: Oracle, size: nat, sql: string)
    requires size > 0 && Clean(o)
    ensures var loop := Iterate(o, size, sql, 1, o.rows);
      && loop.err.None?
      && Fetches(loop.events) == o.rows / size + 1
      && Completions(loop.events) == (if o.rows == 0 then [0] else Chunks(o.rows, size))
      && (o.rows > 0 && o.rows % size == 0 ==>
            loop.events != [] && loop.events[|loop.events| - 1] == Fetch(o.rows / size + 1, sql))
  {
    IterateCounts(o, size, sql, 1, o.rows);
    FetchCountIsQuotient(o.rows, size);
    if o.rows > 0 && o.rows % size == 0 {
      IterateEndsOnEmptyFetch(o, size, sql, 1, o.rows);
    }
  }

  lemma CeilOfZero(size: nat)
    requires size > 0
    ensures (0 + size - 1) / size == 0
  {
    DivUnique(size - 1, size, 0, size - 1);
  }

  lemma CeilOfPositive(rows: nat, size: nat)
    requires size > 0 && rows > 0
    ensures (rows + size - 1) / size >= 1
  {
    DivStep(rows - 1, size);
  }

  lemma CeilOfMultiple(rows: nat, size: nat)
    requires size > 0 && rows % size == 0
    ensures (rows + size - 1) / size == rows / size
  {
    var k := rows / size;
    assert rows == k * size;
    DivUnique(rows + size - 1, size, k, size - 1);
  }

  /** The arithmetic behind the counting law. */
  lemma CompletionArithmetic(rows: nat, size: nat)
    requires size > 0
    ensures var c := if rows == 0 then [0] else Chunks(rows, size);
      && |c| == Max(1, (rows + size - 1) / size)
      && Sum(c) == rows
      && (rows > 0 && rows % size == 0 ==> rows / size + 1 == |c| + 1)
  {
    if rows == 0 {
      CeilOfZero(size);
      assert Sum([0]) == 0 + Sum([]);
    } else {
      ChunksSum(rows, size);
      ChunksCount(rows, size);
      CeilOfPositive(rows, size);
      if rows % size == 0 {
        CeilOfMultiple(rows, size);
      }
    }
  }

  /** A worked example: 4500 rows in batches of 2000. */
  lemma Example4500(name: string, query: string, args: seq<Arg>, o: Oracle)
    requires o == Oracle(4500, None, None, None, Leaf("context canceled"))
    ensures var r := Execute(None, name, query, args, 2000, o);
      && r.err.None?
      && Completions(r.events) == [2000, 2000, 500]
      && Fetches(r.events) == 3
  {
    CountingLaw(name, query, args, 2000, o);
    assert Chunks(4500, 2000) == [2000] + Chunks(2500, 2000);
    assert Chunks(2500, 2000) == [2000] + Chunks(500, 2000);
  }

  // ---------------------------------------------------------------------------
  // Cutting a run short
  // ---------------------------------------------------------------------------

  /** The longest prefix of a trace that stays before iteration `c`. */
  function Upto(events: seq<Event>, c: nat): (r: seq<Event>)
    ensures r <= events
    ensures forall i :: 0 <= i < |r| ==> IterationOf(r[i]) < c
  {
    if events == [] || IterationOf(events[0]) >= c then []
    else [events[0]] + Upto(events[1..], c)
  }

  lemma {:induction false} UptoAll(p: seq<Event>, c: nat)
    requires forall i :: 0 <= i < |p| ==> IterationOf(p[i]) < c
    ensures Upto(p, c) == p
  {
    if p != [] {
      UptoAll(p[1..], c);
    }
  }

  lemma {:induction false} UptoAppend(p: seq<Event>, x: seq<Event>, c: nat)
    requires forall i :: 0 <= i < |p| ==> IterationOf(p[i]) < c
    ensures Upto(p + x, c) == p + Upto(x, c)
  {
    if p == [] {
      assert p + x == x;
    } else {
      assert (p + x)[1..] == p[1..] + x;
      UptoAppend(p[1..], x, c);
    }
  }

  /** An iteration the context lets through starts with the callback, so
      a trace cut before it is empty. */
  lemma IterateOpens(o: Oracle, size: nat, sql: string, idx: nat, remaining: nat, c: nat)
    requires size > 0 && idx >= 1 && c <= idx && !Cancelled(o, idx)
    ensures var events := Iterate(o, size, sql, idx, remaining).events;
            events != [] && events[0] == Retrieve(idx) && Upto(events, c) == []
  {
  }

  /** Events before iteration c, put in front of a run and of its
      cancelled counterpart, keep the one the cut of the other. */
  lemma CancelledAfter(lead: seq<Event>, r: Run, full: Run, c: nat, ctxErr: Error)
    requires forall i :: 0 <= i < |lead| ==> IterationOf(lead[i]) < c
    requires r.events == Upto(full.events, c)
    requires r.err == if |Upto(full.events, c)| < |full.events| then Some(ctxErr) else full.err
    ensures Prepend(lead, r).events == Upto(Prepend(lead, full).events, c)
    ensures Prepend(lead, r).err
         == if |Upto(Prepend(lead, full).events, c)| < |Prepend(lead, full).events| then Some(ctxErr)
            else Prepend(lead, full).err
  {
    UptoAppend(lead, full.events, c);
  }

  /** The cases of CancellationTruncates that end within iteration idx. */
  lemma CancellationLastStep(o: Oracle, size: nat, sql: string, idx: nat, remaining: nat, c: nat)
    requires size > 0 && idx >= 1 && o.cancelledFrom == Some(c)
    requires c <= idx || FetchError(o, idx).Some? || remaining < size
    ensures var full := Iterate(o.(cancelledFrom := None), size, sql, idx, remaining);
            var r := Iterate(o, size, sql, idx, remaining);
            && r.events == Upto(full.events, c)
            && r.err == if |Upto(full.events, c)| < |full.events| then Some(o.ctxErr) else full.err
  {
    var o' := o.(cancelledFrom := None);
    var full := Iterate(o', size, sql, idx, remaining);
    if c <= idx {
      IterateInterrupted(o, size, sql, idx, remaining);
      IterateOpens(o', size, sql, idx, remaining, c);
    } else if FetchError(o, idx).Some? {
      IterateInterrupted(o, size, sql, idx, remaining);
      IterateInterrupted(o', size, sql, idx, remaining);
      UptoAll(full.events, c);
    } else {
      IterateStops(o, size, sql, idx, remaining);
      IterateStops(o', size, sql, idx, remaining);
      UptoAll(full.events, c);
    }
  }

  /** Cancellation from iteration c truncates the run that would otherwise
      happen just before iteration c: nothing of iteration c or later, no
      callback and no FETCH, and Do returns ctx.Err() whenever the run would
      have reached iteration c. */
  lemma {:induction false} CancellationTruncates(o: Oracle, size: nat, sql: string, idx: nat, remaining: nat, c: nat)
    requires size > 0 && idx >= 1 && o.cancelledFrom == Some(c)
    ensures var full := Iterate(o.(cancelledFrom := None), size, sql, idx, remaining);
            var r := Iterate(o, size, sql, idx, remaining);
            && r.events == Upto(full.events, c)
            && r.err == if |Upto(full.events, c)| < |full.events| then Some(o.ctxErr) else full.err
    decreases remaining
  {
    var o' := o.(cancelledFrom := None);
    if c <= idx || FetchError(o, idx).Some? || remaining < size {
      CancellationLastStep(o, size, sql, idx, remaining, c);
    } else {
      var lead := [Retrieve(idx), Fetch(idx, sql), Complete(idx, size)];
      IterateContinues(o, size, sql, idx, remaining);
      IterateContinues(o', size, sql, idx, remaining);
      CancellationTruncates(o, size, sql, idx + 1, remaining - size, c);
      CancelledAfter(lead, Iterate(o, size, sql, idx + 1, remaining - size),
                     Iterate(o', size, sql, idx + 1, remaining - size), c, o.ctxErr);
    }
  }

  /** The same for a FETCH that fails at iteration k. */
  lemma FailedAfter(lead: seq<Event>, r: Run, full: Run, k: nat, e: Error, sql: string)
    requires forall i :: 0 <= i < |lead| ==> IterationOf(lead[i]) < k
    requires if |Upto(full.events, k)| < |full.events|
             then r == Run(Some(e), Upto(full.events, k) + [Retrieve(k), Fetch(k, sql)])
             else r == full
    ensures var full' := Prepend(lead, full);
            if |Upto(full'.events, k)| < |full'.events|
            then Prepend(lead, r) == Run(Some(e), Upto(full'.events, k) + [Retrieve(k), Fetch(k, sql)])
            else Prepend(lead, r) == full'
  {
    UptoAppend(lead, full.events, k);
    if |Upto(full.events, k)| < |full.events| {
      assert lead + (Upto(full.events, k) + [Retrieve(k), Fetch(k, sql)])
          == (lead + Upto(full.events, k)) + [Retrieve(k), Fetch(k, sql)];
    }
  }

  /** The cases of FetchFailureTruncates that end within iteration idx. */
  lemma FetchFailureLastStep(o: Oracle, size: nat, sql: string, idx: nat, remaining: nat, k: nat, e: Error)
    requires size > 0 && 1 <= idx <= k && o.fetchFailure == Some(FetchFailure(k, e))
    requires Cancelled(o, idx) || idx == k || remaining < size
    ensures var full := Iterate(o.(fetchFailure := None), size, sql, idx, remaining);
            var r := Iterate(o, size, sql, idx, remaining);
            if |Upto(full.events, k)| < |full.events|
            then r == Run(Some(e), Upto(full.events, k) + [Retrieve(k), Fetch(k, sql)])
            else r == full
  {
    var o' := o.(fetchFailure := None);
    var full := Iterate(o', size, sql, idx, remaining);
    var r := Iterate(o, size, sql, idx, remaining);
    if Cancelled(o, idx) {
      IterateInterrupted(o, size, sql, idx, remaining);
      IterateInterrupted(o', size, sql, idx, remaining);
    } else if idx == k {
      IterateInterrupted(o, size, sql, idx, remaining);
      IterateOpens(o', size, sql, idx, remaining, k);
      assert r.events == [] + [Retrieve(k), Fetch(k, sql)];
    } else {
      IterateStops(o, size, sql, idx, remaining);
      IterateStops(o', size, sql, idx, remaining);
      UptoAll(full.events, k);
    }
  }

  /** A FETCH failing at iteration k ends the run right after that FETCH:
      the run is the failure-free run up to iteration k, then that
      iteration's callback and FETCH, and no completion; Do returns the
      FETCH's error. A run that never reaches iteration k is unaffected. */
  lemma {:induction false} FetchFailureTruncates(o: Oracle, size: nat, sql: string, idx: nat, remaining: nat, k: nat, e: Error)
    requires size > 0 && 1 <= idx <= k && o.fetchFailure == Some(FetchFailure(k, e))
    ensures var full := Iterate(o.(fetchFailure := None), size, sql, idx, remaining);
            var r := Iterate(o, size, sql, idx, remaining);
            if |Upto(full.events, k)| < |full.events|
            then r == Run(Some(e), Upto(full.events, k) + [Retrieve(k), Fetch(k, sql)])
            else r == full
    decreases remaining
  {
    var o' := o.(fetchFailure := None);
    if Cancelled(o, idx) || idx == k || remaining < size {
      FetchFailureLastStep(o, size, sql, idx, remaining, k, e);
    } else {
      var lead := [Retrieve(idx), Fetch(idx, sql), Complete(idx, size)];
      IterateContinues(o, size, sql, idx, remaining);
      IterateContinues(o', size, sql, idx, remaining);
      FetchFailureTruncates(o, size, sql, idx + 1, remaining - size, k, e);
      FailedAfter(lead, Iterate(o, size, sql, idx + 1, remaining - size),
                  Iterate(o', size, sql, idx + 1, remaining - size), k, e, sql);
    }
  }

  /** A handle that yields no transaction, or a DECLARE that fails, ends Do
      before any callback or FETCH. */
  lemma EarlyFailures(acquired: Option<Error>, name: string, query: string, args: seq<Arg>, size: nat, o: Oracle)
    requires size > 0 && (acquired.Some? || o.declareFailure.Some?)
    ensures var r := Execute(acquired, name, query, args, size, o);
      && r.err.Some?
      && (acquired.Some? ==> r == Run(acquired, []))
      && (acquired.None? ==>
            && r.err == Some(Wrap(DeclareContext, o.declareFailure.value))
            && r.events == [Declare(DeclareSql(name, query), args)])
  {
  }

  // ---------------------------------------------------------------------------
  // One cursor name per run
  // ---------------------------------------------------------------------------

  /** The DECLARE reads the FETCH statement back as exactly the batch size
      and the cursor name. */
  lemma {:induction false} DigitRunOf(d: string, rest: string)
    requires AllDigits(d) && rest != [] && !IsDigit(rest[0])
    ensures DigitRun(d + rest) == |d|
    decreases |d|
  {
    var s := d + rest;
    if d != [] {
      assert s[0] == d[0] && IsDigit(d[0]);
      assert s[1..] == d[1..] + rest;
      assert AllDigits(d[1..]) by {
        forall i | 0 <= i < |d| - 1
          ensures IsDigit(d[1..][i])
        {
          assert d[1..][i] == d[i + 1];
        }
      }
      DigitRunOf(d[1..], rest);
      assert DigitRun(s) == 1 + DigitRun(s[1..]);
    } else {
      assert s == rest && s[0] == rest[0];
    }
  }

  lemma {:induction false} DecimalRoundTrip(n: nat)
    ensures ParseDecimal(Decimal(n)) == n
    decreases n
  {
    if n >= 10 {
      var s := Decimal(n);
      assert s[..|s| - 1] == Decimal(n / 10);
      DecimalRoundTrip(n / 10);
    }
  }

  /** Any FETCH text with a run of digits reads back as that number and
      that cursor. */
  lemma ParseFetchOf(digits: string, name: string)
    requires digits != [] && AllDigits(digits)
    ensures ParseFetch(FetchKeyword + digits + FromKeyword + name + ";")
         == Some(FetchCmd(ParseDecimal(digits), name))
  {
    var sql := FetchKeyword + digits + FromKeyword + name + ";";
    var tail := FromKeyword + name + ";";
    assert sql == FetchKeyword + (digits + tail);
    var body := sql[|FetchKeyword|..];
    assert body == digits + tail;
    DigitRunOf(digits, tail);
    assert body[..|digits|] == digits;
    assert body[|digits|..] == tail;
    assert tail[|FromKeyword|..|tail| - 1] == name;
  }

  /** The FETCH statement names exactly the batch size and the cursor. */
  lemma FetchSqlRoundTrip(size: nat, name: string)
    ensures ParseFetch(FetchSql(size, name)) == Some(FetchCmd(size, name))
  {
    ParseFetchOf(Decimal(size), name);
    DecimalRoundTrip(size);
  }

  /** One cursor name serves the whole run: the single DECLARE comes first
      and declares it, and every FETCH reads from it with the configured
      batch size. */
  lemma CursorNameOnce(name: string, query: string, args: seq<Arg>, size: nat, o: Oracle)
    requires size > 0
    ensures var r := Execute(None, name, query, args, size, o);
      && r.events != []
      && r.events[0] == Declare(DeclareSql(name, query), args)
      && (forall i :: 1 <= i < |r.events| ==> !r.events[i].Declare?)
      && (forall i :: 0 <= i < |r.events| && r.events[i].Fetch? ==>
            ParseFetch(r.events[i].sql) == Some(FetchCmd(size, name)))
  {
    var r := Execute(None, name, query, args, size, o);
    var declare := [Declare(DeclareSql(name, query), args)];
    if o.declareFailure.Some? {
      assert r.events == declare;
    } else {
      var loop := Iterate(o, size, FetchSql(size, name), 1, o.rows);
      assert r.events == declare + loop.events;
      LoopUsesOneCursor(o, size, name, loop.events);
      forall i | 1 <= i < |r.events|
        ensures r.events[i] == loop.events[i - 1] && !r.events[i].Declare?
      {
      }
      forall i | 0 <= i < |r.events| && r.events[i].Fetch?
        ensures ParseFetch(r.events[i].sql) == Some(FetchCmd(size, name))
      {
        assert r.events[i] == loop.events[i - 1];
      }
    }
  }

  /** The loop declares nothing and every FETCH in it reads `size` rows
      from `name`. */
  lemma LoopUsesOneCursor(o: Oracle, size: nat, name: string, events: seq<Event>)
    requires size > 0 && events == Iterate(o, size, FetchSql(size, name), 1, o.rows).events
    ensures forall i :: 0 <= i < |events| ==> !events[i].Declare?
    ensures forall i :: 0 <= i < |events| && events[i].Fetch? ==>
              ParseFetch(events[i].sql) == Some(FetchCmd(size, name))
  {
    var sql := FetchSql(size, name);
    FetchSqlRoundTrip(size, name);
    IterateFollowsProtocol(o, size, sql, 1, o.rows);
    ProtocolEvents(events, sql, size, 1);
  }
}
