/**
 * The batch both outbox dispatchers read in one cycle:
 * `Where(!Processed && RetryCount < MaxRetries).OrderBy(OccurredOn).Take(10)`.
 *
 * The database returns rows of equal OccurredOn in an order of its choosing, so
 * the batch is described by what any answer to that query satisfies, as a
 * sequence of table positions.
 */
module OutboxBatches {
  const BatchSize: nat := 10

  /** What the query looks at in a row: whether the filter admits it, and its OccurredOn. */
  datatype Candidate = Candidate(eligible: bool, occurredOn: int)

  /** `batch` lists table positions that an answer to the query can return, in the order it returns them. */
  predicate IsOldestBatch(rows: seq<Candidate>, batch: seq<nat>)
  {
    && |batch| <= BatchSize
    && (forall k | 0 <= k < |batch| :: batch[k] < |rows| && rows[batch[k]].eligible)
    && (forall k, m | 0 <= k < m < |batch| :: batch[k] != batch[m] && rows[batch[k]].occurredOn <= rows[batch[m]].occurredOn)
    && (|batch| < BatchSize ==> forall j | 0 <= j < |rows| && rows[j].eligible :: j in batch)
    && (forall j, k | 0 <= j < |rows| && rows[j].eligible && j !in batch && 0 <= k < |batch| ::
          rows[batch[k]].occurredOn <= rows[j].occurredOn)
  }

  predicate Eligible(rows: seq<Candidate>, j: int)
  {
    0 <= j < |rows| && rows[j].eligible
  }

  /** The batch is empty exactly when no row passes the filter. */
  lemma EmptyBatchMeansNothingEligible(rows: seq<Candidate>, batch: seq<nat>)
    requires IsOldestBatch(rows, batch)
    ensures batch == [] <==> forall j | 0 <= j < |rows| :: !rows[j].eligible
  {
    if batch != [] {
      assert rows[batch[0]].eligible;
    }
  }

  /** Rows written in clock order: OccurredOn never decreases along the table. */
  predicate Chronological(rows: seq<Candidate>)
  {
    forall i, j | 0 <= i < j < |rows| :: rows[i].occurredOn <= rows[j].occurredOn
  }

  /** The positions of the first `n` eligible rows at or after position `from`, in table order. */
  function FirstEligible(rows: seq<Candidate>, from: nat, n: nat): (b: seq<nat>)
    requires from <= |rows|
    ensures |b| <= n
    ensures forall k | 0 <= k < |b| :: from <= b[k] < |rows| && rows[b[k]].eligible
    ensures forall k, m | 0 <= k < m < |b| :: b[k] < b[m]
    ensures |b| < n ==> forall j | from <= j < |rows| && rows[j].eligible :: j in b
    ensures forall j, k | from <= j < |rows| && rows[j].eligible && j !in b && 0 <= k < |b| :: b[k] < j
    decreases |rows| - from
  {
    if from == |rows| || n == 0 then []
    else if rows[from].eligible then [from] + FirstEligible(rows, from + 1, n - 1)
    else FirstEligible(rows, from + 1, n)
  }

  /** When the table is in clock order, its first ten eligible rows are an answer to the query. */
  lemma ChronologicalTableBatch(rows: seq<Candidate>)
    requires Chronological(rows)
    ensures IsOldestBatch(rows, FirstEligible(rows, 0, BatchSize))
  {
  }

  /** `rows` with the rows at the positions `batch` lists replaced, one after another, by `marks`. */
  function Overwritten<T>(rows: seq<T>, batch: seq<nat>, marks: seq<T>): (r: seq<T>)
    requires |marks| == |batch|
    requires forall k | 0 <= k < |batch| :: batch[k] < |rows|
    ensures |r| == |rows|
    decreases |batch|
  {
    if batch == [] then rows
    else
      var n := |batch| - 1;
      Overwritten(rows, batch[..n], marks[..n])[batch[n] := marks[n]]
  }

  /** With distinct positions, each listed row ends up as its own mark and every other row is left alone. */
  lemma {:induction false} OverwrittenEffect<T>(rows: seq<T>, batch: seq<nat>, marks: seq<T>)
    requires |marks| == |batch|
    requires forall k | 0 <= k < |batch| :: batch[k] < |rows|
    requires forall k, m | 0 <= k < m < |batch| :: batch[k] != batch[m]
    ensures forall k | 0 <= k < |batch| :: Overwritten(rows, batch, marks)[batch[k]] == marks[k]
    ensures forall j | 0 <= j < |rows| && j !in batch :: Overwritten(rows, batch, marks)[j] == rows[j]
    decreases |batch|
  {
    if batch != [] {
      var n := |batch| - 1;
      OverwrittenEffect(rows, batch[..n], marks[..n]);
      forall j | 0 <= j < |rows| && j !in batch
        ensures Overwritten(rows, batch, marks)[j] == rows[j]
      {
        assert j !in batch[..n];
      }
      forall k | 0 <= k < n
        ensures Overwritten(rows, batch, marks)[batch[k]] == marks[k]
      {
        assert batch[..n][k] == batch[k] && marks[..n][k] == marks[k];
      }
    }
  }
}
