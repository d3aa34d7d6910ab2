/**
 The worker's metrics buffer (`MetricsBuffer` in src/oumigo/service/worker/metrics.py):
 rows wait here until a report drains them, and the oldest span is evicted on overflow.

 Grid epochs are integers, so comparing them with a capacity or a chunk in seconds is
 comparing them with its ceiling: both are integers here.
*/
module MetricsBuffers {

  /** One sampled data point. The reported timestamp is a rendering of `epoch`. */
  datatype Row = Row(node: string, epoch: int, metric: string, value: real)

  ghost predicate Sorted(rows: seq<Row>) {
    forall i, j | 0 <= i < j < |rows| :: rows[i].epoch <= rows[j].epoch
  }

  function Span(rows: seq<Row>): int
    requires rows != []
  {
    rows[|rows| - 1].epoch - rows[0].epoch
  }

  /** How many leading rows are older than the cutoff. */
  function Older(rows: seq<Row>, cutoff: int): (n: nat)
    ensures n <= |rows|
    ensures forall i | 0 <= i < n :: rows[i].epoch < cutoff
    ensures n < |rows| ==> rows[n].epoch >= cutoff
  {
    if rows == [] || rows[0].epoch >= cutoff then 0 else 1 + Older(rows[1..], cutoff)
  }

  /** How many leading rows eviction drops: the oldest chunk, while the span is at capacity. */
  function Drops(rows: seq<Row>, capacity: int, chunk: int): (d: nat)
    ensures d <= |rows|
    decreases |rows|
  {
    if rows == [] || Span(rows) < capacity then 0
    else
      var drop := Older(rows, rows[0].epoch + chunk);
      if drop == 0 then 0 else drop + Drops(rows[drop..], capacity, chunk)
  }

  function Evicted(rows: seq<Row>, capacity: int, chunk: int): seq<Row> {
    rows[Drops(rows, capacity, chunk)..]
  }

  function Dropped(rows: seq<Row>, capacity: int, chunk: int): seq<Row> {
    rows[..Drops(rows, capacity, chunk)]
  }

  /** The first drop of the loop: something goes, something stays, and what goes is older. */
  lemma FirstDrop(rows: seq<Row>, capacity: int, chunk: int)
    requires Sorted(rows) && rows != [] && 0 < chunk <= capacity <= Span(rows)
    ensures var drop := Older(rows, rows[0].epoch + chunk);
      && 0 < drop < |rows| && Sorted(rows[drop..])
      && (forall i | 0 <= i < drop :: rows[i].epoch < rows[drop].epoch)
      && (forall i | 0 <= i < drop :: rows[|rows| - 1].epoch - rows[i].epoch > capacity - chunk)
  {
    var n, cutoff := |rows|, rows[0].epoch + chunk;
    var drop := Older(rows, cutoff);
    assert rows[n - 1].epoch >= cutoff;
  }

  /** What eviction keeps and drops, when `d` leading rows go. */
  ghost predicate KeepsRecent(rows: seq<Row>, capacity: int, chunk: int, d: nat)
    requires rows != []
  {
    && d < |rows| && rows[|rows| - 1].epoch - rows[d].epoch < capacity
    && (forall i | 0 <= i < d :: rows[i].epoch < rows[d].epoch)
    && (forall i | 0 <= i < d :: rows[|rows| - 1].epoch - rows[i].epoch > capacity - chunk)
  }

  /** What holds of the rest holds of the whole, when the front is older and far enough back. */
  lemma KeepsRecentShifts(rows: seq<Row>, capacity: int, chunk: int, drop: nat, d: nat)
    requires Sorted(rows) && drop < |rows| && KeepsRecent(rows[drop..], capacity, chunk, d)
    requires forall i | 0 <= i < drop :: rows[i].epoch < rows[drop].epoch
    requires forall i | 0 <= i < drop :: rows[|rows| - 1].epoch - rows[i].epoch > capacity - chunk
    ensures KeepsRecent(rows, capacity, chunk, drop + d)
  {
    var rest := rows[drop..];
    assert rest[|rest| - 1] == rows[|rows| - 1] && rest[d] == rows[drop + d];
    forall i | 0 <= i < drop + d
      ensures rows[i].epoch < rows[drop + d].epoch && rows[|rows| - 1].epoch - rows[i].epoch > capacity - chunk
    {
      if i < drop {
        assert rows[drop].epoch <= rows[drop + d].epoch;
      } else {
        assert rows[i] == rest[i - drop];
      }
    }
  }

  /** What eviction guarantees, for any sorted rows: the span ends below capacity; what goes
      is an oldest prefix of whole slots; the newest slot, and every row within
      `capacity - chunk` of it, stays. */
  lemma {:induction false} EvictionKeepsRecent(rows: seq<Row>, capacity: int, chunk: int)
    requires Sorted(rows) && 0 < chunk <= capacity && rows != []
    ensures KeepsRecent(rows, capacity, chunk, Drops(rows, capacity, chunk))
    decreases |rows|
  {
    if Span(rows) >= capacity {
      var drop := Older(rows, rows[0].epoch + chunk);
      FirstDrop(rows, capacity, chunk);
      EvictionKeepsRecent(rows[drop..], capacity, chunk);
      KeepsRecentShifts(rows, capacity, chunk, drop, Drops(rows[drop..], capacity, chunk));
    }
  }

  /** When something is dropped: for any rows, capacity and chunk, exactly when the span is
      at capacity and the chunk is positive. */
  lemma EvictsExactlyOnOverflow(rows: seq<Row>, capacity: int, chunk: int)
    ensures Evicted(rows, capacity, chunk) == rows <==> rows == [] || Span(rows) < capacity || chunk <= 0
  {
    if rows != [] && Span(rows) >= capacity {
      var drop := Older(rows, rows[0].epoch + chunk);
      if chunk > 0 {
        assert drop > 0;
        assert |Evicted(rows, capacity, chunk)| <= |rows| - drop;
      } else {
        assert rows[0].epoch >= rows[0].epoch + chunk;
      }
    }
  }

  lemma EvictedStep(rows: seq<Row>, capacity: int, chunk: int)
    requires rows != [] && Span(rows) >= capacity
    ensures var drop := Older(rows, rows[0].epoch + chunk);
      Evicted(rows, capacity, chunk) == if drop == 0 then rows else Evicted(rows[drop..], capacity, chunk)
  {
    var drop := Older(rows, rows[0].epoch + chunk);
    var rest := rows[drop..];
    assert rest[Drops(rest, capacity, chunk)..] == rows[drop + Drops(rest, capacity, chunk)..];
  }

  lemma ChunkGoes(rows: seq<Row>, capacity: int, chunk: int, drop: nat)
    requires rows != [] && Span(rows) >= capacity && drop == Older(rows, rows[0].epoch + chunk)
    ensures Evicted(rows[drop..], capacity, chunk) == Evicted(rows, capacity, chunk)
    ensures drop == 0 ==> rows[drop..] == rows == Evicted(rows, capacity, chunk)
  {
    EvictedStep(rows, capacity, chunk);
    if drop == 0 {
      assert rows[drop..] == rows;
    }
  }

  lemma NothingEvicted(rows: seq<Row>, capacity: int, chunk: int)
    requires rows == [] || Span(rows) < capacity
    ensures Evicted(rows, capacity, chunk) == rows
  {
  }

  /** With a positive chunk the loop always gets the span below capacity, in the worst case
      by dropping everything. */
  lemma {:induction false} EvictionMakesRoom(rows: seq<Row>, capacity: int, chunk: int)
    requires chunk > 0
    ensures var kept := Evicted(rows, capacity, chunk); kept == [] || Span(kept) < capacity
    decreases |rows|
  {
    if rows != [] && Span(rows) >= capacity {
      EvictedStep(rows, capacity, chunk);
      var drop := Older(rows, rows[0].epoch + chunk);
      assert drop > 0;
      EvictionMakesRoom(rows[drop..], capacity, chunk);
    }
  }

  /** When `d` leading rows go: the last chunk to go began at row `last`, with the span still
      at capacity, and went entirely. */
  ghost predicate LastChunk(rows: seq<Row>, capacity: int, chunk: int, last: nat, d: nat) {
    && last < d <= |rows| && rows[|rows| - 1].epoch - rows[last].epoch >= capacity
    && (forall i | last <= i < d :: rows[i].epoch < rows[last].epoch + chunk)
    && (d < |rows| ==> rows[d].epoch >= rows[last].epoch + chunk)
  }

  lemma LastChunkShifts(rows: seq<Row>, capacity: int, chunk: int, drop: nat, last: nat, d: nat)
    requires drop <= |rows| && LastChunk(rows[drop..], capacity, chunk, last, d)
    ensures LastChunk(rows, capacity, chunk, drop + last, drop + d)
  {
    assert forall i | drop <= i < |rows| :: rows[i] == rows[drop..][i - drop];
  }

  /** Eviction drops whole chunks, and none too many. */
  lemma {:induction false} EvictsWholeChunks(rows: seq<Row>, capacity: int, chunk: int) returns (last: nat)
    requires chunk > 0 && rows != [] && Span(rows) >= capacity
    ensures LastChunk(rows, capacity, chunk, last, Drops(rows, capacity, chunk))
    decreases |rows|
  {
    var drop := Older(rows, rows[0].epoch + chunk);
    var rest := rows[drop..];
    assert drop > 0;
    last := 0;
    if rest != [] && Span(rest) >= capacity {
      last := EvictsWholeChunks(rest, capacity, chunk);
      LastChunkShifts(rows, capacity, chunk, drop, last, Drops(rest, capacity, chunk));
      last := drop + last;
    }
  }

  /** The oldest chunk goes entirely. */
  lemma OldestChunkGoes(rows: seq<Row>, capacity: int, chunk: int, i: nat)
    requires i < |rows| && Span(rows) >= capacity && forall j | 0 <= j <= i :: rows[j].epoch < rows[0].epoch + chunk
    ensures i < Drops(rows, capacity, chunk)
  {
    assert Older(rows, rows[0].epoch + chunk) > i;
  }

  /** Rows that all lie within one chunk of the first go together. */
  lemma OneChunkGoes(rows: seq<Row>, capacity: int, chunk: int)
    requires rows != [] && Span(rows) >= capacity && forall r | r in rows :: r.epoch < rows[0].epoch + chunk
    ensures Evicted(rows, capacity, chunk) == []
  {
    EvictedStep(rows, capacity, chunk);
    var drop := Older(rows, rows[0].epoch + chunk);
    assert drop == |rows|;
    assert rows[drop..] == [] && drop > 0;
  }

  /** Two slots a capacity apart, or at once, all swept away by a chunk wider than the capacity. */
  lemma WideChunkDropsAll(capacity: int, chunk: int) returns (rows: seq<Row>)
    requires 0 < chunk && capacity < chunk
    ensures Sorted(rows) && rows != [] && Evicted(rows, capacity, chunk) == []
  {
    var last := if capacity > 0 then capacity else 0;
    rows := [Row("", 0, "", 0.0), Row("", last, "", 0.0)];
    assert Span(rows) == last;
    OneChunkGoes(rows, capacity, chunk);
  }

  /** The newest slot is safe, for all rows, exactly with a chunk no wider than the capacity
      (or one that disables eviction). */
  lemma NewestSafeIff(capacity: int, chunk: int)
    ensures (forall rows: seq<Row> | Sorted(rows) && rows != [] :: Evicted(rows, capacity, chunk) != [])
       <==> chunk <= 0 || chunk <= capacity
  {
    if chunk <= 0 || chunk <= capacity {
      forall rows: seq<Row> | Sorted(rows) && rows != []
        ensures Evicted(rows, capacity, chunk) != []
      {
        if chunk <= 0 {
          EvictsExactlyOnOverflow(rows, capacity, chunk);
        } else {
          EvictionKeepsRecent(rows, capacity, chunk);
        }
      }
    } else {
      var rows := WideChunkDropsAll(capacity, chunk);
    }
  }

  /** The rows after several appends, each with its own eviction. */
  function AppendedAll(rows: seq<Row>, slots: seq<seq<Row>>, capacity: int, chunk: int): seq<Row> {
    if slots == [] then rows
    else
      var n := |slots| - 1;
      Evicted(AppendedAll(rows, slots[..n], capacity, chunk) + slots[n], capacity, chunk)
  }

  class MetricsBuffer {
    const capacity: int
    const chunk: int
    var rows: seq<Row>

    constructor (capacity: int, chunk: int)
      ensures rows == [] && this.capacity == capacity && this.chunk == chunk
    {
      this.capacity, this.chunk, rows := capacity, chunk, [];
    }

    /** `_evict_locked`: drop the oldest chunk while the span is at capacity. */
    method EvictLocked()
      modifies this
      ensures rows == Evicted(old(rows), capacity, chunk)
    {
      var evicting := true;
      while evicting && |rows| > 0 && Span(rows) >= capacity
        invariant Evicted(rows, capacity, chunk) == Evicted(old(rows), capacity, chunk)
        invariant !evicting ==> Evicted(rows, capacity, chunk) == rows
        decreases |rows|, evicting
      {
        evicting := DropChunk();
      }
      if evicting {
        NothingEvicted(rows, capacity, chunk);
      }
    }

    /** The oldest chunk goes, unless the chunk is not positive. */
    method DropChunk() returns (dropped: bool)
      requires rows != [] && Span(rows) >= capacity
      modifies this
      ensures Evicted(rows, capacity, chunk) == Evicted(old(rows), capacity, chunk)
      ensures if dropped then |rows| < |old(rows)| else rows == old(rows) && Evicted(rows, capacity, chunk) == rows
    {
      var drop := CountOlder(rows[0].epoch + chunk);
      ChunkGoes(rows, capacity, chunk, drop);
      dropped := drop > 0;
      rows := rows[drop..];
    }

    /** The inner loop of `_evict_locked`: how many leading rows are older than the cutoff. */
    method CountOlder(cutoff: int) returns (drop: nat)
      ensures drop == Older(rows, cutoff)
    {
      drop := 0;
      while drop < |rows| && rows[drop].epoch < cutoff
        invariant drop <= |rows|
        invariant forall i | 0 <= i < drop :: rows[i].epoch < cutoff
      {
        drop := drop + 1;
      }
      OlderUnique(rows, cutoff, drop);
    }

    /** Adds the newest slot's rows. */
    method Append(more: seq<Row>)
      modifies this
      ensures rows == Evicted(old(rows) + more, capacity, chunk)
    {
      rows := rows + more;
      EvictLocked();
    }

    /** Puts a failed batch back in front. */
    method Restore(batch: seq<Row>)
      modifies this
      ensures rows == Evicted(batch + old(rows), capacity, chunk)
    {
      rows := batch + rows;
      EvictLocked();
    }

    /** Takes everything for a report. */
    method Drain() returns (batch: seq<Row>)
      modifies this
      ensures batch == old(rows) && rows == []
    {
      batch, rows := rows, [];
    }

    /** `_flush_once` of the collector: one report attempt. `meanwhile` are the slots the
        sampler appends while the report is on its way, each on its own; a failed batch goes
        back in front of what they left. */
    method FlushOnce(meanwhile: seq<seq<Row>>, failed: bool) returns (batch: seq<Row>)
      modifies this
      ensures batch == old(rows)
      ensures var sampled := AppendedAll([], meanwhile, capacity, chunk);
        rows == if batch != [] && failed then Evicted(batch + sampled, capacity, chunk) else sampled
    {
      batch := Drain();
      for i := 0 to |meanwhile|
        invariant rows == AppendedAll([], meanwhile[..i], capacity, chunk)
      {
        assert meanwhile[..i + 1][..i] == meanwhile[..i];
        Append(meanwhile[i]);
      }
      assert meanwhile[..|meanwhile|] == meanwhile;
      if |batch| > 0 && failed {
        Restore(batch);
      }
    }
  }

  lemma OlderUnique(rows: seq<Row>, cutoff: int, n: nat)
    requires n <= |rows| && forall i | 0 <= i < n :: rows[i].epoch < cutoff
    requires n < |rows| ==> rows[n].epoch >= cutoff
    ensures Older(rows, cutoff) == n
  {
  }
}
