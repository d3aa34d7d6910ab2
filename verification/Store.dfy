/**
 The manager's metric store (`MetricStore` in src/oumigo/service/manager/control/store.py):
 one table keyed by (node, metric, timestamp), upserted and pruned by age. Timestamps are
 the integer seconds that the fixed-width UTC strings render.
*/
module MetricStores {

  datatype Key = Key(node: string, metric: string, time: int)
  datatype Point = Point(metric: string, time: int, value: real)
  type Table = map<Key, real>

  function KeyOf(node: string, p: Point): Key {
    Key(node, p.metric, p.time)
  }

  function Upsert(t: Table, node: string, points: seq<Point>): Table {
    if points == [] then t
    else
      var n := |points| - 1;
      Upsert(t, node, points[..n])[KeyOf(node, points[n]) := points[n].value]
  }

  function Prune(t: Table, cutoff: int): Table {
    map k | k in t && k.time >= cutoff :: t[k]
  }

  /** One report: upsert the batch, then drop what is older than the window. */
  function Ingested(t: Table, node: string, points: seq<Point>, cutoff: int): Table {
    Prune(Upsert(t, node, points), cutoff)
  }

  /** The value a batch gives a key: that of the last point for it. */
  lemma {:induction false} UpsertAt(t: Table, node: string, points: seq<Point>, k: Key)
    ensures (exists i | 0 <= i < |points| :: KeyOf(node, points[i]) == k) ==>
      exists i | 0 <= i < |points| :: KeyOf(node, points[i]) == k && k in Upsert(t, node, points)
        && Upsert(t, node, points)[k] == points[i].value
        && forall j | i < j < |points| :: KeyOf(node, points[j]) != k
    ensures (forall i | 0 <= i < |points| :: KeyOf(node, points[i]) != k) ==>
      (k in Upsert(t, node, points) <==> k in t) && (k in t ==> Upsert(t, node, points)[k] == t[k])
  {
    if points != [] {
      var n := |points| - 1;
      UpsertAt(t, node, points[..n], k);
      if KeyOf(node, points[n]) != k && exists i | 0 <= i < |points| :: KeyOf(node, points[i]) == k {
        var i :| 0 <= i < |points[..n]| && KeyOf(node, points[..n][i]) == k && k in Upsert(t, node, points[..n])
          && Upsert(t, node, points[..n])[k] == points[..n][i].value
          && forall j | i < j < |points[..n]| :: KeyOf(node, points[..n][j]) != k;
        assert points[i] == points[..n][i];
        assert forall j | i < j < n :: points[j] == points[..n][j];
      }
    }
  }

  /** REDELIVERY: ingesting a batch again later leaves exactly what one delivery and the
      later pruning would have left. */
  lemma RedeliveryChangesNothing(t: Table, node: string, points: seq<Point>, cutoff: int, later: int)
    requires cutoff <= later
    ensures Ingested(Ingested(t, node, points, cutoff), node, points, later) == Prune(Ingested(t, node, points, cutoff), later)
  {
    var once := Ingested(t, node, points, cutoff);
    var twice := Ingested(once, node, points, later);
    forall k: Key
      ensures k in twice <==> k in Prune(once, later)
      ensures k in twice ==> twice[k] == once[k]
    {
      UpsertAt(t, node, points, k);
      UpsertAt(once, node, points, k);
    }
  }

  class MetricStore {
    const retention: int
    var table: Table

    constructor (retention: int)
      ensures table == map[] && this.retention == retention
    {
      this.retention, table := retention, map[];
    }

    method Ingest(node: string, points: seq<Point>, now: int) returns (written: nat)
      modifies this
      ensures table == Ingested(old(table), node, points, now - retention)
      ensures written == |points|
    {
      for i := 0 to |points|
        invariant table == Upsert(old(table), node, points[..i])
      {
        assert points[..i + 1][..i] == points[..i];
        table := table[KeyOf(node, points[i]) := points[i].value];
      }
      assert points[..|points|] == points;
      table := map k | k in table && k.time >= now - retention :: table[k];
      written := |points|;
    }
  }
}
