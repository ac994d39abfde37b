/**
The tables behind the indexer: insert outcomes, and the `FINAL` view of a
`ReplacingMergeTree(version)` (schema/001_init.sql, schema/002_checkpoint.sql,
schema/004_slot_gaps.sql).
 */
module MergeTree {
  import opened Wrappers

  /** A row as the server holds it: with the version column the server filled in. */
  datatype Stamped<+T> = Stamped(row: T, at: nat)

  /**
  What the client learns about one insert. `Acked` means every row landed. An
  error, a timeout or a crash tells it nothing: any subset of the rows may have landed.
   */
  datatype Outcome = Acked(at: nat) | Failed(landed: set<nat>, at: nat)

  /** A table's history: what was ever sent to it, and what reached it. */
  datatype Log<T> = Log(issued: seq<T>, landed: seq<Stamped<T>>)

  function Landing<T>(rows: seq<T>, o: Outcome): (r: seq<Stamped<T>>)
    ensures forall i :: 0 <= i < |r| ==> r[i].row in rows
    ensures o.Acked? ==> |r| == |rows| && forall i :: 0 <= i < |r| ==> r[i] == Stamped(rows[i], o.at)
  {
    if rows == [] then []
    else
      var n := |rows| - 1;
      var front := Landing(rows[..n], o);
      if o.Acked? || n in o.landed then front + [Stamped(rows[n], o.at)] else front
  }

  function Insert<T>(log: Log<T>, rows: seq<T>, o: Outcome): Log<T> {
    Log(log.issued + rows, log.landed + Landing(rows, o))
  }

  /** An insert that was already given up on may still take effect later. */
  function LandLate<T>(log: Log<T>, i: nat, at: nat): Log<T>
    requires i < |log.issued|
  {
    log.(landed := log.landed + [Stamped(log.issued[i], at)])
  }

  ghost predicate Has<T>(landed: seq<Stamped<T>>, row: T) {
    exists i :: 0 <= i < |landed| && landed[i].row == row
  }

  lemma HasMore<T>(a: seq<Stamped<T>>, b: seq<Stamped<T>>, row: T)
    requires a <= b && Has(a, row)
    ensures Has(b, row)
  {
    var i :| 0 <= i < |a| && a[i].row == row;
    assert b[i] == a[i];
  }

  lemma AckedHasAll<T>(a: seq<Stamped<T>>, rows: seq<T>, o: Outcome, k: nat)
    requires o.Acked? && k < |rows|
    ensures Has(a + Landing(rows, o), rows[k])
  {
    assert (a + Landing(rows, o))[|a| + k].row == rows[k];
  }

  // ------------------------------------------------------------------ FINAL

  /** `FINAL`: for each key the row with the largest version, the latest insertion on a tie. */
  function Final<K(==), T>(log: seq<Stamped<T>>, key: T -> K): map<K, Stamped<T>> {
    if log == [] then map[]
    else
      var before := Final(log[..|log| - 1], key);
      var e := log[|log| - 1];
      var k := key(e.row);
      if k in before && e.at < before[k].at then before else before[k := e]
  }

  /** What a query selects from `FINAL`, version column aside. */
  function View<K(==), T>(log: seq<Stamped<T>>, key: T -> K): map<K, T> {
    var f := Final(log, key);
    map k | k in f :: f[k].row
  }

  /** The key determines the rest of the row. */
  ghost predicate Functional<K, T>(log: seq<Stamped<T>>, key: T -> K) {
    forall i, j :: 0 <= i < |log| && 0 <= j < |log| && key(log[i].row) == key(log[j].row) ==> log[i].row == log[j].row
  }

  /** `FINAL` keeps exactly the keys inserted, and for each one the newest of its rows. */
  lemma {:induction false} FinalIsNewest<K, T>(log: seq<Stamped<T>>, key: T -> K)
    ensures forall i :: 0 <= i < |log| ==> key(log[i].row) in Final(log, key)
    ensures forall i :: 0 <= i < |log| ==> log[i].at <= Final(log, key)[key(log[i].row)].at
    ensures forall k :: k in Final(log, key) ==> Final(log, key)[k] in log && key(Final(log, key)[k].row) == k
  {
    if log != [] {
      var front := log[..|log| - 1];
      FinalIsNewest(front, key);
      assert log == front + [log[|log| - 1]];
      forall i | 0 <= i < |log|
        ensures key(log[i].row) in Final(log, key) && log[i].at <= Final(log, key)[key(log[i].row)].at
      {
        if i < |front| { assert log[i] == front[i]; }
      }
    }
  }

  /** Row `w` has the newest stamp of its key, and is the last insertion of those that do. */
  ghost predicate IsNewest<K(!new), T>(log: seq<Stamped<T>>, key: T -> K, w: nat) {
    w < |log| && forall j :: 0 <= j < |log| && key(log[j].row) == key(log[w].row) ==> log[j].at < log[w].at || (log[j].at == log[w].at && j <= w)
  }

  /** What `FINAL` shows under a key is that row and no other. */
  lemma {:induction false} FinalShows<K(!new), T>(log: seq<Stamped<T>>, key: T -> K, w: nat)
    requires IsNewest(log, key, w)
    ensures key(log[w].row) in Final(log, key) && Final(log, key)[key(log[w].row)] == log[w]
  {
    var front, e := log[..|log| - 1], log[|log| - 1];
    FinalIsNewest(front, key);
    if w < |front| {
      assert forall j :: 0 <= j < |front| ==> front[j] == log[j];
      FinalShows(front, key, w);
    } else if key(e.row) in Final(front, key) {
      var i :| 0 <= i < |front| && front[i] == Final(front, key)[key(e.row)];
      assert log[i] == front[i];
    }
  }

  lemma {:induction false} NewestExists<K(!new), T>(log: seq<Stamped<T>>, key: T -> K, k: K)
    requires k in Final(log, key)
    ensures exists w: nat :: IsNewest(log, key, w) && key(log[w].row) == k
  {
    var front, e := log[..|log| - 1], log[|log| - 1];
    assert log == front + [e];
    FinalIsNewest(front, key);
    if key(e.row) == k && (k !in Final(front, key) || e.at >= Final(front, key)[k].at) {
      assert IsNewest(log, key, |front|);
    } else {
      NewestExists(front, key, k);
      var w: nat :| IsNewest(front, key, w) && key(front[w].row) == k;
      FinalShows(front, key, w);
      assert IsNewest(log, key, w);
    }
  }

  /** A key once inserted never leaves `FINAL`, whatever is inserted after it. */
  lemma FinalKeepsKeys<K, T>(log: seq<Stamped<T>>, more: seq<Stamped<T>>, key: T -> K)
    ensures Final(log, key).Keys <= Final(log + more, key).Keys
  {
    FinalIsNewest(log, key);
    FinalIsNewest(log + more, key);
    forall k | k in Final(log, key)
      ensures k in Final(log + more, key)
    {
      var i :| 0 <= i < |log| && log[i] == Final(log, key)[k];
      assert (log + more)[i] == log[i];
    }
  }

  /** When the key determines the row, `FINAL` is the plain set of rows, each under its key. */
  lemma ViewIsRows<K, T>(log: seq<Stamped<T>>, key: T -> K)
    requires Functional(log, key)
    ensures forall i :: 0 <= i < |log| ==> key(log[i].row) in View(log, key) && View(log, key)[key(log[i].row)] == log[i].row
    ensures forall k :: k in View(log, key) ==> Has(log, View(log, key)[k]) && key(View(log, key)[k]) == k
  {
    FinalIsNewest(log, key);
    forall i | 0 <= i < |log|
      ensures key(log[i].row) in View(log, key) && View(log, key)[key(log[i].row)] == log[i].row
    {
      var e := Final(log, key)[key(log[i].row)];
      var j :| 0 <= j < |log| && log[j] == e;
    }
    forall k | k in View(log, key)
      ensures Has(log, View(log, key)[k])
    {
      var j :| 0 <= j < |log| && log[j] == Final(log, key)[k];
    }
  }

  /**
  Two histories of the same rows have the same `FINAL`, whatever the number of
  copies, the order of insertion and the version stamps.
   */
  lemma SameRowsSameView<K, T>(a: seq<Stamped<T>>, b: seq<Stamped<T>>, key: T -> K)
    requires Functional(a, key)
    requires forall i :: 0 <= i < |a| ==> Has(b, a[i].row)
    requires forall i :: 0 <= i < |b| ==> Has(a, b[i].row)
    ensures View(a, key) == View(b, key)
  {
    assert Functional(b, key) by {
      forall i, j | 0 <= i < |b| && 0 <= j < |b| && key(b[i].row) == key(b[j].row)
        ensures b[i].row == b[j].row
      {
        var p :| 0 <= p < |a| && a[p].row == b[i].row;
        var q :| 0 <= q < |a| && a[q].row == b[j].row;
      }
    }
    ViewIsRows(a, key);
    ViewIsRows(b, key);
    forall k
      ensures k in View(a, key) <==> k in View(b, key)
      ensures k in View(a, key) ==> View(a, key)[k] == View(b, key)[k]
    {
      if k in View(a, key) {
        var i :| 0 <= i < |a| && a[i].row == View(a, key)[k];
        var j :| 0 <= j < |b| && b[j].row == a[i].row;
      }
      if k in View(b, key) {
        var j :| 0 <= j < |b| && b[j].row == View(b, key)[k];
        var i :| 0 <= i < |a| && a[i].row == b[j].row;
      }
    }
  }

  /** Replaying rows the table already holds is invisible through `FINAL`. */
  lemma ReplayInvisible<K, T>(log: seq<Stamped<T>>, replay: seq<Stamped<T>>, key: T -> K)
    requires Functional(log, key)
    requires forall i :: 0 <= i < |replay| ==> Has(log, replay[i].row)
    ensures View(log + replay, key) == View(log, key)
  {
    var both := log + replay;
    forall i | 0 <= i < |both|
      ensures Has(log, both[i].row)
    {
      if i < |log| { assert both[i] == log[i]; } else { assert both[i] == replay[i - |log|]; }
    }
    forall i | 0 <= i < |log|
      ensures Has(both, log[i].row)
    {
      assert both[i] == log[i];
    }
    SameRowsSameView(log, both, key);
  }
}
