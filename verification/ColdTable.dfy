/**
The source side of the export (src/bin/parquet_export.rs): what the partition
query returns from `account_updates FINAL`, in `slot, write_version, pubkey` order.
 */
module ColdTable {
  import opened Wrappers
  import opened Text
  import opened MergeTree
  import opened Protocol

  type Entry = Stamped<RawRow>

  // ---------------------------------------------------------- the row order

  /** `ORDER BY slot, write_version, pubkey`. */
  predicate RowLess(a: RawRow, b: RawRow) {
    a.slot < b.slot ||
    (a.slot == b.slot && (a.writeVersion < b.writeVersion ||
                          (a.writeVersion == b.writeVersion && LexLess(a.pubkey, b.pubkey))))
  }

  lemma RowLessTotal(a: RawRow, b: RawRow)
    ensures RowLess(a, b) || RowLess(b, a) || RawKey(a) == RawKey(b)
    ensures !(RowLess(a, b) && RowLess(b, a))
    ensures RawKey(a) == RawKey(b) ==> !RowLess(a, b)
  {
    LexTotal(a.pubkey, b.pubkey);
  }

  lemma RowLessTransitive(a: RawRow, b: RawRow, c: RawRow)
    requires RowLess(a, b) && RowLess(b, c)
    ensures RowLess(a, c)
  {
    if LexLess(a.pubkey, b.pubkey) && LexLess(b.pubkey, c.pubkey) {
      LexTransitive(a.pubkey, b.pubkey, c.pubkey);
    }
  }

  ghost predicate Sorted(rows: seq<Entry>) {
    forall i, j :: 0 <= i < j < |rows| ==> RowLess(rows[i].row, rows[j].row)
  }

  // ------------------------------------------------------ FINAL, in order

  /** Put a row in its place; of two rows with one key the newer stays, the later on a tie. */
  function Upsert(rows: seq<Entry>, e: Entry): seq<Entry> {
    if rows == [] then [e]
    else if RowLess(e.row, rows[0].row) then [e] + rows
    else if RawKey(e.row) == RawKey(rows[0].row) then (if e.at < rows[0].at then rows else [e] + rows[1..])
    else [rows[0]] + Upsert(rows[1..], e)
  }

  /** `SELECT .. FROM account_updates FINAL ORDER BY slot, write_version, pubkey`. */
  function OrderedFinal(table: seq<Entry>): seq<Entry> {
    if table == [] then [] else Upsert(OrderedFinal(table[..|table| - 1]), table[|table| - 1])
  }

  /** The rows of a list, by key. */
  function ByKey(rows: seq<Entry>): map<Key, Entry> {
    if rows == [] then map[] else ByKey(rows[1..])[RawKey(rows[0].row) := rows[0]]
  }

  lemma {:induction false} ByKeyMembers(rows: seq<Entry>)
    requires Sorted(rows)
    ensures forall k :: k in ByKey(rows) ==> ByKey(rows)[k] in rows && RawKey(ByKey(rows)[k].row) == k
    ensures forall x :: x in rows ==> RawKey(x.row) in ByKey(rows) && ByKey(rows)[RawKey(x.row)] == x
  {
    if rows != [] {
      ByKeyMembers(rows[1..]);
      forall x | x in rows
        ensures RawKey(x.row) in ByKey(rows) && ByKey(rows)[RawKey(x.row)] == x
      {
        var i :| 0 <= i < |rows| && rows[i] == x;
        if i > 0 {
          assert x == rows[1..][i - 1];
          RowLessTotal(rows[0].row, x.row);
        }
      }
    }
  }

  lemma {:induction false} UpsertHead(rows: seq<Entry>, e: Entry, bound: RawRow)
    requires forall i :: 0 <= i < |rows| ==> RowLess(bound, rows[i].row)
    requires RowLess(bound, e.row)
    ensures forall i :: 0 <= i < |Upsert(rows, e)| ==> RowLess(bound, Upsert(rows, e)[i].row)
  {
    if rows != [] {
      UpsertHead(rows[1..], e, bound);
    }
  }

  lemma {:induction false} UpsertSorted(rows: seq<Entry>, e: Entry)
    requires Sorted(rows)
    ensures Sorted(Upsert(rows, e))
    ensures var k := RawKey(e.row);
      ByKey(Upsert(rows, e)) == if k in ByKey(rows) && e.at < ByKey(rows)[k].at then ByKey(rows) else ByKey(rows)[k := e]
  {
    if rows != [] {
      var tail := rows[1..];
      UpsertSorted(tail, e);
      RowLessTotal(e.row, rows[0].row);
      if RowLess(e.row, rows[0].row) {
        HeadBelow(rows, e);
      } else if RawKey(e.row) == RawKey(rows[0].row) {
        ReplaceHead(rows, e);
      } else {
        UpsertHead(tail, e, rows[0].row);
        var rest := Upsert(tail, e);
        assert ([rows[0]] + rest)[1..] == rest;
      }
    }
  }

  /** A row below the first joins in front: its key is new. */
  lemma HeadBelow(rows: seq<Entry>, e: Entry)
    requires Sorted(rows) && rows != [] && RowLess(e.row, rows[0].row)
    ensures Sorted([e] + rows) && ByKey([e] + rows) == ByKey(rows)[RawKey(e.row) := e]
    ensures RawKey(e.row) !in ByKey(rows)
  {
    forall j | 0 <= j < |rows|
      ensures RowLess(e.row, rows[j].row)
    {
      if j > 0 { RowLessTransitive(e.row, rows[0].row, rows[j].row); }
    }
    ByKeyMembers(rows);
    if RawKey(e.row) in ByKey(rows) {
      var j :| 0 <= j < |rows| && rows[j] == ByKey(rows)[RawKey(e.row)];
      RowLessTotal(e.row, rows[j].row);
    }
    assert ([e] + rows)[1..] == rows;
  }

  lemma ReplaceHead(rows: seq<Entry>, e: Entry)
    requires Sorted(rows) && rows != [] && RawKey(e.row) == RawKey(rows[0].row)
    ensures Sorted([e] + rows[1..]) && ByKey([e] + rows[1..]) == ByKey(rows)[RawKey(e.row) := e]
    ensures ByKey(rows)[RawKey(e.row)] == rows[0]
  {
    assert ([e] + rows[1..])[1..] == rows[1..];
    forall j | 0 <= j < |rows| - 1
      ensures RowLess(e.row, rows[1..][j].row)
    {
      assert RowLess(rows[0].row, rows[j + 1].row);
    }
  }

  /** The ordered query is `FINAL`: same keys, same winners, each once. */
  lemma {:induction false} OrderedFinalIsFinal(table: seq<Entry>)
    ensures Sorted(OrderedFinal(table))
    ensures ByKey(OrderedFinal(table)) == Final(table, RawKey)
  {
    if table != [] {
      OrderedFinalIsFinal(table[..|table| - 1]);
      UpsertSorted(OrderedFinal(table[..|table| - 1]), table[|table| - 1]);
    }
  }

  /** A row is in the ordered query exactly when it is the `FINAL` winner of its key. */
  lemma OrderedFinalMembers(table: seq<Entry>, x: Entry)
    ensures x in OrderedFinal(table) <==> RawKey(x.row) in Final(table, RawKey) && Final(table, RawKey)[RawKey(x.row)] == x
  {
    OrderedFinalIsFinal(table);
    ByKeyMembers(OrderedFinal(table));
  }

  /** `FINAL` never has more rows than were inserted. */
  lemma {:induction false} OrderedFinalCount(table: seq<Entry>)
    ensures |OrderedFinal(table)| <= |table|
  {
    if table != [] {
      OrderedFinalCount(table[..|table| - 1]);
      UpsertLength(OrderedFinal(table[..|table| - 1]), table[|table| - 1]);
    }
  }

  lemma {:induction false} UpsertLength(rows: seq<Entry>, e: Entry)
    ensures |Upsert(rows, e)| <= |rows| + 1
  {
    if rows != [] { UpsertLength(rows[1..], e); }
  }

  // -------------------------------------------------------------- partitions

  /** `WHERE slot >= lo AND slot < hi`. */
  function Range(rows: seq<Entry>, lo: nat, hi: nat): seq<Entry> {
    if rows == [] then []
    else (if lo <= rows[0].row.slot < hi then [rows[0]] else []) + Range(rows[1..], lo, hi)
  }

  lemma {:induction false} RangeMembers(rows: seq<Entry>, lo: nat, hi: nat)
    ensures forall x :: x in Range(rows, lo, hi) <==> x in rows && lo <= x.row.slot < hi
    ensures |Range(rows, lo, hi)| <= |rows|
  {
    if rows != [] {
      RangeMembers(rows[1..], lo, hi);
      assert forall x :: x in rows <==> x == rows[0] || x in rows[1..];
    }
  }

  lemma {:induction false} RangeSorted(rows: seq<Entry>, lo: nat, hi: nat)
    requires Sorted(rows)
    ensures Sorted(Range(rows, lo, hi))
  {
    if rows != [] {
      RangeSorted(rows[1..], lo, hi);
      RangeMembers(rows[1..], lo, hi);
      var rest := Range(rows[1..], lo, hi);
      forall j | 0 <= j < |rest|
        ensures RowLess(rows[0].row, rest[j].row)
      {
        assert rest[j] in rows[1..];
        var i :| 0 <= i < |rows| - 1 && rows[1..][i] == rest[j];
        assert RowLess(rows[0].row, rows[i + 1].row);
      }
    }
  }

  lemma {:induction false} RangeEmpty(rows: seq<Entry>, lo: nat, hi: nat)
    requires forall i :: 0 <= i < |rows| ==> rows[i].row.slot >= hi
    ensures Range(rows, lo, hi) == []
  {
    if rows != [] { RangeEmpty(rows[1..], lo, hi); }
  }

  /** Neighbouring ranges of ordered rows concatenate. */
  lemma {:induction false} RangesTile(rows: seq<Entry>, lo: nat, mid: nat, hi: nat)
    requires Sorted(rows) && lo <= mid <= hi
    ensures Range(rows, lo, mid) + Range(rows, mid, hi) == Range(rows, lo, hi)
  {
    hide LexLess;
    if rows != [] {
      RangesTile(rows[1..], lo, mid, hi);
      if rows[0].row.slot >= mid {
        forall i | 0 <= i < |rows| - 1
          ensures rows[1..][i].row.slot >= mid
        {
          assert RowLess(rows[0].row, rows[i + 1].row);
        }
        RangeEmpty(rows[1..], lo, mid);
      }
    }
  }

  lemma {:induction false} RangeAll(rows: seq<Entry>, lo: nat, hi: nat)
    requires forall x :: x in rows ==> lo <= x.row.slot < hi
    ensures Range(rows, lo, hi) == rows
  {
    if rows != [] {
      assert rows[0] in rows;
      RangeAll(rows[1..], lo, hi);
    }
  }

  lemma SomeMember<T>(s: seq<T>)
    ensures s != [] ==> exists x :: x in s
  {
    if s != [] { assert s[0] in s; }
  }

  /** Two ordered lists with the same members are the same list. */
  lemma {:induction false} SortedUnique(a: seq<Entry>, b: seq<Entry>)
    requires Sorted(a) && Sorted(b)
    requires forall x :: x in a <==> x in b
    ensures a == b
  {
    SomeMember(a);
    SomeMember(b);
    if a != [] && b != [] {
      SameHead(a, b);
      forall x
        ensures x in a[1..] <==> x in b[1..]
      {
        TailMembers(a, x);
        TailMembers(b, x);
      }
      SortedUnique(a[1..], b[1..]);
    }
  }

  lemma SameHead(a: seq<Entry>, b: seq<Entry>)
    requires Sorted(a) && Sorted(b) && a != [] && b != []
    requires forall x :: x in a <==> x in b
    ensures a[0] == b[0]
  {
    assert a[0] in b && b[0] in a;
    var i :| 0 <= i < |b| && b[i] == a[0];
    var j :| 0 <= j < |a| && a[j] == b[0];
    RowLessTotal(a[0].row, b[0].row);
  }

  lemma TailMembers(a: seq<Entry>, x: Entry)
    requires Sorted(a) && a != []
    ensures x in a[1..] <==> x in a && x != a[0]
  {
    if a[0] in a[1..] {
      var i :| 0 <= i < |a| - 1 && a[1..][i] == a[0];
      RowLessTotal(a[0].row, a[i + 1].row);
    }
  }
}
