/**
 * Chart series built by grouping records under a string key and adding up
 * an amount per key. The screens fill a dictionary in a `forEach` loop
 * (`if (!map[key]) map[key] = …; map[key] += amount`) and then sort its
 * entries by key. Since the keys of a dictionary are distinct, the sorted
 * entries are determined by the dictionary alone; the model keeps the
 * entries sorted by key from the start, as an association list.
 */
module Grouping {
  import opened Common
  import opened Text

  /** One bucket of a series: its key, the display label chosen when the bucket was created, and its running total. */
  datatype Row = Row(key: string, caption: string, total: int)

  function TotalOf(row: Row): int {
    row.total
  }

  function Keys(rows: seq<Row>): set<string> {
    set i | 0 <= i < |rows| :: rows[i].key
  }

  /** Keys strictly ascending: sorted and without duplicates. */
  predicate StrictlySorted(rows: seq<Row>) {
    forall i, j :: 0 <= i < j < |rows| ==> Less(rows[i].key, rows[j].key)
  }

  /** The total stored under k, 0 when there is no bucket for k. */
  function Lookup(rows: seq<Row>, k: string): int {
    if rows == [] then 0
    else if rows[0].key == k then rows[0].total
    else Lookup(rows[1..], k)
  }

  /** Add amount into the bucket for key, creating it (with this caption and total 0) when absent. */
  function Accumulate(rows: seq<Row>, key: string, caption: string, amount: int): (r: seq<Row>)
    ensures |r| >= 1
  {
    if rows == [] then [Row(key, caption, amount)]
    else if rows[0].key == key then [rows[0].(total := rows[0].total + amount)] + rows[1..]
    else if Less(key, rows[0].key) then [Row(key, caption, amount)] + rows
    else [rows[0]] + Accumulate(rows[1..], key, caption, amount)
  }

  lemma SortedCons(a: Row, s: seq<Row>)
    requires StrictlySorted(s)
    requires forall i :: 0 <= i < |s| ==> Less(a.key, s[i].key)
    ensures StrictlySorted([a] + s)
  {
    var r := [a] + s;
    forall i, j | 0 <= i < j < |r| ensures Less(r[i].key, r[j].key) {
      if i > 0 {
        assert r[i] == s[i - 1] && r[j] == s[j - 1];
      }
    }
  }

  lemma KeysCons(a: Row, s: seq<Row>)
    ensures Keys([a] + s) == {a.key} + Keys(s)
  {
    var r := [a] + s;
    forall k | k in Keys(r) ensures k in {a.key} + Keys(s) {
      var i :| 0 <= i < |r| && r[i].key == k;
      if i > 0 { assert s[i - 1].key == k; }
    }
    forall k | k in {a.key} + Keys(s) ensures k in Keys(r) {
      if k == a.key {
        assert r[0].key == k;
      } else {
        var i :| 0 <= i < |s| && s[i].key == k;
        assert r[i + 1].key == k;
      }
    }
  }

  lemma {:induction false} AccumulateKeys(rows: seq<Row>, key: string, caption: string, amount: int)
    ensures Keys(Accumulate(rows, key, caption, amount)) == Keys(rows) + {key}
  {
    var r := Accumulate(rows, key, caption, amount);
    if rows == [] {
      KeysCons(Row(key, caption, amount), []);
      assert r == [Row(key, caption, amount)] + [];
    } else {
      assert rows == [rows[0]] + rows[1..];
      KeysCons(rows[0], rows[1..]);
      if rows[0].key == key {
        KeysCons(r[0], rows[1..]);
      } else if Less(key, rows[0].key) {
        KeysCons(Row(key, caption, amount), rows);
      } else {
        AccumulateKeys(rows[1..], key, caption, amount);
        KeysCons(rows[0], Accumulate(rows[1..], key, caption, amount));
      }
    }
  }

  /** Accumulating keeps the keys strictly ascending. */
  lemma {:induction false} AccumulateSorted(rows: seq<Row>, key: string, caption: string, amount: int)
    requires StrictlySorted(rows)
    ensures StrictlySorted(Accumulate(rows, key, caption, amount))
  {
    var r := Accumulate(rows, key, caption, amount);
    if rows == [] {
    } else if rows[0].key == key {
      assert forall i :: 0 <= i < |rows| ==> r[i].key == rows[i].key;
    } else if Less(key, rows[0].key) {
      forall i | 0 <= i < |rows| ensures Less(key, rows[i].key) {
        if i > 0 { LessTransitive(key, rows[0].key, rows[i].key); }
      }
      SortedCons(Row(key, caption, amount), rows);
    } else {
      var t := Accumulate(rows[1..], key, caption, amount);
      AccumulateSorted(rows[1..], key, caption, amount);
      AccumulateKeys(rows[1..], key, caption, amount);
      LessTrichotomy(key, rows[0].key);
      forall i | 0 <= i < |t| ensures Less(rows[0].key, t[i].key) {
        assert t[i].key in Keys(t);
        if t[i].key != key {
          var j :| 0 <= j < |rows[1..]| && rows[1..][j].key == t[i].key;
          assert rows[j + 1].key == t[i].key;
        }
      }
      SortedCons(rows[0], t);
    }
  }

  /** Accumulating adds the amount to the grand total of the series. */
  lemma {:induction false} AccumulateSum(rows: seq<Row>, key: string, caption: string, amount: int)
    ensures SumOf(Accumulate(rows, key, caption, amount), TotalOf) == SumOf(rows, TotalOf) + amount
  {
    var r := Accumulate(rows, key, caption, amount);
    if rows == [] {
      assert r == [] + [Row(key, caption, amount)];
    } else {
      assert rows == [rows[0]] + rows[1..];
      SumOfCons(rows[0], rows[1..], TotalOf);
      if rows[0].key == key {
        SumOfCons(r[0], rows[1..], TotalOf);
      } else if Less(key, rows[0].key) {
        SumOfCons(Row(key, caption, amount), rows, TotalOf);
      } else {
        AccumulateSum(rows[1..], key, caption, amount);
        SumOfCons(rows[0], Accumulate(rows[1..], key, caption, amount), TotalOf);
      }
    }
  }

  /** Accumulating changes the total of its own key only, and by exactly the amount. */
  lemma {:induction false} AccumulateLookup(rows: seq<Row>, key: string, caption: string, amount: int, k: string)
    requires StrictlySorted(rows)
    ensures Lookup(Accumulate(rows, key, caption, amount), k) == Lookup(rows, k) + (if k == key then amount else 0)
  {
    if rows != [] && rows[0].key != key && !Less(key, rows[0].key) {
      AccumulateLookup(rows[1..], key, caption, amount, k);
    } else if rows != [] && rows[0].key != key && k == key {
      LookupAbsent(rows, key);
    }
  }

  /** A key below the first key of a sorted series has no bucket. */
  lemma {:induction false} LookupAbsent(rows: seq<Row>, k: string)
    requires StrictlySorted(rows) && rows != [] && Less(k, rows[0].key)
    ensures Lookup(rows, k) == 0
  {
    LessIrreflexive(k);
    if |rows| > 1 {
      LessTransitive(k, rows[0].key, rows[1].key);
      LookupAbsent(rows[1..], k);
    }
  }

  /** The caption of the bucket for k, None when there is no bucket for k. */
  function CaptionOf(rows: seq<Row>, k: string): Option<string> {
    if rows == [] then None
    else if rows[0].key == k then Some(rows[0].caption)
    else CaptionOf(rows[1..], k)
  }

  /** A new bucket takes the caption it is created with; an existing bucket keeps its own. */
  lemma {:induction false} AccumulateCaption(rows: seq<Row>, key: string, caption: string, amount: int, k: string)
    requires StrictlySorted(rows)
    ensures CaptionOf(Accumulate(rows, key, caption, amount), k) ==
              if k == key && CaptionOf(rows, k).None? then Some(caption) else CaptionOf(rows, k)
  {
    if rows != [] && rows[0].key != key && !Less(key, rows[0].key) {
      AccumulateCaption(rows[1..], key, caption, amount, k);
    } else if rows != [] && rows[0].key != key && k == key {
      CaptionAbsent(rows, key);
    }
  }

  /** A key below the first key of a sorted series has no caption. */
  lemma {:induction false} CaptionAbsent(rows: seq<Row>, k: string)
    requires StrictlySorted(rows) && rows != [] && Less(k, rows[0].key)
    ensures CaptionOf(rows, k) == None
  {
    LessIrreflexive(k);
    if |rows| > 1 {
      LessTransitive(k, rows[0].key, rows[1].key);
      CaptionAbsent(rows[1..], k);
    }
  }

  // ---------------------------------------------------------------------
  // The whole loop, as a left fold over the records.

  function GroupAll<T>(xs: seq<T>, key: T -> string, caption: T -> string, amount: T -> int): seq<Row> {
    if xs == [] then []
    else
      var x := xs[|xs| - 1];
      Accumulate(GroupAll(xs[..|xs| - 1], key, caption, amount), key(x), caption(x), amount(x))
  }

  /** The sum of the amounts of the records filed under k. */
  function KeyTotal<T>(xs: seq<T>, key: T -> string, amount: T -> int, k: string): int {
    if xs == [] then 0
    else
      var x := xs[|xs| - 1];
      KeyTotal(xs[..|xs| - 1], key, amount, k) + (if key(x) == k then amount(x) else 0)
  }

  /** The caption of the first record filed under k, None when there is none. */
  function FirstCaption<T>(xs: seq<T>, key: T -> string, caption: T -> string, k: string): Option<string> {
    if xs == [] then None
    else
      var x := xs[|xs| - 1];
      var earlier := FirstCaption(xs[..|xs| - 1], key, caption, k);
      if earlier.None? && key(x) == k then Some(caption(x)) else earlier
  }

  function KeysOf<T>(xs: seq<T>, key: T -> string): set<string> {
    set i | 0 <= i < |xs| :: key(xs[i])
  }

  /**
   * Grouping gives one bucket per distinct key, in ascending key order; each
   * bucket holds the sum of its records' amounts, and the buckets together
   * hold the sum of all amounts. A bucket's caption is that of the first
   * record filed under its key.
   */
  lemma {:induction false} GroupAllFacts<T>(xs: seq<T>, key: T -> string, caption: T -> string, amount: T -> int)
    ensures StrictlySorted(GroupAll(xs, key, caption, amount))
    ensures Keys(GroupAll(xs, key, caption, amount)) == KeysOf(xs, key)
    ensures SumOf(GroupAll(xs, key, caption, amount), TotalOf) == SumOf(xs, amount)
    ensures forall k :: Lookup(GroupAll(xs, key, caption, amount), k) == KeyTotal(xs, key, amount, k)
    ensures forall k :: CaptionOf(GroupAll(xs, key, caption, amount), k) == FirstCaption(xs, key, caption, k)
  {
    if xs != [] {
      var init, x := xs[..|xs| - 1], xs[|xs| - 1];
      var g := GroupAll(init, key, caption, amount);
      var r := GroupAll(xs, key, caption, amount);
      GroupAllFacts(init, key, caption, amount);
      assert r == Accumulate(g, key(x), caption(x), amount(x));
      assert StrictlySorted(r) by {
        AccumulateSorted(g, key(x), caption(x), amount(x));
      }
      assert SumOf(r, TotalOf) == SumOf(xs, amount) by {
        AccumulateSum(g, key(x), caption(x), amount(x));
      }
      forall k ensures Lookup(r, k) == KeyTotal(xs, key, amount, k) {
        AccumulateLookup(g, key(x), caption(x), amount(x), k);
      }
      forall k ensures CaptionOf(r, k) == FirstCaption(xs, key, caption, k) {
        AccumulateCaption(g, key(x), caption(x), amount(x), k);
      }
      assert Keys(r) == KeysOf(xs, key) by {
        AccumulateKeys(g, key(x), caption(x), amount(x));
        KeysOfSnoc(xs, key);
      }
    }
  }

  lemma KeysOfSnoc<T>(xs: seq<T>, key: T -> string)
    requires xs != []
    ensures KeysOf(xs, key) == KeysOf(xs[..|xs| - 1], key) + {key(xs[|xs| - 1])}
  {
    var init := xs[..|xs| - 1];
    forall k | k in KeysOf(xs, key) ensures k in KeysOf(init, key) + {key(xs[|xs| - 1])} {
      var i :| 0 <= i < |xs| && key(xs[i]) == k;
      if i < |init| { assert key(init[i]) == k; }
    }
    forall k | k in KeysOf(init, key) ensures k in KeysOf(xs, key) {
      var i :| 0 <= i < |init| && key(init[i]) == k;
      assert key(xs[i]) == k;
    }
  }

  /** The `forEach` loop that fills the buckets, record by record. */
  method Group<T>(xs: seq<T>, key: T -> string, caption: T -> string, amount: T -> int) returns (rows: seq<Row>)
    ensures rows == GroupAll(xs, key, caption, amount)
    ensures StrictlySorted(rows)
    ensures Keys(rows) == KeysOf(xs, key)
    ensures SumOf(rows, TotalOf) == SumOf(xs, amount)
    ensures forall k :: Lookup(rows, k) == KeyTotal(xs, key, amount, k)
    ensures forall k :: CaptionOf(rows, k) == FirstCaption(xs, key, caption, k)
  {
    rows := [];
    var i := 0;
    while i < |xs|
      invariant 0 <= i <= |xs|
      invariant rows == GroupAll(xs[..i], key, caption, amount)
    {
      assert xs[..i + 1][..i] == xs[..i];
      rows := Accumulate(rows, key(xs[i]), caption(xs[i]), amount(xs[i]));
      i := i + 1;
    }
    assert xs[..i] == xs;
    GroupAllFacts(xs, key, caption, amount);
  }
}
