/**
 * proto-service/src/metadata.rs: a case-normalising multimap kept in key order, with
 * its wire form (`to_packet_metadata`, `from_packet_metadata` of the pipe transport).
 *
 * The ordered map is a list of rows, strictly increasing by key.
 */
module Metadata {
  import opened Wire

  datatype Row = Row(key: string, values: seq<string>)

  type Rows = seq<Row>

  // ---------------------------------------------------------------------------
  // Keys: ASCII lowercasing and the order of the underlying tree map
  // ---------------------------------------------------------------------------

  function LowerChar(c: char): char {
    if 'A' <= c <= 'Z' then ('a' as int + (c as int - 'A' as int)) as char else c
  }

  function Lower(s: string): (r: string)
    ensures |r| == |s|
    ensures forall i :: 0 <= i < |s| ==> r[i] == LowerChar(s[i])
  {
    seq(|s|, i requires 0 <= i < |s| => LowerChar(s[i]))
  }

  predicate HasUpper(s: string) {
    exists i :: 0 <= i < |s| && 'A' <= s[i] <= 'Z'
  }

  /** The borrowing form: only allocates a lowered copy when there is something to lower. */
  function Normalize(key: string): string {
    if HasUpper(key) then Lower(key) else key
  }

  predicate SameLetter(a: char, b: char) {
    || a == b
    || ('A' <= a <= 'Z' && b as int == a as int + 32)
    || ('A' <= b <= 'Z' && a as int == b as int + 32)
  }

  /** Equality of header names: the same characters up to ASCII case. */
  predicate SameName(a: string, b: string) {
    |a| == |b| && forall i :: 0 <= i < |a| ==> SameLetter(a[i], b[i])
  }

  /** Both normal forms agree, and they identify exactly the names equal up to case. */
  lemma NormalFormsAgree(a: string, b: string)
    ensures Normalize(a) == Lower(a)
    ensures SameName(a, b) <==> Lower(a) == Lower(b)
    ensures Lower(Lower(a)) == Lower(a) && !HasUpper(Lower(a))
  {
    if !HasUpper(a) {
      assert Lower(a) == a;
    }
    if Lower(a) == Lower(b) {
      forall i | 0 <= i < |a| ensures SameLetter(a[i], b[i]) {
        assert LowerChar(a[i]) == Lower(a)[i] == Lower(b)[i] == LowerChar(b[i]);
      }
    }
    if SameName(a, b) {
      assert forall i :: 0 <= i < |a| ==> SameLetter(a[i], b[i]) ==> Lower(a)[i] == Lower(b)[i];
    }
  }

  /** The key order: lexicographic by scalar value, as for UTF-8 byte strings. */
  /** `a` and `b` agree before `i`, where `a` ends or has the smaller character. */
  predicate FirstDifference(a: string, b: string, i: int) {
    && 0 <= i <= |a| && i < |b| && a[..i] == b[..i]
    && (i < |a| ==> a[i] < b[i])
  }

  predicate Less(a: string, b: string) {
    |b| > 0 && (|a| == 0 || a[0] < b[0] || (a[0] == b[0] && Less(a[1..], b[1..])))
  }

  /** The order of Rust strings: at the first difference the smaller character is first. */
  lemma {:induction false} LessIsLexicographic(a: string, b: string)
    ensures Less(a, b) <==> exists i :: FirstDifference(a, b, i)
  {
    if a != "" && b != "" && a[0] == b[0] {
      LessIsLexicographic(a[1..], b[1..]);
      if Less(a[1..], b[1..]) {
        var i :| FirstDifference(a[1..], b[1..], i);
        assert a == [a[0]] + a[1..] && b == [b[0]] + b[1..];
        assert FirstDifference(a, b, i + 1);
      }
      if i :| FirstDifference(a, b, i) {
        assert i > 0 && a[1..][..i - 1] == a[..i][1..] && b[1..][..i - 1] == b[..i][1..];
        assert FirstDifference(a[1..], b[1..], i - 1);
      }
    } else if Less(a, b) {
      assert FirstDifference(a, b, 0);
    }
  }

  lemma {:induction false} LessTotal(a: string, b: string)
    ensures a == b || Less(a, b) || Less(b, a)
    ensures Less(a, b) ==> a != b && !Less(b, a)
  {
    if |a| > 0 && |b| > 0 && a[0] == b[0] {
      LessTotal(a[1..], b[1..]);
      assert a == [a[0]] + a[1..] && b == [b[0]] + b[1..];
    }
  }

  lemma {:induction false} LessTransitive(a: string, b: string, c: string)
    requires Less(a, b) && Less(b, c)
    ensures Less(a, c)
  {
    if |a| > 0 && a[0] == b[0] == c[0] {
      LessTransitive(a[1..], b[1..], c[1..]);
    }
  }

  // ---------------------------------------------------------------------------
  // The ordered multimap as a value
  // ---------------------------------------------------------------------------

  predicate AllAbove(k: string, rows: Rows) {
    forall i :: 0 <= i < |rows| ==> Less(k, rows[i].key)
  }

  predicate Sorted(rows: Rows) {
    rows == [] || (AllAbove(rows[0].key, rows[1..]) && Sorted(rows[1..]))
  }

  /** What every reachable map satisfies: sorted, lowercased keys, no key without a value. */
  ghost predicate Valid(rows: Rows) {
    && Sorted(rows)
    && forall i :: 0 <= i < |rows| ==> Lower(rows[i].key) == rows[i].key && rows[i].values != []
  }

  function Find(rows: Rows, key: string): Option<seq<string>> {
    if rows == [] then None
    else if rows[0].key == key then Some(rows[0].values)
    else Find(rows[1..], key)
  }

  function OrEmpty(values: Option<seq<string>>): seq<string> {
    if values.Some? then values.value else []
  }

  /** Replaces the row of `key`, or adds it at its place in the order. */
  function Put(rows: Rows, key: string, values: seq<string>): Rows {
    if rows == [] then [Row(key, values)]
    else if rows[0].key == key then [Row(key, values)] + rows[1..]
    else if Less(key, rows[0].key) then [Row(key, values)] + rows
    else [rows[0]] + Put(rows[1..], key, values)
  }

  function Delete(rows: Rows, key: string): Rows {
    if rows == [] then []
    else if rows[0].key == key then rows[1..]
    else [rows[0]] + Delete(rows[1..], key)
  }

  function Insert(rows: Rows, key: string, value: string): Rows {
    Put(rows, Lower(key), [value])
  }

  function Append(rows: Rows, key: string, value: string): Rows {
    Put(rows, Lower(key), OrEmpty(Find(rows, Lower(key))) + [value])
  }

  function Remove(rows: Rows, key: string): Rows {
    Delete(rows, Normalize(key))
  }

  function GetAll(rows: Rows, key: string): seq<string> {
    OrEmpty(Find(rows, Normalize(key)))
  }

  function RowEntries(key: string, values: seq<string>): (r: seq<Entry>)
    ensures |r| == |values|
    ensures forall i :: 0 <= i < |r| ==> r[i] == Entry(key, values[i])
  {
    seq(|values|, i requires 0 <= i < |values| => Entry(key, values[i]))
  }

  /** `iter_flat`, which is also the wire form `to_packet_metadata`. */
  function Flatten(rows: Rows): seq<Entry> {
    if rows == [] then []
    else RowEntries(rows[0].key, rows[0].values) + Flatten(rows[1..])
  }

  /** `from_packet_metadata`: appends the wire entries one after the other. */
  function FromEntries(entries: seq<Entry>): Rows {
    if entries == [] then []
    else
      var last := entries[|entries| - 1];
      Append(FromEntries(entries[..|entries| - 1]), last.key, last.value)
  }

  // ---------------------------------------------------------------------------
  // Map laws
  // ---------------------------------------------------------------------------

  lemma {:induction false} PutKeys(rows: Rows, key: string, values: seq<string>, bound: string)
    requires AllAbove(bound, rows) && Less(bound, key)
    ensures AllAbove(bound, Put(rows, key, values))
  {
    if rows != [] && rows[0].key != key && !Less(key, rows[0].key) {
      PutKeys(rows[1..], key, values, bound);
    }
  }

  lemma {:induction false} PutValid(rows: Rows, key: string, values: seq<string>)
    requires Valid(rows) && Lower(key) == key && values != []
    ensures Valid(Put(rows, key, values))
  {
    if rows == [] {
    } else {
      LessTotal(key, rows[0].key);
      if rows[0].key == key {
      } else if Less(key, rows[0].key) {
        forall i | 0 <= i < |rows| ensures Less(key, rows[i].key) {
          if i > 0 {
            assert rows[i] == rows[1..][i - 1];
            LessTransitive(key, rows[0].key, rows[i].key);
          }
        }
        assert Put(rows, key, values)[1..] == rows;
      } else {
        PutValid(rows[1..], key, values);
        PutKeys(rows[1..], key, values, rows[0].key);
        assert Put(rows, key, values)[1..] == Put(rows[1..], key, values);
      }
    }
  }

  lemma {:induction false} FindPut(rows: Rows, key: string, values: seq<string>, k: string)
    ensures Find(Put(rows, key, values), k) == if k == key then Some(values) else Find(rows, k)
  {
    if rows == [] {
    } else if rows[0].key == key {
    } else if Less(key, rows[0].key) {
      assert Put(rows, key, values)[1..] == rows;
    } else {
      FindPut(rows[1..], key, values, k);
      assert Put(rows, key, values)[1..] == Put(rows[1..], key, values);
    }
  }

  lemma {:induction false} FindAbove(rows: Rows, k: string)
    requires AllAbove(k, rows)
    ensures Find(rows, k) == None
  {
    if rows != [] {
      LessTotal(k, rows[0].key);
      FindAbove(rows[1..], k);
    }
  }

  lemma {:induction false} DeleteLaws(rows: Rows, key: string, k: string)
    requires Valid(rows)
    ensures Valid(Delete(rows, key))
    ensures Find(Delete(rows, key), k) == if k == key then None else Find(rows, k)
    ensures forall i :: 0 <= i < |Delete(rows, key)| ==> Delete(rows, key)[i] in rows
  {
    if rows == [] {
    } else if rows[0].key == key {
      if k == key {
        FindAbove(rows[1..], k);
      }
    } else {
      DeleteLaws(rows[1..], key, k);
      var rest := Delete(rows[1..], key);
      assert Delete(rows, key)[1..] == rest;
      forall i | 0 <= i < |rest| ensures Less(rows[0].key, rest[i].key) {
        var j :| 0 <= j < |rows[1..]| && rows[1..][j] == rest[i];
      }
    }
  }

  // ---------------------------------------------------------------------------
  // Refinement of an operation log (field semantics of section 5.3 of RFC 9110)
  // ---------------------------------------------------------------------------

  datatype Op =
    | InsertOp(key: string, value: string)
    | AppendOp(key: string, value: string)
    | RemoveOp(key: string)
    | ClearOp

  function Replay(ops: seq<Op>): Rows {
    if ops == [] then []
    else
      var before := Replay(ops[..|ops| - 1]);
      match ops[|ops| - 1]
      case InsertOp(k, v) => Insert(before, k, v)
      case AppendOp(k, v) => Append(before, k, v)
      case RemoveOp(k) => Remove(before, k)
      case ClearOp => []
  }

  /** The values of `name` that survive in the log, oldest first; names equal up to case. */
  function Surviving(ops: seq<Op>, name: string): seq<string> {
    if ops == [] then []
    else
      var before := Surviving(ops[..|ops| - 1], name);
      match ops[|ops| - 1]
      case InsertOp(k, v) => if SameName(k, name) then [v] else before
      case AppendOp(k, v) => if SameName(k, name) then before + [v] else before
      case RemoveOp(k) => if SameName(k, name) then [] else before
      case ClearOp => []
  }

  /** Every map the public operations can build is valid and reads back its own log. */
  lemma {:induction false} RefinesLog(ops: seq<Op>, name: string)
    ensures Valid(Replay(ops))
    ensures GetAll(Replay(ops), name) == Surviving(ops, name)
  {
    if ops != [] {
      var rest := ops[..|ops| - 1];
      var before := Replay(rest);
      RefinesLog(rest, name);
      NormalFormsAgree(name, name);
      match ops[|ops| - 1]
      case InsertOp(k, v) =>
        NormalFormsAgree(k, name);
        PutValid(before, Lower(k), [v]);
        FindPut(before, Lower(k), [v], Lower(name));
      case AppendOp(k, v) =>
        NormalFormsAgree(k, name);
        var values := OrEmpty(Find(before, Lower(k))) + [v];
        PutValid(before, Lower(k), values);
        FindPut(before, Lower(k), values, Lower(name));
      case RemoveOp(k) =>
        NormalFormsAgree(k, name);
        DeleteLaws(before, Lower(k), Lower(name));
      case ClearOp =>
    }
  }

  // ---------------------------------------------------------------------------
  // Wire form: stable-sort normal form and round trip
  // ---------------------------------------------------------------------------

  /** The values listed under exactly the key `k`, in list order. */
  function ValuesOf(entries: seq<Entry>, k: string): seq<string> {
    if entries == [] then []
    else (if entries[0].key == k then [entries[0].value] else []) + ValuesOf(entries[1..], k)
  }

  predicate NotAbove(k: string, entries: seq<Entry>) {
    forall i :: 0 <= i < |entries| ==> k == entries[i].key || Less(k, entries[i].key)
  }

  predicate SortedEntries(entries: seq<Entry>) {
    entries == [] || (NotAbove(entries[0].key, entries[1..]) && SortedEntries(entries[1..]))
  }

  function LowerEntries(entries: seq<Entry>): (r: seq<Entry>)
    ensures |r| == |entries|
    ensures forall i :: 0 <= i < |r| ==> r[i] == Entry(Lower(entries[i].key), entries[i].value)
  {
    seq(|entries|, i requires 0 <= i < |entries| => Entry(Lower(entries[i].key), entries[i].value))
  }

  /** Puts `e` in front of the first entry whose key is not smaller. */
  function InsertBefore(e: Entry, entries: seq<Entry>): seq<Entry> {
    if entries == [] || e.key == entries[0].key || Less(e.key, entries[0].key) then [e] + entries
    else [entries[0]] + InsertBefore(e, entries[1..])
  }

  /** Stable insertion sort by key: the reference definition of the normal form. */
  function StableSort(entries: seq<Entry>): seq<Entry> {
    if entries == [] then [] else InsertBefore(entries[0], StableSort(entries[1..]))
  }

  lemma {:induction false} ValuesOfConcat(a: seq<Entry>, b: seq<Entry>, k: string)
    ensures ValuesOf(a + b, k) == ValuesOf(a, k) + ValuesOf(b, k)
  {
    if a == [] {
      assert a + b == b;
    } else {
      assert (a + b)[1..] == a[1..] + b;
      ValuesOfConcat(a[1..], b, k);
    }
  }

  predicate AtMost(a: string, b: string) {
    a == b || Less(a, b)
  }

  lemma AtMostTransitive(a: string, b: string, c: string)
    requires AtMost(a, b) && AtMost(b, c)
    ensures AtMost(a, c)
  {
    if a != b && b != c {
      LessTransitive(a, b, c);
    }
  }

  lemma {:induction false} InsertBeforeBound(e: Entry, entries: seq<Entry>, bound: string)
    requires NotAbove(bound, entries) && AtMost(bound, e.key)
    ensures NotAbove(bound, InsertBefore(e, entries))
  {
    if entries != [] && !AtMost(e.key, entries[0].key) {
      InsertBeforeBound(e, entries[1..], bound);
    }
  }

  lemma {:induction false} InsertBeforeSorted(e: Entry, entries: seq<Entry>)
    requires SortedEntries(entries)
    ensures SortedEntries(InsertBefore(e, entries))
  {
    if entries == [] {
    } else if AtMost(e.key, entries[0].key) {
      forall i | 0 <= i < |entries| ensures AtMost(e.key, entries[i].key) {
        if i > 0 {
          assert entries[i] == entries[1..][i - 1];
          AtMostTransitive(e.key, entries[0].key, entries[i].key);
        }
      }
      assert InsertBefore(e, entries)[1..] == entries;
    } else {
      LessTotal(e.key, entries[0].key);
      InsertBeforeSorted(e, entries[1..]);
      InsertBeforeBound(e, entries[1..], entries[0].key);
      assert InsertBefore(e, entries)[1..] == InsertBefore(e, entries[1..]);
    }
  }

  lemma {:induction false} InsertBeforeValues(e: Entry, entries: seq<Entry>, k: string)
    ensures ValuesOf(InsertBefore(e, entries), k) == ValuesOf([e] + entries, k)
  {
    if entries == [] || AtMost(e.key, entries[0].key) {
    } else {
      InsertBeforeValues(e, entries[1..], k);
      LessTotal(e.key, entries[0].key);
      assert InsertBefore(e, entries)[1..] == InsertBefore(e, entries[1..]);
      assert ([e] + entries)[1..] == entries && ([e] + entries[1..])[1..] == entries[1..];
    }
  }

  lemma {:induction false} InsertBeforeMultiset(e: Entry, entries: seq<Entry>)
    ensures multiset(InsertBefore(e, entries)) == multiset{e} + multiset(entries)
  {
    if entries == [] || AtMost(e.key, entries[0].key) {
    } else {
      InsertBeforeMultiset(e, entries[1..]);
      assert entries == [entries[0]] + entries[1..];
    }
  }

  lemma {:induction false} StableSortSorted(entries: seq<Entry>)
    ensures SortedEntries(StableSort(entries))
  {
    if entries != [] {
      StableSortSorted(entries[1..]);
      InsertBeforeSorted(entries[0], StableSort(entries[1..]));
    }
  }

  /** Sorting keeps the values of each key in their order. */
  lemma {:induction false} StableSortValues(entries: seq<Entry>, k: string)
    ensures ValuesOf(StableSort(entries), k) == ValuesOf(entries, k)
  {
    if entries != [] {
      var sorted := StableSort(entries[1..]);
      StableSortValues(entries[1..], k);
      InsertBeforeValues(entries[0], sorted, k);
      assert ([entries[0]] + sorted)[1..] == sorted;
    }
  }

  lemma {:induction false} StableSortMultiset(entries: seq<Entry>)
    ensures multiset(StableSort(entries)) == multiset(entries)
  {
    if entries != [] {
      StableSortMultiset(entries[1..]);
      InsertBeforeMultiset(entries[0], StableSort(entries[1..]));
      assert entries == [entries[0]] + entries[1..];
    }
  }

  lemma {:induction false} ValuesOfMember(entries: seq<Entry>, i: nat)
    requires i < |entries|
    ensures ValuesOf(entries, entries[i].key) != []
  {
    if i > 0 {
      ValuesOfMember(entries[1..], i - 1);
    }
  }

  lemma {:induction false} ValuesOfAbsent(entries: seq<Entry>, k: string)
    ensures ValuesOf(entries, k) != [] ==> exists i :: 0 <= i < |entries| && entries[i].key == k
  {
    if entries != [] && entries[0].key != k {
      ValuesOfAbsent(entries[1..], k);
      if ValuesOf(entries, k) != [] {
        var i :| 0 <= i < |entries[1..]| && entries[1..][i].key == k;
        assert entries[i + 1].key == k;
      }
    }
  }

  /** The first key of a sorted list is at most any key that occurs in it. */
  lemma HeadAtMost(entries: seq<Entry>, k: string)
    requires SortedEntries(entries) && ValuesOf(entries, k) != []
    ensures entries != [] && AtMost(entries[0].key, k)
  {
    ValuesOfAbsent(entries, k);
    var i :| 0 <= i < |entries| && entries[i].key == k;
    if i > 0 {
      assert entries[i] == entries[1..][i - 1];
    }
  }

  /** A sorted list is determined by the values of each key: the normal form is unique. */
  lemma {:induction false} NormalFormUnique(a: seq<Entry>, b: seq<Entry>)
    requires SortedEntries(a) && SortedEntries(b)
    requires forall k :: ValuesOf(a, k) == ValuesOf(b, k)
    ensures a == b
  {
    if a == [] {
      assert b == [] || ValuesOf(a, b[0].key) == ValuesOf(b, b[0].key);
    } else {
      ValuesOfMember(a, 0);
      HeadAtMost(b, a[0].key);
      ValuesOfMember(b, 0);
      HeadAtMost(a, b[0].key);
      LessTotal(a[0].key, b[0].key);
      var k0 := a[0].key;
      assert ValuesOf(a, k0) == ValuesOf(b, k0);
      assert a[0].value == ValuesOf(a, k0)[0] == b[0].value;
      forall k ensures ValuesOf(a[1..], k) == ValuesOf(b[1..], k) {
        assert ValuesOf(a, k) == ValuesOf(b, k);
        var head := if a[0].key == k then [a[0].value] else [];
        assert ValuesOf(a, k)[|head|..] == ValuesOf(a[1..], k);
        assert ValuesOf(b, k)[|head|..] == ValuesOf(b[1..], k);
      }
      NormalFormUnique(a[1..], b[1..]);
    }
  }

  lemma {:induction false} RowEntriesLaws(key: string, values: seq<string>, k: string)
    ensures SortedEntries(RowEntries(key, values))
    ensures ValuesOf(RowEntries(key, values), k) == if k == key then values else []
  {
    if values != [] {
      RowEntriesLaws(key, values[1..], k);
      assert RowEntries(key, values)[1..] == RowEntries(key, values[1..]);
    }
  }

  lemma {:induction false} FlattenKeys(rows: Rows, bound: string)
    requires AllAbove(bound, rows)
    ensures NotAbove(bound, Flatten(rows))
  {
    if rows != [] {
      FlattenKeys(rows[1..], bound);
    }
  }

  lemma {:induction false} ConcatSorted(a: seq<Entry>, b: seq<Entry>, key: string)
    requires SortedEntries(a) && SortedEntries(b) && NotAbove(key, b)
    requires forall i :: 0 <= i < |a| ==> a[i].key == key
    ensures SortedEntries(a + b)
  {
    if a == [] {
      assert a + b == b;
    } else {
      ConcatSorted(a[1..], b, key);
      assert (a + b)[1..] == a[1..] + b;
    }
  }

  lemma {:induction false} FlattenLaws(rows: Rows, k: string)
    requires Valid(rows)
    ensures SortedEntries(Flatten(rows))
    ensures ValuesOf(Flatten(rows), k) == OrEmpty(Find(rows, k))
  {
    if rows != [] {
      var key := rows[0].key;
      FlattenLaws(rows[1..], k);
      RowEntriesLaws(key, rows[0].values, k);
      FlattenKeys(rows[1..], key);
      ConcatSorted(RowEntries(key, rows[0].values), Flatten(rows[1..]), key);
      ValuesOfConcat(RowEntries(key, rows[0].values), Flatten(rows[1..]), k);
      if k == key {
        FindAbove(rows[1..], k);
      }
    }
  }

  /**
   * The iteration order of a map is canonical: its entries are key-sorted, each key's
   * values are in insertion order, and no other key-sorted list has the same values.
   */
  lemma IterationIsCanonical(rows: Rows, other: seq<Entry>)
    requires Valid(rows)
    ensures SortedEntries(Flatten(rows))
    ensures forall k :: ValuesOf(Flatten(rows), k) == OrEmpty(Find(rows, k))
    ensures SortedEntries(other) && (forall k :: ValuesOf(other, k) == OrEmpty(Find(rows, k))) ==>
      other == Flatten(rows)
  {
    forall k ensures ValuesOf(Flatten(rows), k) == OrEmpty(Find(rows, k)) {
      FlattenLaws(rows, k);
    }
    FlattenLaws(rows, "");
    if SortedEntries(other) && forall k :: ValuesOf(other, k) == OrEmpty(Find(rows, k)) {
      NormalFormUnique(other, Flatten(rows));
    }
  }

  lemma {:induction false} FromEntriesLaws(entries: seq<Entry>, k: string)
    ensures Valid(FromEntries(entries))
    ensures OrEmpty(Find(FromEntries(entries), k)) == ValuesOf(LowerEntries(entries), k)
  {
    if entries != [] {
      var n := |entries| - 1;
      var last := entries[n];
      var before := FromEntries(entries[..n]);
      FromEntriesLaws(entries[..n], k);
      FromEntriesLaws(entries[..n], Lower(last.key));
      NormalFormsAgree(last.key, last.key);
      var values := OrEmpty(Find(before, Lower(last.key))) + [last.value];
      PutValid(before, Lower(last.key), values);
      FindPut(before, Lower(last.key), values, k);
      var e := Entry(Lower(last.key), last.value);
      assert LowerEntries(entries) == LowerEntries(entries[..n]) + [e];
      ValuesOfConcat(LowerEntries(entries[..n]), [e], k);
    }
  }

  lemma RowAbsentBelow(rows: Rows, other: Rows)
    requires Valid(rows) && Valid(other) && rows != []
    requires forall k :: OrEmpty(Find(rows, k)) == OrEmpty(Find(other, k))
    ensures other != [] && (other[0].key == rows[0].key || Less(other[0].key, rows[0].key))
  {
    assert OrEmpty(Find(rows, rows[0].key)) == rows[0].values != [];
    assert OrEmpty(Find(other, rows[0].key)) != [];
    LessTotal(rows[0].key, other[0].key);
    if Less(rows[0].key, other[0].key) {
      forall i | 0 <= i < |other| ensures Less(rows[0].key, other[i].key) {
        if i > 0 {
          assert other[i] == other[1..][i - 1];
          LessTransitive(rows[0].key, other[0].key, other[i].key);
        }
      }
      FindAbove(other, rows[0].key);
    }
  }

  /** Valid maps with the same lookups are the same map. */
  lemma {:induction false} MapExtensional(a: Rows, b: Rows)
    requires Valid(a) && Valid(b)
    requires forall k :: OrEmpty(Find(a, k)) == OrEmpty(Find(b, k))
    ensures a == b
  {
    if a == [] {
      if b != [] {
        RowAbsentBelow(b, a);
      }
    } else {
      RowAbsentBelow(a, b);
      RowAbsentBelow(b, a);
      LessTotal(a[0].key, b[0].key);
      var k0 := a[0].key;
      assert OrEmpty(Find(a, k0)) == OrEmpty(Find(b, k0));
      FindAbove(a[1..], k0);
      FindAbove(b[1..], k0);
      forall k ensures OrEmpty(Find(a[1..], k)) == OrEmpty(Find(b[1..], k)) {
        assert OrEmpty(Find(a, k)) == OrEmpty(Find(b, k));
      }
      MapExtensional(a[1..], b[1..]);
    }
  }

  lemma {:induction false} FlattenLowered(rows: Rows)
    requires Valid(rows)
    ensures LowerEntries(Flatten(rows)) == Flatten(rows)
  {
    if rows != [] {
      FlattenLowered(rows[1..]);
      var head := RowEntries(rows[0].key, rows[0].values);
      assert LowerEntries(head + Flatten(rows[1..])) == LowerEntries(head) + LowerEntries(Flatten(rows[1..]));
      assert LowerEntries(head) == head;
    }
  }

  /** Writing a map to the wire and reading it back gives the same map. */
  lemma WireRoundTrip(rows: Rows)
    requires Valid(rows)
    ensures FromEntries(Flatten(rows)) == rows
  {
    var back := FromEntries(Flatten(rows));
    FlattenLowered(rows);
    FromEntriesLaws(Flatten(rows), "");
    forall k ensures OrEmpty(Find(back, k)) == OrEmpty(Find(rows, k)) {
      FromEntriesLaws(Flatten(rows), k);
      FlattenLaws(rows, k);
    }
    MapExtensional(back, rows);
  }

  /** The values of the entries named `k`, in any casing, in the order of the list. */
  function ValuesNamed(entries: seq<Entry>, k: string): seq<string> {
    if entries == [] then []
    else (if SameName(entries[0].key, k) then [entries[0].value] else []) + ValuesNamed(entries[1..], k)
  }

  lemma {:induction false} NamedIsLowered(entries: seq<Entry>, k: string)
    ensures ValuesNamed(entries, k) == ValuesOf(LowerEntries(entries), Lower(k))
  {
    if entries != [] {
      NamedIsLowered(entries[1..], k);
      NormalFormsAgree(entries[0].key, k);
      assert LowerEntries(entries)[1..] == LowerEntries(entries[1..]);
    }
  }

  /** What is read from the wire: for every name, in any casing, its values in entry order. */
  lemma ReadsEveryValue(entries: seq<Entry>)
    ensures Valid(FromEntries(entries))
    ensures forall k :: GetAll(FromEntries(entries), k) == ValuesNamed(entries, k)
  {
    FromEntriesLaws(entries, "");
    forall k ensures GetAll(FromEntries(entries), k) == ValuesNamed(entries, k) {
      FromEntriesLaws(entries, Lower(k));
      NamedIsLowered(entries, k);
      NormalFormsAgree(k, k);
    }
  }

  /** Reading a wire list and writing it again is the stable sort by lowercased key. */
  lemma WireNormalForm(entries: seq<Entry>)
    ensures Flatten(FromEntries(entries)) == StableSort(LowerEntries(entries))
    ensures |Flatten(FromEntries(entries))| == |entries|
    ensures multiset(Flatten(FromEntries(entries))) == multiset(LowerEntries(entries))
    ensures Flatten(FromEntries(Flatten(FromEntries(entries)))) == Flatten(FromEntries(entries))
  {
    var rows := FromEntries(entries);
    FromEntriesLaws(entries, "");
    forall k ensures ValuesOf(Flatten(rows), k) == ValuesOf(StableSort(LowerEntries(entries)), k) {
      FromEntriesLaws(entries, k);
      FlattenLaws(rows, k);
      StableSortValues(LowerEntries(entries), k);
    }
    FlattenLaws(rows, "");
    StableSortSorted(LowerEntries(entries));
    StableSortMultiset(LowerEntries(entries));
    NormalFormUnique(Flatten(rows), StableSort(LowerEntries(entries)));
    assert |multiset(Flatten(rows))| == |multiset(LowerEntries(entries))|;
    WireRoundTrip(rows);
  }

  // ---------------------------------------------------------------------------
  // The mutable map
  // ---------------------------------------------------------------------------

  lemma Lookups(rows: Rows, key: string, values: seq<string>)
    ensures forall k :: GetAll(Put(rows, Lower(key), values), k)
                     == if SameName(key, k) then values else GetAll(rows, k)
  {
    forall k ensures GetAll(Put(rows, Lower(key), values), k)
                  == if SameName(key, k) then values else GetAll(rows, k) {
      NormalFormsAgree(key, k);
      NormalFormsAgree(k, k);
      FindPut(rows, Lower(key), values, Lower(k));
    }
  }

  lemma LogExtends(op: Op)
    ensures forall ops :: (ops + [op])[..|ops + [op]| - 1] == ops
  {
  }

  class MetadataMap {
    var data: Rows

    constructor ()
      ensures data == []
    {
      data := [];
    }

    /** Replaces all values of `key`; returns the values it had. */
    method Insert(key: string, value: string) returns (previous: Option<seq<string>>)
      requires Valid(data)
      modifies this
      ensures Valid(data) && previous == Find(old(data), Lower(key))
      ensures data == Put(old(data), Lower(key), [value])
      ensures forall k :: GetAll(data, k) == if SameName(key, k) then [value] else GetAll(old(data), k)
      ensures forall ops :: old(data) == Replay(ops) ==> data == Replay(ops + [InsertOp(key, value)])
    {
      previous := Find(data, Lower(key));
      data := Put(data, Lower(key), [value]);
      NormalFormsAgree(key, key);
      PutValid(old(data), Lower(key), [value]);
      Lookups(old(data), key, [value]);
      LogExtends(InsertOp(key, value));
    }

    method Append(key: string, value: string)
      requires Valid(data)
      modifies this
      ensures Valid(data)
      ensures data == Put(old(data), Lower(key), OrEmpty(Find(old(data), Lower(key))) + [value])
      ensures forall k :: GetAll(data, k) == GetAll(old(data), k) + if SameName(key, k) then [value] else []
      ensures forall ops :: old(data) == Replay(ops) ==> data == Replay(ops + [AppendOp(key, value)])
    {
      var k := Lower(key);
      var values := OrEmpty(Find(data, k)) + [value];
      data := Put(data, k, values);
      NormalFormsAgree(key, key);
      PutValid(old(data), k, values);
      Lookups(old(data), key, values);
      forall other
        ensures GetAll(data, other) == GetAll(old(data), other) + if SameName(key, other) then [value] else []
      {
        NormalFormsAgree(key, other);
        NormalFormsAgree(other, other);
      }
      LogExtends(AppendOp(key, value));
    }

    method GetFirst(key: string) returns (r: Option<string>)
      ensures r == if GetAll(data, key) == [] then None else Some(GetAll(data, key)[0])
    {
      var row := Find(data, Normalize(key));
      r := if row.None? || row.value == [] then None else Some(row.value[0]);
    }

    method Remove(key: string) returns (removed: Option<seq<string>>)
      requires Valid(data)
      modifies this
      ensures Valid(data) && removed == Find(old(data), Normalize(key))
      ensures forall k :: GetAll(data, k) == if SameName(key, k) then [] else GetAll(old(data), k)
      ensures forall ops :: old(data) == Replay(ops) ==> data == Replay(ops + [RemoveOp(key)])
    {
      removed := Find(data, Normalize(key));
      data := Delete(data, Normalize(key));
      DeleteLaws(old(data), Normalize(key), key);
      forall k ensures GetAll(data, k) == if SameName(key, k) then [] else GetAll(old(data), k) {
        NormalFormsAgree(key, k);
        NormalFormsAgree(k, k);
        DeleteLaws(old(data), Normalize(key), Normalize(k));
      }
      LogExtends(RemoveOp(key));
    }

    method Clear()
      modifies this
      ensures data == []
      ensures forall ops :: data == Replay(ops + [ClearOp])
    {
      data := [];
      LogExtends(ClearOp);
    }
  }

  /** `from_packet_metadata`: a fresh map, filled by appending the entries in order. */
  method FromPacketMetadata(entries: seq<Entry>) returns (out: MetadataMap)
    ensures fresh(out) && Valid(out.data)
    ensures out.data == FromEntries(entries)
  {
    out := new MetadataMap();
    var i := 0;
    while i < |entries|
      invariant 0 <= i <= |entries|
      invariant fresh(out) && Valid(out.data)
      invariant out.data == FromEntries(entries[..i])
    {
      assert entries[..i + 1][..i] == entries[..i];
      out.Append(entries[i].key, entries[i].value);
      i := i + 1;
    }
    assert entries[..i] == entries;
  }
}
