/** Reading a whole table: its rows in ascending primary-key order, which
    is the order the serial sequence handed the keys out, i.e. insertion
    order. */
module Listing {

  /** The keys of m in [lo, hi), ascending. */
  function KeysBetween<T>(m: map<int, T>, lo: int, hi: int): (ks: seq<int>)
    decreases hi - lo
    ensures forall i :: 0 <= i < |ks| ==> lo <= ks[i] < hi
    ensures forall i, j :: 0 <= i < j < |ks| ==> ks[i] < ks[j]
    ensures forall k :: k in ks <==> k in m && lo <= k < hi
  {
    if lo >= hi then []
    else if lo in m then [lo] + KeysBetween(m, lo + 1, hi)
    else KeysBetween(m, lo + 1, hi)
  }

  /** The rows of a table whose sequence is at `next`, by ascending key. */
  function Table<T(==)>(m: map<int, T>, next: int): (rows: seq<T>)
    ensures |rows| == |KeysBetween(m, 1, next)|
    ensures forall i :: 0 <= i < |rows| ==> rows[i] == m[KeysBetween(m, 1, next)[i]]
    ensures forall x :: x in rows ==> x in m.Values
  {
    var ks := KeysBetween(m, 1, next);
    seq(|ks|, i requires 0 <= i < |ks| => m[ks[i]])
  }

  /** A strictly increasing sequence has as many elements as its set. */
  lemma {:induction false} DistinctCard(ks: seq<int>)
    requires forall i, j :: 0 <= i < j < |ks| ==> ks[i] < ks[j]
    ensures |set k | k in ks| == |ks|
  {
    if ks != [] {
      DistinctCard(ks[1..]);
      assert (set k | k in ks) == {ks[0]} + (set k | k in ks[1..]);
      assert ks[0] !in (set k | k in ks[1..]);
    }
  }

  /** When every key came from the sequence, the listing holds every row of
      the table, once each. */
  lemma TableComplete<T>(m: map<int, T>, next: int)
    ensures (forall k :: k in m ==> 1 <= k < next) ==>
      && |Table(m, next)| == |m|
      && (forall k :: k in m ==> m[k] in Table(m, next))
  {
    if forall k :: k in m ==> 1 <= k < next {
      var ks := KeysBetween(m, 1, next);
      DistinctCard(ks);
      assert (set k | k in ks) == m.Keys;
      forall k | k in m ensures m[k] in Table(m, next) {
        var i :| 0 <= i < |ks| && ks[i] == k;
        assert Table(m, next)[i] == m[k];
      }
    }
  }

  /** A row stored under the sequence's next key lands after every key
      already in range. */
  lemma {:induction false} KeysBetweenAppend<T>(m: map<int, T>, lo: int, hi: int, v: T)
    requires lo <= hi
    ensures KeysBetween(m[hi := v], lo, hi + 1) == KeysBetween(m, lo, hi) + [hi]
    decreases hi - lo
  {
    if lo < hi {
      KeysBetweenAppend(m, lo + 1, hi, v);
    }
  }

  /** Inserting under the next key appends the row to the listing. */
  lemma TableAppend<T>(m: map<int, T>, next: int, v: T)
    requires 1 <= next
    ensures Table(m[next := v], next + 1) == Table(m, next) + [v]
  {
    KeysBetweenAppend(m, 1, next, v);
  }

  /** Overwriting a key that is present changes no key of the range. */
  lemma {:induction false} KeysBetweenReplace<T>(m: map<int, T>, k: int, v: T, lo: int, hi: int)
    requires k in m
    ensures KeysBetween(m[k := v], lo, hi) == KeysBetween(m, lo, hi)
    decreases hi - lo
  {
    if lo < hi {
      KeysBetweenReplace(m, k, v, lo + 1, hi);
    }
  }

  /** Overwriting a present row keeps the listing's length and order and
      replaces that row where it stood. */
  lemma TableReplace<T>(m: map<int, T>, next: int, k: int, v: T)
    requires k in m
    ensures |Table(m[k := v], next)| == |Table(m, next)|
    ensures forall i :: 0 <= i < |Table(m, next)| ==>
      Table(m[k := v], next)[i] == if KeysBetween(m, 1, next)[i] == k then v else Table(m, next)[i]
  {
    KeysBetweenReplace(m, k, v, 1, next);
  }
}
