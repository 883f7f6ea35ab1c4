/**
 * OrderBy / OrderByDescending on one key. Keys are numbers (ids, prices, stock,
 * timestamps) or strings compared by code point, as SQLite's BINARY collation does.
 * The sort is an insertion sort that keeps rows with equal keys in table order.
 */
module Sorting {
  import opened Text

  datatype Key = Num(n: int) | Str(s: string)

  /** The order on keys: numbers numerically, strings ordinally. */
  predicate KeyLe(a: Key, b: Key)
  {
    match (a, b)
    case (Num(x), Num(y)) => x <= y
    case (Str(x), Str(y)) => StrLe(x, y)
    case (Num(_), Str(_)) => true
    case (Str(_), Num(_)) => false
  }

  /** Whether a row with key a may come before one with key b in the requested direction. */
  predicate Before(a: Key, b: Key, descending: bool)
  {
    if descending then KeyLe(b, a) else KeyLe(a, b)
  }

  lemma BeforeTotal(a: Key, b: Key, descending: bool)
    ensures Before(a, b, descending) || Before(b, a, descending)
  {
    if a.Str? && b.Str? {
      StrLeTotal(a.s, b.s);
    }
  }

  lemma BeforeTransitive(a: Key, b: Key, c: Key, descending: bool)
    requires Before(a, b, descending) && Before(b, c, descending)
    ensures Before(a, c, descending)
  {
    if a.Str? && b.Str? && c.Str? {
      if descending {
        StrLeTransitive(c.s, b.s, a.s);
      } else {
        StrLeTransitive(a.s, b.s, c.s);
      }
    }
  }

  /** s is ordered by key in the requested direction. */
  predicate SortedBy<T>(s: seq<T>, key: T -> Key, descending: bool)
  {
    forall i, j :: 0 <= i < j < |s| ==> Before(key(s[i]), key(s[j]), descending)
  }

  /** Any contiguous stretch of a sorted sequence is sorted. */
  lemma SortedSlice<T>(s: seq<T>, key: T -> Key, descending: bool, lo: nat, hi: nat)
    requires SortedBy(s, key, descending) && lo <= hi <= |s|
    ensures SortedBy(s[lo..hi], key, descending)
  {
    var t := s[lo..hi];
    forall i, j | 0 <= i < j < |t|
      ensures Before(key(t[i]), key(t[j]), descending)
    {
      assert t[i] == s[lo + i] && t[j] == s[lo + j];
    }
  }

  /** Puts x before the first row it may precede. */
  function Insert<T>(x: T, s: seq<T>, key: T -> Key, descending: bool): (r: seq<T>)
    ensures multiset(r) == multiset(s) + multiset{x}
  {
    if s == [] then [x]
    else if Before(key(x), key(s[0]), descending) then [x] + s
    else
      var r := [s[0]] + Insert(x, s[1..], key, descending);
      assert s == [s[0]] + s[1..];
      r
  }

  /** OrderBy(key) or OrderByDescending(key). */
  function SortBy<T>(s: seq<T>, key: T -> Key, descending: bool): (r: seq<T>)
    ensures multiset(r) == multiset(s)
  {
    if s == [] then []
    else
      var r := Insert(s[0], SortBy(s[1..], key, descending), key, descending);
      assert s == [s[0]] + s[1..];
      r
  }

  lemma {:induction false} InsertSorted<T>(x: T, s: seq<T>, key: T -> Key, descending: bool)
    requires SortedBy(s, key, descending)
    ensures SortedBy(Insert(x, s, key, descending), key, descending)
  {
    if s == [] {
    } else if Before(key(x), key(s[0]), descending) {
      forall j | 0 < j < |s|
        ensures Before(key(x), key(s[j]), descending)
      {
        BeforeTransitive(key(x), key(s[0]), key(s[j]), descending);
      }
    } else {
      BeforeTotal(key(x), key(s[0]), descending);
      var tail := s[1..];
      InsertSorted(x, tail, key, descending);
      var r' := Insert(x, tail, key, descending);
      forall k | 0 <= k < |r'|
        ensures Before(key(s[0]), key(r'[k]), descending)
      {
        assert r'[k] in multiset(r');
        if r'[k] != x {
          assert r'[k] in multiset(tail);
          var j :| 0 <= j < |tail| && tail[j] == r'[k];
          assert tail[j] == s[j + 1];
        }
      }
    }
  }

  /** SortBy returns its input ordered by key. */
  lemma {:induction false} SortBySorted<T>(s: seq<T>, key: T -> Key, descending: bool)
    ensures SortedBy(SortBy(s, key, descending), key, descending)
  {
    if s != [] {
      SortBySorted(s[1..], key, descending);
      InsertSorted(s[0], SortBy(s[1..], key, descending), key, descending);
    }
  }
}
