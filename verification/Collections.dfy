/** Sequences without duplicates, and the insertion-ordered records of the
    source language: an object literal `{ ...r, [k]: v }` keeps the position of an
    existing key and appends a new one, and `Object.keys` lists keys in that order. */
module Collections {

  ghost predicate Distinct<T(!new)>(s: seq<T>) {
    forall i, j :: 0 <= i < j < |s| ==> s[i] != s[j]
  }

  function Elements<T>(s: seq<T>): set<T> {
    set x | x in s
  }

  /** Array.prototype.filter. */
  function Keep<T(!new)>(s: seq<T>, p: T -> bool): (r: seq<T>)
    ensures |r| <= |s|
    ensures forall x :: x in r <==> x in s && p(x)
  {
    if s == [] then []
    else
      var rest := Keep(s[..|s| - 1], p);
      var last := s[|s| - 1];
      assert s == s[..|s| - 1] + [last];
      if p(last) then rest + [last] else rest
  }

  /** Array.prototype.map. */
  function Map<T, U>(s: seq<T>, f: T -> U): (r: seq<U>)
    ensures |r| == |s|
    ensures forall i :: 0 <= i < |s| ==> r[i] == f(s[i])
  {
    seq(|s|, i requires 0 <= i < |s| => f(s[i]))
  }

  /** `[...new Set(s)]`: the first occurrence of every element, in order. */
  function Dedupe<T(==, !new)>(s: seq<T>): (r: seq<T>)
    ensures forall x :: x in r <==> x in s
  {
    if s == [] then []
    else
      var rest := Dedupe(s[..|s| - 1]);
      var last := s[|s| - 1];
      assert s == s[..|s| - 1] + [last];
      if last in rest then rest else rest + [last]
  }

  function Sum(s: seq<int>): int {
    if s == [] then 0 else Sum(s[..|s| - 1]) + s[|s| - 1]
  }

  lemma {:induction false} KeepDistinct<T(!new)>(s: seq<T>, p: T -> bool)
    requires Distinct(s)
    ensures Distinct(Keep(s, p))
  {
    if s != [] {
      KeepDistinct(s[..|s| - 1], p);
    }
  }

  lemma {:induction false} DedupeDistinct<T(!new)>(s: seq<T>)
    ensures Distinct(Dedupe(s))
  {
    if s != [] {
      DedupeDistinct(s[..|s| - 1]);
    }
  }

  /** Without duplicates, a sequence is as long as its set of elements is large. */
  lemma {:induction false} DistinctSize<T(!new)>(s: seq<T>)
    requires Distinct(s)
    ensures |Elements(s)| == |s|
  {
    if s != [] {
      var front, last := s[..|s| - 1], s[|s| - 1];
      DistinctSize(front);
      assert s == front + [last];
      assert Elements(s) == Elements(front) + {last};
    }
  }

  lemma SubsetSize<T(!new)>(a: set<T>, b: set<T>)
    requires a <= b
    ensures |a| <= |b|
    ensures |a| == |b| ==> a == b
  {
    assert b == a + (b - a);
    assert |b| == |a| + |b - a|;
  }

  lemma {:induction false} KeepAll<T(!new)>(s: seq<T>, p: T -> bool)
    requires forall x :: x in s ==> p(x)
    ensures Keep(s, p) == s
  {
    if s != [] {
      KeepAll(s[..|s| - 1], p);
      assert s == s[..|s| - 1] + [s[|s| - 1]];
    }
  }

  lemma {:induction false} KeepSame<T(!new)>(s: seq<T>, p: T -> bool, q: T -> bool)
    requires forall x :: x in s ==> p(x) == q(x)
    ensures Keep(s, p) == Keep(s, q)
  {
    if s != [] {
      KeepSame(s[..|s| - 1], p, q);
    }
  }

  lemma {:induction false} KeepFewer<T(!new)>(s: seq<T>, p: T -> bool, q: T -> bool)
    requires forall x :: x in s && p(x) ==> q(x)
    ensures |Keep(s, p)| <= |Keep(s, q)|
  {
    if s != [] {
      KeepFewer(s[..|s| - 1], p, q);
    }
  }

  lemma KeepAppend<T(!new)>(s: seq<T>, x: T, p: T -> bool)
    ensures Keep(s + [x], p) == if p(x) then Keep(s, p) + [x] else Keep(s, p)
  {
    assert (s + [x])[..|s|] == s;
  }

  lemma {:induction false} KeepConcat<T(!new)>(s: seq<T>, t: seq<T>, p: T -> bool)
    ensures Keep(s + t, p) == Keep(s, p) + Keep(t, p)
  {
    hide Keep;
    if t == [] {
      assert s + t == s;
      KeepNone(p);
    } else {
      var front, last := t[..|t| - 1], t[|t| - 1];
      assert t == front + [last] && s + t == (s + front) + [last];
      KeepConcat(s, front, p);
      KeepAppend(front, last, p);
      KeepAppend(s + front, last, p);
    }
  }

  lemma SumAppend(s: seq<int>, x: int)
    ensures Sum(s + [x]) == Sum(s) + x
  {
    assert (s + [x])[..|s|] == s;
  }

  lemma {:induction false} SumConcat(s: seq<int>, t: seq<int>)
    ensures Sum(s + t) == Sum(s) + Sum(t)
  {
    if t == [] {
      assert s + t == s;
    } else {
      SumConcat(s, t[..|t| - 1]);
      SumAppend(s + t[..|t| - 1], t[|t| - 1]);
      assert s + t == (s + t[..|t| - 1]) + [t[|t| - 1]];
    }
  }

  // ---------------------------------------------------------------- records

  datatype RawRecord<V> = Record(keys: seq<string>, vals: map<string, V>)

  ghost predicate WellKeyed<V>(r: RawRecord<V>) {
    Distinct(r.keys) && (forall k :: k in r.keys <==> k in r.vals)
  }

  type Record<V> = r: RawRecord<V> | WellKeyed(r) witness Record([], map[])

  function Empty<V>(): Record<V> {
    Record([], map[])
  }

  /** `{ ...r, [k]: v }` */
  function Put<V>(r: Record<V>, k: string, v: V): (out: Record<V>)
    ensures out.vals == r.vals[k := v]
    ensures out.keys == if k in r.vals then r.keys else r.keys + [k]
  {
    Record(if k in r.vals then r.keys else r.keys + [k], r.vals[k := v])
  }

  /** `omit(r, k)`: rounds.ts rebuilds the object from its other entries. */
  function Omit<V>(r: Record<V>, k: string): (out: Record<V>)
    ensures out.vals == r.vals - {k}
    ensures out.keys == Keep(r.keys, (key: string) => key != k)
  {
    KeepDistinct(r.keys, (key: string) => key != k);
    Record(Keep(r.keys, (key: string) => key != k), r.vals - {k})
  }

  /** Records that list the same keys still do after the same key is written in both. */
  lemma PutSameKeys<V>(r: Record<V>, t: Record<V>, k: string, v: V, w: V)
    requires t.keys == r.keys
    ensures Put(t, k, w).keys == Put(r, k, v).keys
    ensures k in t.vals <==> k in r.vals
  {
    assert k in r.vals <==> k in r.keys;
    assert k in t.vals <==> k in t.keys;
  }

  function ValuesOf<V>(keys: seq<string>, vals: map<string, V>): seq<V>
    requires forall k :: k in keys ==> k in vals
  {
    seq(|keys|, i requires 0 <= i < |keys| => vals[keys[i]])
  }

  /** Object.values */
  function ValueList<V>(r: Record<V>): seq<V> {
    ValuesOf(r.keys, r.vals)
  }

  /** The sum of a record of numbers. */
  function Total(r: Record<int>): int {
    Sum(ValueList(r))
  }

  function At(r: Record<int>, k: string): int {
    if k in r.vals then r.vals[k] else 0
  }

  lemma {:induction false} SumOneChanged(s: seq<int>, t: seq<int>, i: nat)
    requires |s| == |t| && i < |s|
    requires forall j :: 0 <= j < |s| && j != i ==> s[j] == t[j]
    ensures Sum(t) - Sum(s) == t[i] - s[i]
  {
    var n := |s| - 1;
    if i == n {
      assert s[..n] == t[..n];
    } else {
      SumOneChanged(s[..n], t[..n], i);
    }
  }

  lemma TotalPut(r: Record<int>, k: string, v: int)
    ensures Total(Put(r, k, v)) == Total(r) - At(r, k) + v
  {
    var out := Put(r, k, v);
    if k in r.vals {
      var i :| 0 <= i < |r.keys| && r.keys[i] == k;
      SumOneChanged(ValueList(r), ValueList(out), i);
    } else {
      assert ValueList(out) == ValueList(r) + [v];
      SumAppend(ValueList(r), v);
    }
  }

  lemma ValuesAppend<V>(keys: seq<string>, vals: map<string, V>, k: string)
    requires k in vals && forall x :: x in keys ==> x in vals
    ensures ValuesOf(keys + [k], vals) == ValuesOf(keys, vals) + [vals[k]]
  {
  }

  lemma {:induction false} SumOmitted(keys: seq<string>, vals: map<string, int>, k: string)
    requires Distinct(keys) && forall x :: x in keys ==> x in vals
    ensures forall x :: x in Keep(keys, (key: string) => key != k) ==> x in vals
    ensures Sum(ValuesOf(Keep(keys, (key: string) => key != k), vals))
            == Sum(ValuesOf(keys, vals)) - if k in keys then vals[k] else 0
  {
    hide Keep, ValuesOf, Sum;
    var p := (key: string) => key != k;
    if keys == [] {
      KeepNone(p);
    } else {
      var front, last := keys[..|keys| - 1], keys[|keys| - 1];
      assert keys == front + [last] && last !in front;
      SumOmitted(front, vals, k);
      KeepAppend(front, last, p);
      ValuesAppend(front, vals, last);
      SumAppend(ValuesOf(front, vals), vals[last]);
      ValuesAppend(Keep(front, p), vals, last);
      SumAppend(ValuesOf(Keep(front, p), vals), vals[last]);
    }
  }

  lemma KeepNone<T(!new)>(p: T -> bool)
    ensures Keep([], p) == []
  {
  }

  lemma TotalOmit(r: Record<int>, k: string)
    ensures Total(Omit(r, k)) == Total(r) - At(r, k)
  {
    SumOmitted(r.keys, r.vals, k);
    assert ValueList(Omit(r, k)) == ValuesOf(Keep(r.keys, (key: string) => key != k), r.vals);
  }
}
