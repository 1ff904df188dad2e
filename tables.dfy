/** The result tables and their row order. A pandas DataFrame is modelled as
    its column names and its rows; `sort_values` over several columns as a
    stable sort on a lexicographic key, where a missing value sorts after
    every present one (pandas' `na_position='last'`). */
module Tables {

  import opened Text

  datatype Table<R> = Table(columns: seq<string>, rows: seq<R>)

  /** One sort column's value for one row. */
  datatype KeyPart = KInt(i: int) | KStr(s: string) | KNone

  type SortKey = seq<KeyPart>

  predicate PartLe(x: KeyPart, y: KeyPart) {
    match (x, y)
    case (_, KNone) => true
    case (KNone, _) => false
    case (KInt(i), KInt(j)) => i <= j
    case (KInt(_), KStr(_)) => true
    case (KStr(_), KInt(_)) => false
    case (KStr(a), KStr(b)) => StrLe(a, b)
  }

  lemma PartLeReflexive(x: KeyPart)
    ensures PartLe(x, x)
  {
    if x.KStr? { StrLeReflexive(x.s); }
  }

  lemma PartLeTotal(x: KeyPart, y: KeyPart)
    ensures PartLe(x, y) || PartLe(y, x)
  {
    if x.KStr? && y.KStr? { StrLeTotal(x.s, y.s); }
  }

  lemma PartLeAntisymmetric(x: KeyPart, y: KeyPart)
    requires PartLe(x, y) && PartLe(y, x)
    ensures x == y
  {
    if x.KStr? && y.KStr? { StrLeAntisymmetric(x.s, y.s); }
  }

  lemma PartLeTransitive(x: KeyPart, y: KeyPart, z: KeyPart)
    requires PartLe(x, y) && PartLe(y, z)
    ensures PartLe(x, z)
  {
    if x.KStr? && y.KStr? && z.KStr? { StrLeTransitive(x.s, y.s, z.s); }
  }

  /** Lexicographic order on keys: the first column decides, ties go to the next. */
  predicate KeyLe(a: SortKey, b: SortKey) {
    a == [] || (b != [] && ((PartLe(a[0], b[0]) && a[0] != b[0]) || (a[0] == b[0] && KeyLe(a[1..], b[1..]))))
  }

  lemma {:induction false} KeyLeTotal(a: SortKey, b: SortKey)
    ensures KeyLe(a, b) || KeyLe(b, a)
  {
    if a != [] && b != [] {
      PartLeTotal(a[0], b[0]);
      if a[0] == b[0] { KeyLeTotal(a[1..], b[1..]); }
    }
  }

  lemma {:induction false} KeyLeTransitive(a: SortKey, b: SortKey, c: SortKey)
    requires KeyLe(a, b) && KeyLe(b, c)
    ensures KeyLe(a, c)
  {
    if a != [] && b != [] && c != [] {
      if a[0] == b[0] && b[0] == c[0] {
        KeyLeTransitive(a[1..], b[1..], c[1..]);
      } else {
        PartLeReflexive(a[0]);
        PartLeReflexive(b[0]);
        PartLeTransitive(a[0], b[0], c[0]);
        if a[0] == c[0] { PartLeAntisymmetric(a[0], b[0]); }
      }
    }
  }

  predicate SortedBy<T>(s: seq<T>, key: T -> SortKey) {
    forall i, j :: 0 <= i < j < |s| ==> KeyLe(key(s[i]), key(s[j]))
  }

  /** Puts `x` in front of the first row whose key is not below it, so rows
      with equal keys keep their relative order. */
  function Insert<T>(x: T, s: seq<T>, key: T -> SortKey): seq<T> {
    if s == [] then [x]
    else if KeyLe(key(x), key(s[0])) then [x] + s
    else [s[0]] + Insert(x, s[1..], key)
  }

  lemma {:induction false} InsertPermutes<T>(x: T, s: seq<T>, key: T -> SortKey)
    ensures multiset(Insert(x, s, key)) == multiset(s) + multiset{x}
    ensures |Insert(x, s, key)| == |s| + 1
  {
    if s != [] && !KeyLe(key(x), key(s[0])) {
      InsertPermutes(x, s[1..], key);
      assert s == [s[0]] + s[1..];
    }
  }

  /** A key at or below `x` and every row of `s` is at or below every row
      of the insertion. */
  lemma InsertBounded<T>(y: T, x: T, s: seq<T>, key: T -> SortKey)
    requires KeyLe(key(y), key(x))
    requires forall m :: 0 <= m < |s| ==> KeyLe(key(y), key(s[m]))
    ensures forall k :: 0 <= k < |Insert(x, s, key)| ==> KeyLe(key(y), key(Insert(x, s, key)[k]))
  {
    var ins := Insert(x, s, key);
    InsertPermutes(x, s, key);
    forall k | 0 <= k < |ins| ensures KeyLe(key(y), key(ins[k])) {
      assert ins[k] in multiset(s) + multiset{x};
      if ins[k] != x {
        assert ins[k] in s;
      }
    }
  }

  lemma {:induction false} InsertSorted<T>(x: T, s: seq<T>, key: T -> SortKey)
    requires SortedBy(s, key)
    ensures SortedBy(Insert(x, s, key), key)
  {
    if s == [] {
    } else if KeyLe(key(x), key(s[0])) {
      var r := [x] + s;
      forall i, j | 0 <= i < j < |r| ensures KeyLe(key(r[i]), key(r[j])) {
        if i == 0 && j > 1 { KeyLeTransitive(key(x), key(s[0]), key(s[j - 1])); }
      }
    } else {
      var t := s[1..];
      InsertSorted(x, t, key);
      var ins := Insert(x, t, key);
      var r := [s[0]] + ins;
      KeyLeTotal(key(x), key(s[0]));
      InsertBounded(s[0], x, t, key);
      forall i, j | 0 <= i < j < |r| ensures KeyLe(key(r[i]), key(r[j])) {
        if i > 0 { assert r[i] == ins[i - 1] && r[j] == ins[j - 1]; }
        else { assert r[j] == ins[j - 1]; }
      }
    }
  }

  lemma HeadTail<T>(s: seq<T>)
    requires s != []
    ensures multiset(s) == multiset(s[1..]) + multiset{s[0]}
  {
    assert s == [s[0]] + s[1..];
  }

  /** Appending rows keeps every row that was there. */
  lemma SubMultisetAppend<T>(a: seq<T>, b: seq<T>, c: seq<T>)
    requires multiset(a) <= multiset(b)
    ensures multiset(a) <= multiset(b + c)
  {
    assert multiset(b + c) == multiset(b) + multiset(c);
  }

  /** The rows appended last are among the rows of the whole. */
  lemma SuffixSubMultiset<T>(b: seq<T>, c: seq<T>)
    ensures multiset(c) <= multiset(b + c)
  {
    assert multiset(b + c) == multiset(b) + multiset(c);
  }

  lemma SubMultisetNoLonger<T>(a: seq<T>, b: seq<T>)
    requires multiset(a) <= multiset(b)
    ensures |a| <= |b|
  {
    var rest := multiset(b) - multiset(a);
    assert multiset(b) == multiset(a) + rest;
    assert |multiset(b)| == |multiset(a)| + |rest|;
  }

  /** `sort_values` on the key's columns: a stable insertion sort. */
  function SortByKey<T>(s: seq<T>, key: T -> SortKey): (r: seq<T>)
    ensures SortedBy(r, key)
    ensures multiset(r) == multiset(s)
    ensures |r| == |s|
  {
    if s == [] then []
    else
      var rest := SortByKey(s[1..], key);
      InsertSorted(s[0], rest, key);
      InsertPermutes(s[0], rest, key);
      HeadTail(s);
      Insert(s[0], rest, key)
  }
}
