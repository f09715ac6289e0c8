/** PHP arrays with string keys: ordered association lists whose keys are
    distinct. Assignment to an existing key keeps its position, a new key
    goes to the end, unset removes the entry, ksort orders by key. */
module OrderedMaps {
  import opened Wrappers

  type Entries<T> = seq<(string, T)>

  function Keys<T>(d: Entries<T>): (ks: seq<string>)
    ensures |ks| == |d|
    ensures forall i :: 0 <= i < |d| ==> ks[i] == d[i].0
  {
    if d == [] then [] else [d[0].0] + Keys(d[1..])
  }

  /** Every key occurs once, as in a PHP array. */
  ghost predicate UniqueKeys<T>(d: Entries<T>)
  {
    d == [] || (d[0].0 !in Keys(d[1..]) && UniqueKeys(d[1..]))
  }

  /** $d[$k], or None when the key is not set. */
  function Find<T>(d: Entries<T>, k: string): (r: Option<T>)
    ensures r.None? <==> k !in Keys(d)
  {
    if d == [] then None
    else if d[0].0 == k then Some(d[0].1)
    else Find(d[1..], k)
  }

  lemma {:induction false} FindAt<T>(d: Entries<T>, i: nat)
    requires UniqueKeys(d) && i < |d|
    ensures Find(d, d[i].0) == Some(d[i].1)
  {
    if i > 0 {
      FindAt(d[1..], i - 1);
      assert d[i].0 == Keys(d[1..])[i - 1];
    }
  }

  /** Distinct positions hold distinct keys. */
  lemma {:induction false} UniqueKeysDistinct<T>(d: Entries<T>, i: nat, j: nat)
    requires UniqueKeys(d) && i < j < |d|
    ensures d[i].0 != d[j].0
  {
    if i == 0 {
      assert d[j].0 == Keys(d[1..])[j - 1];
    } else {
      UniqueKeysDistinct(d[1..], i - 1, j - 1);
    }
  }

  lemma SplitLast<T>(s: seq<T>)
    requires s != []
    ensures s[..|s| - 1] + [s[|s| - 1]] == s
  {
  }

  /** $d[$k] = $v. */
  function Put<T>(d: Entries<T>, k: string, v: T): (r: Entries<T>)
    ensures Find(r, k) == Some(v)
    ensures forall j :: j != k ==> Find(r, j) == Find(d, j)
    ensures Keys(r) == if k in Keys(d) then Keys(d) else Keys(d) + [k]
    ensures UniqueKeys(d) ==> UniqueKeys(r)
  {
    if d == [] then
      var r := [(k, v)];
      assert r[1..] == [];
      r
    else if d[0].0 == k then
      var r := [(k, v)] + d[1..];
      assert r[1..] == d[1..];
      r
    else
      var t := Put(d[1..], k, v);
      var r := [d[0]] + t;
      assert r[1..] == t;
      assert Keys(d) == [d[0].0] + Keys(d[1..]);
      assert Keys(r) == [d[0].0] + Keys(t);
      assert UniqueKeys(d) ==> d[0].0 !in Keys(t);
      r
  }

  /** unset($d[$k]). */
  function Remove<T>(d: Entries<T>, k: string): (r: Entries<T>)
    ensures Find(r, k) == None
    ensures forall j :: j != k ==> Find(r, j) == Find(d, j)
    ensures forall j :: j in Keys(r) ==> j in Keys(d)
    ensures UniqueKeys(d) ==> UniqueKeys(r)
  {
    if d == [] then []
    else if d[0].0 == k then Remove(d[1..], k)
    else
      var t := Remove(d[1..], k);
      var r := [d[0]] + t;
      assert r[1..] == t;
      r
  }

  /** Removing a key that is not set changes nothing. */
  lemma {:induction false} RemoveAbsent<T>(d: Entries<T>, k: string)
    requires k !in Keys(d)
    ensures Remove(d, k) == d
  {
    if d != [] {
      assert Keys(d) == [d[0].0] + Keys(d[1..]);
      RemoveAbsent(d[1..], k);
      assert d == [d[0]] + d[1..];
    }
  }

  lemma AppendAssociative<T>(a: seq<T>, b: seq<T>, c: seq<T>)
    ensures a + (b + c) == (a + b) + c
  {
  }

  /** Assigning a key that is not set appends it. */
  lemma {:induction false} PutNew<T>(d: Entries<T>, k: string, v: T)
    requires k !in Keys(d)
    ensures Put(d, k, v) == d + [(k, v)]
  {
    if d != [] {
      assert d[0].0 != k by {
        assert Keys(d)[0] == d[0].0;
      }
      assert k !in Keys(d[1..]) by {
        assert Keys(d) == [d[0].0] + Keys(d[1..]);
      }
      PutNew(d[1..], k, v);
      calc {
        Put(d, k, v);
        [d[0]] + Put(d[1..], k, v);
        [d[0]] + (d[1..] + [(k, v)]);
        { AppendAssociative([d[0]], d[1..], [(k, v)]); }
        ([d[0]] + d[1..]) + [(k, v)];
        { assert [d[0]] + d[1..] == d; }
        d + [(k, v)];
      }
    }
  }

  /** Without its last entry an array still has distinct keys, none of them
      the last entry's. */
  lemma {:induction false} UniqueKeysInit<T>(d: Entries<T>)
    requires UniqueKeys(d) && d != []
    ensures UniqueKeys(d[..|d| - 1]) && d[|d| - 1].0 !in Keys(d[..|d| - 1])
  {
    var init := d[..|d| - 1];
    if |d| > 1 {
      var tail := d[1..];
      UniqueKeysInit(tail);
      assert tail[..|tail| - 1] == init[1..];
      assert init[0].0 !in Keys(init[1..]) by {
        forall j | 0 <= j < |init[1..]| ensures init[1..][j].0 != init[0].0 {
          assert init[1..][j] == tail[j];
          assert tail[j].0 in Keys(tail);
        }
      }
      assert d[|d| - 1] == tail[|tail| - 1];
      assert d[|d| - 1].0 in Keys(tail);
    }
  }

  /** array_merge(base, over) for string keys, which is also what
      wp_parse_args(over, base) computes: entries of over win, the keys of
      base keep their places and new keys follow in the order of over. */
  function Merge<T>(base: Entries<T>, over: Entries<T>): (r: Entries<T>)
    requires UniqueKeys(over)
    decreases |over|
    ensures forall k :: Find(r, k) == if k in Keys(over) then Find(over, k) else Find(base, k)
    ensures |r| >= |base| && forall i :: 0 <= i < |base| ==> r[i].0 == base[i].0
    ensures UniqueKeys(base) ==> UniqueKeys(r)
  {
    if over == [] then base
    else
      var b := Put(base, over[0].0, over[0].1);
      assert forall i :: 0 <= i < |base| ==> b[i].0 == base[i].0 by {
        assert forall i :: 0 <= i < |base| ==> Keys(b)[i] == Keys(base)[i];
      }
      var r := Merge(b, over[1..]);
      assert Keys(over) == [over[0].0] + Keys(over[1..]);
      assert forall k :: Find(r, k) == if k in Keys(over) then Find(over, k) else Find(base, k) by {
        forall k ensures Find(r, k) == if k in Keys(over) then Find(over, k) else Find(base, k) {
          if k != over[0].0 {
            assert Find(over, k) == Find(over[1..], k);
          }
        }
      }
      r
  }

  /** Strict lexicographic order on strings by code point, which for UTF-8
      text is the byte order PHP's string comparison uses. */
  predicate LexLess(a: string, b: string)
  {
    if a == [] then b != []
    else if b == [] then false
    else if a[0] != b[0] then a[0] < b[0]
    else LexLess(a[1..], b[1..])
  }

  lemma {:induction false} LexLessIrreflexive(a: string)
    ensures !LexLess(a, a)
  {
    if a != [] {
      LexLessIrreflexive(a[1..]);
    }
  }

  lemma {:induction false} LexLessTransitive(a: string, b: string, c: string)
    requires LexLess(a, b) && LexLess(b, c)
    ensures LexLess(a, c)
  {
    if a != [] && b != [] && c != [] && a[0] == b[0] == c[0] {
      LexLessTransitive(a[1..], b[1..], c[1..]);
    }
  }

  lemma {:induction false} LexLessTotal(a: string, b: string)
    requires a != b
    ensures LexLess(a, b) || LexLess(b, a)
  {
    if a != [] && b != [] && a[0] == b[0] {
      assert a == [a[0]] + a[1..] && b == [b[0]] + b[1..];
      LexLessTotal(a[1..], b[1..]);
    }
  }

  lemma {:induction false} LexLessAsymmetric(a: string, b: string)
    requires LexLess(a, b)
    ensures !LexLess(b, a)
  {
    if a != [] && b != [] && a[0] == b[0] {
      LexLessAsymmetric(a[1..], b[1..]);
    }
  }

  /** Keys strictly ascending, as ksort leaves an array with distinct keys. */
  ghost predicate StrictlySorted<T>(d: Entries<T>)
  {
    forall i, j :: 0 <= i < j < |d| ==> LexLess(d[i].0, d[j].0)
  }

  /** Insertion of one entry into a sorted list whose keys all differ from its key. */
  function Insert<T>(e: (string, T), s: Entries<T>): (r: Entries<T>)
    requires StrictlySorted(s) && e.0 !in Keys(s)
    ensures StrictlySorted(r)
    ensures multiset(r) == multiset(s) + multiset{e}
    ensures forall k :: Find(r, k) == if k == e.0 then Some(e.1) else Find(s, k)
  {
    if s == [] then [e]
    else if LexLess(e.0, s[0].0) then
      InsertFront(e, s);
      [e] + s
    else
      LexLessTotal(e.0, s[0].0);
      var t := Insert(e, s[1..]);
      InsertBehind(e, s, t);
      [s[0]] + t
  }

  lemma InsertFront<T>(e: (string, T), s: Entries<T>)
    requires StrictlySorted(s) && s != [] && LexLess(e.0, s[0].0)
    ensures StrictlySorted([e] + s)
  {
    var r := [e] + s;
    forall i, j | 0 <= i < j < |r| ensures LexLess(r[i].0, r[j].0) {
      if i == 0 && j > 1 {
        LexLessTransitive(e.0, s[0].0, s[j - 1].0);
      }
    }
  }

  lemma InsertBehind<T>(e: (string, T), s: Entries<T>, t: Entries<T>)
    requires StrictlySorted(s) && s != [] && LexLess(s[0].0, e.0)
    requires StrictlySorted(t) && multiset(t) == multiset(s[1..]) + multiset{e}
    ensures StrictlySorted([s[0]] + t)
    ensures multiset([s[0]] + t) == multiset(s) + multiset{e}
  {
    var r := [s[0]] + t;
    forall j | 0 <= j < |t| ensures LexLess(s[0].0, t[j].0) {
      assert t[j] in multiset(t);
      if t[j] != e {
        assert t[j] in multiset(s[1..]);
        var m :| 0 <= m < |s[1..]| && s[1..][m] == t[j];
        assert s[m + 1] == t[j];
      }
    }
    forall i, j | 0 <= i < j < |r| ensures LexLess(r[i].0, r[j].0) {
      if i == 0 {
        assert r[j] == t[j - 1];
      } else {
        assert r[i] == t[i - 1] && r[j] == t[j - 1];
      }
    }
    assert s == [s[0]] + s[1..];
  }

  /** ksort: the same entries, ordered by ascending key. */
  function KSort<T>(d: Entries<T>): (r: Entries<T>)
    requires UniqueKeys(d)
    ensures StrictlySorted(r)
    ensures multiset(r) == multiset(d)
    ensures forall k :: Find(r, k) == Find(d, k)
  {
    if d == [] then []
    else
      var t := KSort(d[1..]);
      SortedTail(d, t);
      Insert(d[0], t)
  }

  /** What inserting the first entry into the sorted rest needs and gives. */
  lemma SortedTail<T>(d: Entries<T>, t: Entries<T>)
    requires UniqueKeys(d) && d != []
    requires multiset(t) == multiset(d[1..]) && forall k :: Find(t, k) == Find(d[1..], k)
    ensures d[0].0 !in Keys(t)
    ensures multiset(t) + multiset{d[0]} == multiset(d)
    ensures forall k :: (if k == d[0].0 then Some(d[0].1) else Find(t, k)) == Find(d, k)
  {
    assert Find(d[1..], d[0].0) == None;
    assert multiset(d) == multiset([d[0]]) + multiset(d[1..]) by {
      assert d == [d[0]] + d[1..];
    }
    forall k ensures (if k == d[0].0 then Some(d[0].1) else Find(t, k)) == Find(d, k) {
      if k != d[0].0 {
        assert Find(d, k) == Find(d[1..], k);
      }
    }
  }

  /** In a sorted list the first key is below every other key. */
  lemma HeadIsLeast<T>(a: Entries<T>, k: string)
    requires StrictlySorted(a) && a != [] && k in Keys(a) && k != a[0].0
    ensures LexLess(a[0].0, k)
  {
    var j :| 0 <= j < |a| && Keys(a)[j] == k;
  }

  lemma NotInTail<T>(a: Entries<T>)
    requires StrictlySorted(a) && a != []
    ensures a[0].0 !in Keys(a[1..])
  {
    forall j | 0 <= j < |a[1..]| ensures a[1..][j].0 != a[0].0 {
      LexLessIrreflexive(a[0].0);
      assert LexLess(a[0].0, a[j + 1].0);
    }
  }

  /** A sorted list with distinct keys is determined by what it maps each key
      to, so ksort gives the same array whatever the input order was. */
  lemma {:induction false} SortedDetermined<T>(a: Entries<T>, b: Entries<T>)
    requires StrictlySorted(a) && StrictlySorted(b)
    requires forall k :: Find(a, k) == Find(b, k)
    ensures a == b
  {
    if a == [] || b == [] {
      EmptyDetermined(a, b);
    } else {
      SameHead(a, b);
      TailsAgree(a, b);
      TailSorted(a);
      TailSorted(b);
      SortedDetermined(a[1..], b[1..]);
      SameHeadAndTail(a, b);
    }
  }

  /** Only the empty list maps every key to nothing. */
  lemma EmptyDetermined<T>(a: Entries<T>, b: Entries<T>)
    requires a == [] || b == []
    requires forall k :: Find(a, k) == Find(b, k)
    ensures a == b
  {
    assert a != [] ==> Find(a, a[0].0).Some?;
    assert b != [] ==> Find(b, b[0].0).Some?;
  }

  lemma SameHeadAndTail<T>(a: seq<T>, b: seq<T>)
    requires a != [] && b != [] && a[0] == b[0] && a[1..] == b[1..]
    ensures a == b
  {
    assert a == [a[0]] + a[1..] && b == [b[0]] + b[1..];
  }

  /** Two sorted lists that map every key alike start with the same entry. */
  lemma SameHead<T>(a: Entries<T>, b: Entries<T>)
    requires StrictlySorted(a) && StrictlySorted(b) && a != [] && b != []
    requires forall k :: Find(a, k) == Find(b, k)
    ensures a[0] == b[0]
  {
    var x, y := a[0].0, b[0].0;
    assert Find(a, x) == Some(a[0].1) && Find(b, y) == Some(b[0].1);
    if x != y {
      HeadIsLeast(a, y);
      HeadIsLeast(b, x);
      LexLessAsymmetric(x, y);
    }
  }

  /** ... and their tails then map every key alike. */
  lemma TailsAgree<T>(a: Entries<T>, b: Entries<T>)
    requires StrictlySorted(a) && StrictlySorted(b) && a != [] && b != [] && a[0] == b[0]
    requires forall k :: Find(a, k) == Find(b, k)
    ensures forall k :: Find(a[1..], k) == Find(b[1..], k)
  {
    NotInTail(a);
    NotInTail(b);
    forall k ensures Find(a[1..], k) == Find(b[1..], k) {
      if k != a[0].0 {
        assert Find(a, k) == Find(a[1..], k);
        assert Find(b, k) == Find(b[1..], k);
      }
    }
  }

  lemma TailSorted<T>(a: Entries<T>)
    requires StrictlySorted(a) && a != []
    ensures StrictlySorted(a[1..])
  {
    forall i, j | 0 <= i < j < |a[1..]| ensures LexLess(a[1..][i].0, a[1..][j].0) {
      assert a[1..][i] == a[i + 1] && a[1..][j] == a[j + 1];
    }
  }

  /** Sorted lists are in particular free of duplicate keys. */
  lemma {:induction false} SortedUnique<T>(d: Entries<T>)
    requires StrictlySorted(d)
    ensures UniqueKeys(d)
  {
    if d != [] {
      NotInTail(d);
      SortedUnique(d[1..]);
    }
  }
}
