/** Sequence helpers shared by the model: filtering, key projection,
    distinctness, grouped counts (the LEFT JOIN ... GROUP BY ... COUNT
    shape of the queries) and sums. */
module SeqUtil {

  datatype Option<+T> = None | Some(value: T)

  datatype Result<+T, +E> = Success(value: T) | Failure(error: E)

  /** A row of a grouped query: an item together with a count. */
  datatype Counted<+T> = Counted(item: T, count: nat)

  function CountOf<T>(c: Counted<T>): int { c.count }

  /** The elements of `s` that satisfy `p`, in their original order
      (a WHERE clause). */
  function Filter<T>(s: seq<T>, p: T -> bool): (r: seq<T>)
    ensures |r| <= |s|
    ensures forall i :: 0 <= i < |r| ==> r[i] in s && p(r[i])
    ensures forall i :: 0 <= i < |s| && p(s[i]) ==> s[i] in r
    ensures multiset(r) <= multiset(s)
  {
    if s == [] then []
    else
      assert s == [s[0]] + s[1..];
      if p(s[0]) then [s[0]] + Filter(s[1..], p) else Filter(s[1..], p)
  }

  function Not<T>(p: T -> bool): T -> bool { x => !p(x) }

  /** "The reference `ref` of a row equals `k`" (`WHERE ref = k`). */
  function Refers<T, K(==)>(ref: T -> K, k: K): T -> bool { x => ref(x) == k }

  /** "The reference of a row is one of `ks`" (`WHERE ref IN (...)`). */
  function RefersToAny<T, K(==)>(ref: T -> K, ks: seq<K>): T -> bool { x => ref(x) in ks }

  /** The column `key` of the rows `s` (`SELECT key FROM s`). */
  function Keys<T, K>(s: seq<T>, key: T -> K): (r: seq<K>)
    ensures |r| == |s|
    ensures forall i :: 0 <= i < |s| ==> r[i] == key(s[i])
    ensures forall i :: 0 <= i < |s| ==> key(s[i]) in r
  {
    seq(|s|, i requires 0 <= i < |s| => key(s[i]))
  }

  /** No two rows of `s` agree on `key` (a UNIQUE or PRIMARY KEY constraint). */
  predicate DistinctBy<T, K(==)>(s: seq<T>, key: T -> K) {
    forall i, j :: 0 <= i < j < |s| ==> key(s[i]) != key(s[j])
  }

  function SumOf<T>(s: seq<T>, f: T -> int): int {
    if s == [] then 0 else f(s[0]) + SumOf(s[1..], f)
  }

  /** `owners LEFT JOIN s ON key = ref GROUP BY owner`: every owner, in order,
      with the number of rows of `s` that refer to it. */
  function Tally<O, K(==), T>(owners: seq<O>, key: O -> K, s: seq<T>, ref: T -> K): (r: seq<Counted<O>>)
    ensures |r| == |owners|
    ensures forall i :: 0 <= i < |r| ==> r[i].item == owners[i]
    ensures forall i :: 0 <= i < |r| ==> r[i].count == |Filter(s, Refers(ref, key(owners[i])))|
  {
    if owners == [] then []
    else [Counted(owners[0], |Filter(s, Refers(ref, key(owners[0])))|)] + Tally(owners[1..], key, s, ref)
  }

  /** Each item repeated as often as its count says (the rows of an inner join
      before projection). */
  function Expand<T>(rows: seq<Counted<T>>): (r: seq<T>)
    ensures |r| == SumOf(rows, CountOf)
  {
    if rows == [] then []
    else
      seq(rows[0].count, _ => rows[0].item) + Expand(rows[1..])
  }

  lemma FilterSplit<T>(s: seq<T>, p: T -> bool)
    ensures multiset(Filter(s, p)) + multiset(Filter(s, Not(p))) == multiset(s)
    ensures |Filter(s, p)| + |Filter(s, Not(p))| == |s|
  {
    FilterPartition(s, p);
    assert |multiset(Filter(s, p))| + |multiset(Filter(s, Not(p)))| == |multiset(s)|;
  }

  /** A filter and its complement split the rows between them. */
  lemma {:induction false} FilterPartition<T>(s: seq<T>, p: T -> bool)
    ensures multiset(Filter(s, p)) + multiset(Filter(s, Not(p))) == multiset(s)
  {
    if s != [] {
      FilterPartition(s[1..], p);
      assert s == [s[0]] + s[1..];
    }
  }

  lemma {:induction false} FilterAll<T>(s: seq<T>, p: T -> bool)
    requires forall x :: x in s ==> p(x)
    ensures Filter(s, p) == s
  {
    if s != [] {
      assert p(s[0]);
      assert forall x :: x in s[1..] ==> x in s;
      FilterAll(s[1..], p);
      assert s == [s[0]] + s[1..];
    }
  }

  lemma {:induction false} FilterNone<T>(s: seq<T>, p: T -> bool)
    requires forall x :: x in s ==> !p(x)
    ensures Filter(s, p) == []
  {
    if s != [] {
      assert forall x :: x in s[1..] ==> x in s;
      FilterNone(s[1..], p);
    }
  }

  /** Two predicates that agree on every row select the same rows. */
  lemma {:induction false} FilterAgree<T>(s: seq<T>, p: T -> bool, q: T -> bool)
    requires forall x :: x in s ==> (p(x) <==> q(x))
    ensures Filter(s, p) == Filter(s, q)
  {
    if s != [] {
      assert forall x :: x in s[1..] ==> x in s;
      FilterAgree(s[1..], p, q);
    }
  }

  /** Deleting rows keeps a uniqueness constraint. */
  lemma {:induction false} FilterKeepsDistinct<T, K>(s: seq<T>, key: T -> K, p: T -> bool)
    requires DistinctBy(s, key)
    ensures DistinctBy(Filter(s, p), key)
  {
    if s != [] {
      FilterKeepsDistinct(s[1..], key, p);
      var rest := Filter(s[1..], p);
      if p(s[0]) {
        forall x | x in rest ensures key(s[0]) != key(x) {
          var j :| 0 <= j < |s[1..]| && s[1..][j] == x;
          assert s[j + 1] == x;
        }
        var r := [s[0]] + rest;
        forall i, j | 0 <= i < j < |r| ensures key(r[i]) != key(r[j]) {
          if i > 0 {
            assert r[i] == rest[i - 1] && r[j] == rest[j - 1];
          } else {
            assert r[j] in rest;
          }
        }
      }
    }
  }

  /** Under a uniqueness constraint on `ref`, at most one row refers to `k`. */
  lemma {:induction false} AtMostOneRefers<T, K>(s: seq<T>, ref: T -> K, k: K)
    requires DistinctBy(s, ref)
    ensures |Filter(s, Refers(ref, k))| <= 1
  {
    if s != [] {
      assert DistinctBy(s[1..], ref) by {
        forall i, j | 0 <= i < j < |s[1..]| ensures ref(s[1..][i]) != ref(s[1..][j]) {
          assert s[1..][i] == s[i + 1] && s[1..][j] == s[j + 1];
        }
      }
      AtMostOneRefers(s[1..], ref, k);
      if ref(s[0]) == k {
        forall x | x in s[1..] ensures ref(x) != k {
          var j :| 0 <= j < |s[1..]| && s[1..][j] == x;
          assert s[j + 1] == x;
        }
        assert Filter(s[1..], Refers(ref, k)) == [];
      }
    }
  }

  /** Counting the rows that satisfy either of two exclusive predicates. */
  lemma {:induction false} FilterDisjointUnion<T>(s: seq<T>, p: T -> bool, q: T -> bool, either: T -> bool)
    requires forall x :: x in s ==> (either(x) <==> p(x) || q(x))
    requires forall x :: x in s ==> !(p(x) && q(x))
    ensures |Filter(s, either)| == |Filter(s, p)| + |Filter(s, q)|
  {
    if s != [] {
      assert forall x :: x in s[1..] ==> x in s;
      FilterDisjointUnion(s[1..], p, q, either);
    }
  }

  /** The grouped counts of distinct owners add up to the number of rows
      that refer to one of them. */
  lemma {:induction false} TallySumRefers<O, K, T>(owners: seq<O>, key: O -> K, s: seq<T>, ref: T -> K)
    requires DistinctBy(owners, key)
    ensures SumOf(Tally(owners, key, s, ref), CountOf) == |Filter(s, RefersToAny(ref, Keys(owners, key)))|
  {
    if owners == [] {
      FilterNone(s, RefersToAny(ref, Keys(owners, key)));
    } else {
      var rest := owners[1..];
      assert DistinctBy(rest, key) by {
        forall i, j | 0 <= i < j < |rest| ensures key(rest[i]) != key(rest[j]) {
          assert rest[i] == owners[i + 1] && rest[j] == owners[j + 1];
        }
      }
      TallySumRefers(rest, key, s, ref);
      var k0 := key(owners[0]);
      assert Keys(owners, key) == [k0] + Keys(rest, key);
      assert k0 !in Keys(rest, key) by {
        forall i | 0 <= i < |rest| ensures Keys(rest, key)[i] != k0 {
          assert Keys(rest, key)[i] == key(owners[i + 1]);
        }
      }
      FilterDisjointUnion(s, Refers(ref, k0), RefersToAny(ref, Keys(rest, key)), RefersToAny(ref, Keys(owners, key)));
    }
  }

  /** With every row referring to one of the owners, the counts add up to
      the number of rows. */
  lemma TallySum<O, K, T>(owners: seq<O>, key: O -> K, s: seq<T>, ref: T -> K)
    requires DistinctBy(owners, key)
    requires forall x :: x in s ==> ref(x) in Keys(owners, key)
    ensures SumOf(Tally(owners, key, s, ref), CountOf) == |s|
  {
    TallySumRefers(owners, key, s, ref);
    FilterAll(s, RefersToAny(ref, Keys(owners, key)));
  }

  /** A row is kept by a WHERE clause exactly when it is a row of the table
      that satisfies the condition. */
  lemma FilterMembers<T>(s: seq<T>, p: T -> bool)
    ensures forall x :: x in Filter(s, p) <==> x in s && p(x)
  {
    var r := Filter(s, p);
    forall x | x in s && p(x) ensures x in r {
      var i :| 0 <= i < |s| && s[i] == x;
    }
  }

  /** A key that some kept row carries survives a deletion. */
  lemma KeyKept<T, K>(s: seq<T>, p: T -> bool, key: T -> K, k: K)
    requires k in Keys(s, key)
    requires forall x :: x in s && key(x) == k ==> p(x)
    ensures k in Keys(Filter(s, p), key)
  {
    var i :| 0 <= i < |s| && Keys(s, key)[i] == k;
    var r := Filter(s, p);
    assert s[i] in r;
    var j :| 0 <= j < |r| && r[j] == s[i];
    assert Keys(r, key)[j] == k;
  }

  /** Appending a row with a new key keeps the keys distinct. */
  lemma AppendDistinct<T, K>(s: seq<T>, x: T, key: T -> K)
    requires DistinctBy(s, key)
    requires key(x) !in Keys(s, key)
    ensures DistinctBy(s + [x], key)
  {
    var r := s + [x];
    forall i, j | 0 <= i < j < |r| ensures key(r[i]) != key(r[j]) {
      if j == |s| {
        assert Keys(s, key)[i] == key(r[i]);
      } else {
        assert r[i] == s[i] && r[j] == s[j];
      }
    }
  }

  /** The keys of a table with one row appended. */
  lemma KeysAppend<T, K>(s: seq<T>, x: T, key: T -> K)
    ensures Keys(s + [x], key) == Keys(s, key) + [key(x)]
  {
  }

  /** Some row refers to `k` exactly when `k` is among the references. */
  lemma FilterRefersNonEmpty<T, K>(s: seq<T>, ref: T -> K, k: K)
    ensures |Filter(s, Refers(ref, k))| > 0 <==> k in Keys(s, ref)
  {
    var r := Filter(s, Refers(ref, k));
    if k in Keys(s, ref) {
      var i :| 0 <= i < |s| && Keys(s, ref)[i] == k;
      assert Refers(ref, k)(s[i]);
      assert s[i] in r;
    }
    if |r| > 0 {
      assert Refers(ref, k)(r[0]);
      var j :| 0 <= j < |s| && s[j] == r[0];
      assert Keys(s, ref)[j] == k;
    }
  }

  /** When each key is referenced at most once, repeating every owner by its
      count keeps exactly the referenced owners (an inner join on a unique
      reference is a semi-join). */
  lemma {:induction false} ExpandTallyIsFilter<O, K, T>(owners: seq<O>, key: O -> K, s: seq<T>, ref: T -> K)
    requires DistinctBy(s, ref)
    ensures Expand(Tally(owners, key, s, ref)) == Filter(owners, RefersToAny(key, Keys(s, ref)))
  {
    if owners != [] {
      var k := key(owners[0]);
      var present := k in Keys(s, ref);
      var tally := Tally(owners, key, s, ref);
      ExpandTallyIsFilter(owners[1..], key, s, ref);
      assert tally[0].count == (if present then 1 else 0) by {
        AtMostOneRefers(s, ref, k);
        FilterRefersNonEmpty(s, ref, k);
      }
      ExpandHead(tally, present);
      assert tally[1..] == Tally(owners[1..], key, s, ref);
      assert RefersToAny(key, Keys(s, ref))(owners[0]) == present;
    }
  }

  /** The first group of an expansion holds its row once or not at all. */
  lemma ExpandHead<T>(rows: seq<Counted<T>>, present: bool)
    requires rows != [] && rows[0].count == (if present then 1 else 0)
    ensures Expand(rows) == (if present then [rows[0].item] else []) + Expand(rows[1..])
  {
    if present {
      assert seq(rows[0].count, _ => rows[0].item) == [rows[0].item];
    } else {
      assert seq(rows[0].count, _ => rows[0].item) == [];
    }
  }

  /** Dropping the first row keeps a uniqueness constraint. */
  lemma DistinctTail<T, K>(s: seq<T>, key: T -> K)
    requires s != [] && DistinctBy(s, key)
    ensures DistinctBy(s[1..], key)
  {
    forall i, j | 0 <= i < j < |s[1..]| ensures key(s[1..][i]) != key(s[1..][j]) {
      assert s[1..][i] == s[i + 1] && s[1..][j] == s[j + 1];
    }
  }

  /** The rows `rows` given consecutive ids from `first` on, as a sequence
      hands them out. */
  function Numbered<R>(rows: seq<R>, first: int, withId: (R, int) -> R): (r: seq<R>)
    ensures |r| == |rows|
    ensures forall i :: 0 <= i < |rows| ==> r[i] == withId(rows[i], first + i)
  {
    seq(|rows|, i requires 0 <= i < |rows| => withId(rows[i], first + i))
  }

  /** Numbering the first row and then the rest is numbering them all. */
  lemma NumberedStep<R>(xs: seq<R>, rows: seq<R>, first: int, withId: (R, int) -> R)
    requires rows != []
    ensures (xs + [withId(rows[0], first)]) + Numbered(rows[1..], first + 1, withId) == xs + Numbered(rows, first, withId)
  {
    var n := Numbered(rows, first, withId);
    var n1 := Numbered(rows[1..], first + 1, withId);
    forall i | 0 < i < |n| ensures n[i] == n1[i - 1] {
      assert rows[1..][i - 1] == rows[i];
    }
    assert n == [withId(rows[0], first)] + n1;
  }

  /** Numbering rows from `first` uses every key from `first` on, once per row. */
  lemma NumberedKeys<R>(rows: seq<R>, first: int, withId: (R, int) -> R, key: R -> int, k: int)
    requires forall r, id :: key(withId(r, id)) == id
    requires first <= k < first + |rows|
    ensures k in Keys(Numbered(rows, first, withId), key)
  {
    var n := Numbered(rows, first, withId);
    assert key(n[k - first]) == k;
  }

  /** A key above every key in use is not in use. */
  lemma AboveAllUnused<T>(s: seq<T>, key: T -> int, k: int)
    requires forall i :: 0 <= i < |s| ==> key(s[i]) < k
    ensures k !in Keys(s, key)
  {
  }
}
