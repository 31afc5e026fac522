/** `list.sort(key=...)` on employees, as the layoff consequences use it. Python's
    sort is stable: it orders by key and keeps the list order among equal keys.
    The model is an insertion sort that places each element before every later
    element of equal key, with both properties proved. */
module Sorting {
  import opened EmployeeData

  /** The two keys the source sorts by. */
  datatype SortKey = ByProductivity | ByTenure

  function KeyOf(k: SortKey, e: Employee): int
  {
    match k
    case ByProductivity => e.stats.productivity
    case ByTenure => e.tenureMonths
  }

  predicate SortedBy(k: SortKey, s: seq<Employee>)
  {
    forall i, j :: 0 <= i < j < |s| ==> KeyOf(k, s[i]) <= KeyOf(k, s[j])
  }

  /** The elements of `s` whose key is `v`, in the order of `s`. */
  function WithKey(k: SortKey, v: int, s: seq<Employee>): (r: seq<Employee>)
    ensures |r| <= |s|
  {
    if s == [] then []
    else (if KeyOf(k, s[0]) == v then [s[0]] else []) + WithKey(k, v, s[1..])
  }

  /** Places `x` in front of the first element whose key is not smaller. */
  function InsertBy(k: SortKey, x: Employee, s: seq<Employee>): (r: seq<Employee>)
    ensures multiset(r) == multiset(s) + multiset{x}
  {
    if s == [] || KeyOf(k, x) <= KeyOf(k, s[0]) then [x] + s
    else
      assert s == [s[0]] + s[1..];
      [s[0]] + InsertBy(k, x, s[1..])
  }

  /** Inserting into a sorted list keeps it sorted. */
  lemma {:induction false} InsertKeepsSorted(k: SortKey, x: Employee, s: seq<Employee>)
    requires SortedBy(k, s)
    ensures SortedBy(k, InsertBy(k, x, s))
  {
    if s == [] || KeyOf(k, x) <= KeyOf(k, s[0]) {
      forall y | y in s ensures KeyOf(k, x) <= KeyOf(k, y) {
        var j :| 0 <= j < |s| && s[j] == y;
      }
      ConsSorted(k, x, s);
    } else {
      var tail := s[1..];
      var rest := InsertBy(k, x, tail);
      assert SortedBy(k, tail);
      InsertKeepsSorted(k, x, tail);
      forall y | y in rest ensures KeyOf(k, s[0]) <= KeyOf(k, y) {
        assert y in multiset(rest);
        if y != x {
          var j :| 0 <= j < |tail| && tail[j] == y;
          assert s[j + 1] == y;
        }
      }
      ConsSorted(k, s[0], rest);
    }
  }

  /** An element no larger than every element of a sorted list can go in front. */
  lemma ConsSorted(k: SortKey, a: Employee, t: seq<Employee>)
    requires SortedBy(k, t)
    requires forall y :: y in t ==> KeyOf(k, a) <= KeyOf(k, y)
    ensures SortedBy(k, [a] + t)
  {
    var s := [a] + t;
    forall i, j | 0 <= i < j < |s| ensures KeyOf(k, s[i]) <= KeyOf(k, s[j]) {
      assert s[j] == t[j - 1];
      if i > 0 {
        assert s[i] == t[i - 1];
      }
    }
  }

  /** The stable sort of `s` by key `k`. */
  function SortBy(k: SortKey, s: seq<Employee>): (r: seq<Employee>)
    ensures multiset(r) == multiset(s)
    ensures |r| == |s|
    ensures SortedBy(k, r)
  {
    if s == [] then []
    else
      assert s == [s[0]] + s[1..];
      InsertKeepsSorted(k, s[0], SortBy(k, s[1..]));
      InsertBy(k, s[0], SortBy(k, s[1..]))
  }

  lemma WithKeyCons(k: SortKey, v: int, a: Employee, t: seq<Employee>)
    ensures WithKey(k, v, [a] + t) == (if KeyOf(k, a) == v then [a] else []) + WithKey(k, v, t)
  {
    assert ([a] + t)[1..] == t;
  }

  lemma {:induction false} WithKeyInsert(k: SortKey, v: int, x: Employee, s: seq<Employee>)
    ensures WithKey(k, v, InsertBy(k, x, s)) == (if KeyOf(k, x) == v then [x] else []) + WithKey(k, v, s)
  {
    if s == [] || KeyOf(k, x) <= KeyOf(k, s[0]) {
      WithKeyCons(k, v, x, s);
    } else {
      var a, t := s[0], s[1..];
      var front := if KeyOf(k, a) == v then [a] else [];
      var mine := if KeyOf(k, x) == v then [x] else [];
      InsertStep(k, x, s);
      WithKeyCons(k, v, a, InsertBy(k, x, t));
      WithKeyInsert(k, v, x, t);
      // x sorts strictly after a, so at most one of them has key v
      Swap(front, mine, WithKey(k, v, t));
    }
  }

  /** Past an element of smaller key, insertion goes on in the tail. */
  lemma InsertStep(k: SortKey, x: Employee, s: seq<Employee>)
    requires s != [] && KeyOf(k, s[0]) < KeyOf(k, x)
    ensures InsertBy(k, x, s) == [s[0]] + InsertBy(k, x, s[1..])
  {
  }

  /** When one of two parts is empty they may trade places. */
  lemma Swap<T>(front: seq<T>, mine: seq<T>, tail: seq<T>)
    requires front == [] || mine == []
    ensures front + (mine + tail) == mine + (front + tail)
  {
    if front == [] {
      assert front + (mine + tail) == mine + tail;
    } else {
      assert mine + (front + tail) == front + tail;
    }
  }

  /** Stability: for every key value, the elements with that key appear in the
      sorted list in their original order. */
  lemma {:induction false} SortIsStable(k: SortKey, v: int, s: seq<Employee>)
    ensures WithKey(k, v, SortBy(k, s)) == WithKey(k, v, s)
  {
    if s != [] {
      SortIsStable(k, v, s[1..]);
      WithKeyInsert(k, v, s[0], SortBy(k, s[1..]));
    }
  }

  /** The key of the last of the first `c` elements, 0 when there is none. */
  function LastKey(k: SortKey, s: seq<Employee>, c: nat): int
  {
    if 0 < c <= |s| then KeyOf(k, s[c - 1]) else 0
  }

  /** In a sorted list the first `c` keys are at most the last of them. */
  lemma UpToLast(k: SortKey, s: seq<Employee>, c: nat, i: nat)
    requires SortedBy(k, s) && i < c <= |s|
    ensures KeyOf(k, s[i]) <= LastKey(k, s, c)
  {
  }

  /** In a sorted list the keys after the first `c` are at least the last of
      those. */
  lemma FromLast(k: SortKey, s: seq<Employee>, c: nat, j: nat)
    requires SortedBy(k, s) && 0 < c <= j < |s|
    ensures LastKey(k, s, c) <= KeyOf(k, s[j])
  {
  }

  /** The first `n` elements of a sorted list have keys no larger than any of
      the elements after them. */
  lemma PrefixIsLowest(k: SortKey, s: seq<Employee>, n: nat, x: Employee, y: Employee)
    requires SortedBy(k, s) && n <= |s|
    requires x in s[..n] && y in s[n..]
    ensures KeyOf(k, x) <= KeyOf(k, y)
  {
    var i :| 0 <= i < n && s[..n][i] == x;
    var j :| 0 <= j < |s| - n && s[n..][j] == y;
    assert s[i] == x && s[n + j] == y;
  }

  /** A key value occurs in a list exactly when its group is not empty. */
  lemma {:induction false} WithKeyPresent(k: SortKey, v: int, s: seq<Employee>)
    ensures WithKey(k, v, s) != [] <==> exists i :: 0 <= i < |s| && KeyOf(k, s[i]) == v
  {
    if s != [] {
      WithKeyPresent(k, v, s[1..]);
      if exists i :: 0 <= i < |s| && KeyOf(k, s[i]) == v {
        var i :| 0 <= i < |s| && KeyOf(k, s[i]) == v;
        if i > 0 {
          assert KeyOf(k, s[1..][i - 1]) == v;
        }
      }
      if exists i :: 0 <= i < |s[1..]| && KeyOf(k, s[1..][i]) == v {
        var i :| 0 <= i < |s[1..]| && KeyOf(k, s[1..][i]) == v;
        assert KeyOf(k, s[i + 1]) == v;
      }
    }
  }

  /** The group of `v` in the tail: the group in the whole list, less the head
      when the head belongs to it. */
  lemma WithKeyTail(k: SortKey, v: int, a: seq<Employee>)
    requires a != []
    ensures WithKey(k, v, a[1..]) == WithKey(k, v, a)[if KeyOf(k, a[0]) == v then 1 else 0..]
  {
  }

  /** Two sorted lists that agree on every key group are equal. */
  lemma {:induction false} SortedGroupsDetermine(k: SortKey, a: seq<Employee>, b: seq<Employee>)
    requires SortedBy(k, a) && SortedBy(k, b)
    requires forall v :: WithKey(k, v, a) == WithKey(k, v, b)
    ensures a == b
    decreases |a|
  {
    if a == [] || b == [] {
      EmptyGroups(k, a, b);
    } else {
      HeadsAgree(k, a, b);
      forall v ensures WithKey(k, v, a[1..]) == WithKey(k, v, b[1..]) {
        WithKeyTail(k, v, a);
        WithKeyTail(k, v, b);
      }
      assert SortedBy(k, a[1..]) && SortedBy(k, b[1..]);
      SortedGroupsDetermine(k, a[1..], b[1..]);
      assert a == [a[0]] + a[1..] && b == [b[0]] + b[1..];
    }
  }

  /** Lists that agree on every key group are empty together. */
  lemma EmptyGroups(k: SortKey, a: seq<Employee>, b: seq<Employee>)
    requires forall v :: WithKey(k, v, a) == WithKey(k, v, b)
    ensures a == [] <==> b == []
  {
    if a != [] {
      WithKeyPresent(k, KeyOf(k, a[0]), a);
      WithKeyPresent(k, KeyOf(k, a[0]), b);
    }
    if b != [] {
      WithKeyPresent(k, KeyOf(k, b[0]), b);
      WithKeyPresent(k, KeyOf(k, b[0]), a);
    }
  }

  /** The head of a sorted list is the first element of the smallest key's group. */
  lemma HeadsAgree(k: SortKey, a: seq<Employee>, b: seq<Employee>)
    requires a != [] && b != []
    requires SortedBy(k, a) && SortedBy(k, b)
    requires forall v :: WithKey(k, v, a) == WithKey(k, v, b)
    ensures a[0] == b[0]
  {
    var ka, kb := KeyOf(k, a[0]), KeyOf(k, b[0]);
    assert WithKey(k, kb, a) == WithKey(k, kb, b);
    assert WithKey(k, ka, a) == WithKey(k, ka, b);
    WithKeyPresent(k, kb, a);
    WithKeyPresent(k, ka, b);
    assert ka == kb;
    assert WithKey(k, ka, a)[0] == a[0];
    assert WithKey(k, ka, b)[0] == b[0];
  }

  /** `SortBy` is the only stable sort: any sorted list that keeps every key
      group of `s` in the order of `s` is `SortBy(k, s)`. */
  lemma SortByIsTheStableSort(k: SortKey, s: seq<Employee>, t: seq<Employee>)
    requires SortedBy(k, t)
    requires forall v :: WithKey(k, v, t) == WithKey(k, v, s)
    ensures t == SortBy(k, s)
  {
    forall v ensures WithKey(k, v, t) == WithKey(k, v, SortBy(k, s)) {
      SortIsStable(k, v, s);
    }
    SortedGroupsDetermine(k, t, SortBy(k, s));
  }
}
