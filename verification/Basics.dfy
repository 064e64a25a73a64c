/** Options, finite sums and orders shared by every model of this project. */
module Basics {

  datatype Option<+T> = None | Some(value: T)

  /** The sum of `f` over a finite set: the meaning of SQL `SUM` and of the counter loops. */
  ghost function Sum<T(!new)>(s: set<T>, f: T -> int): int {
    if s == {} then 0 else
      var x :| x in s;
      f(x) + Sum(s - {x}, f)
  }

  lemma {:induction false} SumTake<T(!new)>(s: set<T>, x: T, f: T -> int)
    requires x in s
    ensures Sum(s, f) == f(x) + Sum(s - {x}, f)
  {
    var y :| y in s && Sum(s, f) == f(y) + Sum(s - {y}, f);
    if y != x {
      SumTake(s - {y}, x, f);
      SumTake(s - {x}, y, f);
      assert s - {y} - {x} == s - {x} - {y};
    }
  }

  lemma SumPut<T(!new)>(s: set<T>, x: T, f: T -> int)
    requires x !in s
    ensures Sum(s + {x}, f) == Sum(s, f) + f(x)
  {
    SumTake(s + {x}, x, f);
    assert s + {x} - {x} == s;
  }

  lemma {:induction false} SumAgree<T(!new)>(s: set<T>, f: T -> int, g: T -> int)
    requires forall x :: x in s ==> f(x) == g(x)
    ensures Sum(s, f) == Sum(s, g)
  {
    if s != {} {
      var x :| x in s;
      SumTake(s, x, f);
      SumTake(s, x, g);
      SumAgree(s - {x}, f, g);
    }
  }

  lemma {:induction false} SumNonNegative<T(!new)>(s: set<T>, f: T -> int)
    requires forall x :: x in s ==> f(x) >= 0
    ensures Sum(s, f) >= 0
  {
    if s != {} {
      var x :| x in s;
      SumTake(s, x, f);
      SumNonNegative(s - {x}, f);
    }
  }

  lemma {:induction false} SumOnes<T(!new)>(s: set<T>, f: T -> int)
    requires forall x :: x in s ==> f(x) == 1
    ensures Sum(s, f) == |s|
  {
    if s != {} {
      var x :| x in s;
      SumTake(s, x, f);
      SumOnes(s - {x}, f);
    }
  }

  /** A one-to-one correspondence carries a sum from one set to another. */
  lemma {:induction false} SumMatch<T(!new), U(!new)>(m: map<T, U>, s: set<U>, f: T -> int, g: U -> int)
    requires forall x, y :: x in m && y in m && m[x] == m[y] ==> x == y
    requires m.Values == s
    requires forall x :: x in m ==> f(x) == g(m[x])
    ensures Sum(m.Keys, f) == Sum(s, g)
    ensures |m.Keys| == |s|
    decreases |m.Keys|
  {
    if m.Keys == {} {
      assert m == map[];
      assert s == {};
    } else {
      var x :| x in m;
      var rest := map y | y in m && y != x :: m[y];
      assert rest.Keys == m.Keys - {x};
      assert rest.Values == s - {m[x]} by {
        forall u | u in s - {m[x]} ensures u in rest.Values {
          var y :| y in m && m[y] == u;
          assert y in rest && rest[y] == u;
        }
      }
      SumMatch(rest, s - {m[x]}, f, g);
      SumTake(m.Keys, x, f);
      SumTake(s, m[x], g);
    }
  }

  lemma Witness<T(!new)>(s: set<T>) returns (x: T)
    requires s != {}
    ensures x in s
  {
    x :| x in s;
  }

  /** `s` lists the elements of `all`, each exactly once and in any order: what a SELECT returns. */
  ghost predicate Lists<T(!new)>(s: seq<T>, all: set<T>) {
    && (forall x :: x in s <==> x in all)
    && (forall i, j :: 0 <= i < j < |s| ==> s[i] != s[j])
  }

  lemma ListsNext<T(!new)>(s: seq<T>, all: set<T>, x: T)
    requires Lists(s, all) && x !in all
    ensures Lists(s + [x], all + {x})
  {
  }

  lemma ListsExact<T(!new)>(s: seq<T>, all: set<T>)
    ensures Lists(s, all) <==> (forall i, j :: 0 <= i < j < |s| ==> s[i] != s[j]) && (set x | x in s) == all
  {
  }

  /** The images of a list, with their multiplicities. */
  function Bag<T, U>(rows: seq<T>, f: T --> U): multiset<U>
    requires forall r :: r in rows ==> f.requires(r)
  {
    if rows == [] then multiset{} else multiset{f(rows[0])} + Bag(rows[1..], f)
  }

  lemma {:induction false} BagMembers<T, U>(rows: seq<T>, f: T --> U, u: U)
    requires forall r :: r in rows ==> f.requires(r)
    ensures u in Bag(rows, f) <==> exists r :: r in rows && f(r) == u
  {
    if rows != [] { BagMembers(rows[1..], f, u); assert rows == [rows[0]] + rows[1..]; }
  }

  lemma {:induction false} BagOnce<T, U>(rows: seq<T>, f: T --> U, u: U)
    requires forall r :: r in rows ==> f.requires(r)
    requires forall i, j :: 0 <= i < j < |rows| ==> f(rows[i]) != f(rows[j])
    ensures Bag(rows, f)[u] <= 1
  {
    if rows != [] {
      BagOnce(rows[1..], f, u);
      BagMembers(rows[1..], f, f(rows[0]));
    }
  }

  /** The rows that satisfy a condition, in their order. */
  function Select<T>(rows: seq<T>, p: T -> bool): seq<T> {
    if rows == [] then [] else (if p(rows[0]) then [rows[0]] else []) + Select(rows[1..], p)
  }

  lemma {:induction false} SelectNone<T>(rows: seq<T>, p: T -> bool)
    ensures Select(rows, p) == [] <==> forall j :: 0 <= j < |rows| ==> !p(rows[j])
  {
    if rows != [] {
      SelectNone(rows[1..], p);
      assert forall j :: 0 < j < |rows| ==> rows[j] == rows[1..][j - 1];
    }
  }

  /** Position `i` is the only one that satisfies the condition. */
  ghost predicate Only<T(!new)>(rows: seq<T>, p: T -> bool, i: nat) {
    i < |rows| && p(rows[i]) && forall j :: 0 <= j < |rows| && p(rows[j]) ==> j == i
  }

  lemma {:induction false} SelectOnly<T(!new)>(rows: seq<T>, p: T -> bool, i: nat)
    requires Only(rows, p, i)
    ensures Select(rows, p) == [rows[i]]
  {
    var rest := rows[1..];
    assert forall j :: 0 <= j < |rest| ==> rest[j] == rows[j + 1];
    if i == 0 {
      SelectNone(rest, p);
    } else {
      SelectOnly(rest, p, i - 1);
    }
  }

  lemma {:induction false} OnlySelected<T(!new)>(rows: seq<T>, p: T -> bool) returns (i: nat)
    requires |Select(rows, p)| == 1
    ensures Only(rows, p, i)
  {
    var rest := rows[1..];
    assert forall j :: 0 < j < |rows| ==> rows[j] == rest[j - 1];
    if p(rows[0]) {
      SelectNone(rest, p);
      i := 0;
    } else {
      var k := OnlySelected(rest, p);
      i := k + 1;
    }
  }

  lemma SplitInThree<T(!new)>(all: set<T>, a: set<T>, b: set<T>, c: set<T>)
    requires all == a + b + c && a !! b && a + b !! c
    ensures |a| + |b| + |c| == |all|
  {
  }
}
