// SELECT ... ORDER BY key LIMIT n over a set of rows.

module Query {
  // s is one of the answers the statement may give: rows with equal keys may
  // come in either order.
  ghost predicate IsTop<T(!new)>(rows: set<T>, key: T -> int, limit: nat, s: seq<T>) {
    && |s| == (if |rows| < limit then |rows| else limit)
    && (forall i | 0 <= i < |s| :: s[i] in rows)
    && (forall i, j | 0 <= i < j < |s| :: s[i] != s[j] && key(s[i]) <= key(s[j]))
    && (forall r, i | r in rows && r !in s && 0 <= i < |s| :: key(s[i]) <= key(r))
  }

  lemma {:induction false} SmallestExists<T(!new)>(rows: set<T>, key: T -> int) returns (x: T)
    requires rows != {}
    ensures x in rows && forall r | r in rows :: key(x) <= key(r)
    decreases rows
  {
    x :| x in rows;
    if rows != {x} {
      var y := SmallestExists(rows - {x}, key);
      assert forall r | r in rows :: r == x || r in rows - {x};
      x := if key(y) < key(x) then y else x;
    }
  }

  method Select<T(==,!new)>(rows: set<T>, key: T -> int, limit: nat) returns (s: seq<T>)
    ensures IsTop(rows, key, limit, s)
  {
    s := [];
    var rest := rows;
    while rest != {} && |s| < limit
      invariant rest <= rows && |s| + |rest| == |rows| && |s| <= limit
      invariant forall r :: r in rows <==> r in rest || r in s
      invariant forall r :: r in s ==> r !in rest
      invariant forall i | 0 <= i < |s| :: s[i] in rows
      invariant forall i, j | 0 <= i < j < |s| :: s[i] != s[j] && key(s[i]) <= key(s[j])
      invariant forall r, i | r in rest && 0 <= i < |s| :: key(s[i]) <= key(r)
      decreases rest
    {
      ghost var least := SmallestExists(rest, key);
      var x :| x in rest && forall r :: r in rest ==> key(x) <= key(r);
      s, rest := s + [x], rest - {x};
    }
    assert rest == {} ==> |rest| == 0;
  }

  // The rows an answer holds, as a set: as many as the limit allows.
  lemma {:induction false} TopSize<T(!new)>(s: seq<T>)
    requires forall i, j | 0 <= i < j < |s| :: s[i] != s[j]
    ensures |set r | r in s| == |s|
  {
    if s == [] {
      assert (set r | r in s) == {};
    } else {
      var last := |s| - 1;
      TopSize(s[..last]);
      assert (set r | r in s) == (set r | r in s[..last]) + {s[last]};
      assert s[last] !in s[..last];
    }
  }

  lemma {:induction false} SubsetOfSameSize<T>(a: set<T>, b: set<T>)
    requires a <= b && |a| == |b|
    ensures a == b
  {
    assert b == a + (b - a);
    assert |b - a| == 0;
  }

  // An answer below its limit leaves no row out.
  lemma TopIsAllOrFull<T(!new)>(rows: set<T>, key: T -> int, limit: nat, s: seq<T>)
    requires IsTop(rows, key, limit, s)
    ensures |s| < limit ==> forall r :: r in rows ==> r in s
    ensures |s| <= |rows| && |s| <= limit
  {
    TopSize(s);
    var taken := set r | r in s;
    if |s| < limit {
      SubsetOfSameSize(taken, rows);
      forall r | r in rows ensures r in s {
        assert r in taken;
      }
    }
  }
}
