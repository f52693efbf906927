/** Finite sets of integers in ascending order: what `min` and `sorted` give on a set. */
module IntSets {
  predicate LeastOf(n: int, s: set<int>) { n in s && forall m | m in s :: n <= m }

  lemma Inhabited(s: set<int>)
    requires s != {}
    ensures exists n :: n in s
  {
    if forall n :: n !in s {
    }
  }

  lemma {:induction false} LeastExists(s: set<int>)
    requires s != {}
    ensures exists n :: LeastOf(n, s)
    decreases |s|
  {
    Inhabited(s);
    var n :| n in s;
    var rest := s - {n};
    if |rest| == 0 {
      assert s == {n};
      assert LeastOf(n, s);
    } else {
      LeastExists(rest);
      var k :| LeastOf(k, rest);
      assert LeastOf(if n < k then n else k, s) by {
        forall m | m in s ensures (if n < k then n else k) <= m {
          assert m == n || m in rest;
        }
      }
    }
  }

  function Least(s: set<int>): (n: int)
    requires s != {}
    ensures LeastOf(n, s)
  {
    LeastExists(s);
    var n :| LeastOf(n, s);
    n
  }

  function Sorted(s: set<int>): (r: seq<int>)
    ensures |r| == |s| && forall n :: n in r <==> n in s
    ensures forall i, j | 0 <= i < j < |r| :: r[i] < r[j]
    decreases |s|
  {
    if s == {} then []
    else
      var n := Least(s);
      var rest := Sorted(s - {n});
      assert forall m | m in rest :: n < m;
      [n] + rest
  }
}
