/** Small shared vocabulary: optional values, least elements, powers of two. */
module Common {

  datatype Option<+T> = None | Some(value: T)

  type TaskId = nat
  type RunnerId = nat

  function Max(a: int, b: int): int {
    if a < b then b else a
  }

  function Pow2(n: nat): nat {
    if n == 0 then 1 else 2 * Pow2(n - 1)
  }

  lemma {:induction false} LeastOf(s: set<nat>) returns (m: nat)
    requires s != {}
    ensures m in s && forall k | k in s :: m <= k
  {
    var x :| x in s;
    m := x;
    if s != {x} {
      var rest := LeastOf(s - {x});
      m := if x < rest then x else rest;
      forall k | k in s ensures m <= k {
        if k != x { assert k in s - {x}; }
      }
    }
  }

  lemma LeastExists(s: set<nat>)
    requires s != {}
    ensures exists m :: m in s && forall k | k in s :: m <= k
  {
    var m := LeastOf(s);
  }

  ghost function Least(s: set<nat>): (m: nat)
    requires s != {}
    ensures m in s && forall k | k in s :: m <= k
  {
    LeastExists(s);
    var m :| m in s && forall k | k in s :: m <= k;
    m
  }
}
