/** Pool sizes, fault bounds and quorums. */
module Quorums {
  /** `getMaxFailures`: floor((n - 1) / 3) from four nodes on, and none below. */
  function MaxFailures(n: nat): (f: nat)
    ensures f == 0 ==> n <= 3
    ensures n >= 4 ==> 3 * f + 1 <= n <= 3 * f + 3
  {
    if n >= 4 then (n - 1) / 3 else 0
  }

  /** `get_strong_quorum`. */
  function StrongQuorum(n: nat): (q: nat) {
    2 * MaxFailures(n) + 1
  }

  lemma Union<T>(a: set<T>, b: set<T>)
    ensures |a + b| + |a * b| == |a| + |b|
  {
    assert a + b == a + (b - a);
    assert b == (b - a) + (a * b);
  }

  lemma Subset<T>(a: set<T>, b: set<T>)
    requires a <= b
    ensures |a| <= |b|
  {
    assert b == a + (b - a);
  }

  /** Two quorums inside `all` that together exceed it by more than there are faulty members share
      a member that is not faulty. */
  lemma CommonCorrect<T>(all: set<T>, q1: set<T>, q2: set<T>, faulty: set<T>) returns (w: T)
    requires q1 <= all && q2 <= all && |q1| + |q2| > |all| + |faulty|
    ensures w in q1 && w in q2 && w !in faulty
  {
    Union(q1, q2);
    Subset(q1 + q2, all);
    if q1 * q2 <= faulty {
      Subset(q1 * q2, faulty);
    }
    w :| w in q1 * q2 && w !in faulty;
  }

  /** A quorum has at least its size less the number of faulty members from the others. */
  lemma CorrectMembers<T>(q: set<T>, faulty: set<T>)
    ensures |q - faulty| >= |q| - |faulty|
  {
    Subset(q, faulty + (q - faulty));
    Union(faulty, q - faulty);
    assert faulty * (q - faulty) == {};
  }
}
