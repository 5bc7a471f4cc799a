/** Stock result types shared by every module. */
module Wrappers {

  datatype Option<+T> = None | Some(value: T) {
    function GetOr(default: T): T {
      match this
      case Some(v) => v
      case None => default
    }
  }

  datatype Result<+T, +E> = Ok(value: T) | Err(error: E)

  /** `q` lists the members of `s`, each exactly once. */
  ghost predicate Enumerates<T>(q: seq<T>, s: set<T>) {
    && (forall x :: x in q ==> x in s)
    && (forall x :: x in s ==> x in q)
    && Distinct(q)
  }

  ghost predicate Distinct<T>(q: seq<T>) {
    forall i, j :: 0 <= i < j < |q| ==> q[i] != q[j]
  }

  ghost function Elements<T>(q: seq<T>): set<T> {
    set x | x in q
  }

  lemma TakeNext<T>(q: seq<T>, n: nat)
    requires n < |q|
    ensures q[..n] + [q[n]] == q[..n + 1]
  {
  }

  lemma TakeAll<T>(q: seq<T>)
    ensures q[..|q|] == q
  {
  }

  lemma AppendPrepend<T>(a: seq<T>, x: T, rest: seq<T>)
    ensures (a + [x]) + rest == a + ([x] + rest)
  {
  }

  lemma AppendEmpty<T>(a: seq<T>)
    ensures a + [] == a && [] + a == a
  {
  }
}
