/** Small shared vocabulary of the gateway model. */
module Common {

  datatype Option<+T> = None | Some(value: T)

  /** A client connection's id, handed out by the framework and never reused. */
  type ConnId = nat

  /** No element occurs twice: the shape of a PHP array keyed by connection id. */
  predicate NoDup<T(==)>(s: seq<T>)
  {
    forall i, j :: 0 <= i < j < |s| ==> s[i] != s[j]
  }

  lemma NoDupSnoc<T>(s: seq<T>, x: T)
    requires NoDup(s) && x !in s
    ensures NoDup(s + [x])
  {
  }

  lemma AppendAssoc<T>(a: seq<T>, b: seq<T>, c: seq<T>)
    ensures a + (b + c) == (a + b) + c
  {
  }
}
