/** Order-preserving selection from a sequence, the shape of every filter the tools apply. */
module Sequences {

  /** a is b with some elements left out, the rest in their order. */
  predicate Subsequence<T(==)>(a: seq<T>, b: seq<T>)
    decreases |b|
  {
    a == [] || (b != [] && ((a[0] == b[0] && Subsequence(a[1..], b[1..])) || Subsequence(a, b[1..])))
  }

  /** Whatever a subsequence holds, the whole sequence holds. */
  lemma {:induction false} SubsequenceMembers<T>(a: seq<T>, b: seq<T>)
    requires Subsequence(a, b)
    ensures forall x :: x in a ==> x in b
    decreases |b|
  {
    if a != [] {
      if a[0] == b[0] && Subsequence(a[1..], b[1..]) {
        SubsequenceMembers(a[1..], b[1..]);
        assert a == [a[0]] + a[1..];
      } else {
        SubsequenceMembers(a, b[1..]);
      }
    }
  }

  /** Replacing the head piece of a concatenation by its own two pieces. */
  lemma Regroup<T>(whole: seq<T>, first: seq<T>, rest: seq<T>, front: seq<T>, back: seq<T>, backRest: seq<T>)
    requires whole == first + rest && first == front + back && backRest == back + rest
    ensures whole == front + backRest
  {
  }
}
