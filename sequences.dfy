/** Generic facts about sequences and multisets that the proofs about listings and buckets
    lean on. */
module Sequences {

  /** Concatenation is associative; stated once so that proofs about lists built by
      concatenation need not re-derive it element by element. */
  lemma AppendAssoc<T>(a: seq<T>, b: seq<T>, c: seq<T>)
    ensures (a + b) + c == a + (b + c)
  {
  }

  /** Regrouping a sum of four multisets. */
  lemma SumSwap<T>(a: multiset<T>, b: multiset<T>, c: multiset<T>, d: multiset<T>)
    ensures (a + b) + (c + d) == (a + c) + (b + d)
  {
  }

  /** Moving the part `d` of `s` onto `f` and queueing the rest `q` of `s` behind `r` keeps the
      combined contents of the two sides. */
  lemma Rebalance<T>(f: seq<T>, d: seq<T>, r: seq<T>, q: seq<T>, s: seq<T>)
    requires multiset(s) == multiset(d) + multiset(q)
    ensures multiset(f + d) + multiset(r + q) == multiset(f) + multiset(s + r)
  {
  }

  /** A non-empty sequence is its first element followed by the rest. */
  lemma HeadTail<T>(s: seq<T>)
    requires s != []
    ensures s == [s[0]] + s[1..]
  {
  }

  /** Concatenating onto a non-empty sequence keeps its first element and lengthens its tail. */
  lemma ConcatHeadTail<T>(a: seq<T>, b: seq<T>)
    requires a != []
    ensures (a + b)[0] == a[0] && (a + b)[1..] == a[1..] + b
  {
  }

  /** A prefix one longer is the prefix followed by the next element. */
  lemma TakeOneMore<T>(s: seq<T>, i: nat)
    requires i < |s|
    ensures s[..i + 1] == s[..i] + [s[i]]
  {
  }
}
