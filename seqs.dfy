/** Small facts about sequences and maps used by the loops and the state
    updates of the model. */
module Seqs {

  /** The prefix one element longer is the prefix and that element. */
  lemma TakeOneMore<T>(b: seq<T>, j: nat)
    requires j < |b|
    ensures b[..j + 1] == b[..j] + [b[j]]
  {
  }

  /** Taking one more element of `b` after `a`. */
  lemma AppendSlice<T>(a: seq<T>, b: seq<T>, j: nat)
    requires j < |b|
    ensures a + b[..j + 1] == a + b[..j] + [b[j]]
  {
    TakeOneMore(b, j);
  }

  /** Three appends in turn are one append of the three. */
  lemma AppendThree<T>(h: seq<T>, a: T, b: T, c: T)
    ensures h + [a] + [b] + [c] == h + [a, b, c]
  {
  }

  /** Four appends in turn are one append of the four. */
  lemma AppendFour<T>(h: seq<T>, a: T, b: T, c: T, d: T)
    ensures h + [a] + [b] + [c] + [d] == h + [a, b, c, d]
  {
  }

  /** Two appends and then a tail are one append of the three parts. */
  lemma AppendTwoThen<T>(h: seq<T>, a: T, b: T, t: seq<T>)
    ensures h + [a] + [b] + t == h + ([a, b] + t)
  {
  }

  /** A second update of the same key replaces the first. */
  lemma Overwrite<K, V>(m: map<K, V>, k: K, a: V, b: V)
    ensures m[k := a][k := b] == m[k := b]
  {
  }

  lemma HeadThenTail<T>(s: seq<T>)
    requires s != []
    ensures [s[0]] + s[1..] == s
  {
  }

  lemma Associate<T>(x: seq<T>, y: seq<T>, z: seq<T>)
    ensures x + y + z == x + (y + z)
  {
  }

  lemma ConsSlice<T>(s: seq<T>, j: nat, i: nat)
    requires j < i <= |s|
    ensures s[j..i] == [s[j]] + s[j + 1..i]
  {
  }
}
