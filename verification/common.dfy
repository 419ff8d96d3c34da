/** Option and Result, the two wrappers the Rust code returns from fallible operations. */
module Common {
  datatype Option<T> = None | Some(value: T)

  datatype Result<T, E> = Ok(value: T) | Err(error: E)

  /** Rust's `u32`. */
  type U32 = n: nat | n <= 0xFFFF_FFFF

  /**
    * Regrouping a concatenation, stated once for any element type so that proofs about
    * sequences of findings need not compare them element by element.
    */
  lemma ConcatAssoc<T>(a: seq<T>, b: seq<T>, c: seq<T>)
    ensures a + (b + c) == a + b + c
  {
  }

  /** Appending nothing, stated once for any element type. */
  lemma ConcatNil<T>(a: seq<T>)
    ensures a + [] == a && [] + a == a
  {
  }

  /** A non-empty sequence is all but its last element, then that element. */
  lemma SplitLast<T>(a: seq<T>)
    requires a != []
    ensures a == a[..|a| - 1] + [a[|a| - 1]]
  {
  }

  /** Dropping the element just appended gives the sequence back. */
  lemma PrefixOfSnoc<T>(a: seq<T>, y: T)
    ensures (a + [y])[..|a|] == a && (a + [y])[|a|] == y
  {
  }

  /** The prefix of a concatenation as long as its first part is that part. */
  lemma PrefixOfConcat<T>(a: seq<T>, b: seq<T>)
    ensures (a + b)[..|a|] == a
  {
  }

  /** A prefix of a prefix is a prefix of the whole. */
  lemma SlicePrefix<T>(a: seq<T>, j: nat, i: nat)
    requires i <= j <= |a|
    ensures a[..j][..i] == a[..i]
  {
  }

  /** A sequence is its prefix up to `i` followed by the rest. */
  lemma SplitAt<T>(a: seq<T>, i: nat)
    requires i <= |a|
    ensures a[..i] + a[i..] == a
  {
  }

  /** The prefix up to `j` and the slice from `j` to `i` make the prefix up to `i`. */
  lemma PrefixThenSlice<T>(a: seq<T>, j: nat, i: nat)
    requires j <= i <= |a|
    ensures a[..j] + a[j..i] == a[..i]
  {
  }

  /** The slice from `i` to the end is the suffix from `i`. */
  lemma SliceToEnd<T>(a: seq<T>, i: nat)
    requires i <= |a|
    ensures a[i..|a|] == a[i..]
  {
  }

  /** The prefix as long as the sequence is the sequence. */
  lemma WholeSlice<T>(a: seq<T>)
    ensures a[..|a|] == a
  {
  }
}
