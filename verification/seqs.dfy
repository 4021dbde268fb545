/** Small facts about sequences, proved once in an empty context. */
module Seqs {

  lemma SplitLast<T>(s: seq<T>)
    requires |s| > 0
    ensures s == s[..|s| - 1] + [s[|s| - 1]]
  {
  }

  lemma SplitFirst<T>(s: seq<T>)
    requires |s| > 0
    ensures s == [s[0]] + s[1..]
  {
  }

  lemma AppendTail<T>(a: seq<T>, b: seq<T>)
    requires |a| > 0
    ensures (a + b)[1..] == a[1..] + b
  {
  }

  lemma AppendAssoc<T>(a: seq<T>, b: seq<T>, c: seq<T>)
    ensures (a + b) + c == a + (b + c)
  {
  }

  lemma AppendEmpty<T>(s: seq<T>)
    ensures s + [] == s && [] + s == s
  {
  }

  /** Position `at` of a concatenation, inside the front part, reads the front part. */
  lemma IndexLeft<T>(all: seq<T>, a: seq<T>, b: seq<T>, at: int)
    requires all == a + b && 0 <= at < |a|
    ensures at < |all| && all[at] == a[at]
  {
  }

  /** Position `at` of a concatenation, `m` past the front part, reads position `m` of the back part. */
  lemma IndexRight<T>(all: seq<T>, a: seq<T>, b: seq<T>, at: int, m: int)
    requires all == a + b && 0 <= m < |b| && at == |a| + m
    ensures 0 <= at < |all| && all[at] == b[m]
  {
  }
}
