/** Reading a sequence through a window: small facts the document
    assemblers use to locate a block inside a longer list. */
module Slices {

  /** An element of the block that follows a marker. */
  lemma AfterMarker<T>(h: seq<T>, x: T, f: seq<T>, rest: seq<T>, i: nat)
    requires i < |f|
    ensures |h| + 1 + i < |h + ([x] + (f + rest))|
    ensures (h + ([x] + (f + rest)))[|h| + 1 + i] == f[i]
  {
  }

  /** The second marker and an element of the block after it. */
  lemma AfterSecondMarker<T>(h: seq<T>, x: T, f: seq<T>, y: T, t: seq<T>, rest: seq<T>, j: nat)
    requires j < |t|
    ensures var e := h + ([x] + (f + ([y] + (t + rest))));
      && |h| + 1 + |f| + 1 + j < |e|
      && e[|h| + 1 + |f|] == y
      && e[|h| + 1 + |f| + 1 + j] == t[j]
  {
  }

  /** What sits in front of a marker, and the marker. */
  lemma Front<T>(h: seq<T>, x: T, rest: seq<T>)
    ensures (h + ([x] + rest))[..|h|] == h && (h + ([x] + rest))[|h|] == x
  {
  }

  /** Which part of `h + [x] + f + [y] + t + l` position `i` falls in. */
  lemma Locate<T>(h: seq<T>, x: T, f: seq<T>, y: T, t: seq<T>, l: seq<T>, i: nat)
    requires i < |h| + 2 + |f| + |t| + |l|
    ensures var e, k, m := h + ([x] + (f + ([y] + (t + l)))), |h|, |h| + 1 + |f|;
      && |e| == m + 1 + |t| + |l|
      && (i < k ==> e[i] == h[i])
      && (i == k ==> e[i] == x)
      && (k < i < m ==> e[i] == f[i - k - 1])
      && (i == m ==> e[i] == y)
      && (m < i <= m + |t| ==> e[i] == t[i - m - 1])
      && (m + |t| < i ==> e[i] == l[i - m - 1 - |t|])
  {
  }
}
