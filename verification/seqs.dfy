/** Facts about appending sequences, stated once so that the proofs about
    commands, settings and batches need not rediscover them. */
module Seqs {
  /** Appending is associative. */
  lemma Regroup<T>(a: seq<T>, b: seq<T>, c: seq<T>)
    ensures a + b + c == a + (b + c)
  {
  }

  /** Nothing before `s` leaves `s`. */
  lemma EmptyPrefix<T>(s: seq<T>)
    ensures [] + s == s
  {
  }

  /** Moving the head of `c` onto the end of `p` keeps the whole. */
  lemma MoveHead<T>(p: seq<T>, c: seq<T>)
    requires c != []
    ensures (p + [c[0]]) + c[1..] == p + c
  {
  }

  /** The items `w` follow `a` exactly when `b` is `w`, provided `b` is
      either `w` or nothing and `c` does not start like `w`. */
  lemma SliceAfter<T>(a: seq<T>, b: seq<T>, c: seq<T>, w: seq<T>)
    requires b == w || b == []
    requires 0 < |w| <= |c| && c[0] != w[0]
    ensures |a| + |w| <= |a + b + c|
    ensures (a + b + c)[|a|..|a| + |w|] == w <==> b == w
  {
    var s := a + b + c;
    if b == [] {
      assert s[|a|..|a| + |w|][0] == c[0];
    } else {
      assert s[|a|..|a| + |w|] == b;
    }
  }

  /** A sequence built as `a`, three more parts and a last item starts with
      `a` and ends with that item. */
  lemma Framed<T>(a: seq<T>, b: seq<T>, c: seq<T>, d: seq<T>, x: T)
    ensures var s := a + b + c + d + [x];
      |s| == |a| + |b| + |c| + |d| + 1 && s[..|a|] == a && s[|s| - 1] == x
  {
  }
}
