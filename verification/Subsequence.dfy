/** One sequence inside another, in order: the positions its elements came from. */
module Subsequence {

  ghost predicate Embeds<T>(sub: seq<T>, whole: seq<T>, at: seq<nat>) {
    && |at| == |sub|
    && (forall i | 0 <= i < |at| :: at[i] < |whole| && sub[i] == whole[at[i]])
    && (forall i, j | 0 <= i < j < |at| :: at[i] < at[j])
  }

  /** The whole grows by an element that is left out, or taken along. */
  lemma Grows<T>(sub: seq<T>, whole: seq<T>, at: seq<nat>, x: T)
    requires Embeds(sub, whole, at)
    ensures Embeds(sub, whole + [x], at)
    ensures Embeds(sub + [x], whole + [x], at + [|whole|])
  {
  }

  lemma Through<T>(a: seq<T>, b: seq<T>, c: seq<T>, at: seq<nat>, at': seq<nat>) returns (w: seq<nat>)
    requires Embeds(a, b, at) && Embeds(b, c, at')
    ensures Embeds(a, c, w)
  {
    w := seq(|at|, i requires 0 <= i < |at| => at'[at[i]]);
  }

  lemma PrefixEmbeds<T>(sub: seq<T>, front: seq<T>, back: seq<T>, at: seq<nat>)
    requires Embeds(sub, front, at)
    ensures Embeds(sub, front + back, at)
  {
  }
}
