/** Left folds that may fail, which is how both trace readers decode a message field by field. */
module Folds {
  import opened Prelude

  function Fold<A, B>(apply: (A, B) -> Option<A>, acc: A, items: seq<B>): Option<A> {
    if items == [] then Some(acc)
    else
      match apply(acc, items[0])
      case None => None
      case Some(next) => Fold(apply, next, items[1..])
  }

  lemma {:induction false} FoldAppend<A, B>(apply: (A, B) -> Option<A>, acc: A, a: seq<B>, b: seq<B>)
    ensures Fold(apply, acc, a + b) ==
            match Fold(apply, acc, a)
            case None => None
            case Some(next) => Fold(apply, next, b)
  {
    if a == [] {
      assert a + b == b;
    } else {
      assert (a + b)[0] == a[0] && (a + b)[1..] == a[1..] + b;
      var next := apply(acc, a[0]);
      if next.Some? {
        FoldAppend(apply, next.value, a[1..], b);
      }
    }
  }

  lemma FoldOne<A, B>(apply: (A, B) -> Option<A>, acc: A, item: B)
    ensures Fold(apply, acc, [item]) == apply(acc, item)
  {
    if apply(acc, item).Some? {
      assert Fold(apply, apply(acc, item).value, []) == apply(acc, item);
    }
  }

  /** One more stretch of items after a fold that succeeded. */
  lemma FoldThen<A, B>(apply: (A, B) -> Option<A>, acc: A, mid: A, end: A, a: seq<B>, b: seq<B>)
    requires Fold(apply, acc, a) == Some(mid) && Fold(apply, mid, b) == Some(end)
    ensures Fold(apply, acc, a + b) == Some(end)
  {
    FoldAppend(apply, acc, a, b);
  }

  lemma FoldSnoc<A, B>(apply: (A, B) -> Option<A>, acc: A, mid: A, end: A, init: seq<B>, item: B)
    requires Fold(apply, acc, init) == Some(mid) && apply(mid, item) == Some(end)
    ensures Fold(apply, acc, init + [item]) == Some(end)
  {
    FoldOne(apply, mid, item);
    FoldThen(apply, acc, mid, end, init, [item]);
  }

  /** A fold that goes through the given states, one item at a time. */
  lemma {:induction false} FoldThrough<A, B>(apply: (A, B) -> Option<A>, items: seq<B>, states: seq<A>)
    requires |states| == |items| + 1
    requires forall i :: 0 <= i < |items| ==> apply(states[i], items[i]) == Some(states[i + 1])
    ensures Fold(apply, states[0], items) == Some(states[|items|])
  {
    if items != [] {
      assert forall i :: 0 <= i < |items[1..]| ==> items[1..][i] == items[i + 1] && states[1..][i] == states[i + 1];
      FoldThrough(apply, items[1..], states[1..]);
    }
  }
}
