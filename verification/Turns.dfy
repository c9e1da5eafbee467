/** Work done one item after another: what each turn came to, and that it began
    after the turn before it. */
module Turns {

  predicate InSequence<O(!new), T(!new)>(done: (nat, O, T) -> bool, after: (T, T) -> bool, outcomes: seq<O>,
                                         turns: seq<T>)
  {
    && |outcomes| == |turns|
    && (forall k :: 0 <= k < |turns| ==> done(k, outcomes[k], turns[k]))
    && (forall k :: 0 < k < |turns| ==> after(turns[k - 1], turns[k]))
  }

  lemma SequenceOneMore<O(!new), T(!new)>(done: (nat, O, T) -> bool, after: (T, T) -> bool, outcomes: seq<O>,
                                          turns: seq<T>, o: O, t: T)
    requires InSequence(done, after, outcomes, turns) && done(|turns|, o, t)
    requires turns != [] ==> after(turns[|turns| - 1], t)
    ensures InSequence(done, after, outcomes + [o], turns + [t])
  {
  }
}
