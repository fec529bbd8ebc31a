/** Finite chains of an arbitrary labelled step relation. */
module Chains {
  /** `states` is one way through `actions`. */
  ghost predicate Path<S(!new), A(!new)>(step: (S, A, S) -> bool, states: seq<S>, actions: seq<A>) {
    && |states| == |actions| + 1
    && forall i :: 0 <= i < |actions| ==> step(states[i], actions[i], states[i + 1])
  }

  /** The actions take `s` to `t`, one after the other. */
  ghost predicate Reaches<S(!new), A(!new)>(step: (S, A, S) -> bool, s: S, actions: seq<A>, t: S) {
    exists states :: Path(step, states, actions) && states[0] == s && states[|actions|] == t
  }

  lemma Stay<S(!new), A(!new)>(step: (S, A, S) -> bool, s: S)
    ensures Reaches(step, s, [], s)
  {
    assert Path(step, [s], []);
  }

  lemma Before<S(!new), A(!new)>(step: (S, A, S) -> bool, s: S, a: A, m: S, rest: seq<A>, t: S)
    requires step(s, a, m) && Reaches(step, m, rest, t)
    ensures Reaches(step, s, [a] + rest, t)
  {
    var states :| Path(step, states, rest) && states[0] == m && states[|rest|] == t;
    assert Path(step, [s] + states, [a] + rest);
  }

  lemma Two<S(!new), A(!new)>(step: (S, A, S) -> bool, s: S, a: A, m: S, b: A, t: S)
    requires step(s, a, m) && step(m, b, t)
    ensures Reaches(step, s, [a, b], t)
  {
    Stay(step, t);
    Before(step, m, b, t, [], t);
    Before(step, s, a, m, [b], t);
    assert [b] + [] == [b] && [a] + [b] == [a, b];
  }

  lemma Then<S(!new), A(!new)>(step: (S, A, S) -> bool, s: S, head: seq<A>, m: S, tail: seq<A>, t: S)
    requires Reaches(step, s, head, m) && Reaches(step, m, tail, t)
    ensures Reaches(step, s, head + tail, t)
  {
    var p :| Path(step, p, head) && p[0] == s && p[|head|] == m;
    var q :| Path(step, q, tail) && q[0] == m && q[|tail|] == t;
    var states := p + q[1..];
    forall i | 0 <= i < |head + tail| ensures step(states[i], (head + tail)[i], states[i + 1]) {
      if i >= |head| {
        assert step(q[i - |head|], tail[i - |head|], q[i - |head| + 1]);
      }
    }
    assert Path(step, states, head + tail);
  }

  lemma OneStep<S(!new), A(!new)>(step: (S, A, S) -> bool, s: S, a: A, t: S)
    requires step(s, a, t)
    ensures Reaches(step, s, [a], t)
  {
    Stay(step, t);
    Before(step, s, a, t, [], t);
    assert [a] + [] == [a];
  }

  lemma ThreeSteps<S(!new), A(!new)>(step: (S, A, S) -> bool, s: S, s1: S, s2: S, t: S, a: seq<A>)
    requires |a| == 3 && step(s, a[0], s1) && step(s1, a[1], s2) && step(s2, a[2], t)
    ensures Reaches(step, s, a, t)
  {
    Two(step, s1, a[1], s2, a[2], t);
    Before(step, s, a[0], s1, [a[1], a[2]], t);
    assert [a[0]] + [a[1], a[2]] == a;
  }

  /** A property that every step keeps holds all along a path. */
  lemma {:induction false} PathKeeps<S(!new), A(!new)>(
    step: (S, A, S) -> bool, inv: S -> bool, states: seq<S>, actions: seq<A>, i: nat)
    requires Path(step, states, actions) && inv(states[0]) && i < |states|
    requires forall s, a, t :: a in actions && inv(s) && step(s, a, t) ==> inv(t)
    ensures inv(states[i])
  {
    if i > 0 {
      PathKeeps(step, inv, states, actions, i - 1);
      assert actions[i - 1] in actions;
      assert step(states[i - 1], actions[i - 1], states[i]);
    }
  }
}
