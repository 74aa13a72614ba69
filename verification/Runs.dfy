/** Runs of a machine given by its step function. */
module Runs {

  /** The state after any sequence of actions. */
  function Iterate<W, A>(next: (W, A) -> W, w: W, actions: seq<A>): W {
    if actions == [] then w else next(Iterate(next, w, actions[..|actions| - 1]), actions[|actions| - 1])
  }

  ghost predicate Reaches<W, A(!new)>(next: (W, A) -> W, w: W, w': W) {
    exists actions: seq<A> :: w' == Iterate(next, w, actions)
  }

  lemma ReachesNext<W, A(!new)>(next: (W, A) -> W, start: W, w: W, action: A)
    requires Reaches(next, start, w)
    ensures Reaches(next, start, next(w, action))
  {
    var actions :| w == Iterate(next, start, actions);
    assert (actions + [action])[..|actions|] == actions;
    assert next(w, action) == Iterate(next, start, actions + [action]);
  }

  lemma {:induction false} Extend<W, A(!new)>(next: (W, A) -> W, start: W, actions: seq<A>, w: W, action: A)
      returns (longer: seq<A>, w': W)
    requires w == Iterate(next, start, actions)
    ensures longer == actions + [action] && w' == Iterate(next, start, longer) == next(w, action)
  {
    longer, w' := actions + [action], next(w, action);
    assert longer[..|actions|] == actions;
  }

  /** A run of two parts is a run of the second from where the first ends. */
  lemma {:induction false} IterateConcat<W, A>(next: (W, A) -> W, w: W, first: seq<A>, second: seq<A>)
    ensures Iterate(next, w, first + second) == Iterate(next, Iterate(next, w, first), second)
  {
    if second == [] {
      assert first + second == first;
    } else {
      IterateConcat(next, w, first, second[..|second| - 1]);
      assert (first + second)[..|first + second| - 1] == first + second[..|second| - 1];
    }
  }

  // ----- One call among others ----------------------------------------------------------------

  /** A call: whether it is still under way, its own next action given what the environment decides for
      that moment, and the actions of others that come first. */
  datatype Thread<!W, !A, !M> = Thread(next: (W, A) -> W, alive: W -> bool, own: (W, M) -> A, others: M -> seq<A>)
  {
    function Interrupted(w: W, m: M): W {
      Iterate(next, w, others(m))
    }
  }

  /** Where a call stands after some steps: still under way, or over, with its last action and the states
      around it. */
  datatype Ending<W, A> = Unfinished(state: W) | Finished(before: W, last: A, after: W)
  {
    function State(): W {
      if Finished? then after else state
    }
  }

  /** The call from its i-th step on, for n steps at most; at each, others act first. */
  function Follow<W, A, M>(t: Thread<W, A, M>, env: nat -> M, w: W, i: nat, n: nat): Ending<W, A>
    decreases n, 1
  {
    if n == 0 || !t.alive(w) then Unfinished(w) else Proceed(t, env, t.Interrupted(w, env(i)), i, n)
  }

  /** Its own step, after the others have acted. */
  function Proceed<W, A, M>(t: Thread<W, A, M>, env: nat -> M, u: W, i: nat, n: nat): Ending<W, A>
    requires n > 0
    decreases n, 0
  {
    var last := t.own(u, env(i));
    if t.alive(t.next(u, last)) then Follow(t, env, t.next(u, last), i + 1, n - 1)
    else Finished(u, last, t.next(u, last))
  }

  /** One step of a call. */
  lemma FollowUnfolds<W, A, M>(t: Thread<W, A, M>, env: nat -> M, w: W, i: nat, n: nat)
    requires n > 0 && t.alive(w)
    ensures var u := t.Interrupted(w, env(i));
            var last := t.own(u, env(i));
            Follow(t, env, w, i, n)
            == if t.alive(t.next(u, last)) then Follow(t, env, t.next(u, last), i + 1, n - 1)
               else Finished(u, last, t.next(u, last))
  {
    assert Follow(t, env, w, i, n) == Proceed(t, env, t.Interrupted(w, env(i)), i, n);
  }

  /** The actions taken on the way, the call's own and the others'. */
  function Trace<W, A, M>(t: Thread<W, A, M>, env: nat -> M, w: W, i: nat, n: nat): seq<A>
    decreases n
  {
    if n == 0 || !t.alive(w) then []
    else
      var u := t.Interrupted(w, env(i));
      var last := t.own(u, env(i));
      t.others(env(i)) + ([last] + Trace(t, env, t.next(u, last), i + 1, n - 1))
  }

  /** Following a call is a run of the machine. */
  lemma {:induction false} FollowIsRun<W, A, M>(t: Thread<W, A, M>, env: nat -> M, w: W, i: nat, n: nat)
    ensures Follow(t, env, w, i, n).State() == Iterate(t.next, w, Trace(t, env, w, i, n))
    decreases n
  {
    if n > 0 && t.alive(w) {
      var u := t.Interrupted(w, env(i));
      var last := t.own(u, env(i));
      var rest := Trace(t, env, t.next(u, last), i + 1, n - 1);
      FollowUnfolds(t, env, w, i, n);
      FollowIsRun(t, env, t.next(u, last), i + 1, n - 1);
      IterateConcat(t.next, w, t.others(env(i)), [last] + rest);
      IterateConcat(t.next, u, [last], rest);
      assert [last][..0] == [];
    }
  }

  /** One step of a call that goes on keeps the invariant. */
  predicate KeepsInvariant<W, A, M>(t: Thread<W, A, M>, env: nat -> M, inv: (W, nat) -> bool, w: W, i: nat) {
    var u := t.Interrupted(w, env(i));
    var w' := t.next(u, t.own(u, env(i)));
    t.alive(w) && t.alive(w') ==> inv(w', i + 1)
  }

  /** The last step of a call starts from a state with the invariant that every step before it keeps. */
  lemma {:induction false} LastStep<W(!new), A, M>(
    t: Thread<W, A, M>, env: nat -> M, inv: (W, nat) -> bool, w: W, i: nat, n: nat) returns (v: W, j: nat)
    requires forall u, k: nat :: inv(u, k) ==> KeepsInvariant(t, env, inv, u, k)
    requires inv(w, i)
    ensures var e := Follow(t, env, w, i, n);
            e.Finished? ==>
              && inv(v, j) && t.alive(v) && e.before == t.Interrupted(v, env(j)) && e.last == t.own(e.before, env(j))
              && e.after == t.next(e.before, e.last) && !t.alive(e.after)
    decreases n
  {
    v, j := w, i;
    if n > 0 && t.alive(w) {
      FollowUnfolds(t, env, w, i, n);
      assert KeepsInvariant(t, env, inv, w, i);
      var u := t.Interrupted(w, env(i));
      var w' := t.next(u, t.own(u, env(i)));
      if t.alive(w') { v, j := LastStep(t, env, inv, w', i + 1, n - 1); }
    }
  }

  /** How many of the call's own steps, from state to state, satisfy f. */
  function Count<W, A, M>(t: Thread<W, A, M>, env: nat -> M, w: W, i: nat, n: nat, f: (W, A) -> bool): nat
    decreases n, 1
  {
    if n == 0 || !t.alive(w) then 0 else CountOn(t, env, t.Interrupted(w, env(i)), i, n, f)
  }

  function CountOn<W, A, M>(t: Thread<W, A, M>, env: nat -> M, u: W, i: nat, n: nat, f: (W, A) -> bool): nat
    requires n > 0
    decreases n, 0
  {
    var last := t.own(u, env(i));
    (if f(u, last) then 1 else 0) + Count(t, env, t.next(u, last), i + 1, n - 1, f)
  }

  lemma CountUnfolds<W, A, M>(t: Thread<W, A, M>, env: nat -> M, w: W, i: nat, n: nat, f: (W, A) -> bool)
    requires n > 0 && t.alive(w)
    ensures var u := t.Interrupted(w, env(i));
            var last := t.own(u, env(i));
            Count(t, env, w, i, n, f) == (if f(u, last) then 1 else 0) + Count(t, env, t.next(u, last), i + 1, n - 1, f)
  {
    assert Count(t, env, w, i, n, f) == CountOn(t, env, t.Interrupted(w, env(i)), i, n, f);
  }

  /** One step of a call keeps the invariant and the expectation, or ends it as expected. */
  predicate KeepsExpectation<W, A, M, R(==)>(
    t: Thread<W, A, M>, env: nat -> M, inv: (W, nat, nat) -> bool, expected: (W, nat) -> R, result: Ending<W, A> -> R,
    w: W, i: nat, n: nat)
  {
    if n == 0 then result(Unfinished(w)) == expected(w, i)
    else
      var u := t.Interrupted(w, env(i));
      var last := t.own(u, env(i));
      var w' := t.next(u, last);
      && t.alive(w)
      && if t.alive(w') then inv(w', i + 1, n - 1) && expected(w', i + 1) == expected(w, i)
         else result(Finished(u, last, w')) == expected(w, i)
  }

  /** Induction over the course of a call: what every step keeps is what the call reports in the end. */
  lemma {:induction false} FollowInduction<W(!new), A, M, R>(
    t: Thread<W, A, M>, env: nat -> M, inv: (W, nat, nat) -> bool, expected: (W, nat) -> R, result: Ending<W, A> -> R,
    w: W, i: nat, n: nat)
    requires forall v, j: nat, k: nat :: inv(v, j, k) ==> KeepsExpectation(t, env, inv, expected, result, v, j, k)
    requires inv(w, i, n)
    ensures result(Follow(t, env, w, i, n)) == expected(w, i)
    decreases n
  {
    assert KeepsExpectation(t, env, inv, expected, result, w, i, n);
    if n > 0 {
      FollowUnfolds(t, env, w, i, n);
      var u := t.Interrupted(w, env(i));
      var w' := t.next(u, t.own(u, env(i)));
      if t.alive(w') { FollowInduction(t, env, inv, expected, result, w', i + 1, n - 1); }
    }
  }
}
