/** The shape of the fee loop: size an order for a target, let its fee lower the target, and size again
    while the order no longer fits. */
module FeeLoops {
  import opened Reals

  /** `size` gives an order and its margin for a target; `after` the target an order's fee leaves. */
  datatype Loop = Loop(start: real, size: real -> (real, real), after: real -> real) {

    /** Target and last order after `n` rounds. */
    function Round(n: nat): (real, real)
      decreases n, 0
    {
      if n == 0 then (start, 0.0) else (after(Ordered(n - 1)), Ordered(n - 1))
    }

    /** The order sized in round `n`. */
    function Ordered(n: nat): real
      decreases n, 1
    {
      size(Round(n).0).0
    }

    /** None of the exits is taken: the order is not zero, not the last one again, and too large for the
        target its fee leaves. */
    predicate GoesOn(target: real, last: real) {
      var (quantity, margin) := size(target);
      quantity != 0.0 && last != quantity && Abs(margin) > Abs(after(quantity))
    }

    /** The loop is still running after round `n`. */
    predicate StillRunning(n: nat) { GoesOn(Round(n).0, Round(n).1) }

    ghost predicate Ends() { exists n: nat :: !StillRunning(n) }

    /** Round `n` is the first the loop does not survive, with `quantity` ordered. */
    ghost predicate StopsAt(n: nat, quantity: real) {
      && (forall i: nat :: i < n ==> StillRunning(i))
      && !StillRunning(n) && quantity == Ordered(n)
    }

    /** The loop ends, and `quantity` is what it ends with. */
    ghost predicate StopsWith(quantity: real) { exists n: nat :: StopsAt(n, quantity) }

    /** No loop stops with two different orders. */
    lemma StopIsDetermined(quantity: real, other: real)
      requires StopsWith(quantity) && StopsWith(other)
      ensures quantity == other
    {
      var n: nat :| StopsAt(n, quantity);
      var m: nat :| StopsAt(m, other);
      assert n < m ==> StillRunning(n);
      assert m < n ==> StillRunning(m);
    }

    /** A measure that every further round lowers ends the loop. */
    lemma {:induction false} Descends(room: real -> nat, n: nat)
      requires forall target, last :: GoesOn(target, last) ==> room(after(size(target).0)) < room(target)
      ensures Ends()
      decreases room(Round(n).0)
    {
      if StillRunning(n) {
        assert Round(n + 1).0 == after(size(Round(n).0).0);
        Descends(room, n + 1);
      }
    }

    /** From a target and last order with `inv`, a round goes on and passes `inv` to the next. */
    ghost predicate Keeps(inv: (real, real) -> bool, target: real, last: real) {
      inv(target, last) ==> GoesOn(target, last) && inv(after(size(target).0), size(target).0)
    }

    /** What the start has and every round passes on keeps the loop running for ever. */
    lemma {:induction false} PassesOn(inv: (real, real) -> bool, n: nat)
      requires inv(start, 0.0) && forall target, last :: Keeps(inv, target, last)
      ensures inv(Round(n).0, Round(n).1) && StillRunning(n)
    {
      assert Keeps(inv, Round(n).0, Round(n).1);
      if n > 0 {
        PassesOn(inv, n - 1);
        assert Keeps(inv, Round(n - 1).0, Round(n - 1).1);
      }
    }

    /** Two targets that hand over to each other keep the loop running for ever. */
    lemma {:induction false} Alternates(a: real, b: real, n: nat)
      requires start == a && after(size(a).0) == b && after(size(b).0) == a
      requires size(a).0 != 0.0 && size(b).0 != 0.0 && size(a).0 != size(b).0
      requires Abs(size(a).1) > Abs(b) && Abs(size(b).1) > Abs(a)
      ensures StillRunning(n)
      ensures Round(n) == if n == 0 then (a, 0.0) else if n % 2 == 1 then (b, size(a).0) else (a, size(b).0)
    {
      if n > 0 {
        Alternates(a, b, n - 1);
      }
    }

    /** Where the loop stops with an order, either that order fits the target its own fee leaves, or the
        target it was sized for was the one its own fee had left. */
    lemma StopFits(quantity: real) returns (target: real)
      requires StopsWith(quantity)
      ensures quantity == size(target).0
      ensures quantity != 0.0 ==> Abs(size(target).1) <= Abs(after(quantity)) || target == after(quantity)
    {
      var n: nat :| StopsAt(n, quantity);
      target := Round(n).0;
    }
  }
}
