/** The two helpers of the utility module that make decisions: `throttle` and `isInViewport`. */
module Utils {

  /**
   * The closure `throttle(func, delay)` returns, with the clock made an input:
   * a call at time `now` runs `func` exactly when `now - lastCall >= delay`.
   */
  class Throttle {
    var lastCall: int
    const delay: int
    /** The times of the calls that ran, oldest first. */
    ghost var runs: seq<int>

    ghost predicate Valid()
      reads this
    {
      (runs == [] ==> lastCall == 0) &&
      (runs != [] ==> lastCall == runs[|runs| - 1]) &&
      (delay >= 0 ==> forall i, j :: 0 <= i < j < |runs| ==> runs[j] - runs[i] >= delay)
    }

    /** `let lastCall = 0;` */
    constructor (delay: int)
      ensures Valid()
      ensures this.delay == delay && lastCall == 0 && runs == []
    {
      this.delay := delay;
      lastCall := 0;
      runs := [];
    }

    /**
     * One call: `ran` says whether `func` ran. Whatever the clock does, two
     * calls that run are at least `delay` apart (the invariant `Valid`).
     */
    method Call(now: int) returns (ran: bool)
      requires Valid()
      modifies this
      ensures Valid()
      ensures ran <==> now - old(lastCall) >= delay
      ensures lastCall == if ran then now else old(lastCall)
      ensures runs == if ran then old(runs) + [now] else old(runs)
    {
      ran := now - lastCall >= delay;
      if ran {
        if delay >= 0 && runs != [] {
          forall i | 0 <= i < |runs| ensures now - runs[i] >= delay {
            if i < |runs| - 1 {
              assert runs[|runs| - 1] - runs[i] >= delay;
            }
          }
        }
        lastCall := now;
        runs := runs + [now];
      }
    }
  }

  /** A `getBoundingClientRect()` result (coordinates modelled as integers). */
  datatype Rect = Rect(top: int, left: int, bottom: int, right: int)

  /** `window.innerX || document.documentElement.clientX`: the client size when the inner size is 0. */
  function ViewportExtent(inner: int, client: int): int {
    if inner != 0 then inner else client
  }

  /** `isInViewport`. */
  predicate IsInViewport(r: Rect, innerHeight: int, innerWidth: int, clientHeight: int, clientWidth: int) {
    r.top >= 0 && r.left >= 0 &&
    r.bottom <= ViewportExtent(innerHeight, clientHeight) &&
    r.right <= ViewportExtent(innerWidth, clientWidth)
  }

  /** `outer` contains `inner`. */
  predicate Within(inner: Rect, outer: Rect) {
    outer.top <= inner.top && outer.left <= inner.left &&
    inner.bottom <= outer.bottom && inner.right <= outer.right
  }

  /**
   * An element is in the viewport exactly when its rectangle lies within the
   * viewport's rectangle, and then so does every rectangle inside it.
   */
  lemma InViewportIsContainment(r: Rect, innerHeight: int, innerWidth: int, clientHeight: int, clientWidth: int)
    ensures var view := Rect(0, 0, ViewportExtent(innerHeight, clientHeight), ViewportExtent(innerWidth, clientWidth));
      IsInViewport(r, innerHeight, innerWidth, clientHeight, clientWidth) <==> Within(r, view)
    ensures innerHeight == 0 ==>
      (IsInViewport(r, innerHeight, innerWidth, clientHeight, clientWidth) ==> r.bottom <= clientHeight)
    ensures forall s :: Within(s, r) && IsInViewport(r, innerHeight, innerWidth, clientHeight, clientWidth) ==>
      IsInViewport(s, innerHeight, innerWidth, clientHeight, clientWidth)
  {
  }
}
