/**
 * The "push, then splice so that only the last N remain" pattern that every
 * interaction and error log of the site uses (capacities 100, 50, 20 and 10).
 */
module BoundedLog {

  /** The last `cap` elements of `s`, or all of `s` when it is not longer. */
  function LastN<T>(s: seq<T>, cap: nat): (r: seq<T>)
    ensures |r| == if |s| <= cap then |s| else cap
    ensures forall i :: 0 <= i < |r| ==> r[i] == s[|s| - |r| + i]
  {
    if |s| > cap then s[|s| - cap..] else s
  }

  /**
   * `log.push(x); if (log.length > cap) log.splice(0, log.length - cap);`
   * as a value: the new entry is last, and only the newest `cap` entries
   * survive, in their original order.
   */
  function BoundedAppend<T>(log: seq<T>, x: T, cap: nat): (r: seq<T>)
    ensures |r| == if |log| + 1 <= cap then |log| + 1 else cap
    ensures cap > 0 ==> r[|r| - 1] == x
    ensures forall i :: 0 <= i < |r| ==> r[i] == (log + [x])[|log| + 1 - |r| + i]
  {
    var pushed := log + [x];
    if |pushed| > cap then pushed[|pushed| - cap..] else pushed
  }

  /** Below the cap nothing is evicted; at the cap exactly the oldest entry goes. */
  lemma BoundedAppendEvictsOldest<T>(log: seq<T>, x: T, cap: nat)
    ensures |log| < cap ==> BoundedAppend(log, x, cap) == log + [x]
    ensures |log| == cap > 0 ==> BoundedAppend(log, x, cap) == log[1..] + [x]
  {
    if |log| == cap > 0 {
      assert (log + [x])[1..] == log[1..] + [x];
    }
  }

  /** Appending the entries of `xs` one call at a time, in order. */
  function AppendAll<T>(log: seq<T>, xs: seq<T>, cap: nat): seq<T>
    decreases |xs|
  {
    if xs == [] then log else AppendAll(BoundedAppend(log, xs[0], cap), xs[1..], cap)
  }

  lemma BoundedAppendIsLastN<T>(log: seq<T>, x: T, cap: nat)
    ensures BoundedAppend(log, x, cap) == LastN(log + [x], cap)
  {
  }

  lemma {:induction false} LastNOfLastN<T>(s: seq<T>, t: seq<T>, cap: nat)
    ensures LastN(LastN(s, cap) + t, cap) == LastN(s + t, cap)
  {
    if |s| > cap {
      var d := |s| - cap;
      assert (s + t)[d..] == LastN(s, cap) + t;
      assert (s + t)[d..][|t|..] == (s + t)[|s| + |t| - cap..];
    }
  }

  /**
   * However many entries are logged, the log afterwards holds exactly the
   * newest `cap` entries of everything ever appended, oldest first.
   */
  lemma {:induction false} AppendAllKeepsNewest<T>(log: seq<T>, xs: seq<T>, cap: nat)
    requires |log| <= cap
    ensures AppendAll(log, xs, cap) == LastN(log + xs, cap)
    decreases |xs|
  {
    if xs == [] {
      assert log + xs == log;
    } else {
      var pushed := log + [xs[0]];
      var next := BoundedAppend(log, xs[0], cap);
      assert pushed + xs[1..] == log + xs;
      calc {
        AppendAll(log, xs, cap);
        AppendAll(next, xs[1..], cap);
        { AppendAllKeepsNewest(next, xs[1..], cap); }
        LastN(next + xs[1..], cap);
        { BoundedAppendIsLastN(log, xs[0], cap); }
        LastN(LastN(pushed, cap) + xs[1..], cap);
        { LastNOfLastN(pushed, xs[1..], cap); }
        LastN(log + xs, cap);
      }
    }
  }
}
