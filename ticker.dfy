/** The "working" animation of the Indexes and Evaluate pages: every 500 ms while
    a long request runs, the dots grow by one up to three and then start over. */
module Ticker {

  /** One tick of the interval's state update. */
  function Next(prev: string): (next: string)
    ensures |prev| < 3 ==> next == prev + "."
    ensures |prev| >= 3 ==> next == ""
  {
    if |prev| < 3 then prev + "." else ""
  }

  /** The dots after k ticks from `start`. */
  function Iterate(k: nat, start: string): string
    decreases k
  {
    if k == 0 then start else Next(Iterate(k - 1, start))
  }

  /** The four states the animation shows. */
  function Dots(n: nat): (s: string)
    requires n < 4
    ensures |s| == n && forall i :: 0 <= i < n ==> s[i] == '.'
  {
    if n == 0 then "" else Dots(n - 1) + "."
  }

  /** Started from no dots, the animation cycles through "", ".", "..", "..." with
      period four, so it never shows more than three dots. */
  lemma {:induction false} IterateCycles(k: nat)
    ensures Iterate(k, "") == Dots(k % 4)
    ensures |Iterate(k, "")| <= 3
    decreases k
  {
    if k > 0 {
      IterateCycles(k - 1);
      if (k - 1) % 4 < 3 {
        assert k % 4 == (k - 1) % 4 + 1;
      } else {
        assert k % 4 == 0;
      }
    }
  }

  /** From any state the dots come back to "" within four ticks, whatever the
      state was when the interval was last stopped. */
  lemma ReturnsToEmpty(prev: string)
    ensures exists k :: 1 <= k <= 4 && Iterate(k, prev) == ""
  {
    if |prev| >= 3 {
      assert Iterate(1, prev) == "";
    } else if |prev| == 2 {
      assert Iterate(2, prev) == "";
    } else if |prev| == 1 {
      assert Iterate(3, prev) == "";
    } else {
      assert Iterate(4, prev) == "";
    }
  }
}
