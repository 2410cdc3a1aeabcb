/**
 * The consecutive-failure breaker of the crawl loop (scraper.py, `scrape_date_range`):
 * each failed date bumps a counter; at three it pauses for a long time and resets;
 * a successful date resets it.
 */
module Breaker {

  const FAILURE_THRESHOLD: nat := 3

  /** `consecutive_failures` and the number of long pauses taken so far. */
  datatype BreakerState = BreakerState(failures: nat, pauses: nat)

  /** The update after one date, `ok` telling whether it succeeded. */
  function Step(s: BreakerState, ok: bool): BreakerState {
    if ok then BreakerState(0, s.pauses)
    else if s.failures + 1 >= FAILURE_THRESHOLD then BreakerState(0, s.pauses + 1)
    else BreakerState(s.failures + 1, s.pauses)
  }

  /** The breaker after a run of dates, starting from a zero counter. */
  function BreakerAfter(oks: seq<bool>): (s: BreakerState)
    ensures s.failures < FAILURE_THRESHOLD
    ensures FAILURE_THRESHOLD * s.pauses + s.failures <= |oks|
  {
    if oks == [] then BreakerState(0, 0)
    else Step(BreakerAfter(oks[..|oks| - 1]), oks[|oks| - 1])
  }

  /** The number of failed dates since the last success. */
  function TrailingFailures(oks: seq<bool>): nat {
    if oks == [] || oks[|oks| - 1] then 0 else 1 + TrailingFailures(oks[..|oks| - 1])
  }

  /** The number of prefixes of `oks` whose trailing run of failures is a positive multiple of three. */
  function PausePoints(oks: seq<bool>): nat {
    if oks == [] then 0
    else
      var t := TrailingFailures(oks);
      PausePoints(oks[..|oks| - 1]) + if t > 0 && t % FAILURE_THRESHOLD == 0 then 1 else 0
  }

  /**
   * The counter is the length of the current failure run modulo three, and a long pause
   * is taken at every third failure of a run.
   */
  lemma {:induction false} BreakerCountsRuns(oks: seq<bool>)
    ensures BreakerAfter(oks).failures == TrailingFailures(oks) % FAILURE_THRESHOLD
    ensures BreakerAfter(oks).pauses == PausePoints(oks)
  {
    if oks != [] {
      BreakerCountsRuns(oks[..|oks| - 1]);
    }
  }

  /**
   * From a zero counter, three failed dates in a row take exactly one long pause, on the
   * third, and leave the counter at zero; a success before the third resets it with no pause.
   */
  lemma ThreeFailuresPauseOnce(oks: seq<bool>)
    requires BreakerAfter(oks).failures == 0
    ensures BreakerAfter(oks + [false]).pauses == BreakerAfter(oks).pauses
    ensures BreakerAfter(oks + [false, false]).pauses == BreakerAfter(oks).pauses
    ensures BreakerAfter(oks + [false, false, false]) == BreakerState(0, BreakerAfter(oks).pauses + 1)
    ensures BreakerAfter(oks + [false, false, true]) == BreakerState(0, BreakerAfter(oks).pauses)
  {
    assert (oks + [false, false, false])[..|oks| + 2] == oks + [false, false];
    assert (oks + [false, false, true])[..|oks| + 2] == oks + [false, false];
    assert (oks + [false, false])[..|oks| + 1] == oks + [false];
    assert (oks + [false])[..|oks|] == oks;
  }
}
