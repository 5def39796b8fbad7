/**
 * The fixed-length history buffers of both resource monitors: append the
 * new reading and, once the buffer is longer than its limit, drop the
 * oldest one.
 */
module RollingWindow {

  /** max_data_points, and the literal 60 of the cineboard monitor. */
  const MaxDataPoints: nat := 60

  /** list.append(v) followed by one pop(0) when the list grew past cap. */
  function Pushed(buf: seq<int>, v: int, cap: nat): (r: seq<int>)
    ensures |r| == if |buf| < cap then |buf| + 1 else |buf|
    ensures |r| > 0 ==> r[|r| - 1] == v
  {
    var grown := buf + [v];
    if |grown| > cap then grown[1..] else grown
  }

  /** The last cap readings of a history (all of it while it is shorter). */
  function Window(history: seq<int>, cap: nat): (w: seq<int>)
    ensures |w| <= cap && |w| <= |history|
  {
    if |history| <= cap then history else history[|history| - cap..]
  }

  /**
   * One push on a buffer that holds the last cap readings yields the last cap
   * readings of the history extended by the new one: the buffer keeps the
   * newest entry last, evicts only the oldest, and keeps the rest in order.
   */
  lemma PushedWindow(history: seq<int>, v: int, cap: nat)
    requires cap >= 1
    ensures Pushed(Window(history, cap), v, cap) == Window(history + [v], cap)
  {
    var h := history + [v];
    if |history| > cap {
      assert history[|history| - cap..] + [v] == h[|h| - cap - 1..];
      assert h[|h| - cap - 1..][1..] == h[|h| - cap..];
    } else if |history| == cap {
      assert (history + [v])[1..] == h[|h| - cap..];
    }
  }

  /** A push leaves the buffer within its limit, with the new reading last. */
  lemma PushedBounds(buf: seq<int>, v: int, cap: nat)
    requires 1 <= cap && |buf| <= cap
    ensures |Pushed(buf, v, cap)| <= cap
    ensures Pushed(buf, v, cap)[|Pushed(buf, v, cap)| - 1] == v
    ensures |buf| < cap ==> Pushed(buf, v, cap) == buf + [v]
    ensures |buf| == cap ==> Pushed(buf, v, cap) == buf[1..] + [v]
  {
    if |buf| == cap {
      assert (buf + [v])[1..] == buf[1..] + [v];
    }
  }
}
