/** The delays between reconnections: exponential backoff with jitter, over the reals. */
module Backoff {
  datatype Settings = Settings(baseMs: real, maxMs: real, jitterRatio: real)

  const STABLE_RESET_FLOOR_MS: real := 5000.0

  predicate SettingsOk(s: Settings) {
    s.baseMs >= 0.0 && s.maxMs >= 0.0 && 0.0 <= s.jitterRatio <= 1.0
  }

  /** A draw of the random generator. */
  predicate DrawOk(draw: real) {
    0.0 <= draw < 1.0
  }

  function Pow2(n: nat): nat {
    if n == 0 then 1 else 2 * Pow2(n - 1)
  }

  function Min(a: real, b: real): real {
    if a < b then a else b
  }

  /** Round half up. */
  function Round(x: real): int {
    (x + 0.5).Floor
  }

  /** The delay before jitter. */
  function Exponential(attempt: int, s: Settings): real
    requires attempt >= 1
  {
    Min(s.maxMs, s.baseMs * Pow2(attempt - 1) as real)
  }

  /** Somewhere around a delay, `t` from one end (-1) to the other (1). */
  function Swing(delay: real, width: real, t: real): real {
    delay + width * t
  }

  function Jittered(delay: real, s: Settings, draw: real): real {
    Swing(delay, delay * s.jitterRatio, draw * 2.0 - 1.0)
  }

  function Capped(rounded: int, s: Settings): int {
    var floored := if rounded < 0 then 0 else rounded;
    if s.maxMs < floored as real then s.maxMs.Floor else floored
  }

  function ReconnectDelay(attempt: int, s: Settings, draw: real): int {
    if attempt < 1 then 0 else Capped(Round(Jittered(Exponential(attempt, s), s, draw)), s)
  }

  // ----- one delay -----

  lemma ScaleBounds(a: real, lo: real, hi: real, x: real)
    requires a >= 0.0 && lo <= x <= hi
    ensures a * lo <= a * x <= a * hi
  {
    ProductNonNegative(a, x - lo);
    ProductNonNegative(a, hi - x);
  }

  lemma ExponentialRange(attempt: int, s: Settings)
    requires SettingsOk(s) && attempt >= 1
    ensures 0.0 <= Exponential(attempt, s) <= s.maxMs
  {
    ScaleBounds(s.baseMs, 0.0, Pow2(attempt - 1) as real, Pow2(attempt - 1) as real);
  }

  lemma ProductNonNegative(a: real, b: real)
    requires a >= 0.0 && b >= 0.0
    ensures a * b >= 0.0
  {
  }

  lemma Fraction(a: real, x: real)
    requires a >= 0.0 && 0.0 <= x <= 1.0
    ensures 0.0 <= a * x <= a
  {
    ProductNonNegative(a, x);
    ProductNonNegative(a, 1.0 - x);
  }

  lemma Around(delay: real, width: real, t: real)
    requires 0.0 <= width <= delay && -1.0 <= t <= 1.0
    ensures delay - width <= Swing(delay, width, t) <= delay + width
    ensures Swing(delay, width, t) >= 0.0
  {
    ProductNonNegative(width, 1.0 - t);
    ProductNonNegative(width, 1.0 + t);
  }

  lemma JitterRange(delay: real, s: Settings, draw: real)
    requires SettingsOk(s) && DrawOk(draw) && delay >= 0.0
    ensures delay - delay * s.jitterRatio <= Jittered(delay, s, draw) <= delay + delay * s.jitterRatio
    ensures Jittered(delay, s, draw) >= 0.0
  {
    Fraction(delay, s.jitterRatio);
    Around(delay, delay * s.jitterRatio, draw * 2.0 - 1.0);
  }

  lemma CappedIsClose(x: real, d: real, width: real, s: Settings)
    requires 0.0 <= d <= s.maxMs && 0.0 <= x && d - width <= x <= d + width
    ensures var delay := Capped(Round(x), s) as real;
      && 0.0 <= delay <= s.maxMs && delay <= d + width + 0.5 && delay > d - width - 1.0
      && (s.maxMs.Floor as real == s.maxMs ==> delay >= d - width - 0.5)
  {
  }

  /**
   * A delay is a whole number within the cap, and within the jitter and half a millisecond of the exponential
   * delay; a cap that is no whole number costs less than one millisecond instead.
   */
  lemma DelayIsClose(attempt: int, s: Settings, draw: real)
    requires SettingsOk(s) && DrawOk(draw) && attempt >= 1
    ensures var d := Exponential(attempt, s);
      var delay := ReconnectDelay(attempt, s, draw) as real;
      && 0.0 <= delay <= s.maxMs
      && delay <= d + d * s.jitterRatio + 0.5
      && delay > d - d * s.jitterRatio - 1.0
      && (s.maxMs.Floor as real == s.maxMs ==> delay >= d - d * s.jitterRatio - 0.5)
  {
    ExponentialRange(attempt, s);
    var d := Exponential(attempt, s);
    JitterRange(d, s, draw);
    CappedIsClose(Jittered(d, s, draw), d, d * s.jitterRatio, s);
  }

  lemma {:induction false} Pow2Grows(m: nat, n: nat)
    requires m <= n
    ensures 1 <= Pow2(m) <= Pow2(n)
    decreases n
  {
    if m < n {
      Pow2Grows(m, n - 1);
    } else if n > 0 {
      Pow2Grows(m - 1, n - 1);
    }
  }

  lemma ExponentialGrows(m: int, n: int, s: Settings)
    requires SettingsOk(s) && 1 <= m <= n
    ensures Exponential(m, s) <= Exponential(n, s)
  {
    Pow2Grows(m - 1, n - 1);
    ScaledMinGrows(s.maxMs, s.baseMs, Pow2(m - 1) as real, Pow2(n - 1) as real);
  }

  lemma ScaledMinGrows(c: real, a: real, p: real, q: real)
    requires a >= 0.0 && p <= q
    ensures Min(c, a * p) <= Min(c, a * q)
  {
    ScaleBounds(a, p, q, q);
  }

  lemma JitterGrows(a: real, b: real, s: Settings, draw: real)
    requires SettingsOk(s) && DrawOk(draw) && 0.0 <= a <= b
    ensures Jittered(a, s, draw) <= Jittered(b, s, draw)
  {
    var factor := 1.0 + s.jitterRatio * (draw * 2.0 - 1.0);
    ScaleBounds(s.jitterRatio, -1.0, 1.0, draw * 2.0 - 1.0);
    assert factor >= 0.0;
    ScaleBounds(factor, a, b, b);
    assert Jittered(a, s, draw) == factor * a;
    assert Jittered(b, s, draw) == factor * b;
  }

  /** For the same draw, a later attempt never waits less. */
  lemma DelayGrows(m: int, n: int, s: Settings, draw: real)
    requires SettingsOk(s) && DrawOk(draw) && m <= n
    ensures ReconnectDelay(m, s, draw) <= ReconnectDelay(n, s, draw)
  {
    if m < 1 {
      if n >= 1 {
        DelayIsClose(n, s, draw);
      }
    } else {
      ExponentialRange(m, s);
      ExponentialGrows(m, n, s);
      JitterGrows(Exponential(m, s), Exponential(n, s), s, draw);
    }
  }

  /** The delays double from the base delay up to the cap. */
  lemma ExponentialDoubles(attempt: int, s: Settings)
    requires SettingsOk(s) && attempt >= 1
    ensures Exponential(1, s) == Min(s.maxMs, s.baseMs)
    ensures Exponential(attempt + 1, s) == Min(s.maxMs, 2.0 * Exponential(attempt, s))
  {
    var factor := Pow2(attempt - 1) as real;
    assert Pow2(0) == 1 && Pow2(attempt) as real == 2.0 * factor;
    assert s.baseMs * (2.0 * factor) == 2.0 * (s.baseMs * factor);
  }

  /** The jitter is spread over its whole width: the least draw shortens a delay by it, the middle one leaves it. */
  lemma JitterSpreads(attempt: int, s: Settings)
    requires SettingsOk(s) && attempt >= 1
    ensures var d := Exponential(attempt, s);
      && ReconnectDelay(attempt, s, 0.0) == Capped(Round(d - d * s.jitterRatio), s)
      && ReconnectDelay(attempt, s, 0.5) == Capped(Round(d), s)
  {
    var d := Exponential(attempt, s);
    assert Jittered(d, s, 0.0) == d - d * s.jitterRatio;
    assert Jittered(d, s, 0.5) == d;
  }

  /** A higher draw waits longer, before rounding, by its share of twice the jitter. */
  lemma JitterGrowsWithDraw(delay: real, s: Settings, low: real, high: real)
    requires SettingsOk(s) && delay >= 0.0 && low <= high
    ensures Jittered(delay, s, high) == Jittered(delay, s, low) + delay * s.jitterRatio * (2.0 * (high - low))
    ensures Jittered(delay, s, low) <= Jittered(delay, s, high)
  {
    var width := delay * s.jitterRatio;
    Fraction(delay, s.jitterRatio);
    ProductNonNegative(width, 2.0 * (high - low));
    assert width * (high * 2.0 - 1.0) == width * (low * 2.0 - 1.0) + width * (2.0 * (high - low));
  }

  lemma CappedGrows(x: real, y: real, s: Settings)
    requires x <= y && s.maxMs >= 0.0
    ensures Capped(Round(x), s) <= Capped(Round(y), s)
  {
  }

  /** For the same attempt, a higher draw never waits less. */
  lemma DelayGrowsWithDraw(attempt: int, s: Settings, low: real, high: real)
    requires SettingsOk(s) && DrawOk(low) && DrawOk(high) && low <= high
    ensures ReconnectDelay(attempt, s, low) <= ReconnectDelay(attempt, s, high)
  {
    if attempt >= 1 {
      var d := Exponential(attempt, s);
      ExponentialRange(attempt, s);
      JitterGrowsWithDraw(d, s, low, high);
      CappedGrows(Jittered(d, s, low), Jittered(d, s, high), s);
    }
  }

  // ----- the supervisor -----

  /** A round of the supervisor: the connection failed, or was open for a while. */
  datatype Connection = Failed | WasOpen(ms: real, graceFired: bool)

  function Grace(s: Settings): real {
    if s.baseMs < STABLE_RESET_FLOOR_MS then STABLE_RESET_FLOOR_MS else s.baseMs
  }

  /** The grace timer fires only when the connection stays open that long, and does when it stays longer. */
  predicate ConnectionOk(r: Connection, s: Settings) {
    r.WasOpen? ==> (r.graceFired ==> r.ms >= Grace(s)) && (r.ms > Grace(s) ==> r.graceFired)
  }

  predicate Fires(r: Connection) {
    r.WasOpen? && r.graceFired
  }

  /** How many rounds ended since the grace timer last fired, that round included. */
  function AttemptAfter(rounds: seq<Connection>): nat {
    if rounds == [] then 0
    else if Fires(rounds[|rounds| - 1]) then 1
    else AttemptAfter(rounds[..|rounds| - 1]) + 1
  }

  /** The attempts count from the last round that outlasted the grace time, or from the start when none has. */
  lemma {:induction false} AttemptCountsRounds(before: seq<Connection>, since: seq<Connection>)
    requires before == [] || Fires(before[|before| - 1])
    requires forall i | 0 <= i < |since| :: !Fires(since[i])
    ensures AttemptAfter(before + since) == |since| + if before == [] then 0 else 1
    decreases |since|
  {
    if since == [] {
      assert before + since == before;
    } else {
      var front := since[..|since| - 1];
      AttemptCountsRounds(before, front);
      assert (before + since)[..|before + since| - 1] == before + front;
    }
  }

  /** Connections kicked before the grace time is over never let the backoff shrink. */
  lemma {:induction false} FlapsNeverShrink(rounds: seq<Connection>, flaps: seq<Connection>, s: Settings)
    requires SettingsOk(s) && rounds != []
    requires forall i | 0 <= i < |flaps| :: ConnectionOk(flaps[i], s) && (flaps[i].WasOpen? ==> flaps[i].ms < Grace(s))
    ensures AttemptAfter(rounds + flaps) == AttemptAfter(rounds) + |flaps| && AttemptAfter(rounds) >= 1
    ensures Exponential(AttemptAfter(rounds), s) <= Exponential(AttemptAfter(rounds + flaps), s)
    ensures forall draw | DrawOk(draw) ::
      ReconnectDelay(AttemptAfter(rounds), s, draw) <= ReconnectDelay(AttemptAfter(rounds + flaps), s, draw)
    decreases |flaps|
  {
    if flaps == [] {
      assert rounds + flaps == rounds;
    } else {
      var front := flaps[..|flaps| - 1];
      FlapsNeverShrink(rounds, front, s);
      assert (rounds + flaps)[..|rounds + flaps| - 1] == rounds + front;
    }
    ExponentialGrows(AttemptAfter(rounds), AttemptAfter(rounds + flaps), s);
    forall draw | DrawOk(draw)
      ensures ReconnectDelay(AttemptAfter(rounds), s, draw) <= ReconnectDelay(AttemptAfter(rounds + flaps), s, draw)
    {
      DelayGrows(AttemptAfter(rounds), AttemptAfter(rounds + flaps), s, draw);
    }
  }

  class Supervisor {
    const settings: Settings
    var attempt: int

    constructor (s: Settings)
      ensures settings == s && attempt == 0
    {
      settings, attempt := s, 0;
    }

    /** The grace timer resets the attempts while a round is open; every round ends with one more. */
    method Supervise(rounds: seq<Connection>, draws: seq<real>) returns (delays: seq<int>)
      requires |draws| == |rounds| && attempt == 0
      modifies this
      ensures attempt == AttemptAfter(rounds) && |delays| == |rounds|
      ensures forall i | 0 <= i < |rounds| ::
        delays[i] == ReconnectDelay(AttemptAfter(rounds[..i + 1]), settings, draws[i])
    {
      delays := [];
      for i := 0 to |rounds|
        invariant attempt == AttemptAfter(rounds[..i]) && |delays| == i
        invariant forall k | 0 <= k < i ::
          delays[k] == ReconnectDelay(AttemptAfter(rounds[..k + 1]), settings, draws[k])
      {
        assert rounds[..i + 1][..i] == rounds[..i];
        if Fires(rounds[i]) {
          attempt := 0;
        }
        attempt := attempt + 1;
        delays := delays + [ReconnectDelay(attempt, settings, draws[i])];
      }
      assert rounds[..|rounds|] == rounds;
    }
  }
}
