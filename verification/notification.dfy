/** The notification gate `maybePush`: a verdict is pushed only when it asks
    for a push with a score at the threshold or above, outside the quiet
    hours, and no earlier push for the same symbol lies within the
    de-duplication window. A successful push records its time in the state
    map and writes the map out; a failed push leaves both untouched. */
module Notification {
  import opened JsValues

  /** The settings the gate reads, with the program's defaults below. Each is
      read with `Number(...)`, so fractional hours are allowed. */
  datatype Config = Config(scoreThreshold: real, quietStart: real, quietEnd: real, dedupeHours: real)

  const DefaultConfig: Config := Config(70.0, 23.0, 6.0, 6.0)

  /** The judge's verdict as far as the gate reads it: the decision string
      and the score (null or undefined when the judge left it out). */
  datatype Verdict = Verdict(decision: string, score: Value)

  /** The verdict the judge falls back to when it cannot parse the reply. */
  const ParseFailure: Verdict := Verdict("hold", Num(0.0))

  /** Whether the clock hour falls in the quiet window: from start (inclusive)
      to end (exclusive), wrapping past midnight when start is after end. The
      end hour itself is never quiet, and the start hour is quiet unless the
      window is empty. */
  function InQuietHours(hour: int, start: real, end: real): (quiet: bool)
    ensures hour as real == end ==> !quiet
    ensures hour as real == start && start != end ==> quiet
    ensures start == end ==> !quiet
  {
    var h := hour as real;
    if start <= end then start <= h < end else h >= start || h < end
  }

  /** The state key under which the last push time of a symbol is kept. */
  function PushKey(symbol: string): (k: string)
    ensures |k| == |symbol| + 7 && k[..7] == "pushed:" && k[7..] == symbol
  {
    "pushed:" + symbol
  }

  /** `state[key] || 0`: the last push time of a symbol, 0 when there is none. */
  function LastPushed(state: map<string, int>, symbol: string): int
  {
    if PushKey(symbol) in state then state[PushKey(symbol)] else 0
  }

  /** The de-duplication window in milliseconds. */
  function DedupeWindow(cfg: Config): real
  {
    cfg.dedupeHours * 3600.0 * 1000.0
  }

  /** `ai.score ?? 0`. */
  function ScoreOrZero(score: Value): Value
  {
    if score.Null? || score.Undefined? then Num(0.0) else score
  }

  /** Why the gate let a verdict through or stopped it. */
  datatype Decision = Proceed | NoVerdict | NotPush | BelowThreshold | QuietHours | Cooldown

  /** The checks `maybePush` makes before pushing, in the program's order. */
  function Gate(cfg: Config, state: map<string, int>, symbol: string, ai: Option<Verdict>, hour: int, now: int): (d: Decision)
    ensures d == Proceed ==> ai.Some? && ai.value.decision == "push"
    ensures d == Proceed ==> !Greater(Num(cfg.scoreThreshold), ScoreOrZero(ai.value.score))
    ensures d == Proceed ==> !InQuietHours(hour, cfg.quietStart, cfg.quietEnd)
    ensures d == Proceed ==> (now - LastPushed(state, symbol)) as real >= DedupeWindow(cfg)
  {
    if ai.None? then NoVerdict
    else if ai.value.decision != "push" then NotPush
    else if Greater(Num(cfg.scoreThreshold), ScoreOrZero(ai.value.score)) then BelowThreshold
    else if InQuietHours(hour, cfg.quietStart, cfg.quietEnd) then QuietHours
    else if (now - LastPushed(state, symbol)) as real < DedupeWindow(cfg) then Cooldown
    else Proceed
  }

  /** What one call of `maybePush` ended in. */
  datatype Outcome = Delivered | DeliveryFailed | Suppressed(why: Decision)

  /** The run's de-duplication state: `state` is the map in memory, `saved`
      the map as last written to the state file. */
  class Notifier {
    const cfg: Config
    var state: map<string, int>
    var saved: map<string, int>

    /** Starts from the state read from the state file (empty when it could not be read). */
    constructor(cfg: Config, loaded: map<string, int>)
      ensures this.cfg == cfg && state == loaded && saved == loaded
    {
      this.cfg := cfg;
      state := loaded;
      saved := loaded;
    }

    /** `maybePush`, with the clock hour in the quiet-hours time zone, the
        current time in milliseconds and whether the push request succeeds
        given as parameters. */
    method MaybePush(symbol: string, ai: Option<Verdict>, hour: int, now: int, pushSucceeds: bool)
      returns (outcome: Outcome)
      modifies this
      ensures var d := Gate(cfg, old(state), symbol, ai, hour, now);
        outcome == (if d != Proceed then Suppressed(d) else if pushSucceeds then Delivered else DeliveryFailed)
      ensures outcome == Delivered ==> state == old(state)[PushKey(symbol) := now] && saved == state
      ensures outcome != Delivered ==> state == old(state) && saved == old(saved)
    {
      if ai.None? {
        outcome := Suppressed(NoVerdict);
        return;
      }
      if ai.value.decision != "push" {
        outcome := Suppressed(NotPush);
        return;
      }
      if Greater(Num(cfg.scoreThreshold), ScoreOrZero(ai.value.score)) {
        outcome := Suppressed(BelowThreshold);
        return;
      }
      if InQuietHours(hour, cfg.quietStart, cfg.quietEnd) {
        outcome := Suppressed(QuietHours);
        return;
      }
      var key := PushKey(symbol);
      var last := if key in state then state[key] else 0;
      if (now - last) as real < cfg.dedupeHours * 3600.0 * 1000.0 {
        outcome := Suppressed(Cooldown);
        return;
      }
      if !pushSucceeds {
        outcome := DeliveryFailed;
        return;
      }
      state := state[key := now];
      saved := state;
      outcome := Delivered;
    }
  }

  // ------------------------------------------------------------------
  // Properties of the gate

  /** For hours, start and end on the clock (0 to 23) the quiet window is
      the run of hours from start up to end, counted around the clock. */
  lemma QuietHoursAroundTheClock(hour: int, start: int, end: int)
    requires 0 <= hour < 24 && 0 <= start < 24 && 0 <= end < 24
    ensures InQuietHours(hour, start as real, end as real) <==> (hour - start) % 24 < (end - start) % 24
  {
    if hour < start {
      assert (hour - start) % 24 == hour - start + 24;
    } else {
      assert (hour - start) % 24 == hour - start;
    }
    if end < start {
      assert (end - start) % 24 == end - start + 24;
    } else {
      assert (end - start) % 24 == end - start;
    }
  }

  /** The window boundaries may be fractional: a window starting at half past
      ten in the evening makes 23 o'clock quiet but not 22 o'clock. */
  lemma FractionalQuietStart()
    ensures InQuietHours(23, 22.5, 6.0) && !InQuietHours(22, 22.5, 6.0)
  {
  }

  /** The default window from 23 to 6: 2 o'clock is quiet, 10 o'clock is not. */
  lemma DefaultQuietHours()
    ensures InQuietHours(2, DefaultConfig.quietStart, DefaultConfig.quietEnd)
    ensures !InQuietHours(10, DefaultConfig.quietStart, DefaultConfig.quietEnd)
    ensures InQuietHours(23, DefaultConfig.quietStart, DefaultConfig.quietEnd)
    ensures !InQuietHours(6, DefaultConfig.quietStart, DefaultConfig.quietEnd)
  {
  }

  /** Distinct symbols have distinct state keys. */
  lemma PushKeyInjective(a: string, b: string)
    requires PushKey(a) == PushKey(b)
    ensures a == b
  {
    assert a == PushKey(a)[7..];
  }

  /** The verdict the judge substitutes for an unreadable reply is never pushed. */
  lemma ParseFailureNeverPushed(cfg: Config, state: map<string, int>, symbol: string, hour: int, now: int)
    ensures Gate(cfg, state, symbol, Some(ParseFailure), hour, now) == NotPush
  {
    assert ParseFailure.decision[0] == 'h';
  }

  /** The gate lets a verdict through exactly when it asks for a push with a
      score not below the threshold (a missing score counting as 0), outside
      the quiet hours, and the last push of the symbol is at least the
      de-duplication window ago. */
  lemma GateProceedsExactly(cfg: Config, state: map<string, int>, symbol: string, ai: Option<Verdict>, hour: int, now: int)
    ensures Gate(cfg, state, symbol, ai, hour, now) == Proceed <==>
      ai.Some? && ai.value.decision == "push" &&
      (ScoreOrZero(ai.value.score).NaN? || ScoreOrZero(ai.value.score).v >= cfg.scoreThreshold) &&
      !InQuietHours(hour, cfg.quietStart, cfg.quietEnd) &&
      (now - LastPushed(state, symbol)) as real >= DedupeWindow(cfg)
  {
  }

  /** Right after a push at time t, every verdict for the same symbol
      before t plus the de-duplication window that passes the other checks
      is suppressed for the cooldown; once the window has passed it proceeds. */
  lemma DedupeAfterPush(cfg: Config, state: map<string, int>, symbol: string, t: int,
                        ai: Option<Verdict>, hour: int, now: int)
    requires ai.Some? && ai.value.decision == "push"
    requires !Greater(Num(cfg.scoreThreshold), ScoreOrZero(ai.value.score))
    requires !InQuietHours(hour, cfg.quietStart, cfg.quietEnd)
    ensures ((now - t) as real) < DedupeWindow(cfg) ==> Gate(cfg, state[PushKey(symbol) := t], symbol, ai, hour, now) == Cooldown
    ensures ((now - t) as real) >= DedupeWindow(cfg) ==> Gate(cfg, state[PushKey(symbol) := t], symbol, ai, hour, now) == Proceed
  {
  }

  /** A push for one symbol leaves the gate of every other symbol as it was. */
  lemma OtherSymbolsUnaffected(cfg: Config, state: map<string, int>, pushed: string, t: int,
                               symbol: string, ai: Option<Verdict>, hour: int, now: int)
    requires symbol != pushed
    ensures Gate(cfg, state[PushKey(pushed) := t], symbol, ai, hour, now) == Gate(cfg, state, symbol, ai, hour, now)
  {
    if PushKey(symbol) == PushKey(pushed) {
      PushKeyInjective(symbol, pushed);
    }
  }

  /** The de-duplication example with the default six-hour window: a push
      verdict scoring 85 at 10 o'clock, one hour after the last push, is
      suppressed; seven hours after it, it proceeds. */
  lemma DedupeExample(state: map<string, int>, symbol: string, t: int)
    ensures var ai := Some(Verdict("push", Num(85.0)));
      var hour := 3600 * 1000;
      var s := state[PushKey(symbol) := t];
      Gate(DefaultConfig, s, symbol, ai, 10, t + hour) == Cooldown &&
      Gate(DefaultConfig, s, symbol, ai, 10, t + 7 * hour) == Proceed
  {
  }

  /** A push happens only after the gate let the verdict through, so with a
      non-negative de-duplication window it moves the symbol's last push time
      to now and never back in time, and it adds only the symbol's key. */
  lemma PushAdvancesLastPushed(cfg: Config, state: map<string, int>, symbol: string,
                               ai: Option<Verdict>, hour: int, now: int)
    requires cfg.dedupeHours >= 0.0
    requires Gate(cfg, state, symbol, ai, hour, now) == Proceed
    ensures LastPushed(state[PushKey(symbol) := now], symbol) == now
    ensures LastPushed(state[PushKey(symbol) := now], symbol) >= LastPushed(state, symbol)
    ensures (state[PushKey(symbol) := now]).Keys == state.Keys + {PushKey(symbol)}
  {
  }
}
