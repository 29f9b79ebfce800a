/** The request ledger of the chat endpoint: a `{count, lastRequestTime}`
    record that each request reads, advances and checks against a limit
    per time window. Times are milliseconds since the epoch. */
module RateLimit {

  /** Requests admitted per window. */
  const Limit: int := 1

  /** Window length in milliseconds: three hours. */
  const TimeWindow: int := 3 * 60 * 60 * 1000

  const MillisPerMinute: int := 1000 * 60

  datatype LedgerState = LedgerState(count: int, lastRequestTime: int)

  /** The ledger assumed for a caller who presents none. */
  const Fresh: LedgerState := LedgerState(0, 0)

  /** What a request gets: admission with the state to keep and the
      requests still available, or refusal with the minutes to wait. */
  datatype Decision =
    | Accept(state: LedgerState, remaining: int)
    | Reject(minutes: int)

  /** `ms` milliseconds in whole minutes, rounded up. */
  function CeilMinutes(ms: int): (m: int)
    ensures (m - 1) * MillisPerMinute < ms <= m * MillisPerMinute
  {
    (ms + MillisPerMinute - 1) / MillisPerMinute
  }

  function Elapsed(prior: LedgerState, now: int): int {
    now - prior.lastRequestTime
  }

  /** The window has run out strictly more than `window` ms after the
      last accepted request. */
  predicate Expired(prior: LedgerState, now: int, window: int) {
    Elapsed(prior, now) > window
  }

  /** The ledger after counting this request, before the limit check:
      a new window holding this one request, or one more in the old one. */
  function Advance(prior: LedgerState, now: int, window: int): LedgerState {
    if Expired(prior, now, window) then LedgerState(1, now)
    else prior.(count := prior.count + 1)
  }

  /** Decide one request against the prior ledger. */
  function Evaluate(prior: LedgerState, now: int, limit: int, window: int): (d: Decision)
    // refused exactly when the counted ledger is over the limit
    ensures d.Reject? <==>
      (if Expired(prior, now, window) then 1 > limit else prior.count + 1 > limit)
    // a refusal reports the rest of the window, in minutes rounded up
    ensures d.Reject? ==>
      (d.minutes - 1) * MillisPerMinute < window - Elapsed(prior, now) <= d.minutes * MillisPerMinute
    // an admission stamps the request time, stays within the limit and
    // reports what is left of it
    ensures d.Accept? ==>
      && d.state.lastRequestTime == now
      && d.state.count == (if Expired(prior, now, window) then 1 else prior.count + 1)
      && d.state.count <= limit
      && d.remaining == limit - d.state.count >= 0
  {
    var counted := Advance(prior, now, window);
    if counted.count > limit then
      Reject(CeilMinutes(window - Elapsed(prior, now)))
    else
      Accept(counted.(lastRequestTime := now), limit - counted.count)
  }

  /** Within the window the count goes up by exactly one; the window
      resets to this request alone only once it has strictly expired. */
  lemma AdvanceCounts(prior: LedgerState, now: int, window: int)
    ensures Elapsed(prior, now) > window ==> Advance(prior, now, window) == LedgerState(1, now)
    ensures Elapsed(prior, now) <= window ==>
      Advance(prior, now, window) == LedgerState(prior.count + 1, prior.lastRequestTime)
  {
  }

  /** With a limit of at least one, a request that opens a new window is
      always admitted, whatever the old count was. */
  lemma ExpiredIsAccepted(prior: LedgerState, now: int, limit: int, window: int)
    requires limit >= 1
    requires Expired(prior, now, window)
    ensures Evaluate(prior, now, limit, window) == Accept(LedgerState(1, now), limit - 1)
  {
  }

  /** In an active window, a caller below the limit is admitted with the
      count raised by one and the window restarted at `now`; a caller at
      or above it is refused. */
  lemma ActiveWindow(prior: LedgerState, now: int, limit: int, window: int)
    requires !Expired(prior, now, window)
    ensures prior.count < limit ==>
      Evaluate(prior, now, limit, window) == Accept(LedgerState(prior.count + 1, now), limit - prior.count - 1)
    ensures prior.count >= limit ==> Evaluate(prior, now, limit, window).Reject?
  {
  }

  /** A refusal only happens inside an active window (given a limit of at
      least one), so the wait is never negative; when the clock has not
      gone backwards it is at most the whole window, in minutes. */
  lemma RejectMinutesBounded(prior: LedgerState, now: int, limit: int, window: int)
    requires limit >= 1
    requires Evaluate(prior, now, limit, window).Reject?
    ensures !Expired(prior, now, window)
    ensures Evaluate(prior, now, limit, window).minutes >= 0
    ensures Elapsed(prior, now) >= 0 ==>
      Evaluate(prior, now, limit, window).minutes <= CeilMinutes(window)
  {
  }

  /** Refusals write nothing, so they never push the window back: the
      wait shrinks as time passes, and a request made strictly after the
      window since the last admission is admitted again. */
  lemma RejectionKeepsWindow(prior: LedgerState, early: int, late: int, limit: int, window: int)
    requires limit >= 1
    requires early <= late
    requires Evaluate(prior, early, limit, window).Reject?
    ensures Evaluate(prior, late, limit, window).Reject? ==>
      Evaluate(prior, late, limit, window).minutes <= Evaluate(prior, early, limit, window).minutes
    ensures late > prior.lastRequestTime + window ==>
      Evaluate(prior, late, limit, window) == Accept(LedgerState(1, late), limit - 1)
  {
  }

  /** Three requests with the deployed constants: the first admitted from
      a fresh ledger, the second a second later refused for 180 minutes,
      the third one millisecond after the window admitted again. */
  lemma DeployedScenario(t: int)
    ensures Evaluate(Fresh, t, Limit, TimeWindow) == Accept(LedgerState(1, t), 0)
    ensures Evaluate(LedgerState(1, t), t + 1000, Limit, TimeWindow) == Reject(180)
    ensures Evaluate(LedgerState(1, t), t + TimeWindow + 1, Limit, TimeWindow)
         == Accept(LedgerState(1, t + TimeWindow + 1), 0)
  {
  }

  /** With the deployed constants a refusal never asks for more than
      three hours' worth of minutes, unless the ledger's time lies in the
      future. */
  lemma DeployedWaitAtMost180(prior: LedgerState, now: int)
    requires Evaluate(prior, now, Limit, TimeWindow).Reject?
    requires prior.lastRequestTime <= now
    ensures 0 <= Evaluate(prior, now, Limit, TimeWindow).minutes <= 180
  {
  }
}
