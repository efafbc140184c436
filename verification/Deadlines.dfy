/**
  The deadline of a turn, the stored execution lease and the absolute lifetime of a session, in
  seconds. A worker reads the clock three times: when it claims the turn, when it computes the
  remaining lifetime, and when the timeout actually starts.
*/
module Deadlines {
  import opened Prelude

  datatype Config = Config(turnDeadline: real, maxSession: real, grace: real)

  predicate Valid(cfg: Config) {
    cfg.turnDeadline > 0.0 && cfg.maxSession > 0.0 && cfg.grace > 0.0
  }

  /** The per-agent timeout may only tighten the global ceiling. */
  function EffectiveDeadline(cfg: Config, timeout: Option<real>): real {
    match timeout
    case None => cfg.turnDeadline
    case Some(t) => Min(t, cfg.turnDeadline)
  }

  function Remaining(cfg: Config, startedAt: Option<real>, now: real): real {
    match startedAt
    case None => cfg.maxSession
    case Some(started) => started + cfg.maxSession - now
  }

  function LeaseExpiry(cfg: Config, startedAt: Option<real>, claimed: real): real {
    claimed + (Min(cfg.turnDeadline, Max(Remaining(cfg, startedAt, claimed), 0.0)) + cfg.grace)
  }

  /** The instant the loop is cut off: lifetime computed at `read`, timeout started at `begun`. */
  function Cutoff(cfg: Config, timeout: Option<real>, startedAt: Option<real>, read: real, begun: real): real {
    begun + Min(EffectiveDeadline(cfg, timeout), Max(Remaining(cfg, startedAt, read), 0.0))
  }

  /** A worker whose start-up takes no longer than the grace period is cut off before its lease ends. */
  lemma LeaseOutlivesLoop(cfg: Config, timeout: Option<real>, startedAt: Option<real>, claimed: real, read: real,
                          begun: real)
    requires Valid(cfg) && claimed <= read <= begun
    requires begun - claimed <= cfg.grace
    ensures Cutoff(cfg, timeout, startedAt, read, begun) <= LeaseExpiry(cfg, startedAt, claimed)
  {
  }

  /** Where neither the agent nor the lifetime shortens the turn, the grace period is exactly the margin. */
  lemma GraceIsTight(cfg: Config, startedAt: Option<real>, claimed: real, read: real, begun: real)
    requires Valid(cfg) && claimed <= read <= begun
    requires Remaining(cfg, startedAt, read) >= cfg.turnDeadline
    ensures Cutoff(cfg, None, startedAt, read, begun) <= LeaseExpiry(cfg, startedAt, claimed) <==>
      begun - claimed <= cfg.grace
  {
  }

  /** The lifetime is a ceiling on the loop exactly when the timeout starts within it and either starts
      at the very instant the remaining lifetime was read or is shorter than what is left then. */
  lemma LifetimeBoundsLoopExactly(cfg: Config, timeout: Option<real>, started: real, read: real, begun: real)
    requires Valid(cfg) && read <= begun && EffectiveDeadline(cfg, timeout) > 0.0
    ensures var end := started + cfg.maxSession;
      Cutoff(cfg, timeout, Some(started), read, begun) <= end <==>
      (begun <= end && (begun == read || EffectiveDeadline(cfg, timeout) <= end - begun))
  {
  }

  /** The overrun is never more than the delay between reading the clock and starting the timeout. */
  lemma OverrunIsTheDelay(cfg: Config, timeout: Option<real>, started: real, read: real, begun: real)
    requires Valid(cfg) && read <= begun
    ensures Cutoff(cfg, timeout, Some(started), read, begun) <= Max(started + cfg.maxSession, read) + (begun - read)
  {
  }

  /** A delay of one second before the timeout starts lets a turn run one second past the lifetime. */
  lemma LifetimeCanBeOverrun()
    ensures var cfg := Config(120.0, 3600.0, 30.0);
      Valid(cfg) && Cutoff(cfg, None, Some(0.0), 3590.0, 3591.0) == 3601.0
  {
  }

  /** The loop gets the most time that neither the global ceiling, nor the agent's own timeout, nor what is
      left of the session's lifetime forbids, and never less than none. */
  lemma CutoffExactly(cfg: Config, timeout: Option<real>, startedAt: Option<real>, read: real, begun: real, time: real)
    requires Valid(cfg) && (timeout.Some? ==> timeout.value > 0.0) && time >= 0.0
    ensures begun + time <= Cutoff(cfg, timeout, startedAt, read, begun) <==>
      && time <= cfg.turnDeadline && (timeout.Some? ==> time <= timeout.value)
      && (time > 0.0 ==> match startedAt
                         case None => time <= cfg.maxSession
                         case Some(started) => read + time <= started + cfg.maxSession)
  {
  }

  /** The lease covers, besides the grace period, the most time the global ceiling and the lifetime allow. */
  lemma LeaseExactly(cfg: Config, startedAt: Option<real>, claimed: real, time: real)
    requires Valid(cfg) && time >= 0.0
    ensures claimed + time + cfg.grace <= LeaseExpiry(cfg, startedAt, claimed) <==>
      && time <= cfg.turnDeadline
      && (time > 0.0 ==> match startedAt
                         case None => time <= cfg.maxSession
                         case Some(started) => claimed + time <= started + cfg.maxSession)
  {
  }
}
