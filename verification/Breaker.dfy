/** The circuit breaker, and the system of concurrent callers that share it. */
module Breaker {
  import opened Prelude

  datatype Config = Config(threshold: nat, resetTimeout: nat, halfOpenMax: nat)

  datatype State = Closed | Open | HalfOpen

  /** Times are milliseconds of a monotonic clock. */
  datatype Circuit = Circuit(state: State, failures: nat, successes: nat, totalFailures: nat,
                             lastFailure: Option<nat>, remaining: nat)

  const NEW_CIRCUIT := Circuit(Closed, 0, 0, 0, None, 0)

  function Opened(c: Circuit): Circuit { c.(state := Open, remaining := 0) }

  function HalfOpened(cfg: Config, c: Circuit): Circuit {
    c.(state := HalfOpen, remaining := cfg.halfOpenMax, failures := 0)
  }

  function ClosedAgain(c: Circuit): Circuit { c.(state := Closed, failures := 0, remaining := 0) }

  predicate Admits(cfg: Config, c: Circuit, now: nat) {
    match c.state
    case Closed => true
    case Open => c.lastFailure.Some? && now - c.lastFailure.value >= cfg.resetTimeout
    case HalfOpen => c.remaining > 0
  }

  function Acquired(cfg: Config, c: Circuit, now: nat): Circuit {
    if !Admits(cfg, c, now) then c
    else match c.state
         case Closed => c
         case Open => HalfOpened(cfg, c)
         case HalfOpen => c.(remaining := c.remaining - 1)
  }

  function Succeeded(c: Circuit): Circuit {
    var d := c.(failures := 0, successes := c.successes + 1);
    if d.state.HalfOpen? then ClosedAgain(d) else d
  }

  function Failed(cfg: Config, c: Circuit, now: nat): Circuit {
    var d := c.(failures := c.failures + 1, totalFailures := c.totalFailures + 1, lastFailure := Some(now));
    match d.state
    case Closed => if d.failures >= cfg.threshold then Opened(d) else d
    case HalfOpen => Opened(d)
    case Open => d
  }

  class CircuitBreaker {
    const config: Config
    var state: State
    var consecutiveFailures: nat
    var totalSuccesses: nat
    var totalFailures: nat
    var lastFailureTime: Option<nat>
    var halfOpenCallsRemaining: nat

    function View(): Circuit reads this {
      Circuit(state, consecutiveFailures, totalSuccesses, totalFailures, lastFailureTime, halfOpenCallsRemaining)
    }

    constructor (config: Config)
      ensures this.config == config && View() == NEW_CIRCUIT
    {
      this.config := config;
      state := Closed;
      consecutiveFailures, totalSuccesses, totalFailures := 0, 0, 0;
      lastFailureTime := None;
      halfOpenCallsRemaining := 0;
    }

    method TryAcquire(now: nat) returns (granted: bool)
      modifies this
      ensures granted == Admits(config, old(View()), now) && View() == Acquired(config, old(View()), now)
      ensures old(state).Closed? ==> granted && View() == old(View())
      ensures old(state).Open? ==>
                && (granted <==> lastFailureTime.Some? && now - lastFailureTime.value >= config.resetTimeout)
                && if granted then state == HalfOpen && halfOpenCallsRemaining == config.halfOpenMax
                   else View() == old(View())
      ensures old(state).HalfOpen? ==>
                && state == HalfOpen && (granted <==> old(halfOpenCallsRemaining) > 0)
                && halfOpenCallsRemaining == old(halfOpenCallsRemaining) - if granted then 1 else 0
    {
      match state {
        case Closed => return true;
        case Open =>
          if lastFailureTime.Some? {
            var elapsed := now - lastFailureTime.value;
            if elapsed >= config.resetTimeout {
              TransitionToHalfOpen();
              return true;
            }
          }
          return false;
        case HalfOpen =>
          if halfOpenCallsRemaining > 0 {
            halfOpenCallsRemaining := halfOpenCallsRemaining - 1;
            return true;
          }
          return false;
      }
    }

    method RecordSuccess()
      modifies this
      ensures View() == Succeeded(old(View()))
      ensures state == if old(state) == HalfOpen then Closed else old(state)
      ensures consecutiveFailures == 0 && totalSuccesses == old(totalSuccesses) + 1
      ensures totalFailures == old(totalFailures) && lastFailureTime == old(lastFailureTime)
    {
      consecutiveFailures := 0;
      totalSuccesses := totalSuccesses + 1;
      if state == HalfOpen {
        TransitionToClosed();
      }
    }

    method RecordFailure(now: nat)
      modifies this
      ensures View() == Failed(config, old(View()), now)
      ensures state == if old(state) == Closed && old(consecutiveFailures) + 1 < config.threshold then Closed else Open
      ensures consecutiveFailures == old(consecutiveFailures) + 1 && lastFailureTime == Some(now)
      ensures totalFailures == old(totalFailures) + 1 && totalSuccesses == old(totalSuccesses)
    {
      consecutiveFailures := consecutiveFailures + 1;
      totalFailures := totalFailures + 1;
      lastFailureTime := Some(now);
      match state {
        case Closed =>
          if consecutiveFailures >= config.threshold {
            TransitionToOpen();
          }
        case HalfOpen => TransitionToOpen();
        case Open =>
      }
    }

    method ForceClose()
      modifies this
      ensures View() == ClosedAgain(old(View()))
      ensures state == Closed && consecutiveFailures == 0 && lastFailureTime == old(lastFailureTime)
    {
      TransitionToClosed();
    }

    method ForceOpen()
      modifies this
      ensures View() == Opened(old(View()))
      ensures state == Open && consecutiveFailures == old(consecutiveFailures)
      ensures lastFailureTime == old(lastFailureTime)
    {
      TransitionToOpen();
    }

    method TransitionToOpen()
      modifies this
      ensures View() == Opened(old(View()))
    {
      state := Open;
      halfOpenCallsRemaining := 0;
    }

    method TransitionToHalfOpen()
      modifies this
      ensures View() == HalfOpened(config, old(View()))
    {
      state := HalfOpen;
      halfOpenCallsRemaining := config.halfOpenMax;
      consecutiveFailures := 0;
    }

    method TransitionToClosed()
      modifies this
      ensures View() == ClosedAgain(old(View()))
    {
      state := Closed;
      consecutiveFailures := 0;
      halfOpenCallsRemaining := 0;
    }
  }

  // ---- Concurrent callers -------------------------------------------------

  type CallId = nat

  /** What happened at the breaker; `from` is its state just before. */
  datatype Event =
    | Granted(id: CallId, at: nat, from: State)
    | Denied(id: CallId, at: nat)
    | Reported(id: CallId, at: nat, ok: bool)
    | ForcedOpen
    | ForcedClosed

  /** The breaker with the admitted calls that have not reported; the lock is held for
      one step at a time, so reports of old calls may come at any moment. */
  datatype System = System(c: Circuit, now: nat, inFlight: set<CallId>, started: set<CallId>, log: seq<Event>)

  datatype Step = Tick(ms: nat) | TryCall(id: CallId) | Report(id: CallId, ok: bool) | ForceOpen | ForceClose

  const START := System(NEW_CIRCUIT, 0, {}, {}, [])

  /** A call starts once and reports at most once, and only if it was admitted. */
  function Next(cfg: Config, s: System, step: Step): System {
    match step
    case Tick(ms) => s.(now := s.now + ms)
    case TryCall(id) =>
      if id in s.started then s
      else if Admits(cfg, s.c, s.now) then
        System(Acquired(cfg, s.c, s.now), s.now, s.inFlight + {id}, s.started + {id},
               s.log + [Granted(id, s.now, s.c.state)])
      else s.(started := s.started + {id}, log := s.log + [Denied(id, s.now)])
    case Report(id, ok) =>
      if id !in s.inFlight then s
      else s.(c := if ok then Succeeded(s.c) else Failed(cfg, s.c, s.now), inFlight := s.inFlight - {id},
              log := s.log + [Reported(id, s.now, ok)])
    case ForceOpen => s.(c := Opened(s.c), log := s.log + [ForcedOpen])
    case ForceClose => s.(c := ClosedAgain(s.c), log := s.log + [ForcedClosed])
  }

  function Run(cfg: Config, s: System, steps: seq<Step>): System {
    if steps == [] then s else Next(cfg, Run(cfg, s, steps[..|steps| - 1]), steps[|steps| - 1])
  }

  // ---- Readings of the history alone ----

  /** Groups of events to count: admissions and reports, of all calls or of one. */
  datatype Tally = Grants | Reports(ok: bool) | GrantsTo(id: CallId) | ReportsBy(id: CallId)

  predicate Matches(e: Event, t: Tally) {
    match t
    case Grants => e.Granted?
    case Reports(ok) => e.Reported? && e.ok == ok
    case GrantsTo(id) => e.Granted? && e.id == id
    case ReportsBy(id) => e.Reported? && e.id == id
  }

  function Count(log: seq<Event>, t: Tally): nat {
    if log == [] then 0 else Count(log[..|log| - 1], t) + if Matches(log[|log| - 1], t) then 1 else 0
  }

  /** Failures since the later of the last success and the last forced close. */
  function FailRun(log: seq<Event>): nat {
    if log == [] then 0
    else
      var e, before := log[|log| - 1], log[..|log| - 1];
      if e.ForcedClosed? || (e.Reported? && e.ok) then 0
      else FailRun(before) + if e.Reported? then 1 else 0
  }

  /** Failures since the last success, the last forced close or the last admission out of
      the open state, whichever is latest. */
  function FailCount(log: seq<Event>): nat {
    if log == [] then 0
    else
      var e, before := log[|log| - 1], log[..|log| - 1];
      if e.ForcedClosed? || (e.Reported? && e.ok) || (e.Granted? && e.from.Open?) then 0
      else FailCount(before) + if e.Reported? then 1 else 0
  }

  function LastFailure(log: seq<Event>): Option<nat> {
    if log == [] then None
    else
      var e := log[|log| - 1];
      if e.Reported? && !e.ok then Some(e.at) else LastFailure(log[..|log| - 1])
  }

  /** Calls admitted since the admission that began the current half-open episode,
      counting that one; 0 if the last change was something else. */
  function EpisodeAdmissions(log: seq<Event>): nat {
    if log == [] then 0
    else
      var e, before := log[|log| - 1], log[..|log| - 1];
      if e.Granted? && e.from.Open? then 1
      else if e.Granted? && e.from.HalfOpen? then 1 + EpisodeAdmissions(before)
      else if e.Denied? then EpisodeAdmissions(before)
      else 0
  }

  /** The state that the history leads to: a forced transition decides it; an admission out of
      the open state starts a half-open episode; there a success closes and a failure opens;
      a closed circuit opens when a row of failures is complete. */
  function StateOf(cfg: Config, log: seq<Event>): State {
    if log == [] then Closed
    else
      var before := StateOf(cfg, log[..|log| - 1]);
      match log[|log| - 1]
      case ForcedOpen => Open
      case ForcedClosed => Closed
      case Denied(_, _) => before
      case Granted(_, _, _) => if before.Open? then HalfOpen else before
      case Reported(_, _, ok) =>
        match before
        case Open => Open
        case HalfOpen => if ok then Closed else Open
        case Closed => if FailRun(log) > 0 && FailRun(log) >= cfg.threshold then Open else Closed
  }

  /** Every admission out of the open state came the reset timeout after the last failure
      before it. */
  ghost predicate OpenAdmissionsLate(cfg: Config, log: seq<Event>) {
    forall i :: 0 <= i < |log| && log[i].Granted? && log[i].from.Open? ==>
      LastFailure(log[..i]).Some? && log[i].at >= LastFailure(log[..i]).value + cfg.resetTimeout
  }
}
