/** A provider's `chat`: one admission, a retry loop with backoff, one report. */
module Chat {
  import opened Prelude
  import opened Breaker
  import opened BreakerTheorems
  import opened Backoff

  /** How one request ends; a refusal says whether a retry is worthwhile. */
  datatype Attempt = Answered | Refused(retry: bool)

  datatype ChatResult = Answer | Error | CircuitOpen | Overflow

  /** The loop makes its last request at attempt `k`. */
  ghost predicate StopsAt(script: nat -> Attempt, maxRetries: nat, k: nat) {
    && k <= maxRetries
    && (forall j :: 0 <= j < k ==> script(j) == Refused(true))
    && (k == maxRetries || script(k) != Refused(true))
  }

  ghost function ReportsOf(log: seq<Event>, id: CallId): nat {
    Count(log, ReportsBy(id))
  }

  ghost function GrantsOf(log: seq<Event>, id: CallId): nat {
    Count(log, GrantsTo(id))
  }

  /** An admitted call has reported once or is in flight; any other call never reports. */
  ghost predicate ReportsOnce(s: System, id: CallId) {
    && GrantsOf(s.log, id) == ReportsOf(s.log, id) + (if id in s.inFlight then 1 else 0)
    && GrantsOf(s.log, id) <= 1
    && (id !in s.started ==> GrantsOf(s.log, id) == 0 && id !in s.inFlight)
  }

  lemma NextReportsOnce(cfg: Config, s: System, step: Step, id: CallId)
    requires ReportsOnce(s, id)
    ensures ReportsOnce(Next(cfg, s, step), id)
  {
    NextLogs(cfg, s, step);
  }

  lemma {:induction false} RunReportsOnce(cfg: Config, steps: seq<Step>, id: CallId)
    ensures ReportsOnce(Run(cfg, START, steps), id)
  {
    if steps != [] {
      RunReportsOnce(cfg, steps[..|steps| - 1], id);
      NextReportsOnce(cfg, Run(cfg, START, steps[..|steps| - 1]), steps[|steps| - 1], id);
    }
  }

  predicate Mentions(step: Step, id: CallId) {
    (step.TryCall? && step.id == id) || (step.Report? && step.id == id)
  }

  /** Steps of other callers leave a call's admission and its missing report alone. */
  lemma {:induction false} OthersKeep(cfg: Config, s: System, steps: seq<Step>, id: CallId)
    requires forall step :: step in steps ==> !Mentions(step, id)
    ensures var s' := Run(cfg, s, steps);
            && (id in s'.inFlight <==> id in s.inFlight)
            && GrantsOf(s'.log, id) == GrantsOf(s.log, id) && ReportsOf(s'.log, id) == ReportsOf(s.log, id)
  {
    if steps != [] {
      var n := |steps| - 1;
      OthersKeep(cfg, s, steps[..n], id);
      NextLogs(cfg, Run(cfg, s, steps[..n]), steps[n]);
      assert !Mentions(steps[n], id);
    }
  }

  class Provider {
    const config: Config
    const maxRetries: nat
    const baseDelay: U64
    /** The shared breaker; every assignment to it is one locked section. */
    var circuit: System

    constructor (config: Config, maxRetries: nat, baseDelay: U64)
      ensures this.config == config && this.maxRetries == maxRetries && this.baseDelay == baseDelay
      ensures circuit == START
    {
      this.config := config;
      this.maxRetries := maxRetries;
      this.baseDelay := baseDelay;
      circuit := START;
    }

    /** The retry loop of one call. `None` is an overflow in the delay computation, which
        happens exactly when a 65th request is refused and still to be retried. */
    method RequestWithRetries(script: nat -> Attempt, factor: nat -> nat)
      returns (answered: Option<bool>, requests: nat, slept: nat, ghost k: nat)
      requires forall i :: factor(i) < 1000
      ensures StopsAt(script, maxRetries, k)
      ensures answered == if k <= 64 then Some(script(k).Answered?) else None
      ensures requests == if k <= 64 then k + 1 else 65
      ensures slept == TotalDelay(baseDelay, factor, requests - 1)
      ensures requests <= maxRetries + 1 && slept <= maxRetries * 37492 && slept <= (requests - 1) * 37492
    {
      slept := 0;
      var attempt := 0;
      while true
        invariant 0 <= attempt <= maxRetries && attempt <= 64
        invariant forall j :: 0 <= j < attempt ==> script(j) == Refused(true)
        invariant slept <= attempt * 37492 && slept == TotalDelay(baseDelay, factor, attempt)
        decreases maxRetries - attempt
      {
        requests := attempt + 1;
        var outcome := script(attempt);
        if outcome.Answered? {
          return Some(true), requests, slept, attempt;
        }
        if !outcome.retry || attempt >= maxRetries {
          return Some(false), requests, slept, attempt;
        }
        var delay := BackoffDelay(baseDelay, attempt, factor(attempt));
        BackoffIsExact(baseDelay, attempt, factor(attempt));
        if delay.None? {
          k := FirstStop(script, maxRetries, attempt + 1);
          return None, requests, slept, k;
        }
        slept := slept + delay.value;
        attempt := attempt + 1;
      }
    }

    /** Admission, requests without the lock (while the steps `during` of other callers and
        the clock go on), and the report. With at most 64 retries an admitted call always
        reports, exactly once, before it returns. */
    method Chat(me: CallId, script: nat -> Attempt, factor: nat -> nat, during: seq<Step>)
      returns (r: ChatResult, requests: nat, slept: nat, ghost k: nat)
      requires me !in circuit.started && ReportsOnce(circuit, me)
      requires forall step :: step in during ==> !Mentions(step, me)
      requires forall i :: factor(i) < 1000
      modifies this
      ensures requests <= maxRetries + 1 && slept <= maxRetries * 37492
      ensures r != CircuitOpen ==>
                && StopsAt(script, maxRetries, k) && requests == (if k <= 64 then k + 1 else 65)
                && slept == TotalDelay(baseDelay, factor, requests - 1)
      ensures r.Answer? || r.Error? ==> k <= 64 && (r.Answer? <==> script(k).Answered?)
      ensures r == CircuitOpen <==> !Admits(config, old(circuit).c, old(circuit).now)
      ensures r == CircuitOpen ==> circuit == Next(config, old(circuit), TryCall(me)) && requests == 0
      ensures r.Answer? || r.Error? ==>
                && circuit == Next(config, Run(config, Next(config, old(circuit), TryCall(me)), during),
                                   Report(me, r.Answer?))
                && GrantsOf(circuit.log, me) == 1 && ReportsOf(circuit.log, me) == 1
      ensures r.Overflow? ==> me in circuit.inFlight && ReportsOf(circuit.log, me) == 0
      ensures r.Overflow? <==>
                r != CircuitOpen && maxRetries > 64 && forall j :: 0 <= j <= 64 ==> script(j) == Refused(true)
    {
      var canExecute := Admits(config, circuit.c, circuit.now);
      ghost var s0 := circuit;
      circuit := Next(config, circuit, TryCall(me));
      if !canExecute {
        return CircuitOpen, 0, 0, 0;
      }
      var answered;
      answered, requests, slept, k := RequestWithRetries(script, factor);
      AdmittedCall(config, s0, me, during);
      circuit := Run(config, circuit, during);
      match answered {
        case None =>
          return Overflow, requests, slept, k;
        case Some(ok) =>
          ReportedCall(config, circuit, me, ok);
          circuit := Next(config, circuit, Report(me, ok));
          NotEnoughRefusals(script, maxRetries, k);
          return if ok then Answer else Error, requests, slept, k;
      }
    }
  }

  /** An admitted call stays in flight, unreported, whatever the other callers do. */
  lemma AdmittedCall(cfg: Config, s: System, me: CallId, during: seq<Step>)
    requires me !in s.started && ReportsOnce(s, me) && Admits(cfg, s.c, s.now)
    requires forall step :: step in during ==> !Mentions(step, me)
    ensures var s' := Run(cfg, Next(cfg, s, TryCall(me)), during);
            me in s'.inFlight && GrantsOf(s'.log, me) == 1 && ReportsOf(s'.log, me) == 0
  {
    NextReportsOnce(cfg, s, TryCall(me), me);
    OthersKeep(cfg, Next(cfg, s, TryCall(me)), during, me);
  }

  lemma ReportedCall(cfg: Config, s: System, me: CallId, ok: bool)
    requires me in s.inFlight
    ensures var s' := Next(cfg, s, Report(me, ok));
            ReportsOf(s'.log, me) == ReportsOf(s.log, me) + 1 && GrantsOf(s'.log, me) == GrantsOf(s.log, me)
  {}

  lemma NotEnoughRefusals(script: nat -> Attempt, maxRetries: nat, k: nat)
    requires StopsAt(script, maxRetries, k) && k <= 64
    ensures !(maxRetries > 64 && forall j :: 0 <= j <= 64 ==> script(j) == Refused(true))
  {}

  ghost function FirstStop(script: nat -> Attempt, maxRetries: nat, from: nat): (k: nat)
    requires from <= maxRetries && forall j :: 0 <= j < from ==> script(j) == Refused(true)
    ensures StopsAt(script, maxRetries, k) && k >= from
    decreases maxRetries - from
  {
    if from == maxRetries || script(from) != Refused(true) then from else FirstStop(script, maxRetries, from + 1)
  }
}
