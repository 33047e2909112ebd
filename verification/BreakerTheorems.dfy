/** What holds of the shared breaker under every interleaving of its callers. */
module BreakerTheorems {
  import opened Breaker

  function Max(a: nat, b: nat): nat { if a >= b then a else b }

  /** No admitted call is lost: each succeeded, failed or is still in flight. */
  ghost predicate Conserved(s: System) {
    && s.c.successes == Count(s.log, Reports(true))
    && s.c.totalFailures == Count(s.log, Reports(false))
    && Count(s.log, Grants) == s.c.successes + s.c.totalFailures + |s.inFlight|
  }

  /** While half-open, the calls admitted in this episode are all still in flight. */
  ghost predicate ProbesOutstanding(cfg: Config, s: System) {
    if s.c.state.HalfOpen? then
      && s.c.remaining <= cfg.halfOpenMax
      && EpisodeAdmissions(s.log) == 1 + cfg.halfOpenMax - s.c.remaining <= |s.inFlight|
    else EpisodeAdmissions(s.log) == 0 && s.c.remaining == 0
  }

  /** The counter is the number of failures that the history shows; while closed these are
      failures in a row. */
  ghost predicate CountsFailures(cfg: Config, s: System) {
    && s.c.failures == FailCount(s.log)
    && (s.c.state.Closed? ==> s.c.failures == FailRun(s.log) < Max(1, cfg.threshold))
  }

  ghost predicate RemembersFailure(cfg: Config, s: System) {
    && s.c.lastFailure == LastFailure(s.log)
    && (s.c.lastFailure.Some? ==> s.c.lastFailure.value <= s.now)
    && OpenAdmissionsLate(cfg, s.log)
  }

  ghost predicate Invariant(cfg: Config, s: System) {
    && s.inFlight <= s.started
    && Conserved(s) && ProbesOutstanding(cfg, s) && CountsFailures(cfg, s) && RemembersFailure(cfg, s)
  }

  /** A step leaves the history alone or appends one event to it. */
  lemma NextLogs(cfg: Config, s: System, step: Step)
    ensures var l, l' := s.log, Next(cfg, s, step).log;
            l' == l || (|l'| == |l| + 1 && l'[..|l'| - 1] == l && forall i :: 0 <= i <= |l| ==> l'[..i] == l[..i])
  {}

  lemma CountsSnoc(log: seq<Event>, e: Event)
    ensures Count(log + [e], Grants) == Count(log, Grants) + if e.Granted? then 1 else 0
    ensures Count(log + [e], Reports(true)) == Count(log, Reports(true)) + if e.Reported? && e.ok then 1 else 0
    ensures Count(log + [e], Reports(false)) == Count(log, Reports(false)) + if e.Reported? && !e.ok then 1 else 0
  {}

  lemma AcquireCounts(cfg: Config, c: Circuit, now: nat)
    ensures Acquired(cfg, c, now).successes == c.successes && Acquired(cfg, c, now).totalFailures == c.totalFailures
  {}

  lemma NextConserves(cfg: Config, s: System, step: Step)
    requires Conserved(s) && s.inFlight <= s.started
    ensures Conserved(Next(cfg, s, step))
  {
    match step
    case Tick(_) =>
    case TryCall(id) => TryCallConserves(cfg, s, id);
    case Report(id, ok) => ReportConserves(cfg, s, id, ok);
    case ForceOpen => CountsSnoc(s.log, ForcedOpen);
    case ForceClose => CountsSnoc(s.log, ForcedClosed);
  }

  lemma TryCallConserves(cfg: Config, s: System, id: CallId)
    requires Conserved(s) && s.inFlight <= s.started
    ensures Conserved(Next(cfg, s, TryCall(id)))
  {
    AcquireCounts(cfg, s.c, s.now);
    CountsSnoc(s.log, Granted(id, s.now, s.c.state));
    CountsSnoc(s.log, Denied(id, s.now));
    assert id !in s.started ==> |s.inFlight + {id}| == |s.inFlight| + 1;
  }

  lemma ReportConserves(cfg: Config, s: System, id: CallId, ok: bool)
    requires Conserved(s)
    ensures Conserved(Next(cfg, s, Report(id, ok)))
  {}

  lemma EpisodeSnoc(log: seq<Event>, e: Event)
    ensures EpisodeAdmissions(log + [e])
         == if e.Granted? && e.from.Open? then 1
            else if e.Granted? && e.from.HalfOpen? then 1 + EpisodeAdmissions(log)
            else if e.Denied? then EpisodeAdmissions(log)
            else 0
  {}

  lemma NextKeepsProbes(cfg: Config, s: System, step: Step)
    requires ProbesOutstanding(cfg, s) && s.inFlight <= s.started
    ensures ProbesOutstanding(cfg, Next(cfg, s, step))
  {
    match step
    case Tick(_) =>
    case TryCall(id) => TryCallKeepsProbes(cfg, s, id);
    case Report(id, ok) =>
      EpisodeSnoc(s.log, Reported(id, s.now, ok));
      assert !Succeeded(s.c).state.HalfOpen? && !Failed(cfg, s.c, s.now).state.HalfOpen?;
    case ForceOpen => EpisodeSnoc(s.log, ForcedOpen);
    case ForceClose => EpisodeSnoc(s.log, ForcedClosed);
  }

  lemma TryCallKeepsProbes(cfg: Config, s: System, id: CallId)
    requires ProbesOutstanding(cfg, s) && s.inFlight <= s.started
    ensures ProbesOutstanding(cfg, Next(cfg, s, TryCall(id)))
  {
    EpisodeSnoc(s.log, Granted(id, s.now, s.c.state));
    EpisodeSnoc(s.log, Denied(id, s.now));
    assert id !in s.started ==> |s.inFlight + {id}| == |s.inFlight| + 1;
  }

  lemma NextCounts(cfg: Config, s: System, step: Step)
    requires CountsFailures(cfg, s)
    ensures CountsFailures(cfg, Next(cfg, s, step))
  {
    NextLogs(cfg, s, step);
  }

  lemma NextRemembers(cfg: Config, s: System, step: Step)
    requires RemembersFailure(cfg, s)
    ensures RemembersFailure(cfg, Next(cfg, s, step))
  {
    NextLogs(cfg, s, step);
  }

  lemma NextKeeps(cfg: Config, s: System, step: Step)
    requires Invariant(cfg, s)
    ensures Invariant(cfg, Next(cfg, s, step))
  {
    NextConserves(cfg, s, step);
    NextKeepsProbes(cfg, s, step);
    NextCounts(cfg, s, step);
    NextRemembers(cfg, s, step);
  }

  lemma {:induction false} RunKeeps(cfg: Config, steps: seq<Step>)
    ensures Invariant(cfg, Run(cfg, START, steps))
  {
    if steps != [] {
      RunKeeps(cfg, steps[..|steps| - 1]);
      NextKeeps(cfg, Run(cfg, START, steps[..|steps| - 1]), steps[|steps| - 1]);
    }
  }

  /** In every run: a half-open episode admits at most one call more than configured (the
      admission that starts it is not charged), and while it lasts some admitted call is
      in flight whose report, good or bad, ends it. */
  lemma HalfOpenEnds(cfg: Config, steps: seq<Step>)
    ensures var s := Run(cfg, START, steps);
            && EpisodeAdmissions(s.log) <= cfg.halfOpenMax + 1
            && (s.c.state.HalfOpen? ==>
                  && s.inFlight != {}
                  && forall id, ok :: id in s.inFlight ==> !Next(cfg, s, Report(id, ok)).c.state.HalfOpen?)
  {
    RunKeeps(cfg, steps);
  }

  /** In every run: a report opens a closed circuit exactly when it completes a row of
      `threshold` failures (one, if the threshold is 0). */
  lemma OpensExactlyAtThreshold(cfg: Config, steps: seq<Step>, id: CallId, ok: bool)
    requires Run(cfg, START, steps).c.state.Closed? && id in Run(cfg, START, steps).inFlight
    ensures var s' := Next(cfg, Run(cfg, START, steps), Report(id, ok));
            s'.c.state.Open? <==> FailRun(s'.log) >= Max(1, cfg.threshold)
    ensures var s' := Next(cfg, Run(cfg, START, steps), Report(id, ok));
            s'.c.state.Open? ==> !ok && FailRun(s'.log) == Max(1, cfg.threshold)
  {
    var s := Run(cfg, START, steps);
    RunKeeps(cfg, steps);
    NextLogs(cfg, s, Report(id, ok));
  }

  // ---- Where each step leads ----

  /** In every run the state is what the history alone leads to. */
  lemma {:induction false} StateIsRead(cfg: Config, steps: seq<Step>)
    ensures var s := Run(cfg, START, steps); s.c.state == StateOf(cfg, s.log)
  {
    if steps != [] {
      var n := |steps| - 1;
      StateIsRead(cfg, steps[..n]);
      RunKeeps(cfg, steps[..n]);
      NextStateIsRead(cfg, Run(cfg, START, steps[..n]), steps[n]);
    }
  }

  lemma NextStateIsRead(cfg: Config, s: System, step: Step)
    requires CountsFailures(cfg, s) && s.c.state == StateOf(cfg, s.log)
    ensures var s' := Next(cfg, s, step); s'.c.state == StateOf(cfg, s'.log)
  {
    NextLogs(cfg, s, step);
    match step
    case Report(id, ok) =>
      if id in s.inFlight {
        var log := s.log + [Reported(id, s.now, ok)];
        assert FailRun(log) == if ok then 0 else FailRun(s.log) + 1;
      }
    case _ =>
  }

  /** In every run: a report of an admitted call closes a half-open circuit if it is good and
      opens it if it is bad; an open circuit stays open; a closed one stays closed after a
      success and opens with the failure that completes a row. */
  lemma ReportsLead(cfg: Config, steps: seq<Step>, id: CallId, ok: bool)
    requires id in Run(cfg, START, steps).inFlight
    ensures var s, s' := Run(cfg, START, steps), Run(cfg, START, steps + [Report(id, ok)]);
            && s'.log == s.log + [Reported(id, s.now, ok)] && s'.inFlight == s.inFlight - {id} && s'.now == s.now
            && (ok ==> s'.c.failures == 0)
            && match s.c.state
               case HalfOpen => s'.c.state == if ok then Closed else Open
               case Open => s'.c.state == Open
               case Closed => s'.c.state == if !ok && FailRun(s'.log) >= cfg.threshold then Open else Closed
  {
    var s := Run(cfg, START, steps);
    RunKeeps(cfg, steps);
    RunSnoc(cfg, START, steps, Report(id, ok));
    NextLogs(cfg, s, Report(id, ok));
  }

  /** In every run: a new call is admitted in a closed circuit; in an open one once the
      timeout has passed since the last failure, which makes it half-open; and in a half-open
      one while the episode has admitted no more calls than configured. */
  lemma CallsLead(cfg: Config, steps: seq<Step>, id: CallId)
    requires id !in Run(cfg, START, steps).started
    ensures var s, s' := Run(cfg, START, steps), Run(cfg, START, steps + [TryCall(id)]);
            var granted := id in s'.inFlight;
            && s'.log == s.log + [if granted then Granted(id, s.now, s.c.state) else Denied(id, s.now)]
            && s'.inFlight == s.inFlight + (if granted then {id} else {}) && s'.now == s.now
            && match s.c.state
               case Closed => granted && s'.c.state == Closed
               case Open =>
                 && (granted <==> var last := LastFailure(s.log); last.Some? && s.now >= last.value + cfg.resetTimeout)
                 && s'.c.state == if granted then HalfOpen else Open
               case HalfOpen =>
                 (granted <==> EpisodeAdmissions(s.log) <= cfg.halfOpenMax) && s'.c.state == HalfOpen
  {
    RunKeeps(cfg, steps);
    RunSnoc(cfg, START, steps, TryCall(id));
  }

  /** Time, forced transitions, and calls and reports that are not due. */
  lemma OtherStepsLead(cfg: Config, steps: seq<Step>, step: Step)
    requires var s := Run(cfg, START, steps);
             (step.TryCall? ==> step.id in s.started) && (step.Report? ==> step.id !in s.inFlight)
    ensures var s, s' := Run(cfg, START, steps), Run(cfg, START, steps + [step]);
            && s'.inFlight == s.inFlight && s'.started == s.started
            && match step
               case Tick(ms) => s' == s.(now := s.now + ms)
               case ForceOpen => s'.c.state == Open && s'.log == s.log + [ForcedOpen]
               case ForceClose => s'.c.state == Closed && s'.c.failures == 0 && s'.log == s.log + [ForcedClosed]
               case _ => s' == s
  {
    RunSnoc(cfg, START, steps, step);
  }

  predicate Quiet(step: Step) { step.Tick? || step.TryCall? }

  /** If the probes of a half-open episode never report, the breaker stays half-open and
      admits no more calls than it has left, however much time passes. */
  lemma {:induction false} LostProbesStick(cfg: Config, s: System, steps: seq<Step>)
    requires s.c.state.HalfOpen? && forall step :: step in steps ==> Quiet(step)
    ensures var s' := Run(cfg, s, steps);
            && s'.c.state.HalfOpen?
            && Count(s'.log, Grants) + s'.c.remaining == Count(s.log, Grants) + s.c.remaining
  {
    if steps != [] {
      var n := |steps| - 1;
      LostProbesStick(cfg, s, steps[..n]);
      var m := Run(cfg, s, steps[..n]);
      assert Quiet(steps[n]);
      NextLogs(cfg, m, steps[n]);
    }
  }

  ghost predicate OpenUnfailed(s: System) {
    s.c.state.Open? && s.c.lastFailure.None? && s.inFlight == {}
  }

  lemma OpenUnfailedStays(cfg: Config, s: System, step: Step)
    requires OpenUnfailed(s) && !step.ForceClose?
    ensures OpenUnfailed(Next(cfg, s, step))
    ensures Count(Next(cfg, s, step).log, Grants) == Count(s.log, Grants)
  {}

  /** A circuit forced open with no failure on record and no call in flight admits nothing
      until it is forced closed. */
  lemma {:induction false} ForcedOpenSticks(cfg: Config, s: System, steps: seq<Step>)
    requires OpenUnfailed(s) && forall step :: step in steps ==> !step.ForceClose?
    ensures OpenUnfailed(Run(cfg, s, steps))
    ensures Count(Run(cfg, s, steps).log, Grants) == Count(s.log, Grants)
  {
    if steps != [] {
      var n := |steps| - 1;
      ForcedOpenSticks(cfg, s, steps[..n]);
      OpenUnfailedStays(cfg, Run(cfg, s, steps[..n]), steps[n]);
    }
  }

  lemma {:induction false} FreshCall(started: set<CallId>) returns (id: CallId)
    ensures forall k :: k in started ==> k < id
    decreases started
  {
    if started == {} {
      id := 0;
    } else {
      var k :| k in started;
      var above := FreshCall(started - {k});
      id := Max(above, k + 1);
      forall j | j in started ensures j < id {
        assert j == k || j in started - {k};
      }
    }
  }

  /** An open circuit with a failure on record lets a new call in once the timeout is over. */
  lemma TimeoutAdmits(cfg: Config, s: System, id: CallId)
    requires s.c.state.Open? && s.c.lastFailure.Some? && s.c.lastFailure.value <= s.now && id !in s.started
    ensures var m := Next(cfg, Next(cfg, s, Tick(cfg.resetTimeout)), TryCall(id));
            Count(m.log, Grants) == Count(s.log, Grants) + 1
  {
    var t := Next(cfg, s, Tick(cfg.resetTimeout));
    NextLogs(cfg, t, TryCall(id));
  }

  ghost predicate NoForceClose(steps: seq<Step>) {
    forall step :: step in steps ==> !step.ForceClose?
  }

  lemma OpenRecovers(cfg: Config, s: System) returns (more: seq<Step>)
    requires s.c.state.Open? && (s.c.lastFailure.Some? ==> s.c.lastFailure.value <= s.now)
    requires s.c.lastFailure.Some? || s.inFlight != {}
    ensures NoForceClose(more) && Count(Run(cfg, s, more).log, Grants) > Count(s.log, Grants)
  {
    var id := FreshCall(s.started);
    more := [];
    var t := s;
    if s.c.lastFailure.None? {
      var call :| call in s.inFlight;
      more := more + [Report(call, false)];
      RunSnoc(cfg, s, [], Report(call, false));
      t := Next(cfg, s, Report(call, false));
      NextLogs(cfg, s, Report(call, false));
    }
    TimeoutAdmits(cfg, t, id);
    RunSnoc(cfg, s, more, Tick(cfg.resetTimeout));
    RunSnoc(cfg, s, more + [Tick(cfg.resetTimeout)], TryCall(id));
    more := more + [Tick(cfg.resetTimeout)] + [TryCall(id)];
  }

  lemma RunSnoc(cfg: Config, s: System, steps: seq<Step>, step: Step)
    ensures Run(cfg, s, steps + [step]) == Next(cfg, Run(cfg, s, steps), step)
  {
    assert (steps + [step])[..|steps|] == steps;
  }

  /** An open circuit, however it was reached, admits nothing until it is forced closed if
      and only if it has no failure on record and no call in flight. */
  lemma OpenSticksExactly(cfg: Config, steps: seq<Step>)
    requires Run(cfg, START, steps).c.state.Open?
    ensures var s := Run(cfg, START, steps);
            OpenUnfailed(s)
            <==> forall more :: NoForceClose(more) ==> Count(Run(cfg, s, more).log, Grants) == Count(s.log, Grants)
  {
    var s := Run(cfg, START, steps);
    RunKeeps(cfg, steps);
    if OpenUnfailed(s) {
      forall more | NoForceClose(more) ensures Count(Run(cfg, s, more).log, Grants) == Count(s.log, Grants) {
        ForcedOpenSticks(cfg, s, more);
      }
    } else {
      var more := OpenRecovers(cfg, s);
    }
  }
}
