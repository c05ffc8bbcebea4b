/** What holds in every run of the shutdown coordinator, and when it can complete. */
module CoordinatorTheorems {
  import opened CoordinatorSpec

  /** Whatever happens, phases never go back, each callback is started at most once, and the promise
      is resolved at most once: after the shutdown stopped, and after the flush was started and
      ended. A second request always leads to a forced shutdown or finds it over. */
  lemma {:induction false} CoordinatorIsSafe(cfg: Config, s: State, e: Event)
    requires Reachable(cfg, s)
    ensures Rank(s.control.phase) <= Rank(Step(cfg, s, e).control.phase)
    ensures s.jobs.drain.started <= 1 && s.jobs.force.started <= 1 && s.jobs.flush.started <= 1 && |s.resolved| <= 1
    ensures
      s.resolved != [] ==>
        s.control.phase == Stopped && s.jobs.flush == Job(if cfg.hasFlush then 1 else 0, false) &&
        s.resolved[0].triggers == s.triggers && s.resolved[0].forced == (s.jobs.force.started == 1) &&
        (s.jobs.force.started == 1 || s.jobs.drain.started == 1) && Step(cfg, s, e).resolved == s.resolved
    ensures Attempt(s) == 0 <==> s.control.phase == Running
    ensures Attempt(s) >= 2 ==> s.control.phase == Forcing || s.control.phase == Stopped
  {
    ReachableInv(cfg, s);
    StepKeeps(cfg, s, e);
    hide Reachable, Count, Run;
  }

  /** The force callback threw instead of returning a promise. */
  ghost predicate ForceThrew(cfg: Config, events: seq<Event>)
    decreases |events|
  {
    events != [] &&
    var before := events[..|events| - 1];
    var todo := Run(cfg, FRESH, before).todo;
    ForceThrew(cfg, before) || (events[|events| - 1] == Goes(true) && todo != [] && todo[|todo| - 1] == CallForce)
  }

  /** The forced phase with neither a promise of the force callback nor a call or an end to come. */
  ghost predicate Abandoned(s: State) {
    s.control.phase == Forcing && s.jobs.force.started == 1 && !s.jobs.force.pending && FinishForced !in s.todo
  }

  lemma AbandonedStep(cfg: Config, s: State, e: Event)
    requires Inv(cfg, s)
    ensures
      Abandoned(Step(cfg, s, e)) <==>
        Abandoned(s) || (e == Goes(true) && s.todo != [] && s.todo[|s.todo| - 1] == CallForce)
  {
    hide Count, EndInv, AttemptInv;
    Counted(s.todo, CallForce);
    if s.todo != [] {
      Popped(s.todo, FinishForced);
      Popped(s.todo, CallForce);
    }
    Pushed(s.todo, CallDrain, FinishForced);
    Pushed(s.todo, CallForce, FinishForced);
  }

  lemma {:induction false} ThrowsAbandon(cfg: Config, events: seq<Event>)
    ensures ForceThrew(cfg, events) <==> Abandoned(Run(cfg, FRESH, events))
    decreases |events|
  {
    if events != [] {
      var before := events[..|events| - 1];
      ThrowsAbandon(cfg, before);
      RunKeeps(cfg, FRESH, before);
      AbandonedStep(cfg, Run(cfg, FRESH, before), events[|events| - 1]);
    }
  }

  /** Nothing completes a shutdown whose force callback threw: no timer, promise or request. */
  lemma {:induction false} StuckForever(cfg: Config, events: seq<Event>, more: seq<Event>)
    requires ForceThrew(cfg, events)
    ensures ForceThrew(cfg, events + more) && Run(cfg, FRESH, events + more).resolved == []
    decreases |more|
  {
    if more == [] {
      assert events + more == events;
    } else {
      StuckForever(cfg, events, more[..|more| - 1]);
      assert (events + more)[..|events + more| - 1] == events + more[..|more| - 1];
    }
    ThrowsAbandon(cfg, events + more);
    RunKeeps(cfg, FRESH, events + more);
  }

  lemma Then(cfg: Config, s: State, events: seq<Event>, e: Event)
    ensures Run(cfg, s, events + [e]) == Step(cfg, Run(cfg, s, events), e)
  {
    assert (events + [e])[..|events|] == events;
  }

  /** From the stopped phase: observers and flush settle. */
  lemma Ends(cfg: Config, s: State, events: seq<Event>) returns (more: seq<Event>)
    requires Inv(cfg, Run(cfg, s, events)) && Run(cfg, s, events).control.phase == Stopped
    ensures Run(cfg, s, more).resolved != []
  {
    more := events;
    var now := Run(cfg, s, more);
    if now.control.stage == Observers {
      StepKeeps(cfg, now, ObserversSettle);
      Then(cfg, s, more, ObserversSettle);
      more := more + [ObserversSettle];
      now := Run(cfg, s, more);
    }
    if now.control.stage == Flushing {
      Then(cfg, s, more, FlushSettles(true));
      more := more + [FlushSettles(true)];
    }
  }

  /** A force in progress settles. */
  lemma ForceEnds(cfg: Config, s: State, events: seq<Event>) returns (more: seq<Event>)
    requires
      var now := Run(cfg, s, events);
      Inv(cfg, now) && now.control.phase == Forcing && now.todo == [] && now.jobs.force.pending
    ensures Run(cfg, s, more).resolved != []
  {
    StepKeeps(cfg, Run(cfg, s, events), ForceSettles(true));
    Then(cfg, s, events, ForceSettles(true));
    more := Ends(cfg, s, events + [ForceSettles(true)]);
  }

  lemma {:induction false} Joined(cfg: Config, s: State, events: seq<Event>, more: seq<Event>)
    ensures Run(cfg, Run(cfg, s, events), more) == Run(cfg, s, events + more)
    decreases |more|
  {
    if more == [] {
      assert events + more == events;
    } else {
      Joined(cfg, s, events, more[..|more| - 1]);
      assert (events + more)[..|events + more| - 1] == events + more[..|more| - 1];
    }
  }

  lemma RunHolds(cfg: Config, events: seq<Event>)
    ensures Inv(cfg, Run(cfg, FRESH, events))
  {
    RunKeeps(cfg, FRESH, events);
  }

  /** Main theorem: a shutdown that was begun can still complete, whatever happened to it, exactly
      when its force callback did not throw. */
  lemma {:induction false} CompletesUnlessForceThrows(cfg: Config, events: seq<Event>)
    requires Run(cfg, FRESH, events).todo == [] && Run(cfg, FRESH, events).control.phase != Running
    ensures (exists more :: Run(cfg, Run(cfg, FRESH, events), more).resolved != []) <==> !ForceThrew(cfg, events)
  {
    hide Inv, ForceThrew;
    var s := Run(cfg, FRESH, events);
    RunHolds(cfg, events);
    ThrowsAbandon(cfg, events);
    if ForceThrew(cfg, events) {
      forall more ensures Run(cfg, s, more).resolved == [] {
        Joined(cfg, FRESH, events, more);
        StuckForever(cfg, events, more);
      }
    } else {
      var more := Completion(cfg, s);
    }
  }

  /** A callback that throws at the first request gets there. */
  lemma AThrowingForceSticks(cfg: Config)
    ensures
      var events := [Requested("x", true)] + [Goes(true)];
      ForceThrew(cfg, events) && Run(cfg, FRESH, events).todo == [] && Run(cfg, FRESH, events).control.phase == Forcing
  {
    assert Run(cfg, FRESH, []) == FRESH && [] + [Requested("x", true)] == [Requested("x", true)];
    Then(cfg, FRESH, [], Requested("x", true));
    assert Run(cfg, FRESH, [Requested("x", true)]).todo == [CallForce];
    Then(cfg, FRESH, [Requested("x", true)], Goes(true));
    assert ([Requested("x", true)] + [Goes(true)])[..1] == [Requested("x", true)];
    assert [CallForce][..0] == [];
  }

  lemma Completion(cfg: Config, s: State) returns (events: seq<Event>)
    requires Inv(cfg, s) && s.todo == [] && s.control.phase != Running && !Abandoned(s)
    ensures Run(cfg, s, events).resolved != []
  {
    assert Run(cfg, s, []) == s;
    Counted(s.todo, CallDrain);
    Counted(s.todo, CallForce);
    if s.control.phase == Stopped {
      events := Ends(cfg, s, []);
    } else if s.control.phase == Forcing {
      events := ForceEnds(cfg, s, []);
    } else {
      events := DeadlinePasses(cfg, s);
    }
  }

  /** The deadline is armed, and when it passes the force callback is called. */
  lemma DeadlineForces(cfg: Config, s: State)
    requires Inv(cfg, s) && s.todo == [] && s.control.phase == Draining
    ensures
      var called := Step(cfg, Step(cfg, s, TimerFires), Goes(false));
      called.control.phase == Forcing && called.todo == [] && called.jobs.force.pending
  {
    hide CallsInv, EndInv, AttemptInv;
    var announced := Step(cfg, s, TimerFires);
    assert announced.todo == [CallForce];
    assert announced.todo[..0] == [];
  }

  /** The deadline passes, and the force callback settles. */
  lemma DeadlinePasses(cfg: Config, s: State) returns (events: seq<Event>)
    requires Inv(cfg, s) && s.todo == [] && s.control.phase == Draining
    ensures Run(cfg, s, events).resolved != []
  {
    hide Inv, Step;
    DeadlineForces(cfg, s);
    StepKeeps(cfg, s, TimerFires);
    StepKeeps(cfg, Step(cfg, s, TimerFires), Goes(false));
    assert Run(cfg, s, []) == s;
    Then(cfg, s, [], TimerFires);
    Then(cfg, s, [TimerFires], Goes(false));
    assert [] + [TimerFires] == [TimerFires];
    events := ForceEnds(cfg, s, [TimerFires] + [Goes(false)]);
  }
}
