/** What holds in every run of the Node server shutdown. */
module ServerTheorems {
  import opened ServerSpec

  /** A phase change that the table allows. */
  ghost predicate Allowed(p: Phase, q: Phase) {
    p == q || exists e :: Transition(p, e).0 == q && Transition(p, e).1 != Ignore
  }

  /** Main theorem: in every run the phases follow the table, each hook and the flush start at most
      once, and the promise is resolved at most once, with the last phase and after the flush was
      started. */
  lemma {:induction false} ServerIsSafe(cfg: Config, s: State, e: Event)
    requires Reachable(cfg, s)
    ensures Allowed(s.control.phase, Step(cfg, s, e).control.phase)
    ensures s.calls.pre <= 1 && s.calls.post <= 1 && s.calls.forceHook <= 1 && s.calls.flush <= 1 && |s.resolved| <= 1
    ensures
      s.resolved != [] ==>
        s.resolved == [s.control.phase] && s.calls.flush == 1 &&
        (s.control.phase == Forced || s.control.phase == Closed) &&
        Step(cfg, s, e).resolved == s.resolved && Step(cfg, s, e).control.phase == s.control.phase
    ensures s.control.phase == Closed ==> s.calls.forceHook == 0
  {
    var events :| Run(cfg, FRESH, events) == s;
    ReachableInv(cfg, events);
    StepIsAllowed(cfg, s, e);
    NoTodo();
  }

  lemma StepIsAllowed(cfg: Config, s: State, e: Event)
    requires Inv(s)
    ensures Allowed(s.control.phase, Step(cfg, s, e).control.phase)
  {
    hide Arms, Closes;
    assert Transition(Running, Trigger) == (Draining, BeginGraceful);
    assert Transition(Running, ForceNow) == (Forced, Force) && Transition(Draining, ForceNow) == (Forced, Force);
    assert Transition(Draining, MarkClosed) == (Closed, Close);
  }

  /** A request is the table's trigger, and a force its `force-now`: they do to the phase exactly
      what the table says. */
  lemma {:induction false} RequestsFollowTheTable(cfg: Config, s: State, sigint: bool)
    ensures Step(cfg, s, Requested(sigint)).control.phase == Transition(s.control.phase, Trigger).0
    ensures Step(cfg, s, Forces).control.phase == Transition(s.control.phase, ForceNow).0
    ensures !s.control.disposed ==>
        Step(cfg, s, Signalled(sigint)).control.phase == Transition(s.control.phase, Trigger).0
  {
  }

  lemma Then(cfg: Config, s: State, events: seq<Event>, e: Event)
    ensures Run(cfg, s, events + [e]) == Step(cfg, Run(cfg, s, events), e)
  {
    assert (events + [e])[..|events|] == events;
  }

  // ---------------------------------------------------------------- the deadline

  /** The first disposal came when the deadline of the drain was armed. A disposal before that, or
      a second one, does not count. */
  ghost predicate DropsDeadline(cfg: Config, events: seq<Event>)
    decreases |events|
  {
    events != [] &&
    var before := events[..|events| - 1];
    DropsDeadline(cfg, before) ||
    (events[|events| - 1] == Disposed && Disposed !in before && Run(cfg, FRESH, before).calls.pre == 1)
  }

  /** What the events of a run say about disposal and deadline, until the drain is over. */
  ghost predicate DeadlineHistory(cfg: Config, events: seq<Event>) {
    var s := Run(cfg, FRESH, events);
    (s.calls.pre == 0 ==> !DropsDeadline(cfg, events)) &&
    (s.control.phase == Running || s.control.phase == Draining ==> (s.control.disposed <==> Disposed in events)) &&
    (s.control.phase == Draining && s.calls.pre == 1 ==> (s.control.timer <==> !DropsDeadline(cfg, events)))
  }

  lemma {:induction false} HistoryHolds(cfg: Config, events: seq<Event>)
    ensures DeadlineHistory(cfg, events)
    decreases |events|
  {
    if events != [] {
      var before, e := events[..|events| - 1], events[|events| - 1];
      HistoryHolds(cfg, before);
      ReachableInv(cfg, before);
      var s := Run(cfg, FRESH, before);
      assert events == before + [e];
      hide Run;
      if e == Disposed { } else if e == Goes { GoesKeepsDeadline(cfg, s); } else { OthersKeepDeadline(cfg, s, e); }
    }
  }

  lemma GoesKeepsDeadline(cfg: Config, s: State)
    requires Inv(s)
    ensures
      var next := Step(cfg, s, Goes);
      s.calls.pre <= next.calls.pre <= 1 && next.control.disposed == s.control.disposed &&
      next.control.phase == s.control.phase &&
      (next.calls.pre == 1 ==> if s.calls.pre == 0 then next.control.timer else next.control.timer == s.control.timer)
  {
    hide Closes;
    if s.todo != [] {
      var init, last := s.todo[..|s.todo| - 1], s.todo[|s.todo| - 1];
      assert s.todo == init + [last];
      Pushed(init, last);
    }
  }

  lemma OthersKeepDeadline(cfg: Config, s: State, e: Event)
    requires Inv(s) && e != Disposed && e != Goes
    ensures
      var next := Step(cfg, s, e);
      next.calls.pre == s.calls.pre &&
      (next.control.phase == Running ==> s.control.phase == Running && next.control.disposed == s.control.disposed) &&
      (next.control.phase == Draining ==>
         next.control.disposed == s.control.disposed &&
         (next.calls.pre == 1 ==> s.control.phase == Draining && next.control.timer == s.control.timer))
  {
    hide Closes;
    NoTodo();
  }

  /** What the deadline sets off: the force, its hook, and its flush, each until its own deadline. */
  const DEADLINE := [TimerFires] + [Goes] + [ForceGoes] + [ForceGoes]

  /** Whatever the servers and hooks do, the deadline ends a drain, and the deadlines of its two
      waits the forced shutdown, exactly when no first disposal came after the deadline was armed.
      A controller that was disposed of before its drain arms the deadline all the same. */
  lemma {:induction false} DeadlineCloses(cfg: Config, events: seq<Event>)
    requires Run(cfg, FRESH, events).todo == [] && Run(cfg, FRESH, events).control.phase == Draining
    ensures Run(cfg, Run(cfg, FRESH, events), DEADLINE).resolved == [Forced] <==> !DropsDeadline(cfg, events)
  {
    var s := Run(cfg, FRESH, events);
    ReachableInv(cfg, events);
    NoTodo();
    HistoryHolds(cfg, events);
    assert Run(cfg, s, []) == s;
    assert [] + [TimerFires] == [TimerFires];
    Then(cfg, s, [], TimerFires);
    Then(cfg, s, [TimerFires], Goes);
    Then(cfg, s, [TimerFires] + [Goes], ForceGoes);
    Then(cfg, s, [TimerFires] + [Goes] + [ForceGoes], ForceGoes);
    hide Run, DropsDeadline;
    if s.control.timer { ForcedCloses(cfg, s); } else { IdleDrainWaits(cfg, s); }
  }

  lemma ForcedCloses(cfg: Config, s: State)
    requires s.todo == [] && s.control.phase == Draining && s.control.timer && s.resolved == []
    ensures
      var forced := Step(cfg, Step(cfg, s, TimerFires), Goes);
      Step(cfg, Step(cfg, forced, ForceGoes), ForceGoes).resolved == [Forced]
  {
    var announced := Step(cfg, s, TimerFires);
    assert announced.todo == [CloseAll];
    var forced := Step(cfg, announced, Goes);
    assert forced.todo == [] && forced.forceRun == ForceHook && forced.resolved == [];
    var flushed := Step(cfg, forced, ForceGoes);
    assert flushed.todo == [] && flushed.forceRun == ForceFlush && flushed.resolved == [];
  }

  /** A drain without a deadline: the signals and the end of stdin are off as well. */
  ghost predicate Idle(s: State) {
    s.todo == [] && s.control.phase == Draining && !s.control.timer && s.control.disposed && !s.control.listening &&
    s.forceRun == NotForced && s.resolved == []
  }

  lemma IdleStays(cfg: Config, s: State, e: Event)
    requires Idle(s) && !e.Requested? && !e.Forces? && !e.GracefulGoes?
    ensures Idle(Step(cfg, s, e))
  {
  }

  lemma IdleDrainWaits(cfg: Config, s: State)
    requires Inv(s) && s.todo == [] && s.control.phase == Draining && !s.control.timer
    ensures Idle(s)
    ensures
      var forced := Step(cfg, Step(cfg, s, TimerFires), Goes);
      Step(cfg, Step(cfg, forced, ForceGoes), ForceGoes).resolved == []
  {
    NoTodo();
    hide Step;
    IdleStays(cfg, s, TimerFires);
    IdleStays(cfg, Step(cfg, s, TimerFires), Goes);
    var forced := Step(cfg, Step(cfg, s, TimerFires), Goes);
    IdleStays(cfg, forced, ForceGoes);
    IdleStays(cfg, Step(cfg, forced, ForceGoes), ForceGoes);
  }

  /** Once the deadline is dropped nothing ends the drain but its own servers, hooks and flush
      (`GracefulGoes`) and a call of `requestGraceful` or `force`: no timer, signal, end of stdin or
      further disposal does. */
  lemma {:induction false} DroppedDeadlineWaits(cfg: Config, events: seq<Event>, more: seq<Event>)
    requires Run(cfg, FRESH, events).todo == [] && Run(cfg, FRESH, events).control.phase == Draining &&
        DropsDeadline(cfg, events)
    requires forall e :: e in more ==> !e.Requested? && !e.Forces? && !e.GracefulGoes?
    ensures
      var s := Run(cfg, Run(cfg, FRESH, events), more);
      s.resolved == [] && s.control.phase == Draining
  {
    ReachableInv(cfg, events);
    HistoryHolds(cfg, events);
    NoTodo();
    IdleDrainWaits(cfg, Run(cfg, FRESH, events));
    IdleForever(cfg, Run(cfg, FRESH, events), more);
  }

  lemma {:induction false} IdleForever(cfg: Config, s: State, events: seq<Event>)
    requires Idle(s) && forall e :: e in events ==> !e.Requested? && !e.Forces? && !e.GracefulGoes?
    ensures Idle(Run(cfg, s, events))
    decreases |events|
  {
    if events != [] {
      IdleForever(cfg, s, events[..|events| - 1]);
      IdleStays(cfg, Run(cfg, s, events[..|events| - 1]), events[|events| - 1]);
    }
  }

  /** One run of each kind: a disposal while draining drops the deadline, one before the drain
      does not, not even when it is repeated. */
  lemma BothHappen(cfg: Config)
    ensures DropsDeadline(cfg, [Requested(false)] + [Goes] + [Disposed])
    ensures !DropsDeadline(cfg, [Disposed] + [Requested(false)] + [Goes] + [Disposed])
    ensures
      var s, t := Run(cfg, FRESH, [Requested(false)] + [Goes] + [Disposed]),
                  Run(cfg, FRESH, [Disposed] + [Requested(false)] + [Goes] + [Disposed]);
      s.todo == t.todo == [] && s.control.phase == t.control.phase == Draining
  {
    assert Run(cfg, FRESH, []) == FRESH && [] + [Requested(false)] == [Requested(false)] &&
      [] + [Disposed] == [Disposed];
    Then(cfg, FRESH, [], Requested(false));
    Then(cfg, FRESH, [Requested(false)], Goes);
    Then(cfg, FRESH, [Requested(false)] + [Goes], Disposed);
    Last([Requested(false)] + [Goes], Disposed);
    Then(cfg, FRESH, [], Disposed);
    Then(cfg, FRESH, [Disposed], Requested(false));
    Then(cfg, FRESH, [Disposed] + [Requested(false)], Goes);
    Then(cfg, FRESH, [Disposed] + [Requested(false)] + [Goes], Disposed);
    Last([], Disposed);
    assert !DropsDeadline(cfg, [Disposed]);
    Last([Disposed], Requested(false));
    assert !DropsDeadline(cfg, [Disposed] + [Requested(false)]);
    Last([Disposed] + [Requested(false)], Goes);
    assert !DropsDeadline(cfg, [Disposed] + [Requested(false)] + [Goes]);
    Last([Disposed] + [Requested(false)] + [Goes], Disposed);
    assert ([Disposed] + [Requested(false)] + [Goes])[0] == Disposed;
  }

  lemma Last(events: seq<Event>, e: Event)
    ensures (events + [e])[..|events|] == events && (events + [e])[|events|] == e
  {
  }
}
