/** The two-phase shutdown coordinator of `src/shutdown.ts` as a state machine. The callbacks are the
    environment: they may settle in any way and at any time, and observers and callbacks may call
    `request` again while the coordinator is in the middle of a synchronous stretch. What such a
    stretch still has to do is kept in `todo`, innermost call last. */
module CoordinatorSpec {
  datatype Phase = Running | Draining | Forcing | Stopped

  /** What is left to do after an observer has been told. */
  datatype Todo = CallDrain | CallForce | Escalate | FinishForced

  /** How often a callback was called, and whether its promise is outstanding. */
  datatype Job = Job(started: nat, pending: bool)

  datatype Stage = NotFinished | Observers | Flushing | Complete

  datatype Report = Report(forced: bool, triggers: seq<string>, errors: nat)

  datatype Control = Control(phase: Phase, forced: bool, timer: bool, finished: bool, stage: Stage)

  datatype Jobs = Jobs(drain: Job, force: Job, flush: Job)

  /** `resolved` are the values the completion promise was resolved with. */
  datatype State = State(
    control: Control, jobs: Jobs, todo: seq<Todo>, triggers: seq<string>, errors: nat, resolved: seq<Report>)

  /** `attempt` is the number of triggers. */
  function Attempt(s: State): nat { |s.triggers| }

  datatype Config = Config(hasFlush: bool)

  const FRESH :=
    State(Control(Running, false, false, false, NotFinished), Jobs(Job(0, false), Job(0, false), Job(0, false)), [],
      [], 0, [])

  // ---------------------------------------------------------------- the methods

  function BeginDrain(s: State): State {
    if s.control.phase != Running then s else s.(control := s.control.(phase := Draining), todo := s.todo + [CallDrain])
  }

  function BeginForce(s: State): State {
    if s.control.phase == Forcing || s.control.phase == Stopped then s
    else s.(control := s.control.(phase := Forcing, forced := true, timer := false), todo := s.todo + [CallForce])
  }

  function Request(s: State, trigger: string, force: bool): State {
    if s.control.finished then s
    else
      var t := s.(triggers := s.triggers + [trigger]);
      if t.control.phase == Running && !force then BeginDrain(t)
      else if t.control.phase == Draining || force then BeginForce(t)
      else t
  }

  function Finish(s: State, forced: bool): State {
    if s.control.finished || (!forced && s.control.phase != Draining) || (forced && s.control.phase != Forcing) then s
    else s.(control := s.control.(phase := Stopped, timer := false, finished := true, stage := Observers))
  }

  /** A callback is called; if it throws, no promise is left. */
  function Started(job: Job, throws: bool): Job { Job(job.started + 1, !throws) }

  /** The synchronous stretch goes on after an observer returned. */
  function Proceed(s: State, throws: bool): State {
    if s.todo == [] then s
    else
      var rest := s.(todo := s.todo[..|s.todo| - 1]);
      match s.todo[|s.todo| - 1]
      case CallDrain => rest.(control := rest.control.(timer := true),
        jobs := rest.jobs.(drain := Started(rest.jobs.drain, throws)))
      case CallForce => rest.(jobs := rest.jobs.(force := Started(rest.jobs.force, throws)))
      case Escalate => BeginForce(rest)
      case FinishForced => Finish(rest, true)
  }

  function DrainSettled(s: State, ok: bool): State {
    var t := s.(jobs := s.jobs.(drain := s.jobs.drain.(pending := false)),
      errors := if ok then s.errors else s.errors + 1);
    if t.control.phase != Draining then t else if ok then Finish(t, false) else t.(todo := t.todo + [Escalate])
  }

  /** After a failure the phase is set again before the observer is told. */
  function ForceSettled(s: State, ok: bool): State {
    var t := s.(jobs := s.jobs.(force := s.jobs.force.(pending := false)));
    if ok then Finish(t, true)
    else t.(errors := t.errors + 1, control := t.control.(phase := Forcing), todo := t.todo + [FinishForced])
  }

  function Resolve(s: State): State {
    s.(control := s.control.(stage := Complete),
      resolved := s.resolved + [Report(s.control.forced, s.triggers, s.errors)])
  }

  function ObserversSettled(cfg: Config, s: State): State {
    if cfg.hasFlush then s.(control := s.control.(stage := Flushing),
      jobs := s.jobs.(flush := Started(s.jobs.flush, false)))
    else Resolve(s)
  }

  /** The flush ended, failed, or exceeded its deadline. */
  function FlushSettled(s: State, ok: bool): State {
    Resolve(s.(jobs := s.jobs.(flush := s.jobs.flush.(pending := false)),
      errors := if ok then s.errors else s.errors + 1))
  }

  // ---------------------------------------------------------------- runs

  datatype Event =
    | Requested(trigger: string, force: bool)
    | Goes(throws: bool)
    | TimerFires
    | DrainSettles(ok: bool)
    | ForceSettles(ok: bool)
    | ObserversSettle
    | FlushSettles(ok: bool)

  /** Promises and timers act only between synchronous stretches. */
  function Step(cfg: Config, s: State, e: Event): State {
    match e
    case Requested(trigger, force) => Request(s, trigger, force)
    case Goes(throws) => Proceed(s, throws)
    case TimerFires =>
      if s.todo == [] && s.control.timer then Request(s.(control := s.control.(timer := false)), "timeout", true) else s
    case DrainSettles(ok) => if s.todo == [] && s.jobs.drain.pending then DrainSettled(s, ok) else s
    case ForceSettles(ok) => if s.todo == [] && s.jobs.force.pending then ForceSettled(s, ok) else s
    case ObserversSettle => if s.todo == [] && s.control.stage == Observers then ObserversSettled(cfg, s) else s
    case FlushSettles(ok) => if s.todo == [] && s.control.stage == Flushing then FlushSettled(s, ok) else s
  }

  function Run(cfg: Config, s: State, events: seq<Event>): State
    decreases |events|
  {
    if events == [] then s else Step(cfg, Run(cfg, s, events[..|events| - 1]), events[|events| - 1])
  }

  ghost predicate Reachable(cfg: Config, s: State) {
    exists events :: Run(cfg, FRESH, events) == s
  }

  // ---------------------------------------------------------------- invariant

  function Rank(p: Phase): nat {
    match p
    case Running => 0
    case Draining => 1
    case Forcing => 2
    case Stopped => 3
  }

  function Count(todo: seq<Todo>, t: Todo): nat { multiset(todo)[t] }

  /** A callback is called once, or its call is still to come, exactly when its phase was entered. */
  ghost predicate CallsInv(s: State) {
    s.jobs.drain.started + Count(s.todo, CallDrain) <= 1 &&
    s.jobs.force.started + Count(s.todo, CallForce) == (if s.control.forced then 1 else 0) &&
    (s.control.phase == Running ==> s.jobs.drain.started == 0 && s.todo == []) &&
    (s.control.phase == Draining ==> s.jobs.drain.started + Count(s.todo, CallDrain) == 1) &&
    (s.jobs.drain.pending ==> s.jobs.drain.started == 1) && (s.jobs.force.pending ==> s.jobs.force.started == 1)
  }

  ghost predicate PhaseInv(s: State) {
    var c := s.control;
    (c.phase == Forcing ==> c.forced) && (c.forced ==> c.phase == Forcing || c.phase == Stopped) &&
    (c.finished <==> c.phase == Stopped) && (c.stage == NotFinished <==> !c.finished) &&
    (c.finished ==> s.todo == [] && !s.jobs.force.pending && !c.timer) && (c.phase == Running ==> !c.timer)
  }

  /** The first request leaves the running phase, the second forces. */
  ghost predicate AttemptInv(s: State) {
    (s.control.phase == Running <==> Attempt(s) == 0) &&
    (Attempt(s) >= 2 ==> s.control.phase == Forcing || s.control.phase == Stopped)
  }

  /** While draining the deadline is armed, or about to be. A force in progress has its promise, or
      its call or its end still to come, or it threw. */
  ghost predicate ProgressInv(s: State) {
    (s.control.phase == Draining ==> s.control.timer || CallDrain in s.todo) &&
    (FinishForced in s.todo ==> s.todo == [FinishForced] && s.control.phase == Forcing && !s.jobs.force.pending) &&
    (!s.control.forced && s.control.finished ==> s.jobs.drain.started == 1)
  }

  ghost predicate EndInv(cfg: Config, s: State) {
    var stage := s.control.stage;
    s.jobs.flush.started == (if cfg.hasFlush && (stage == Flushing || stage == Complete) then 1 else 0) &&
    s.jobs.flush.pending == (stage == Flushing) && (stage == Flushing ==> cfg.hasFlush) &&
    (if stage == Complete then
       |s.resolved| == 1 && s.resolved[0].forced == s.control.forced && s.resolved[0].triggers == s.triggers
     else s.resolved == [])
  }

  ghost predicate Core(cfg: Config, s: State) { CallsInv(s) && PhaseInv(s) && ProgressInv(s) && EndInv(cfg, s) }

  ghost predicate Inv(cfg: Config, s: State) { Core(cfg, s) && AttemptInv(s) }

  lemma Pushed(todo: seq<Todo>, t: Todo, u: Todo)
    ensures Count(todo + [t], u) == Count(todo, u) + if t == u then 1 else 0
    ensures u in todo + [t] <==> u in todo || u == t
  {
  }

  lemma Popped(todo: seq<Todo>, u: Todo)
    requires todo != []
    ensures
      var init, last := todo[..|todo| - 1], todo[|todo| - 1];
      Count(todo, u) == Count(init, u) + (if last == u then 1 else 0) && (u in todo <==> u in init || u == last)
  {
    assert todo == todo[..|todo| - 1] + [todo[|todo| - 1]];
  }

  lemma Counted(todo: seq<Todo>, t: Todo)
    ensures t in todo <==> Count(todo, t) > 0
  {
  }

  lemma BeginForceKeeps(cfg: Config, s: State)
    requires Core(cfg, s)
    ensures Core(cfg, BeginForce(s))
  {
    hide Count;
    Pushed(s.todo, CallForce, CallDrain);
    Pushed(s.todo, CallForce, CallForce);
    Pushed(s.todo, CallForce, FinishForced);
  }

  lemma BeginDrainKeeps(cfg: Config, s: State)
    requires Core(cfg, s)
    ensures Core(cfg, BeginDrain(s))
  {
    hide Count;
    Pushed(s.todo, CallDrain, CallDrain);
    Pushed(s.todo, CallDrain, CallForce);
    Pushed(s.todo, CallDrain, FinishForced);
    Counted(s.todo, CallDrain);
  }

  lemma FinishKeeps(cfg: Config, s: State, forced: bool)
    requires Core(cfg, s) && s.todo == [] && !s.jobs.force.pending
    ensures Core(cfg, Finish(s, forced))
  {
    Counted([], CallDrain);
  }

  lemma RequestKeeps(cfg: Config, s: State, trigger: string, force: bool)
    requires Inv(cfg, s)
    ensures Inv(cfg, Request(s, trigger, force))
  {
    hide Count;
    if !s.control.finished {
      var t := s.(triggers := s.triggers + [trigger]);
      assert Core(cfg, t);
      BeginDrainKeeps(cfg, t);
      BeginForceKeeps(cfg, t);
    }
  }

  lemma ProceedKeeps(cfg: Config, s: State, throws: bool)
    requires Inv(cfg, s)
    ensures Inv(cfg, Proceed(s, throws))
  {
    hide Count;
    if s.todo != [] {
      Popped(s.todo, CallDrain);
      Popped(s.todo, CallForce);
      Popped(s.todo, FinishForced);
      Counted(s.todo, CallDrain);
      Counted(s.todo, CallForce);
      var rest := s.(todo := s.todo[..|s.todo| - 1]);
      match s.todo[|s.todo| - 1]
      case CallDrain =>
      case CallForce =>
      case Escalate => assert Core(cfg, rest); BeginForceKeeps(cfg, rest);
      case FinishForced => assert Core(cfg, rest); FinishKeeps(cfg, rest, true);
    }
  }

  lemma DrainSettledKeeps(cfg: Config, s: State, ok: bool)
    requires Inv(cfg, s) && s.todo == [] && s.jobs.drain.pending
    ensures Inv(cfg, DrainSettled(s, ok))
  {
    hide Count;
    Pushed([], Escalate, CallDrain);
    Pushed([], Escalate, CallForce);
    Pushed([], Escalate, FinishForced);
    assert [] + [Escalate] == [Escalate];
    var t := s.(jobs := s.jobs.(drain := s.jobs.drain.(pending := false)),
      errors := if ok then s.errors else s.errors + 1);
    assert Core(cfg, t);
    if t.control.phase == Draining && ok { FinishKeeps(cfg, t, false); }
  }

  lemma ForceSettledKeeps(cfg: Config, s: State, ok: bool)
    requires Inv(cfg, s) && s.todo == [] && s.jobs.force.pending
    ensures Inv(cfg, ForceSettled(s, ok))
  {
    hide Count;
    Pushed([], FinishForced, CallDrain);
    Pushed([], FinishForced, CallForce);
    assert [] + [FinishForced] == [FinishForced];
    var t := s.(jobs := s.jobs.(force := s.jobs.force.(pending := false)));
    assert Core(cfg, t);
    if ok { FinishKeeps(cfg, t, true); }
  }

  lemma EndKeeps(cfg: Config, s: State, e: Event)
    requires Inv(cfg, s) && (e.ObserversSettle? || e.FlushSettles?)
    ensures Inv(cfg, Step(cfg, s, e))
  {
    hide Count;
  }

  lemma StepKeeps(cfg: Config, s: State, e: Event)
    requires Inv(cfg, s)
    ensures Inv(cfg, Step(cfg, s, e))
  {
    match e
    case Requested(trigger, force) => RequestKeeps(cfg, s, trigger, force);
    case Goes(throws) => ProceedKeeps(cfg, s, throws);
    case TimerFires => if s.todo == [] && s.control.timer { TimerKeeps(cfg, s); }
    case DrainSettles(ok) => if s.todo == [] && s.jobs.drain.pending { DrainSettledKeeps(cfg, s, ok); }
    case ForceSettles(ok) => if s.todo == [] && s.jobs.force.pending { ForceSettledKeeps(cfg, s, ok); }
    case ObserversSettle => EndKeeps(cfg, s, e);
    case FlushSettles(_) => EndKeeps(cfg, s, e);
  }

  /** The deadline forces at once, so that it need not stay armed. */
  lemma TimerKeeps(cfg: Config, s: State)
    requires Inv(cfg, s) && s.todo == [] && s.control.timer
    ensures Inv(cfg, Request(s.(control := s.control.(timer := false)), "timeout", true))
  {
    hide Count;
    Pushed([], CallForce, CallDrain);
    Pushed([], CallForce, CallForce);
    Pushed([], CallForce, FinishForced);
    assert [] + [CallForce] == [CallForce];
  }

  lemma {:induction false} RunKeeps(cfg: Config, s: State, events: seq<Event>)
    requires Inv(cfg, s)
    ensures Inv(cfg, Run(cfg, s, events))
    decreases |events|
  {
    if events != [] {
      RunKeeps(cfg, s, events[..|events| - 1]);
      StepKeeps(cfg, Run(cfg, s, events[..|events| - 1]), events[|events| - 1]);
    }
  }

  lemma ReachableInv(cfg: Config, s: State)
    requires Reachable(cfg, s)
    ensures Inv(cfg, s)
  {
    var events :| Run(cfg, FRESH, events) == s;
    RunKeeps(cfg, FRESH, events);
  }
}
