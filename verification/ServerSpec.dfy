/** The Node server shutdown of `src/server-lifecycle.ts` as a state machine, beside the transition
    table that the same file offers to other adapters. Hooks, servers, logger and flush are the
    environment. The logger may call back while a phase change is being announced; `todo` keeps what
    the interrupted code still has to do. */
module ServerSpec {
  datatype Phase = Running | Draining | Forced | Closed

  // ---------------------------------------------------------------- the transition table

  datatype ModelEvent = Trigger | ForceNow | MarkClosed
  datatype Action = BeginGraceful | Force | Close | Ignore

  /** `transitionShutdownState`: pairs that are not listed are ignored. */
  function Transition(p: Phase, e: ModelEvent): (Phase, Action) {
    match (p, e)
    case (Running, Trigger) => (Draining, BeginGraceful)
    case (Draining, Trigger) => (Forced, Force)
    case (Running, ForceNow) => (Forced, Force)
    case (Draining, ForceNow) => (Forced, Force)
    case (Draining, MarkClosed) => (Closed, Close)
    case _ => (p, Ignore)
  }

  // ---------------------------------------------------------------- state

  /** `Arm` and `CloseAll` are the rest of `requestGraceful` and of `force` after the announcement. */
  datatype Todo = Arm(sigint: bool) | CloseAll

  /** The asynchronous parts: what each is waiting for. */
  datatype Graceful = NotBegun | PreHook | Servers | GracefulFlush | PostHook | GracefulOver
  datatype ForceRun = NotForced | ForceHook | ForceFlush | ForceOver

  /** `listening`: the end of stdin is listened for. A disposal stops that, and takes the signal
      handlers and the deadline away, but only the first disposal, and only what is there by then. */
  datatype Control = Control(phase: Phase, timer: bool, disposed: bool, eofArmed: bool, listening: bool)

  /** How often each callback was started; `flushing` while the flush is under way. */
  datatype Calls = Calls(pre: nat, post: nat, forceHook: nat, flush: nat, flushing: bool)

  datatype State = State(control: Control, calls: Calls, graceful: Graceful, forceRun: ForceRun, todo: seq<Todo>,
    resolved: seq<Phase>)

  /** `watchEof`: stdin is an interactive terminal that is watched. */
  datatype Config = Config(watchEof: bool)

  const FRESH := State(Control(Running, false, false, false, false), Calls(0, 0, 0, 0, false), NotBegun, NotForced, [],
    [])

  // ---------------------------------------------------------------- the closures

  function ForceShutdown(s: State): State {
    if s.control.phase == Forced || s.control.phase == Closed then s
    else s.(control := s.control.(phase := Forced, timer := false), todo := s.todo + [CloseAll])
  }

  function RequestGraceful(s: State, sigint: bool): State {
    if s.control.phase == Draining then ForceShutdown(s)
    else if s.control.phase != Running then s
    else s.(control := s.control.(phase := Draining), todo := s.todo + [Arm(sigint)])
  }

  /** `onSigint` and `onSigterm`; the handlers are off after a disposal. */
  function Signal(s: State, sigint: bool): State {
    if s.control.disposed then s
    else if s.control.phase == Running then RequestGraceful(s, sigint)
    else if s.control.phase == Draining then ForceShutdown(s)
    else s
  }

  function StdinEnd(s: State): State {
    if s.control.listening && s.control.phase == Draining then ForceShutdown(s) else s
  }

  function Cleanup(s: State): State {
    if s.control.disposed then s else s.(control := s.control.(disposed := true, timer := false, listening := false))
  }

  function Finish(s: State, final: Phase): State {
    if s.resolved != [] then s else Cleanup(s.(control := s.control.(phase := final))).(resolved := [final])
  }

  /** `flushOnce`. */
  function FlushOnce(s: State): State {
    if s.calls.flush > 0 then s else s.(calls := s.calls.(flush := 1, flushing := true))
  }

  function Proceed(cfg: Config, s: State): State {
    if s.todo == [] then s
    else
      var rest := s.(todo := s.todo[..|s.todo| - 1]);
      match s.todo[|s.todo| - 1]
      case Arm(sigint) =>
        var arms := sigint && cfg.watchEof && !rest.control.eofArmed;
        rest.(control := rest.control.(timer := true, eofArmed := rest.control.eofArmed ||
        arms, listening := rest.control.listening || arms),
              graceful := PreHook, calls := rest.calls.(pre := rest.calls.pre + 1))
      case CloseAll => rest.(forceRun := ForceHook, calls := rest.calls.(forceHook := rest.calls.forceHook + 1))
  }

  /** The graceful part goes on after what it waits for; `failed` says whether a server failed to
      close. */
  function GracefulNext(s: State, failed: bool): State {
    var over := s.(graceful := GracefulOver);
    match s.graceful
    case PreHook => if s.control.phase == Draining then s.(graceful := Servers) else over
    case Servers =>
      if s.control.phase != Draining then over else if failed then ForceShutdown(over)
        else FlushOnce(s.(graceful := GracefulFlush))
    case GracefulFlush =>
      if s.calls.flushing then s
      else if s.control.phase != Draining then over
      else s.(graceful := PostHook, calls := s.calls.(post := s.calls.post + 1))
    case PostHook => if s.control.phase == Draining then Finish(over, Closed) else over
    case _ => s
  }

  /** The forced part goes on when what it waits for is done or its deadline has passed. */
  function ForceNext(s: State): State {
    match s.forceRun
    case ForceHook => FlushOnce(s.(forceRun := ForceFlush))
    case ForceFlush => Finish(s.(forceRun := ForceOver), Forced)
    case _ => s
  }

  // ---------------------------------------------------------------- runs

  datatype Event =
    | Requested(sigint: bool)
    | Forces
    | Signalled(sigint: bool)
    | StdinEnds
    | TimerFires
    | Disposed
    | Goes
    | GracefulGoes(failed: bool)
    | ForceGoes
    | FlushSettles

  function Step(cfg: Config, s: State, e: Event): State {
    match e
    case Requested(sigint) => RequestGraceful(s, sigint)
    case Forces => ForceShutdown(s)
    case Signalled(sigint) => Signal(s, sigint)
    case StdinEnds => StdinEnd(s)
    case TimerFires =>
      if s.todo == [] && s.control.timer then ForceShutdown(s.(control := s.control.(timer := false))) else s
    case Disposed => Cleanup(s)
    case Goes => Proceed(cfg, s)
    case GracefulGoes(failed) => if s.todo == [] then GracefulNext(s, failed) else s
    case ForceGoes => if s.todo == [] then ForceNext(s) else s
    case FlushSettles => s.(calls := s.calls.(flushing := false))
  }

  function Run(cfg: Config, s: State, events: seq<Event>): State
    decreases |events|
  {
    if events == [] then s else Step(cfg, Run(cfg, s, events[..|events| - 1]), events[|events| - 1])
  }

  ghost predicate Reachable(cfg: Config, s: State) {
    exists events :: Run(cfg, FRESH, events) == s
  }

  // ---------------------------------------------------------------- invariant

  /** How many continuations of each kind are open: at most one `Arm`, and above it one `CloseAll`. */
  function Arms(todo: seq<Todo>): nat { multiset(todo)[Arm(true)] + multiset(todo)[Arm(false)] }

  function Closes(todo: seq<Todo>): nat { multiset(todo)[CloseAll] }

  ghost predicate GracefulInv(s: State) {
    Arms(s.todo) + s.calls.pre <= 1 && (s.calls.pre == 0 <==> s.graceful == NotBegun) &&
    (s.control.phase == Running ==> s.todo == [] && s.calls.pre == 0 && !s.control.timer) &&
    (s.control.phase == Draining ==> Arms(s.todo) + s.calls.pre == 1) &&
    s.calls.post <= 1 && (s.calls.post == 1 ==> s.graceful == PostHook || s.graceful == GracefulOver) &&
    (s.graceful == GracefulFlush || s.graceful == PostHook ==> s.calls.flush == 1)
  }

  ghost predicate ForceInv(s: State) {
    Closes(s.todo) + s.calls.forceHook == (if s.control.phase == Forced then 1 else 0) &&
    (s.calls.forceHook == 0 <==> s.forceRun == NotForced) &&
    (s.forceRun == ForceFlush || s.forceRun == ForceOver ==> s.calls.flush == 1) &&
    (s.forceRun == ForceOver <==> s.control.phase == Forced && s.resolved != [])
  }

  ghost predicate EndInv(s: State) {
    s.calls.flush <= 1 && |s.resolved| <= 1 &&
    (s.resolved != [] ==> s.resolved[0] == s.control.phase && s.control.disposed && s.calls.flush == 1) &&
    (s.control.phase == Closed ==> s.resolved != [] && s.graceful == GracefulOver && s.todo == []) &&
    (s.resolved != [] ==> s.control.phase == Forced || s.control.phase == Closed)
  }

  /** While draining the deadline is armed, unless the controller was disposed of since. */
  ghost predicate DeadlineInv(s: State) {
    (s.control.phase == Draining && s.calls.pre == 1 && !s.control.timer ==>
      s.control.disposed && !s.control.listening) &&
    (s.calls.pre == 0 ==> !s.control.timer) && (s.control.phase == Draining ==> s.resolved == [])
  }

  ghost predicate Inv(s: State) { GracefulInv(s) && ForceInv(s) && EndInv(s) && DeadlineInv(s) }

  lemma Pushed(todo: seq<Todo>, t: Todo)
    ensures Arms(todo + [t]) == Arms(todo) + if t.Arm? then 1 else 0
    ensures Closes(todo + [t]) == Closes(todo) + if t.CloseAll? then 1 else 0
  {
    assert multiset(todo + [t]) == multiset(todo) + multiset{t};
  }

  lemma ForceKeeps(s: State)
    requires Inv(s)
    ensures Inv(ForceShutdown(s))
  {
    hide Arms, Closes;
    Pushed(s.todo, CloseAll);
  }

  lemma RequestKeeps(s: State, sigint: bool)
    requires Inv(s)
    ensures Inv(RequestGraceful(s, sigint))
  {
    hide Arms, Closes;
    ForceKeeps(s);
    NoTodo();
    Pushed(s.todo, Arm(sigint));
  }

  lemma NoTodo()
    ensures Arms([]) == 0 && Closes([]) == 0
  {
  }

  lemma ProceedKeeps(cfg: Config, s: State)
    requires Inv(s)
    ensures Inv(Proceed(cfg, s))
  {
    hide Arms, Closes;
    if s.todo != [] {
      var init := s.todo[..|s.todo| - 1];
      Pushed(init, s.todo[|s.todo| - 1]);
      assert s.todo == init + [s.todo[|s.todo| - 1]];
    }
  }

  lemma TimerKeeps(cfg: Config, s: State)
    requires Inv(s)
    ensures Inv(Step(cfg, s, TimerFires))
  {
    hide Arms, Closes;
    NoTodo();
    assert [] + [CloseAll] == [CloseAll];
    Pushed([], CloseAll);
  }

  lemma GracefulKeeps(s: State, failed: bool)
    requires Inv(s) && s.todo == []
    ensures Inv(GracefulNext(s, failed))
  {
    hide Arms, Closes;
    NoTodo();
    assert [] + [CloseAll] == [CloseAll];
    Pushed([], CloseAll);
  }

  lemma ForceNextKeeps(s: State)
    requires Inv(s) && s.todo == []
    ensures Inv(ForceNext(s))
  {
    hide Arms, Closes;
    NoTodo();
  }

  lemma StepKeeps(cfg: Config, s: State, e: Event)
    requires Inv(s)
    ensures Inv(Step(cfg, s, e))
  {
    match e
    case Requested(sigint) => RequestKeeps(s, sigint);
    case Forces => ForceKeeps(s);
    case Signalled(sigint) => RequestKeeps(s, sigint); ForceKeeps(s);
    case StdinEnds => ForceKeeps(s);
    case TimerFires => TimerKeeps(cfg, s);
    case Disposed =>
    case Goes => ProceedKeeps(cfg, s);
    case GracefulGoes(failed) => if s.todo == [] { GracefulKeeps(s, failed); }
    case ForceGoes => if s.todo == [] { ForceNextKeeps(s); }
    case FlushSettles =>
  }

  lemma {:induction false} ReachableInv(cfg: Config, events: seq<Event>)
    ensures Inv(Run(cfg, FRESH, events))
    decreases |events|
  {
    if events == [] { NoTodo(); } else {
      ReachableInv(cfg, events[..|events| - 1]);
      StepKeeps(cfg, Run(cfg, FRESH, events[..|events| - 1]), events[|events| - 1]);
    }
  }
}
