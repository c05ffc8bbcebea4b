/** The internal diagnostics reporter of `src/internal-diagnostics.ts` as a state machine: one
    delivery at a time, everything else is counted in the next record. Sinks may call back. */
module ReporterSpec {
  import opened Common

  const MAX_COUNTER := 65_535

  datatype Phase = Idle | Reporting | Closing | Closed

  /** What became of one call of `report`. */
  datatype Status = Delivered(sink: nat) | SinksFailed | Suppressed | WasClosed | Rejected

  /** The two fields of a record that account for suppressed reports. */
  datatype Notice = Notice(suppressed: nat, saturated: bool)

  /** `waiting` counts calls of `close` that wait for the delivery. */
  datatype State = State(phase: Phase, suppressed: nat, saturated: bool, inFlight: bool, waiting: nat)

  /** What happened so far: every finished call, what each record said and how many calls were
      suppressed before it, and how many since the last one. */
  datatype History = History(calls: nat, ended: seq<Status>, notices: seq<Notice>, windows: seq<nat>, window: nat)

  datatype System = System(state: State, history: History)

  const FRESH := System(State(Idle, 0, false, false, 0), History(0, [], [], [], 0))

  function SaturatingIncrement(value: nat): (nat, bool) {
    if value >= MAX_COUNTER then (MAX_COUNTER, true) else (value + 1, false)
  }

  function AccountSuppressed(s: State): State {
    var next := SaturatingIncrement(s.suppressed);
    s.(suppressed := next.0, saturated := s.saturated || next.1)
  }

  /** The synchronous part of `report`; `valid` says whether the input is in order. */
  function Admit(y: System, valid: bool): System {
    var s, h := y.state, y.history.(calls := y.history.calls + 1);
    if s.phase == Closed then System(s, h.(ended := h.ended + [WasClosed]))
    else if s.phase != Idle then
      System(AccountSuppressed(s), h.(ended := h.ended + [Suppressed], window := h.window + 1))
    else if !valid then System(s, h.(ended := h.ended + [Rejected]))
    else
      System(State(Reporting, 0, false, true, s.waiting),
             h.(notices := h.notices + [Notice(s.suppressed, s.saturated)], windows := h.windows + [h.window],
               window := 0))
  }

  /** The delivery has an outcome and `report` runs its `finally`. */
  function Conclude(y: System, status: Status): System {
    System(y.state.(inFlight := false, phase := if y.state.phase == Closing then Closed else Idle),
           y.history.(ended := y.history.ended + [status]))
  }

  /** The synchronous part of `close`. */
  function Close(s: State): State {
    if s.phase == Closed then s
    else if s.phase == Idle then s.(phase := Closed)
    else s.(phase := Closing, waiting := s.waiting + 1)
  }

  /** `close` goes on after the delivery. */
  function Closes(s: State): State
    requires s.waiting > 0
  {
    s.(phase := Closed, waiting := s.waiting - 1)
  }

  datatype Event = Report(valid: bool) | Ends(delivered: Option<nat>) | CloseCall | CloseGoesOn

  /** The `finally` of `report` runs before any `close` that waits for the same promise goes on. */
  function Step(y: System, e: Event): System {
    match e
    case Report(valid) => Admit(y, valid)
    case Ends(delivered) =>
      if y.state.inFlight then Conclude(y, if delivered.Some? then Delivered(delivered.value) else SinksFailed) else y
    case CloseCall => y.(state := Close(y.state))
    case CloseGoesOn => if !y.state.inFlight && y.state.waiting > 0 then y.(state := Closes(y.state)) else y
  }

  function Run(y: System, events: seq<Event>): System
    decreases |events|
  {
    if events == [] then y else Step(Run(y, events[..|events| - 1]), events[|events| - 1])
  }

  // ---------------------------------------------------------------- invariant

  function Sum(values: seq<nat>): nat {
    if values == [] then 0 else Sum(values[..|values| - 1]) + values[|values| - 1]
  }

  function Count(statuses: seq<Status>): nat {
    if statuses == [] then 0 else Count(statuses[..|statuses| - 1]) + if statuses[|statuses| - 1] == Suppressed then 1
      else 0
  }

  function Deliveries(statuses: seq<Status>): nat {
    if statuses == [] then 0
    else Deliveries(statuses[..|statuses| - 1]) + if statuses[|statuses| - 1].Delivered? ||
      statuses[|statuses| - 1].SinksFailed? then 1 else 0
  }

  /** `window` calls were suppressed: this is how a record tells it. */
  predicate Tells(n: Notice, window: nat) {
    n.suppressed == (if window <= MAX_COUNTER then window else MAX_COUNTER) && (n.saturated <==> window > MAX_COUNTER)
  }

  ghost predicate Inv(y: System) {
    var s, h := y.state, y.history;
    (s.inFlight <==> s.phase == Reporting || s.phase == Closing) &&
    (s.waiting > 0 ==> s.phase == Closing || s.phase == Closed) &&
    h.calls == |h.ended| + (if s.inFlight then 1 else 0) && |h.notices| == |h.windows| &&
    |h.notices| == Deliveries(h.ended) + (if s.inFlight then 1 else 0) &&
    Tells(Notice(s.suppressed, s.saturated), h.window) && Sum(h.windows) + h.window == Count(h.ended) &&
    forall i :: 0 <= i < |h.notices| ==> Tells(h.notices[i], h.windows[i])
  }

  lemma Appended(ended: seq<Status>, status: Status, windows: seq<nat>, window: nat)
    ensures Count(ended + [status]) == Count(ended) + if status == Suppressed then 1 else 0
    ensures Deliveries(ended + [status]) == Deliveries(ended) + if status.Delivered? ||
        status.SinksFailed? then 1 else 0
    ensures Sum(windows + [window]) == Sum(windows) + window
  {
    assert (ended + [status])[..|ended|] == ended && (windows + [window])[..|windows|] == windows;
  }

  lemma StepKeeps(y: System, e: Event)
    requires Inv(y)
    ensures Inv(Step(y, e))
  {
    hide Sum, Count, Deliveries;
    var h := y.history;
    match e
    case Report(valid) =>
      var status :=
        if y.state.phase == Closed then WasClosed else if y.state.phase != Idle then Suppressed else Rejected;
      Appended(h.ended, status, h.windows, h.window);
    case Ends(delivered) =>
      Appended(h.ended, if delivered.Some? then Delivered(delivered.value) else SinksFailed, h.windows, 0);
    case CloseCall =>
    case CloseGoesOn =>
  }

  lemma {:induction false} RunKeeps(events: seq<Event>)
    ensures Inv(Run(FRESH, events))
    decreases |events|
  {
    if events != [] {
      RunKeeps(events[..|events| - 1]);
      StepKeeps(Run(FRESH, events[..|events| - 1]), events[|events| - 1]);
    }
  }

  // ---------------------------------------------------------------- theorems

  /** Main theorem: in every run, each call of `report` has exactly one outcome or is being delivered,
      there is one record per delivery, record `i` tells the calls suppressed before it exactly, or
      that there were more than it can tell, and no suppressed call is left out or told twice. */
  lemma {:induction false} EveryReportIsAccountedFor(events: seq<Event>)
    ensures
      var y := Run(FRESH, events);
      var h := y.history;
      h.calls == |h.ended| + (if y.state.inFlight then 1 else 0) &&
      |h.notices| == |h.windows| == Deliveries(h.ended) + (if y.state.inFlight then 1 else 0) &&
      (forall i :: 0 <= i < |h.notices| ==> Tells(h.notices[i], h.windows[i])) &&
      Sum(h.windows) + h.window == Count(h.ended) && Tells(Notice(y.state.suppressed, y.state.saturated), h.window)
  {
    RunKeeps(events);
  }

  /** Closed is for good, and a closing reporter can only become closed. */
  lemma {:induction false} ClosedIsForGood(events: seq<Event>, e: Event)
    ensures
      var before, after := Run(FRESH, events).state.phase, Step(Run(FRESH, events), e).state.phase;
      (before == Closed ==> after == Closed) && (before == Closing ==> after == Closing || after == Closed)
  {
    RunKeeps(events);
    hide Run, Sum, Count, Deliveries;
  }

  /** While nothing saturated, the counts in the records and the one to come add up to the suppressed
      calls. */
  lemma {:induction false} UnsaturatedCountsAreExact(events: seq<Event>)
    requires
      var y := Run(FRESH, events);
      !y.state.saturated && forall i :: 0 <= i < |y.history.notices| ==> !y.history.notices[i].saturated
    ensures
      var y := Run(FRESH, events);
      Told(y.history.notices) + y.state.suppressed == Count(y.history.ended)
  {
    RunKeeps(events);
    ToldIsSum(Run(FRESH, events).history.notices, Run(FRESH, events).history.windows);
  }

  function Told(notices: seq<Notice>): nat {
    if notices == [] then 0 else Told(notices[..|notices| - 1]) + notices[|notices| - 1].suppressed
  }

  lemma {:induction false} ToldIsSum(notices: seq<Notice>, windows: seq<nat>)
    requires |notices| == |windows|
    requires forall i :: 0 <= i < |notices| ==> Tells(notices[i], windows[i]) && !notices[i].saturated
    ensures Told(notices) == Sum(windows)
  {
    if notices != [] { ToldIsSum(notices[..|notices| - 1], windows[..|windows| - 1]); }
  }
}
