/** The reporter object of `src/internal-diagnostics.ts`, proved against `ReporterSpec`. */
module Reporter {
  import opened Common
  import opened ReporterSpec
  import Spec = ReporterSpec

  class InternalDiagnosticReporter {
    var phase: Phase
    var suppressed: nat
    var suppressionSaturated: bool
    var inFlight: bool
    var waiting: nat
    /** The record being delivered. */
    var notice: Notice
    ghost var history: History

    ghost function View(): System
      reads this
    {
      System(State(phase, suppressed, suppressionSaturated, inFlight, waiting), history)
    }

    constructor ()
      ensures View() == Spec.FRESH
    {
      phase, suppressed, suppressionSaturated, inFlight, waiting := Idle, 0, false, false, 0;
      notice := Notice(0, false);
      history := History(0, [], [], [], 0);
    }

    method AccountSuppressed()
      modifies this`suppressed, this`suppressionSaturated
      ensures View().state == Spec.AccountSuppressed(old(View().state))
    {
      var next := SaturatingIncrement(suppressed);
      suppressed := next.0;
      suppressionSaturated := suppressionSaturated || next.1;
    }

    /** The synchronous part of `report`; no status means that a delivery was begun. */
    method Report(valid: bool) returns (status: Option<Status>)
      modifies this
      ensures View() == Spec.Admit(old(View()), valid)
      ensures status.None? <==> old(phase) == Idle && valid
      ensures status.Some? ==> history.ended == old(history).ended + [status.value]
      ensures status.None? ==> history.notices == old(history).notices + [notice]
    {
      history := history.(calls := history.calls + 1);
      if phase == Closed {
        history := history.(ended := history.ended + [WasClosed]);
        return Some(WasClosed);
      }
      if phase != Idle {
        AccountSuppressed();
        history := history.(ended := history.ended + [Suppressed], window := history.window + 1);
        return Some(Suppressed);
      }
      if !valid {
        history := history.(ended := history.ended + [Rejected]);
        return Some(Rejected);
      }
      notice := Notice(suppressed, suppressionSaturated);
      suppressed := 0;
      suppressionSaturated := false;
      phase := Reporting;
      inFlight := true;
      history := history.(notices := history.notices + [notice], windows := history.windows + [history.window],
        window := 0);
      return None;
    }

    /** `deliver`: sinks are tried in order until one accepts the record. */
    static method Deliver(accepts: seq<bool>) returns (status: Status)
      ensures status.Delivered? || status.SinksFailed?
      ensures status.SinksFailed? <==> forall i :: 0 <= i < |accepts| ==> !accepts[i]
      ensures status.Delivered? ==>
                status.sink < |accepts| && accepts[status.sink] && forall i :: 0 <= i < status.sink ==> !accepts[i]
    {
      for i := 0 to |accepts|
        invariant forall j :: 0 <= j < i ==> !accepts[j]
      {
        if accepts[i] { return Delivered(i); }
      }
      return SinksFailed;
    }

    /** The `finally` of `report`. */
    method Conclude(status: Status)
      modifies this
      ensures View() == Spec.Conclude(old(View()), status)
    {
      inFlight := false;
      phase := if phase == Closing then Closed else Idle;
      history := history.(ended := history.ended + [status]);
    }

    method Close()
      modifies this`phase, this`waiting
      ensures View().state == Spec.Close(old(View().state)) && history == old(history)
    {
      if phase == Closed { return; }
      if phase == Idle {
        phase := Closed;
        return;
      }
      phase := Closing;
      waiting := waiting + 1;
    }

    method CloseGoesOn()
      requires waiting > 0
      modifies this`phase, this`waiting
      ensures View().state == Spec.Closes(old(View().state)) && history == old(history)
    {
      phase := Closed;
      waiting := waiting - 1;
    }
  }
}
