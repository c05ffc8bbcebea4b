/** The coordinator object of `src/shutdown.ts`. Every method is proved against the function of the
    same name in `CoordinatorSpec`. */
module Coordinator {
  import opened CoordinatorSpec
  import Spec = CoordinatorSpec

  class ShutdownCoordinator {
    const cfg: Config
    var phase: Phase
    var attempt: nat
    var forced: bool
    var finished: bool
    var timer: bool
    var triggers: seq<string>
    var errors: nat
    /** What the calling code still has to do, and which promises are outstanding. */
    var todo: seq<Todo>
    var stage: Stage
    var drain: Job
    var force: Job
    var flush: Job
    var resolved: seq<Report>

    ghost predicate Valid()
      reads this
    {
      attempt == |triggers|
    }

    ghost function View(): State
      reads this
    {
      State(Control(phase, forced, timer, finished, stage), Jobs(drain, force, flush), todo, triggers, errors, resolved)
    }

    constructor (cfg: Config)
      ensures Valid() && View() == Spec.FRESH && this.cfg == cfg
    {
      this.cfg := cfg;
      phase, attempt, forced, finished, timer := Running, 0, false, false, false;
      triggers, errors, todo, stage, resolved := [], 0, [], NotFinished, [];
      drain, force, flush := Job(0, false), Job(0, false), Job(0, false);
    }

    method Request(trigger: string, forceNow: bool)
      requires Valid()
      modifies this
      ensures Valid() && View() == Spec.Request(old(View()), trigger, forceNow)
    {
      if finished { return; }
      attempt := attempt + 1;
      triggers := triggers + [trigger];
      if phase == Running && !forceNow {
        BeginDrain();
      } else if phase == Draining || forceNow {
        BeginForce();
      }
    }

    method BeginDrain()
      requires Valid()
      modifies this`phase, this`todo
      ensures Valid() && View() == Spec.BeginDrain(old(View()))
    {
      if phase != Running { return; }
      phase := Draining;
      todo := todo + [CallDrain];
    }

    method BeginForce()
      requires Valid()
      modifies this`phase, this`forced, this`timer, this`todo
      ensures Valid() && View() == Spec.BeginForce(old(View()))
    {
      if phase == Forcing || phase == Stopped { return; }
      forced := true;
      timer := false;
      phase := Forcing;
      todo := todo + [CallForce];
    }

    method Finish(byForce: bool)
      requires Valid()
      modifies this`phase, this`timer, this`finished, this`stage
      ensures Valid() && View() == Spec.Finish(old(View()), byForce)
    {
      if finished { return; }
      if !byForce && phase != Draining { return; }
      if byForce && phase != Forcing { return; }
      timer := false;
      finished := true;
      phase := Stopped;
      stage := Observers;
    }

    method Proceed(throws: bool)
      requires Valid()
      modifies this
      ensures Valid() && View() == Spec.Proceed(old(View()), throws)
    {
      if todo == [] { return; }
      var next := todo[|todo| - 1];
      todo := todo[..|todo| - 1];
      match next
      case CallDrain =>
        timer := true;
        drain := Started(drain, throws);
      case CallForce =>
        force := Started(force, throws);
      case Escalate => BeginForce();
      case FinishForced => Finish(true);
    }

    /** The two reactions to the promise of the drain callback. */
    method DrainSettled(ok: bool)
      requires Valid()
      modifies this
      ensures Valid() && View() == Spec.DrainSettled(old(View()), ok)
    {
      drain := drain.(pending := false);
      if ok {
        if phase == Draining { Finish(false); }
      } else {
        errors := errors + 1;
        if phase == Draining { todo := todo + [Escalate]; }
      }
    }

    method ForceSettled(ok: bool)
      requires Valid()
      modifies this
      ensures Valid() && View() == Spec.ForceSettled(old(View()), ok)
    {
      force := force.(pending := false);
      if ok {
        Finish(true);
      } else {
        errors := errors + 1;
        phase := Forcing;
        todo := todo + [FinishForced];
      }
    }

    method ObserversSettled()
      requires Valid()
      modifies this
      ensures Valid() && View() == Spec.ObserversSettled(cfg, old(View()))
    {
      if cfg.hasFlush {
        stage := Flushing;
        flush := Started(flush, false);
      } else {
        Resolve();
      }
    }

    method FlushSettled(ok: bool)
      requires Valid()
      modifies this
      ensures Valid() && View() == Spec.FlushSettled(old(View()), ok)
    {
      flush := flush.(pending := false);
      if !ok { errors := errors + 1; }
      Resolve();
    }

    method Resolve()
      requires Valid()
      modifies this`stage, this`resolved
      ensures Valid() && View() == Spec.Resolve(old(View()))
    {
      stage := Complete;
      resolved := resolved + [Report(forced, triggers, errors)];
    }
  }
}
