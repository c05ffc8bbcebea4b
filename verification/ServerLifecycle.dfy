/** The closures of `installNodeServerShutdown` in `src/server-lifecycle.ts` over their shared
    variables. Every method is proved against the function of the same name in `ServerSpec`. */
module ServerLifecycle {
  import opened ServerSpec
  import Spec = ServerSpec

  class Controller {
    const cfg: Config
    var phase: Phase
    var timeout: bool
    var disposed: bool
    var eofArmed: bool
    var listening: bool
    var resolved: seq<Phase>
    var flushStarted: bool
    var flushing: bool
    /** Which asynchronous part waits for what, and how often the hooks were called. */
    var graceful: Graceful
    var forceRun: ForceRun
    var todo: seq<Todo>
    var preHooks: nat
    var postHooks: nat
    var forceHooks: nat

    ghost function View(): State
      reads this
    {
      State(Control(phase, timeout, disposed, eofArmed, listening),
            Calls(preHooks, postHooks, forceHooks, if flushStarted then 1 else 0, flushing), graceful, forceRun, todo,
              resolved)
    }

    constructor (cfg: Config)
      ensures View() == Spec.FRESH && this.cfg == cfg
    {
      this.cfg := cfg;
      phase, timeout, disposed, eofArmed, listening, resolved := Running, false, false, false, false, [];
      flushStarted, flushing, graceful, forceRun, todo := false, false, NotBegun, NotForced, [];
      preHooks, postHooks, forceHooks := 0, 0, 0;
    }

    method ForceShutdown()
      modifies this`phase, this`timeout, this`todo
      ensures View() == Spec.ForceShutdown(old(View()))
    {
      if phase == Forced || phase == Closed { return; }
      phase := Forced;
      timeout := false;
      todo := todo + [CloseAll];
    }

    method RequestGraceful(sigint: bool)
      modifies this`phase, this`timeout, this`todo
      ensures View() == Spec.RequestGraceful(old(View()), sigint)
    {
      if phase == Draining {
        ForceShutdown();
        return;
      }
      if phase != Running { return; }
      phase := Draining;
      todo := todo + [Arm(sigint)];
    }

    method Cleanup()
      modifies this`disposed, this`timeout, this`listening
      ensures View() == Spec.Cleanup(old(View()))
    {
      if disposed { return; }
      disposed := true;
      timeout := false;
      listening := false;
    }

    method Finish(final: Phase)
      modifies this`phase, this`disposed, this`timeout, this`listening, this`resolved
      ensures View() == Spec.Finish(old(View()), final)
    {
      if resolved != [] { return; }
      resolved := [final];
      phase := final;
      Cleanup();
    }

    method FlushOnce()
      modifies this`flushStarted, this`flushing
      ensures View() == Spec.FlushOnce(old(View()))
    {
      if !flushStarted { flushStarted, flushing := true, true; }
    }

    /** The rest of `requestGraceful` and of `force` after the announcement. */
    method Proceed()
      modifies this
      ensures View() == Spec.Proceed(cfg, old(View()))
    {
      if todo == [] { return; }
      var next := todo[|todo| - 1];
      todo := todo[..|todo| - 1];
      match next
      case Arm(sigint) =>
        if !eofArmed && sigint && cfg.watchEof { eofArmed, listening := true, true; }
        timeout := true;
        graceful := PreHook;
        preHooks := preHooks + 1;
      case CloseAll =>
        forceRun := ForceHook;
        forceHooks := forceHooks + 1;
    }

    /** The asynchronous part of `requestGraceful`, from one `await` to the next. */
    method GracefulNext(failed: bool)
      modifies this
      ensures View() == Spec.GracefulNext(old(View()), failed)
    {
      match graceful
      case PreHook =>
        graceful := if phase == Draining then Servers else GracefulOver;
      case Servers =>
        if failed && phase == Draining {
          graceful := GracefulOver;
          ForceShutdown();
        } else if phase != Draining {
          graceful := GracefulOver;
        } else {
          graceful := GracefulFlush;
          FlushOnce();
        }
      case GracefulFlush =>
        if flushing { return; }
        if phase != Draining {
          graceful := GracefulOver;
        } else {
          graceful := PostHook;
          postHooks := postHooks + 1;
        }
      case PostHook =>
        graceful := GracefulOver;
        if phase == Draining { Finish(Closed); }
      case _ =>
    }

    /** The asynchronous part of `force`. */
    method ForceNext()
      modifies this
      ensures View() == Spec.ForceNext(old(View()))
    {
      match forceRun
      case ForceHook =>
        forceRun := ForceFlush;
        FlushOnce();
      case ForceFlush =>
        forceRun := ForceOver;
        Finish(Forced);
      case _ =>
    }
  }
}
