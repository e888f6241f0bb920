/** The SchedulerListener object, changed in place by its polls. */
module SchedulerListenerObject {
  import opened Wrappers
  import opened ListenerModel

  class SchedulerListener {
    var lastState: Option<int>
    var connected: bool
    var disconnectSince: Option<real>
    var failsafeTriggered: bool
    var resumePending: bool             // _resume_future is not None

    ghost function Model(): Listener
      reads this
    {
      Listener(lastState, connected, disconnectSince, failsafeTriggered, resumePending)
    }

    constructor ()
      ensures Model() == NewListener()
    {
      lastState, connected, disconnectSince := None, true, None;
      failsafeTriggered, resumePending := false, false;
    }

    // _apply_state(); ok is the outcome of the pause, if the state asks for one.
    method ApplyState(state: int, ok: bool) returns (applied: bool, effect: Effect)
      modifies this`resumePending
      ensures applied <==> state == GPU_STATE_AVAILABLE || (IsYield(state) && ok)
      ensures resumePending == if !applied then old(resumePending) else state == GPU_STATE_AVAILABLE
      ensures effect == if state == GPU_STATE_AVAILABLE then ResumeSent
                        else if IsYield(state) then PauseTried(state, ok) else NoEffect
    {
      if state == GPU_STATE_AVAILABLE {
        resumePending := true;
        return true, ResumeSent;
      }
      if IsYield(state) {
        if ok {
          resumePending := false;
        }
        return ok, PauseTried(state, ok);
      }
      return false, NoEffect;
    }

    // The failure branch of _poll().
    method PollFailed(i: Input, ok: bool) returns (effect: Effect)
      requires i.reply.None?
      modifies this
      ensures (Model(), effect) == ListenerModel.Poll(old(Model()), i, ok)
    {
      effect := NoEffect;
      connected := false;
      if disconnectSince.None? {
        disconnectSince := Some(i.now);
      }
      if !failsafeTriggered && i.now - disconnectSince.value >= FAILSAFE_TIMEOUT {
        var applied;
        applied, effect := ApplyState(GPU_STATE_WINDOW_POST, ok);
        if applied {
          failsafeTriggered := true;
          lastState := Some(GPU_STATE_WINDOW_POST);
        }
      }
    }

    // _poll(); ok is the outcome of the pause, if there is one.
    method Poll(i: Input, ok: bool) returns (effect: Effect)
      modifies this
      ensures (Model(), effect) == ListenerModel.Poll(old(Model()), i, ok)
    {
      if i.reply.None? {
        effect := PollFailed(i, ok);
        return;
      }
      if !connected {
        connected, disconnectSince := true, None;
        if failsafeTriggered {
          failsafeTriggered, lastState := false, None;
        }
      }
      if resumePending && i.resumeDone {
        resumePending := false;
        if i.resumeFailed && lastState == Some(GPU_STATE_AVAILABLE) {
          lastState := None;
        }
      }
      var state := i.reply.value;
      if lastState == Some(state) {
        return NoEffect;
      }
      var applied;
      applied, effect := ApplyState(state, ok);
      if applied {
        lastState := Some(state);
      }
    }
  }
}
