/** The scheduler listener: one _poll() at a time, and the commands it gives the engine pool. */
module ListenerModel {
  import opened Wrappers
  import opened Sidecar

  // GpuState on the wire; proto3 enums are open, so any integer may arrive.
  const GPU_STATE_AVAILABLE := 1
  const GPU_STATE_YIELDING := 2
  const GPU_STATE_WINDOW_POST := 3
  const GPU_STATE_WINNING_POST := 4

  const FAILSAFE_TIMEOUT := 60.0

  predicate IsYield(state: int) {
    state == GPU_STATE_YIELDING || state == GPU_STATE_WINDOW_POST || state == GPU_STATE_WINNING_POST
  }

  datatype Listener = Listener(
    lastState: Option<int>,
    connected: bool,
    disconnectSince: Option<real>,
    failsafeTriggered: bool,
    resumePending: bool)              // _resume_future is not None

  function NewListener(): Listener {
    Listener(None, true, None, false, false)
  }

  // What get_gpu_schedule() gave, when, and what the background resume looks like by then.
  datatype Input = Input(reply: Option<int>, now: real, resumeDone: bool, resumeFailed: bool)

  // What the poll asks of the pool.  A pause blocks the poll until it has an outcome.
  datatype Command =
    | Nothing
    | SendResume
    | SendPause(state: int, failsafe: bool)

  function UrgencyOf(state: int): Urgency {
    if state == GPU_STATE_YIELDING then Normal else Immediate
  }

  predicate YieldLast(l: Listener) {
    l.lastState.Some? && IsYield(l.lastState.value)
  }

  // get_gpu_schedule() raised.
  function OnError(l: Listener, now: real): (Listener, Command) {
    var since := if l.disconnectSince.Some? then l.disconnectSince.value else now;
    var l1 := l.(connected := false, disconnectSince := Some(since));
    (l1, if !l.failsafeTriggered && now - since >= FAILSAFE_TIMEOUT
         then SendPause(GPU_STATE_WINDOW_POST, true) else Nothing)
  }

  function Reconnect(l: Listener): Listener {
    if l.connected then l
    else l.(connected := true, disconnectSince := None, failsafeTriggered := false,
            lastState := if l.failsafeTriggered then None else l.lastState)
  }

  // A background resume that ended with an error makes the listener apply AVAILABLE again.
  function ReapResume(l: Listener, i: Input): Listener {
    if !l.resumePending || !i.resumeDone then l
    else l.(resumePending := false,
            lastState := if i.resumeFailed && l.lastState == Some(GPU_STATE_AVAILABLE) then None else l.lastState)
  }

  // _apply_state up to the point where it blocks.
  function Apply(l: Listener, state: int): (Listener, Command) {
    if state == GPU_STATE_AVAILABLE then (l.(resumePending := true, lastState := Some(state)), SendResume)
    else if IsYield(state) then (l, SendPause(state, false))
    else (l, Nothing)
  }

  function OnReply(l: Listener, i: Input, state: int): (Listener, Command) {
    var l1 := ReapResume(Reconnect(l), i);
    if l1.lastState == Some(state) then (l1, Nothing) else Apply(l1, state)
  }

  // _poll up to its end or to the pause it waits for.
  function BeginPoll(l: Listener, i: Input): (Listener, Command) {
    match i.reply
    case None => OnError(l, i.now)
    case Some(state) => OnReply(l, i, state)
  }

  // The pause succeeded, or it timed out or raised.
  function EndPause(l: Listener, c: Command, ok: bool): Listener
    requires c.SendPause?
  {
    if !ok then l
    else l.(resumePending := false, lastState := Some(c.state),
            failsafeTriggered := c.failsafe || l.failsafeTriggered)
  }

  // What a poll did to the pool.
  datatype Effect =
    | NoEffect
    | ResumeSent
    | PauseTried(state: int, ok: bool)

  /** A whole poll; ok is the outcome of the pause, if there is one. */
  function Poll(l: Listener, i: Input, ok: bool): (Listener, Effect) {
    var (l1, c) := BeginPoll(l, i);
    match c
    case Nothing => (l1, NoEffect)
    case SendResume => (l1, ResumeSent)
    case SendPause(state, _) => (EndPause(l1, c, ok), PauseTried(state, ok))
  }

  datatype PollAct = PollAct(i: Input, ok: bool)

  function Run(l: Listener, acts: seq<PollAct>): Listener {
    if acts == [] then l
    else var last := acts[|acts| - 1]; Poll(Run(l, acts[..|acts| - 1]), last.i, last.ok).0
  }

  // The effects of a run, poll by poll.
  function History(l: Listener, acts: seq<PollAct>): (h: seq<Effect>)
    ensures |h| == |acts|
  {
    if acts == [] then []
    else
      var init, last := acts[..|acts| - 1], acts[|acts| - 1];
      History(l, init) + [Poll(Run(l, init), last.i, last.ok).1]
  }
}
