/** From container events to reconciles: the watcher goroutine, its capacity-1 channel, and
    the main loop with its debounce timer and ticker (internal/source/source.go, cmd/munpae/main.go). */
module WatchLoop {
  import opened GoText

  /** Where the watcher is: between subscriptions, in its select, about to call `signal`, or gone. */
  datatype Watcher = Subscribing | Receiving | Signalling | Stopped

  /** The channel is a token and a closed flag; `listening` is false once the main loop has set its
      `changes` to nil; `debounce` is the deadline of the armed timer; `busy` is a running reconcile.
      `dirty` records that an event was received since the last reconcile began, `fired` when the timer last fired. */
  datatype State = State(watcher: Watcher, token: bool, closed: bool,
                         listening: bool, debounce: Option<int>, busy: bool, exited: bool,
                         now: int, cancelled: bool, dirty: bool, fired: Option<int>)

  datatype Action =
    | Subscribe | Event | Signal | StreamError | Stop
    | Take | SeeClosed | Fire | Resync | Finish | Exit
    | Cancel | Wait(time: nat)

  /** The state in which the main loop enters its `for`, after the first reconcile. */
  function Start(now: int): State {
    State(Subscribing, false, false, true, None, false, false, now, false, false, None)
  }

  predicate Selecting(s: State) {
    !s.busy && !s.exited
  }

  predicate Enabled(s: State, act: Action) {
    match act
    case Subscribe => s.watcher == Subscribing && !s.cancelled
    case Event => s.watcher == Receiving
    case Signal => s.watcher == Signalling
    case StreamError => s.watcher == Receiving
    case Stop => s.cancelled && (s.watcher == Receiving || s.watcher == Subscribing)
    case Take => Selecting(s) && s.listening && s.token
    case SeeClosed => Selecting(s) && s.listening && s.closed && !s.token
    case Fire => Selecting(s) && s.debounce.Some? && s.debounce.value <= s.now
    case Resync => Selecting(s)
    case Finish => s.busy
    case Exit => Selecting(s) && s.cancelled
    case Cancel => true
    case Wait(_) => true
  }

  /** `case <-changes` with a value: arms the timer unless it is armed. */
  function Armed(debounce: Option<int>, now: int, delay: int): Option<int> {
    if debounce.None? then Some(now + delay) else debounce
  }

  function Next(delay: int, s: State, act: Action): State
    requires Enabled(s, act)
  {
    match act
    case Subscribe => s.(watcher := Receiving)
    case Event => s.(watcher := Signalling, dirty := true)
    case Signal => s.(watcher := Receiving, token := true)
    case StreamError => s.(watcher := Subscribing)
    case Stop => s.(watcher := Stopped, closed := true)
    case Take => s.(token := false, debounce := Armed(s.debounce, s.now, delay))
    case SeeClosed => s.(listening := false)
    case Fire => s.(debounce := None, busy := true, dirty := false, fired := Some(s.now))
    case Resync => s.(busy := true, dirty := false)
    case Finish => s.(busy := false)
    case Exit => s.(exited := true)
    case Cancel => s.(cancelled := true)
    case Wait(time) => s.(now := s.now + time)
  }

  // ---- the objects -----------------------------------------------------------------------

  /** The channel between the two goroutines. */
  class Wakeups {
    var token: bool
    var closed: bool

    constructor ()
      ensures !token && !closed
    {
      token, closed := false, false;
    }

    /** `signal`: a non-blocking send; a token that is already there stands for this event too. */
    method Signal()
      requires !closed
      modifies this
      ensures token && !closed
    {
      if !token {
        token := true;
      }
    }

    method Close()
      requires !closed
      modifies this
      ensures closed && token == old(token)
    {
      closed := true;
    }
  }

  /** The local state of the select loop of `run`. */
  class MainLoop {
    const delay: int
    const changes: Wakeups
    var listening: bool
    var debounce: Option<int>
    var reconciles: nat

    constructor (delay: int, changes: Wakeups)
      ensures this.delay == delay && this.changes == changes && listening && debounce == None && reconciles == 0
    {
      this.delay, this.changes, listening, debounce, reconciles := delay, changes, true, None, 0;
    }

    /** The object shows the main-loop and channel part of `s`. */
    ghost predicate Shows(s: State)
      reads this, changes
    {
      && s.token == changes.token && s.closed == changes.closed
      && s.listening == listening && s.debounce == debounce
    }

    /** `case _, ok := <-changes`. */
    method OnChange(ghost s: State, now: int)
      requires Shows(s) && now == s.now && (Enabled(s, Take) || Enabled(s, SeeClosed))
      modifies this, changes
      ensures Shows(Next(delay, s, if old(changes.token) then Take else SeeClosed)) && reconciles == old(reconciles)
    {
      var ok := changes.token;
      changes.token := false;
      if !ok {
        listening := false;
        return;
      }
      if debounce.None? {
        debounce := Some(now + delay);
      }
    }

    /** `case <-debounce`. */
    method OnDebounce(ghost s: State)
      requires Shows(s) && Enabled(s, Fire)
      modifies this
      ensures Shows(Next(delay, s, Fire)) && reconciles == old(reconciles) + 1
    {
      debounce := None;
      reconciles := reconciles + 1;
    }

    /** `case <-ticker.C`. */
    method OnTicker(ghost s: State)
      requires Shows(s) && Enabled(s, Resync)
      modifies this
      ensures Shows(Next(delay, s, Resync)) && reconciles == old(reconciles) + 1
    {
      reconciles := reconciles + 1;
    }
  }

  // ---- every run ---------------------------------------------------------------------------

  ghost predicate IsRun(delay: int, states: seq<State>, acts: seq<Action>) {
    && |states| == |acts| + 1
    && forall t :: 0 <= t < |acts| ==> Enabled(states[t], acts[t]) && states[t + 1] == Next(delay, states[t], acts[t])
  }

  /** An event nobody has reconciled for yet is on its way to a reconcile. */
  predicate Underway(s: State) {
    s.watcher == Signalling || s.token || s.debounce.Some?
  }

  predicate Inv(delay: int, s: State) {
    && (s.dirty && !s.cancelled ==> Underway(s))
    && ClosedRight(s) && TimesRight(delay, s)
  }

  /** The channel is closed by the stopped watcher only, and ignored or left only after cancellation. */
  predicate ClosedRight(s: State) {
    && (s.closed <==> s.watcher == Stopped) && (s.closed ==> s.cancelled)
    && (!s.listening ==> s.closed) && (s.exited ==> s.cancelled)
  }

  /** An armed deadline is at most the delay away, and at least the delay after the last firing. */
  predicate TimesRight(delay: int, s: State) {
    && (s.debounce.Some? ==> s.debounce.value <= s.now + delay)
    && (s.fired.Some? ==> s.fired.value <= s.now)
    && (s.fired.Some? && s.debounce.Some? ==> s.fired.value + delay <= s.debounce.value)
  }

  lemma StepKeepsInv(delay: int, s: State, act: Action)
    requires Inv(delay, s) && Enabled(s, act)
    ensures Inv(delay, Next(delay, s, act))
  {
    StepKeepsUnderway(delay, s, act);
    StepKeepsClosed(delay, s, act);
    StepKeepsTimes(delay, s, act);
  }

  lemma StepKeepsUnderway(delay: int, s: State, act: Action)
    requires Enabled(s, act) && (s.dirty && !s.cancelled ==> Underway(s))
    ensures var s' := Next(delay, s, act); s'.dirty && !s'.cancelled ==> Underway(s')
  {
    match act {
      case Event =>
      case Signal =>
      case Take =>
      case Fire =>
      case _ =>
    }
  }

  lemma StepKeepsClosed(delay: int, s: State, act: Action)
    requires Enabled(s, act) && ClosedRight(s)
    ensures ClosedRight(Next(delay, s, act))
  {
    match act {
      case Stop =>
      case SeeClosed =>
      case Exit =>
      case _ =>
    }
  }

  lemma StepKeepsTimes(delay: int, s: State, act: Action)
    requires Enabled(s, act) && TimesRight(delay, s)
    ensures TimesRight(delay, Next(delay, s, act))
  {
    match act {
      case Take =>
      case Fire =>
      case Wait(_) =>
      case _ =>
    }
  }

  lemma {:induction false} RunKeepsInv(delay: int, now: int, states: seq<State>, acts: seq<Action>, t: nat)
    requires IsRun(delay, states, acts) && states[0] == Start(now) && t < |states|
    ensures Inv(delay, states[t])
  {
    if t > 0 {
      RunKeepsInv(delay, now, states, acts, t - 1);
      StepKeepsInv(delay, states[t - 1], acts[t - 1]);
    }
  }

  /** No lost wakeup: in every state of every run before cancellation, if an event was received since the
      last reconcile began, a signal is about to be sent, a token is in the channel that the main loop still
      listens to, or the timer is armed and due within the delay. */
  lemma NoLostWakeup(delay: int, now: int, states: seq<State>, acts: seq<Action>, t: nat)
    requires IsRun(delay, states, acts) && states[0] == Start(now) && t < |states|
    requires states[t].dirty && !states[t].cancelled
    ensures var s := states[t];
      || s.watcher == Signalling
      || (s.token && s.listening && !s.exited)
      || (s.debounce.Some? && s.debounce.value <= s.now + delay && !s.exited)
  {
    RunKeepsInv(delay, now, states, acts, t);
  }

  /** The watcher never sends on the channel it has closed. */
  lemma NoSendAfterClose(delay: int, now: int, states: seq<State>, acts: seq<Action>, t: nat)
    requires IsRun(delay, states, acts) && states[0] == Start(now) && t < |acts| && acts[t].Signal?
    ensures !states[t].closed
  {
    RunKeepsInv(delay, now, states, acts, t);
  }

  predicate Reconciles(act: Action) {
    act.Fire? || act.Resync?
  }

  ghost predicate ReconciledBetween(acts: seq<Action>, e: nat, t: nat) {
    exists r :: e < r < t && r < |acts| && Reconciles(acts[r])
  }

  lemma DirtyStays(delay: int, s: State, act: Action)
    requires Enabled(s, act)
    ensures s.dirty ==> Next(delay, s, act).dirty || Reconciles(act)
    ensures act.Event? ==> Next(delay, s, act).dirty
  {
    match act {
      case Fire =>
      case Resync =>
      case _ =>
    }
  }

  lemma {:induction false} EventStaysDirty(delay: int, states: seq<State>, acts: seq<Action>, e: nat, t: nat)
    requires IsRun(delay, states, acts) && e < t < |states| && acts[e].Event?
    ensures states[t].dirty || ReconciledBetween(acts, e, t)
  {
    DirtyStays(delay, states[t - 1], acts[t - 1]);
    if t > e + 1 {
      EventStaysDirty(delay, states, acts, e, t - 1);
      if states[t - 1].dirty {
        assert states[t].dirty || Reconciles(acts[t - 1]);
      } else {
        var r :| e < r < t - 1 && r < |acts| && Reconciles(acts[r]);
      }
    }
  }

  /** Until cancellation, a received event has been followed by a reconcile or is on its way to one: about to be
      signalled, in the channel, or behind the armed timer. */
  lemma EventLeadsToReconcile(delay: int, now: int, states: seq<State>, acts: seq<Action>, e: nat, t: nat)
    requires IsRun(delay, states, acts) && states[0] == Start(now) && e < t < |states| && acts[e].Event?
    ensures ReconciledBetween(acts, e, t) || Underway(states[t]) || states[t].cancelled
  {
    EventStaysDirty(delay, states, acts, e, t);
    RunKeepsInv(delay, now, states, acts, t);
  }

  lemma DeadlineStep(delay: int, s: State, act: Action)
    requires Enabled(s, act) && s.debounce.Some? && !act.Fire?
    ensures Next(delay, s, act).debounce == s.debounce
  {
    match act {
      case Take =>
      case _ =>
    }
  }

  /** An armed deadline stays as it is until the timer fires: further events do not push it later. */
  lemma {:induction false} DeadlineStays(delay: int, states: seq<State>, acts: seq<Action>, i: nat, j: nat)
    requires IsRun(delay, states, acts) && i <= j < |states| && states[i].debounce.Some?
    requires forall t :: i <= t < j ==> !acts[t].Fire?
    ensures states[j].debounce == states[i].debounce
  {
    if i < j {
      DeadlineStays(delay, states, acts, i, j - 1);
      DeadlineStep(delay, states[j - 1], acts[j - 1]);
    }
  }

  lemma TimeMovesOn(delay: int, s: State, act: Action)
    requires Enabled(s, act)
    ensures Next(delay, s, act).now >= s.now
    ensures Next(delay, s, act).fired == (if act.Fire? then Some(s.now) else s.fired)
  {
    match act {
      case Fire =>
      case Wait(_) =>
      case _ =>
    }
  }

  /** The timer has fired at or after `time`. */
  predicate FiredSince(s: State, time: int) {
    s.fired.Some? && s.fired.value >= time && s.now >= time
  }

  lemma FiredStays(delay: int, s: State, act: Action, time: int)
    requires Enabled(s, act) && s.now >= time && (act.Fire? || FiredSince(s, time))
    ensures FiredSince(Next(delay, s, act), time)
  {
    TimeMovesOn(delay, s, act);
  }

  lemma {:induction false} FiredBefore(delay: int, states: seq<State>, acts: seq<Action>, i: nat, t: nat)
    requires IsRun(delay, states, acts) && i < t < |states| && acts[i].Fire?
    ensures FiredSince(states[t], states[i].now)
  {
    if t > i + 1 {
      FiredBefore(delay, states, acts, i, t - 1);
    }
    FiredStays(delay, states[t - 1], acts[t - 1], states[i].now);
  }

  /** Debouncing: two firings of the timer lie at least the delay apart. */
  lemma FiringsApart(delay: int, now: int, states: seq<State>, acts: seq<Action>, i: nat, j: nat)
    requires IsRun(delay, states, acts) && states[0] == Start(now) && i < j < |acts| && acts[i].Fire? && acts[j].Fire?
    ensures states[i].now + delay <= states[j].now
  {
    FiredBefore(delay, states, acts, i, j);
    RunKeepsInv(delay, now, states, acts, j);
  }
}
