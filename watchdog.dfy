/** The keepalive watchdog of a connection: wait `pingDelay`, send a probe
    carrying a fresh text, then wait `pingTimeout` for the pong. A pong (that
    matches, when texts are compared) during the second wait starts a new
    cycle; the second wait running out raises `Timeouted` once and ends the
    loop. Cancellation during the first wait ends the loop.
    The two waits are timers of the environment: their elapsing is an event
    (`DelayElapsed`, `TimeoutElapsed`), as is the cancellation of the token the
    owner passed in (`OuterCancel`). The probe text (the clock's ticks in the
    source) is the parameter of `DelayElapsed`. */
module Watchdog {
  import opened Wrappers

  /** Where the ping loop is: not started yet, in the first wait, in the second
      wait, or returned. */
  datatype Phase = Idle | Delaying | AwaitingPong | Ended

  /** The watchdog's observable state: the loop's phase, the `Stopped` flag,
      whether the owner's token was cancelled, the text the next pong must
      carry, the probes raised through `Pinging` in order, the number of
      `Timeouted` notifications and the number of cycles restarted by a pong. */
  datatype Watch = Watch(
    phase: Phase,
    stopped: bool,
    outerCancelled: bool,
    expectedText: Option<string>,
    probes: seq<string>,
    timeouts: nat,
    cycles: nat)

  const Initial: Watch := Watch(Idle, false, false, None, [], 0, 0)

  datatype Event =
    | Start
    | Stop
    | Pong(text: string)
    | DelayElapsed(probeText: string)
    | TimeoutElapsed
    | OuterCancel

  /** A pong cancels the current wait when texts are not compared, or when it
      carries the expected text. */
  predicate PongMatches(compareText: bool, w: Watch, text: string) {
    !compareText || w.expectedText == Some(text)
  }

  /** The wait in progress was cancelled (by `Stop`, a matching pong or the
      owner's token). In the first wait the loop returns; in the second it
      continues, which starts a new cycle unless stopped, and a new cycle whose
      token is already cancelled returns at once. */
  function Cancelled(w: Watch): (r: Watch)
    ensures r.timeouts == w.timeouts && r.probes == w.probes && r.stopped == w.stopped
  {
    match w.phase
    case Delaying => w.(phase := Ended)
    case AwaitingPong =>
      if w.stopped || w.outerCancelled then w.(phase := Ended)
      else w.(phase := Delaying, cycles := w.cycles + 1)
    case _ => w
  }

  /** What one event does to the watchdog. Timer events outside their wait are
      stale and change nothing. The flags are never cleared, at most one
      probe is added to the end, and a timeout is counted exactly when the
      second wait elapses. */
  function Step(compareText: bool, w: Watch, ev: Event): (r: Watch)
    ensures w.stopped ==> r.stopped
    ensures w.outerCancelled ==> r.outerCancelled
    ensures w.probes <= r.probes && |r.probes| <= |w.probes| + 1
    ensures r.timeouts == w.timeouts || r.timeouts == w.timeouts + 1
    ensures r.timeouts == w.timeouts + 1 <==> w.phase == AwaitingPong && ev == TimeoutElapsed
  {
    match ev
    case Start =>
      if w.phase != Idle then w
      else if w.stopped || w.outerCancelled then w.(phase := Ended)
      else w.(phase := Delaying)
    case Stop => Cancelled(w.(stopped := true))
    case Pong(text) => if PongMatches(compareText, w, text) then Cancelled(w) else w
    case DelayElapsed(t) =>
      if w.phase == Delaying then w.(phase := AwaitingPong, expectedText := Some(t), probes := w.probes + [t])
      else w
    case TimeoutElapsed =>
      if w.phase == AwaitingPong then w.(phase := Ended, timeouts := w.timeouts + 1) else w
    case OuterCancel => Cancelled(w.(outerCancelled := true))
  }

  /** The watchdog after a sequence of events: the flags stay set, and the
      counts of timeouts and cycles never go down. */
  function Run(compareText: bool, w: Watch, evs: seq<Event>): (r: Watch)
    ensures w.stopped ==> r.stopped
    ensures w.outerCancelled ==> r.outerCancelled
    ensures w.timeouts <= r.timeouts && w.cycles <= r.cycles
    decreases |evs|
  {
    if evs == [] then w else Run(compareText, Step(compareText, w, evs[0]), evs[1..])
  }

  // ---------------------------------------------------------------------
  // Properties of single events

  /** A pong that does not match changes nothing. */
  lemma MismatchedPongIgnored(compareText: bool, w: Watch, text: string)
    requires compareText && w.expectedText != Some(text)
    ensures Step(compareText, w, Pong(text)) == w
  {
  }

  /** Without text comparison every pong counts as an answer. */
  lemma AnyPongMatchesWithoutComparison(w: Watch, text: string)
    requires w.phase == AwaitingPong && !w.stopped && !w.outerCancelled
    ensures Step(false, w, Pong(text)) == w.(phase := Delaying, cycles := w.cycles + 1)
  {
  }

  /** `Stop` sets `Stopped`, and a second `Stop` changes nothing more. */
  lemma StopIdempotent(compareText: bool, w: Watch)
    ensures Step(compareText, w, Stop).stopped
    ensures Step(compareText, Step(compareText, w, Stop), Stop) == Step(compareText, w, Stop)
  {
  }

  /** Any cancellation during the first wait ends the loop without a timeout
      and without a probe. */
  lemma CancelDuringDelayEnds(compareText: bool, w: Watch, ev: Event)
    requires w.phase == Delaying
    requires ev == Stop || ev == OuterCancel || (ev.Pong? && PongMatches(compareText, w, ev.text))
    ensures var r := Step(compareText, w, ev);
      r.phase == Ended && r.timeouts == w.timeouts && r.probes == w.probes
  {
  }

  /** The probe raised when the first wait elapses carries the text that the
      next pong is compared with. */
  lemma ProbeSetsExpectedText(compareText: bool, w: Watch, t: string)
    requires w.phase == Delaying
    ensures var r := Step(compareText, w, DelayElapsed(t));
      r.phase == AwaitingPong && r.expectedText == Some(t) && r.probes == w.probes + [t]
  {
  }

  /** A cancellation during the second wait starts a new cycle while neither
      stopped nor cancelled from outside; otherwise the loop ends. */
  lemma CancelDuringTimeoutRestarts(compareText: bool, w: Watch, text: string)
    requires w.phase == AwaitingPong && PongMatches(compareText, w, text)
    ensures var r := Step(compareText, w, Pong(text));
      && (!w.stopped && !w.outerCancelled ==> r.phase == Delaying && r.cycles == w.cycles + 1)
      && (w.stopped || w.outerCancelled ==> r.phase == Ended)
      && r.timeouts == w.timeouts && r.probes == w.probes
  {
  }

  /** The second wait running out raises `Timeouted` and ends the loop. */
  lemma TimeoutEnds(compareText: bool, w: Watch)
    requires w.phase == AwaitingPong
    ensures var r := Step(compareText, w, TimeoutElapsed);
      r.phase == Ended && r.timeouts == w.timeouts + 1 && r.probes == w.probes
  {
  }

  // ---------------------------------------------------------------------
  // Properties of runs

  /** Once the loop has returned, nothing raises a probe or a timeout again. */
  lemma {:induction false} EndedIsFinal(compareText: bool, w: Watch, evs: seq<Event>)
    requires w.phase == Ended
    ensures var r := Run(compareText, w, evs);
      r.phase == Ended && r.probes == w.probes && r.timeouts == w.timeouts
    decreases |evs|
  {
    if evs != [] {
      EndedIsFinal(compareText, Step(compareText, w, evs[0]), evs[1..]);
    }
  }

  /** The watchdog's invariant: at most one timeout, only after the loop
      ended, and the expected text is the text of the last probe. */
  predicate Valid(w: Watch) {
    && w.timeouts <= 1
    && (w.timeouts == 1 ==> w.phase == Ended)
    && w.expectedText == (if w.probes == [] then None else Some(w.probes[|w.probes| - 1]))
    && (w.phase == Idle ==> w.probes == [] && w.cycles == 0)
  }

  lemma StepValid(compareText: bool, w: Watch, ev: Event)
    requires Valid(w)
    ensures Valid(Step(compareText, w, ev))
  {
  }

  /** From a fresh watchdog, any run raises `Timeouted` at most once, only as
      its last act, and the next pong is compared with the last probe. */
  lemma {:induction false} RunValid(compareText: bool, w: Watch, evs: seq<Event>)
    requires Valid(w)
    ensures Valid(Run(compareText, w, evs))
    decreases |evs|
  {
    if evs != [] {
      StepValid(compareText, w, evs[0]);
      RunValid(compareText, Step(compareText, w, evs[0]), evs[1..]);
    }
  }

  lemma AtMostOneTimeout(compareText: bool, evs: seq<Event>)
    ensures Run(compareText, Initial, evs).timeouts <= 1
    ensures Run(compareText, Initial, evs).timeouts == 1 ==> Run(compareText, Initial, evs).phase == Ended
  {
    RunValid(compareText, Initial, evs);
  }

  /** Probes are only ever appended. */
  lemma {:induction false} ProbesOnlyGrow(compareText: bool, w: Watch, evs: seq<Event>)
    ensures w.probes <= Run(compareText, w, evs).probes
    decreases |evs|
  {
    if evs != [] {
      var w' := Step(compareText, w, evs[0]);
      ProbesOnlyGrow(compareText, w', evs[1..]);
    }
  }

  /** A stopped watchdog is not started yet or has returned. */
  predicate Silent(w: Watch) {
    w.stopped ==> w.phase == Idle || w.phase == Ended
  }

  /** `Stop` silences the watchdog, and a silent watchdog stays silent and
      raises no further probe or timeout, whatever happens to it. This is why
      unsubscribing from a stopped watchdog's notifications changes nothing. */
  lemma {:induction false} StoppedIsSilent(compareText: bool, w: Watch, evs: seq<Event>)
    requires w.stopped && Silent(w)
    ensures var r := Run(compareText, w, evs);
      r.stopped && Silent(r) && r.probes == w.probes && r.timeouts == w.timeouts
    decreases |evs|
  {
    if evs != [] {
      StoppedIsSilent(compareText, Step(compareText, w, evs[0]), evs[1..]);
    }
  }

  lemma StopSilences(compareText: bool, w: Watch)
    ensures Silent(Step(compareText, w, Stop)) && Step(compareText, w, Stop).stopped
  {
  }

  /** The watchdog `pm`, if any, did not change. */
  twostate predicate WatchKept(pm: PingManager?)
    reads pm
  {
    pm != null ==> pm.Current() == old(pm.Current())
  }

  /** The watchdog `pm`, if any, was stopped. */
  twostate predicate WatchStopped(pm: PingManager?)
    reads pm
  {
    pm != null ==> pm.Current() == Step(pm.compareText, old(pm.Current()), Event.Stop)
  }

  // ---------------------------------------------------------------------
  // The watchdog object

  class PingManager {
    const compareText: bool
    /** The owner's tag: the connection the watchdog was made for. */
    const state: object?
    var phase: Phase
    var stopped: bool
    var outerCancelled: bool
    var expectedText: Option<string>
    var probes: seq<string>
    var timeouts: nat
    var cycles: nat

    function Current(): Watch
      reads this
    {
      Watch(phase, stopped, outerCancelled, expectedText, probes, timeouts, cycles)
    }

    constructor (compareText: bool, state: object?)
      ensures this.compareText == compareText && this.state == state
      ensures Current() == Initial
    {
      this.compareText := compareText;
      this.state := state;
      phase, stopped, outerCancelled, expectedText := Idle, false, false, None;
      probes, timeouts, cycles := [], 0, 0;
    }

    /** Starts the ping loop, which first checks `Stopped`. */
    method Start()
      requires phase == Idle
      modifies this
      ensures Current() == Step(compareText, old(Current()), Event.Start)
    {
      if stopped || outerCancelled {
        phase := Ended;
      } else {
        phase := Delaying;
      }
    }

    /** Sets `Stopped` and cancels the wait in progress. */
    method Stop()
      modifies this
      ensures Current() == Step(compareText, old(Current()), Event.Stop)
    {
      stopped := true;
      CancelWait();
    }

    method PongReceived(text: string)
      modifies this
      ensures Current() == Step(compareText, old(Current()), Event.Pong(text))
    {
      if !compareText || expectedText == Some(text) {
        CancelWait();
      }
    }

    /** The owner's token was cancelled. */
    method OuterCancelled()
      modifies this
      ensures Current() == Step(compareText, old(Current()), Event.OuterCancel)
    {
      outerCancelled := true;
      CancelWait();
    }

    /** The first wait elapsed: a fresh expected text is set and `Pinging` is
        raised with exactly that text, which is returned. */
    method DelayElapsed(t: string) returns (probe: Option<string>)
      modifies this
      ensures Current() == Step(compareText, old(Current()), Event.DelayElapsed(t))
      ensures probe == if old(phase) == Delaying then Some(t) else None
    {
      probe := None;
      if phase == Delaying {
        expectedText := Some(t);
        probes := probes + [t];
        phase := AwaitingPong;
        probe := Some(t);
      }
    }

    /** The second wait elapsed: `Timeouted` is raised (the result is true) and
        the loop returns. */
    method TimeoutElapsed() returns (timedOut: bool)
      modifies this
      ensures Current() == Step(compareText, old(Current()), Event.TimeoutElapsed)
      ensures timedOut <==> old(phase) == AwaitingPong
    {
      timedOut := phase == AwaitingPong;
      if timedOut {
        timeouts := timeouts + 1;
        phase := Ended;
      }
    }

    /** Cancellation of the current wait and what the loop does about it. */
    method CancelWait()
      modifies this
      ensures Current() == Cancelled(old(Current()))
    {
      if phase == Delaying {
        phase := Ended;
      } else if phase == AwaitingPong {
        if stopped || outerCancelled {
          phase := Ended;
        } else {
          phase := Delaying;
          cycles := cycles + 1;
        }
      }
    }
  }
}
