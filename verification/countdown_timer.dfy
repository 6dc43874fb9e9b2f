/**
 * The ramen-timer countdown: a count of 10 ms ticks, starting at 18000
 * (three minutes), and whether the periodic timer is running. The timer
 * fires `do_countdown` only while it runs; the buttons call start, stop
 * and reset.
 */
module CountdownTimer {
  /** The count `reset_count` restores: 18000 ticks of 10 ms. */
  const InitialCount: int := 18000

  datatype TimerState = TimerState(count: int, running: bool)

  /** The state the widget keeps while the timer is in use: the count
      stays within [0, 18000] and a running timer has time left. */
  predicate Valid(s: TimerState)
  {
    0 <= s.count <= InitialCount && (s.running ==> s.count > 0)
  }

  /** `do_countdown`: one tick off the count; the timer stops once the
      count is no longer positive. */
  function Tick(s: TimerState): (t: TimerState)
    ensures t.count == s.count - 1
    ensures t.running <==> s.running && t.count > 0
    ensures Valid(s) && s.running ==> Valid(t)
  {
    var count := s.count - 1;
    TimerState(count, if count <= 0 then false else s.running)
  }

  /** `start_countdown`: the timer starts only when time is left. */
  function Start(s: TimerState): (t: TimerState)
    ensures t.count == s.count
    ensures t.running <==> s.running || s.count > 0
    ensures Valid(s) ==> Valid(t)
  {
    if s.count > 0 then TimerState(s.count, true) else s
  }

  /** `stop_countdown`: the count is kept. */
  function Stop(s: TimerState): (t: TimerState)
    ensures t.count == s.count && !t.running
    ensures Valid(s) ==> Valid(t)
  {
    TimerState(s.count, false)
  }

  /** `reset_count`: the count goes back to 18000; a running timer keeps
      running. */
  function Reset(s: TimerState): (t: TimerState)
    ensures t.count == InitialCount && t.running == s.running
    ensures Valid(s) ==> Valid(t)
  {
    TimerState(InitialCount, s.running)
  }

  /** What can happen to the widget: a timeout of its timer or a click. */
  datatype Event = Timeout | StartClicked | StopClicked | ResetClicked

  /** One event; a timeout only reaches the widget while the timer runs. */
  function Step(s: TimerState, e: Event): (t: TimerState)
    ensures Valid(s) ==> Valid(t)
  {
    match e
    case Timeout => if s.running then Tick(s) else s
    case StartClicked => Start(s)
    case StopClicked => Stop(s)
    case ResetClicked => Reset(s)
  }

  /** The state after a sequence of events. */
  function Run(s: TimerState, events: seq<Event>): TimerState
    decreases |events|
  {
    if |events| == 0 then s else Run(Step(s, events[0]), events[1..])
  }

  /** The freshly constructed widget. */
  function Initial(): (s: TimerState)
    ensures Valid(s) && s.count == InitialCount && !s.running
  {
    TimerState(InitialCount, false)
  }

  /** No sequence of clicks and timeouts leaves the valid states: the
      count never goes negative and never exceeds 18000. */
  lemma {:induction false} RunValid(s: TimerState, events: seq<Event>)
    requires Valid(s)
    ensures Valid(Run(s, events))
    decreases |events|
  {
    if |events| > 0 {
      RunValid(Step(s, events[0]), events[1..]);
    }
  }

  /** k timeouts in a row. */
  function Timeouts(k: nat): (events: seq<Event>)
    ensures |events| == k && forall i :: 0 <= i < k ==> events[i] == Timeout
  {
    seq(k, _ => Timeout)
  }

  /** A running timer with c ticks left keeps running for c - 1 timeouts,
      one tick off per timeout. */
  lemma {:induction false} CountsDown(c: int, k: nat)
    requires k < c
    ensures Run(TimerState(c, true), Timeouts(k)) == TimerState(c - k, true)
    decreases k
  {
    if k > 0 {
      assert Timeouts(k)[1..] == Timeouts(k - 1);
      assert Step(TimerState(c, true), Timeout) == TimerState(c - 1, true);
      CountsDown(c - 1, k - 1);
    }
  }

  /** The c-th timeout brings the count to zero and stops the timer. */
  lemma CountdownFinishes(c: int)
    requires c > 0
    ensures Run(TimerState(c, true), Timeouts(c)) == TimerState(0, false)
  {
    CountsDown(c, c - 1);
    RunSplit(TimerState(c, true), Timeouts(c - 1), [Timeout]);
    assert Timeouts(c - 1) + [Timeout] == Timeouts(c);
  }

  /** Running events one batch after another. */
  lemma {:induction false} RunSplit(s: TimerState, a: seq<Event>, b: seq<Event>)
    ensures Run(s, a + b) == Run(Run(s, a), b)
    decreases |a|
  {
    if |a| > 0 {
      assert (a + b)[0] == a[0];
      assert (a + b)[1..] == a[1..] + b;
      RunSplit(Step(s, a[0]), a[1..], b);
    } else {
      assert a + b == b;
    }
  }

  /** Starting from the constructed widget: the countdown lasts exactly
      18000 timeouts (180 s at 10 ms), then the timer is stopped. */
  lemma FullCountdown()
    ensures Run(Initial(), [StartClicked] + Timeouts(InitialCount)) == TimerState(0, false)
  {
    RunSplit(Initial(), [StartClicked], Timeouts(InitialCount));
    CountdownFinishes(InitialCount);
  }

  /** With the count at zero, start has no effect. */
  lemma StartAtZero(s: TimerState)
    requires Valid(s) && s.count == 0
    ensures Start(s) == s && !s.running
  {
  }

  /** The countdown widget: the count and the state of its timer. */
  class CountDownWidget {
    var count: int
    var running: bool

    function State(): TimerState
      reads this
    {
      TimerState(count, running)
    }

    /** The constructor ends in `reset_count` with the timer stopped. */
    constructor ()
      ensures State() == Initial()
    {
      running := false;
      count := InitialCount;
    }

    method DoCountdown()
      modifies this
      ensures State() == Tick(old(State()))
    {
      count := count - 1;
      if count <= 0 {
        StopCountdown();
      }
    }

    method StartCountdown()
      modifies this
      ensures State() == Start(old(State()))
    {
      if count > 0 {
        running := true;
      }
    }

    method StopCountdown()
      modifies this
      ensures State() == Stop(old(State()))
    {
      running := false;
    }

    method ResetCount()
      modifies this
      ensures State() == Reset(old(State()))
    {
      count := InitialCount;
    }
  }
}
