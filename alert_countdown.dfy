/** The emergency-alert screen (AlertaScreen): a countdown from 30 that a
    one-second interval steps down; at the end the alert is marked as sent and
    the interval is cleared. Cancelling is a navigation away from the screen and
    is not a state of the countdown. */
module AlertCountdown {

  /** The initial value of `countdown`. */
  const Start: int := 30

  /** What one run of the updater passed to `setCountdown` produces: the next
      countdown, and whether this run marks the alert sent and clears the
      interval. */
  datatype Update = Update(next: int, send: bool)

  /** The updater `prev => prev <= 1 ? (send, 0) : prev - 1`. */
  function CountdownUpdate(prev: int): (u: Update)
    ensures u.next >= 0
    ensures u.send <==> prev <= 1
    ensures !u.send ==> u.next == prev - 1
    ensures u.send ==> u.next == 0
  {
    if prev <= 1 then Update(0, true) else Update(prev - 1, false)
  }

  /** The screen's state: the two hooks and whether the interval is still set. */
  datatype State = State(countdown: int, alertSent: bool, timerActive: bool)

  /** The state right after the screen mounts. */
  const Initial: State := State(Start, false, true)

  /** The state once the alert has been sent. */
  const Sent: State := State(0, true, false)

  /** The states reachable from Initial: the countdown stays in 0..30, the
      alert is sent exactly when it reaches 0, and the interval runs exactly
      while the alert is unsent. */
  predicate Valid(s: State) {
    0 <= s.countdown <= Start &&
    (s.alertSent <==> s.countdown == 0) &&
    (s.timerActive <==> !s.alertSent)
  }

  /** One second of wall-clock time. While the interval is set it runs the
      updater; once cleared, nothing fires and the state stays as it is. */
  function Step(s: State): (t: State)
    ensures Valid(s) ==> Valid(t)
    ensures s.alertSent ==> t.alertSent
    ensures !s.timerActive ==> t == s
  {
    if !s.timerActive then s
    else
      var u := CountdownUpdate(s.countdown);
      State(u.next, s.alertSent || u.send, !u.send)
  }

  /** The state after `k` seconds. */
  function Run(s: State, k: nat): State
  {
    if k == 0 then s else Step(Run(s, k - 1))
  }

  /** Every state reached from a valid state is valid; in particular the
      countdown is never negative. */
  lemma {:induction false} RunKeepsValid(s: State, k: nat)
    requires Valid(s)
    ensures Valid(Run(s, k)) && Run(s, k).countdown >= 0
  {
    if k > 0 {
      RunKeepsValid(s, k - 1);
    }
  }

  /** Before the 30th second the countdown shows `30 - k` and nothing is sent. */
  lemma {:induction false} CountingDown(k: nat)
    requires k < Start
    ensures Run(Initial, k) == State(Start - k, false, true)
  {
    if k > 0 {
      CountingDown(k - 1);
    }
  }

  /** From the 30th second on the alert is sent, the countdown is 0 and the
      interval is cleared; further seconds change nothing. */
  lemma {:induction false} SentFromThirtieth(k: nat)
    requires k >= Start
    ensures Run(Initial, k) == Sent
  {
    if k == Start {
      CountingDown(k - 1);
    } else {
      SentFromThirtieth(k - 1);
    }
  }

  /** The whole history from mounting: `countdown = max(0, 30 - k)` and the
      alert is sent exactly from the 30th second on. */
  lemma RunFromStart(k: nat)
    ensures Run(Initial, k).countdown == (if k < Start then Start - k else 0)
    ensures Run(Initial, k).alertSent <==> k >= Start
    ensures Run(Initial, k).timerActive <==> k < Start
  {
    if k < Start {
      CountingDown(k);
    } else {
      SentFromThirtieth(k);
    }
  }

  /** The updater is idempotent at 0: running it again on a finished countdown
      still yields 0 and "sent", so even a tick after the interval is cleared
      could not undo the alert. */
  lemma UpdateIdempotentAtZero(prev: int)
    requires prev <= 1
    ensures CountdownUpdate(CountdownUpdate(prev).next) == CountdownUpdate(prev)
  {
  }

  /** The screen itself: the `countdown` and `alertSent` hooks and the interval. */
  class AlertScreen {
    var countdown: int
    var alertSent: bool
    var timerActive: bool

    function Snapshot(): State
      reads this
    {
      State(countdown, alertSent, timerActive)
    }

    /** Mounting: both hooks at their initial values and the interval set. */
    constructor ()
      ensures Snapshot() == Initial
    {
      countdown := Start;
      alertSent := false;
      timerActive := true;
    }

    /** One second: the interval fires if it is still set. */
    method Tick()
      modifies this
      ensures Snapshot() == Step(old(Snapshot()))
    {
      if timerActive {
        if countdown <= 1 {
          alertSent := true;
          timerActive := false;
          countdown := 0;
        } else {
          countdown := countdown - 1;
        }
      }
    }

    /** `n` seconds in a row. */
    method RunTicks(n: nat)
      modifies this
      ensures Snapshot() == Run(old(Snapshot()), n)
    {
      var i := 0;
      while i < n
        invariant 0 <= i <= n
        invariant Snapshot() == Run(old(Snapshot()), i)
      {
        Tick();
        i := i + 1;
      }
    }
  }

  /** What a freshly mounted screen shows after `n` seconds. */
  method CountdownAfter(n: nat) returns (countdown: int, alertSent: bool)
    ensures countdown == (if n < Start then Start - n else 0)
    ensures alertSent <==> n >= Start
  {
    var screen := new AlertScreen();
    screen.RunTicks(n);
    RunFromStart(n);
    countdown, alertSent := screen.countdown, screen.alertSent;
  }
}
