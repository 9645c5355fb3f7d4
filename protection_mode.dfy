/** The protection-mode screen (ModoProtecaoScreen): a recording counter that a
    one-second interval advances, shown through `formatTime`. */
module ProtectionMode {
  import TimeFormat

  /** The screen's `recordingTime` state. The interval runs for as long as the
      screen is mounted and is never cleared by the counter itself. */
  class RecordingScreen {
    var recordingTime: nat

    constructor ()
      ensures recordingTime == 0
    {
      recordingTime := 0;
    }

    /** One firing of the interval: the updater `prev => prev + 1`. */
    method Tick()
      modifies this
      ensures recordingTime == old(recordingTime) + 1
    {
      recordingTime := recordingTime + 1;
    }

    /** `n` firings of the interval in a row. */
    method RunTicks(n: nat)
      modifies this
      ensures recordingTime == old(recordingTime) + n
    {
      var i := 0;
      while i < n
        invariant 0 <= i <= n
        invariant recordingTime == old(recordingTime) + i
      {
        Tick();
        i := i + 1;
      }
    }

    /** The label the screen shows for the current counter. */
    function Label(): (t: string)
      reads this
      ensures TimeFormat.ParseTime(t) == TimeFormat.Some(recordingTime)
      ensures recordingTime < 6000 ==> |t| == 5 && t[2] == ':'
    {
      TimeFormat.FormatTimeRoundTrip(recordingTime);
      if recordingTime < 6000 then
        TimeFormat.FormatTimeShape(recordingTime);
        TimeFormat.FormatTime(recordingTime)
      else
        TimeFormat.FormatTime(recordingTime)
    }
  }

  /** A freshly mounted screen after `n` seconds: the counter equals `n`. */
  method ElapsedAfter(n: nat) returns (elapsed: nat)
    ensures elapsed == n
  {
    var screen := new RecordingScreen();
    screen.RunTicks(n);
    elapsed := screen.recordingTime;
  }

  /** The label shown `n` seconds after mounting reads back as `n`, and below
      100 minutes it has the fixed `mm:ss` shape. */
  method LabelAfter(n: nat) returns (shown: string)
    ensures TimeFormat.ParseTime(shown) == TimeFormat.Some(n)
    ensures n < 6000 ==> |shown| == 5 && shown[2] == ':'
  {
    var screen := new RecordingScreen();
    screen.RunTicks(n);
    shown := screen.Label();
  }
}
