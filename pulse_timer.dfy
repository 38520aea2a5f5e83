/**
 * The reusable pulse hook: a countdown drawn in `[minDuration, maxDuration]`, a one-shot
 * warning at 10 seconds, a window that opens at 0 with a drawn "super" flag, at most one
 * capture per window, and a close that clears every flag and draws a new countdown.
 *
 * The hook's timers become explicit steps driven by the caller: `Tick` is one run of the
 * countdown effect together with the one-second timer it schedules, and `ClosePulse` is the
 * window timeout firing. Random draws are parameters (see `PulseRules`).
 */
module PulseTimer {
  import opened Wrappers
  import opened PulseRules
  import TimeFormat

  /** The hook's timing options, in seconds. */
  datatype Options = Options(minDuration: int, maxDuration: int, pulseDuration: int)

  /** Defaults of the hook: 5 to 15 minutes of countdown, a 30-second window. */
  const DefaultOptions := Options(300, 900, 30)

  /** Demo mode replaces whatever was passed with a 15 to 60 second countdown and a 15-second window. */
  const DemoOptions := Options(15, 60, 15)

  /** The number of seconds before opening at which the warning fires. */
  const WarningAt := 10

  /** The options the hook runs with. */
  function Effective(options: Options, demoMode: bool): (c: Options)
    ensures demoMode ==> c.minDuration <= c.maxDuration
  {
    if demoMode then DemoOptions else options
  }

  /** The notifications the hook sends to its caller. */
  datatype Notice =
    | Warning
    | PulseStart(isSuperPulse: bool, duration: int)
    | PulseEnd(wasCaptured: bool, isSuperPulse: bool)

  /** What `capturePulse` returns. */
  datatype CaptureResult = CaptureResult(success: bool, isSuperPulse: bool, creditCost: int)

  function MinInt(a: int, b: int): int { if a <= b then a else b }

  class PulseTimer {
    const minDuration: int
    const maxDuration: int
    const pulseDuration: int

    var timeRemaining: int
    var isPulseActive: bool
    var isPulseCaptured: bool
    var isSuperPulse: bool

    /**
     * A window is captured or super only while it is open, it is open only once the
     * countdown has run out, and the countdown stays within what a draw can produce
     * (and above 0 once it started there).
     */
    ghost predicate Valid()
      reads this
    {
      && (isPulseCaptured ==> isPulseActive)
      && (isSuperPulse ==> isPulseActive)
      && (isPulseActive ==> timeRemaining <= 0)
      && MinInt(0, DrawLow(minDuration, maxDuration)) <= timeRemaining <= DrawHigh(minDuration, maxDuration)
    }

    /** The hook's initial state: a fresh countdown and no window. */
    constructor (options: Options, demoMode: bool, draw: int)
      requires ValidDraw(Effective(options, demoMode).minDuration, Effective(options, demoMode).maxDuration, draw)
      ensures Valid()
      ensures minDuration == Effective(options, demoMode).minDuration
      ensures maxDuration == Effective(options, demoMode).maxDuration
      ensures pulseDuration == Effective(options, demoMode).pulseDuration
      ensures timeRemaining == Draw(minDuration, maxDuration, draw)
      ensures !isPulseActive && !isPulseCaptured && !isSuperPulse
      ensures demoMode ==>
        minDuration == 15 && maxDuration == 60 && pulseDuration == 15 && 15 <= timeRemaining <= 60
      ensures !demoMode && options == DefaultOptions ==>
        pulseDuration == 30 && 300 <= timeRemaining <= 900
    {
      var c := Effective(options, demoMode);
      minDuration, maxDuration, pulseDuration := c.minDuration, c.maxDuration, c.pulseDuration;
      timeRemaining := Draw(c.minDuration, c.maxDuration, draw);
      isPulseActive, isPulseCaptured, isSuperPulse := false, false, false;
    }

    /** With bounds `0 <= minDuration <= maxDuration` the countdown stays in `[0, maxDuration]` and an open window shows 0. */
    lemma WellOrderedBounds()
      requires Valid() && 0 <= minDuration <= maxDuration
      ensures 0 <= timeRemaining <= maxDuration
      ensures isPulseActive ==> timeRemaining == 0
    {
    }

    /** `startNewTimer`, also exported as `resetTimer`: a fresh countdown and no window, whatever the phase. */
    method StartNewTimer(draw: int)
      requires Valid() && ValidDraw(minDuration, maxDuration, draw)
      modifies this
      ensures Valid()
      ensures timeRemaining == Draw(minDuration, maxDuration, draw)
      ensures !isPulseActive && !isPulseCaptured && !isSuperPulse
    {
      timeRemaining := Draw(minDuration, maxDuration, draw);
      isPulseActive := false;
      isPulseCaptured := false;
      isSuperPulse := false;
    }

    /** The `formattedTime` the hook returns. */
    function FormattedTime(): (r: string)
      reads this
      ensures timeRemaining >= 0 ==> TimeFormat.ParseTime(r) == Some(timeRemaining)
    {
      if timeRemaining >= 0 then
        TimeFormat.FormatTimeRoundTrip(timeRemaining);
        TimeFormat.FormatTime(timeRemaining)
      else
        TimeFormat.FormatTime(timeRemaining)
    }

    /** `capturePulse`: succeeds exactly when a window is open and not yet captured. */
    method CapturePulse() returns (r: CaptureResult)
      requires Valid()
      modifies this`isPulseCaptured
      ensures Valid()
      ensures r.success == (isPulseActive && !old(isPulseCaptured))
      ensures r.isSuperPulse == isSuperPulse
      ensures r.success ==> isPulseCaptured && r.creditCost == CreditCost(isSuperPulse)
      ensures !r.success ==> isPulseCaptured == old(isPulseCaptured) && r.creditCost == 0
    {
      if isPulseActive && !isPulseCaptured {
        isPulseCaptured := true;
        return CaptureResult(true, isSuperPulse, CreditCost(isSuperPulse));
      }
      return CaptureResult(false, isSuperPulse, 0);
    }

    /**
     * One run of the countdown effect followed by the timer it schedules: the warning at
     * exactly 10 seconds while no window is open, a decrement while time remains, and at 0
     * the opening of a window with the drawn super flag. While a window is open the
     * countdown waits for `ClosePulse`.
     */
    method Tick(superDraw: bool) returns (notice: Option<Notice>)
      requires Valid()
      modifies this`timeRemaining, this`isPulseActive, this`isSuperPulse
      ensures Valid()
      ensures notice == Some(Warning) <==> old(timeRemaining) == WarningAt && !old(isPulseActive)
      ensures old(timeRemaining) > 0 ==>
        && timeRemaining == old(timeRemaining) - 1
        && isPulseActive == old(isPulseActive) && isSuperPulse == old(isSuperPulse)
        && notice == (if old(timeRemaining) == WarningAt && !old(isPulseActive) then Some(Warning) else None)
      ensures old(timeRemaining) <= 0 && !old(isPulseActive) ==>
        && isPulseActive && isSuperPulse == superDraw && timeRemaining == old(timeRemaining)
        && notice == Some(PulseStart(superDraw, pulseDuration))
      ensures old(timeRemaining) <= 0 && old(isPulseActive) ==> unchanged(this) && notice == None
    {
      notice := None;
      if timeRemaining == WarningAt && !isPulseActive {
        notice := Some(Warning);
      }
      if timeRemaining <= 0 {
        if !isPulseActive {
          isSuperPulse := superDraw;
          isPulseActive := true;
          notice := Some(PulseStart(superDraw, pulseDuration));
        }
        return;
      }
      timeRemaining := timeRemaining - 1;
    }

    /**
     * The window timeout, which only an opening schedules: clears every flag, reports whether the window was captured and
     * whether it was super as they stood at the close, and starts a new countdown.
     */
    method ClosePulse(draw: int) returns (notice: Notice)
      requires Valid() && isPulseActive && ValidDraw(minDuration, maxDuration, draw)
      modifies this
      ensures Valid()
      ensures notice == PulseEnd(old(isPulseCaptured), old(isSuperPulse))
      ensures timeRemaining == Draw(minDuration, maxDuration, draw)
      ensures !isPulseActive && !isPulseCaptured && !isSuperPulse
    {
      notice := PulseEnd(isPulseCaptured, isSuperPulse);
      isPulseActive := false;
      isPulseCaptured := false;
      isSuperPulse := false;
      StartNewTimer(draw);
    }
  }
}
