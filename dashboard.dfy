/**
 * The dashboard's inlined pulse machine: the same countdown and window, settled against a
 * credit balance, with a history of the session's captures, plus the two pure helpers of
 * the page (sentiment colour and the recent-captures view).
 *
 * `Tick` is one run of the countdown effect with the one-second timer it schedules,
 * `ClosePulse` the 15-second window timeout. Toast messages become the values the steps
 * return; the capture date, the asset symbol and the random profit string are parameters.
 */
module Dashboard {
  import opened Wrappers
  import opened PulseRules

  /** The new countdown drawn when a window opens: 15 to 60 seconds. */
  const MinDelay := 15
  const MaxDelay := 60

  /** The first countdown of a session, the mock user's starting credits, and the size of a purchase. */
  const InitialCountdown := 30
  const InitialCredits := 15
  const PurchaseAmount := 10

  /** One captured pulse; date and profit are display strings computed outside the model. */
  datatype CaptureRecord = CaptureRecord(date: string, asset: string, profit: string, superPulse: bool)

  /** The mock user's earlier captures, shown after the session's own. */
  const MockCaptureHistory: seq<CaptureRecord> := [
    CaptureRecord("25/04", "AAPL", "+2.3%", false),
    CaptureRecord("26/04", "MSFT", "+1.5%", false),
    CaptureRecord("27/04", "GOOGL", "+3.1%", false)
  ]

  /** The toast a countdown step raises. */
  datatype TickSignal = PulseApproaching | PulseActivated(superPulse: bool)

  /** The result of a capture attempt: nothing happens, not enough credits, or captured at a cost. */
  datatype CaptureOutcome = Ignored | NotEnoughCredits(needed: nat) | Captured(cost: nat)

  /** Credits spent on a history of captures. */
  function TotalCost(history: seq<CaptureRecord>): nat
  {
    if history == [] then 0 else CreditCost(history[0].superPulse) + TotalCost(history[1..])
  }

  /** Every capture costs between 1 and 3 credits. */
  lemma {:induction false} TotalCostBounds(history: seq<CaptureRecord>)
    ensures |history| <= TotalCost(history) <= 3 * |history|
  {
    if history != [] {
      TotalCostBounds(history[1..]);
    }
  }

  /**
   * The "Recent Captures" view: the session's captures, newest first, then the mock
   * history, cut to three entries.
   */
  function RecentCaptures(pulseHistory: seq<CaptureRecord>, earlier: seq<CaptureRecord>): (r: seq<CaptureRecord>)
    ensures |r| == if |pulseHistory| + |earlier| < 3 then |pulseHistory| + |earlier| else 3
    ensures forall i :: 0 <= i < |r| && i < |pulseHistory| ==> r[i] == pulseHistory[i]
    ensures forall i :: |pulseHistory| <= i < |r| ==> r[i] == earlier[i - |pulseHistory|]
  {
    var all := pulseHistory + earlier;
    if |all| < 3 then all else all[..3]
  }

  /** With the mock history behind it the view always holds three entries, and only session captures once there are three. */
  lemma RecentCapturesFull(pulseHistory: seq<CaptureRecord>)
    ensures |RecentCaptures(pulseHistory, MockCaptureHistory)| == 3
    ensures |pulseHistory| >= 3 ==> RecentCaptures(pulseHistory, MockCaptureHistory) == pulseHistory[..3]
  {
  }

  /** The sentiment breakpoints, in increasing order. */
  const Breakpoints: seq<real> := [30.0, 45.0, 55.0, 70.0]

  /** The colour classes, one per bucket, from most bearish to most bullish. */
  const Palette: seq<string> := ["text-red-500", "text-orange-500", "text-yellow-500", "text-green-400", "text-green-500"]

  /** The number of breakpoints at or below `value`. */
  function CountAtMost(breakpoints: seq<real>, value: real): (n: nat)
    ensures n <= |breakpoints|
  {
    if breakpoints == [] then 0
    else (if breakpoints[0] <= value then 1 else 0) + CountAtMost(breakpoints[1..], value)
  }

  /** The sentiment bucket of a value: how many breakpoints it has reached. */
  function SentimentBucket(value: real): (b: nat)
    ensures b < |Palette|
  {
    CountAtMost(Breakpoints, value)
  }

  /** A higher value never falls in a lower bucket. */
  lemma {:induction false} CountAtMostMonotone(breakpoints: seq<real>, v: real, w: real)
    requires v <= w
    ensures CountAtMost(breakpoints, v) <= CountAtMost(breakpoints, w)
  {
    if breakpoints != [] {
      CountAtMostMonotone(breakpoints[1..], v, w);
    }
  }

  lemma SentimentMonotone(v: real, w: real)
    requires v <= w
    ensures SentimentBucket(v) <= SentimentBucket(w)
  {
    CountAtMostMonotone(Breakpoints, v, w);
  }

  /** The buckets spelled out: below 30, below 45, below 55, below 70, and the rest. */
  lemma BucketBreakpoints(value: real)
    ensures SentimentBucket(value) == 0 <==> value < 30.0
    ensures SentimentBucket(value) == 1 <==> 30.0 <= value < 45.0
    ensures SentimentBucket(value) == 2 <==> 45.0 <= value < 55.0
    ensures SentimentBucket(value) == 3 <==> 55.0 <= value < 70.0
    ensures SentimentBucket(value) == 4 <==> 70.0 <= value
  {
    var b := Breakpoints;
    assert b[1..] == [45.0, 55.0, 70.0];
    assert b[1..][1..] == [55.0, 70.0];
    assert b[1..][1..][1..] == [70.0];
    assert b[1..][1..][1..][1..] == [];
    assert CountAtMost([70.0], value) == if 70.0 <= value then 1 else 0;
    assert CountAtMost([55.0, 70.0], value) == (if 55.0 <= value then 1 else 0) + CountAtMost([70.0], value);
    assert CountAtMost([45.0, 55.0, 70.0], value) == (if 45.0 <= value then 1 else 0) + CountAtMost([55.0, 70.0], value);
  }

  /** `getSentimentColor`: the colour of the bucket the value falls in. */
  function SentimentColor(value: real): (c: string)
    ensures c == Palette[SentimentBucket(value)]
  {
    BucketBreakpoints(value);
    if value < 30.0 then "text-red-500"
    else if value < 45.0 then "text-orange-500"
    else if value < 55.0 then "text-yellow-500"
    else if value < 70.0 then "text-green-400"
    else "text-green-500"
  }

  /** Different buckets have different colours, so the colour tells the bucket. */
  lemma PaletteDistinct(v: real, w: real)
    requires SentimentColor(v) == SentimentColor(w)
    ensures SentimentBucket(v) == SentimentBucket(w)
  {
  }

  class MarketPulse {
    var timeRemaining: int
    var pulseActive: bool
    var pulseCaptured: bool
    var superPulse: bool
    var availableCredits: int
    var pulseHistory: seq<CaptureRecord>

    /** How many times credits were bought; it exists only to state where the balance comes from. */
    ghost var purchases: nat

    /**
     * A window is captured or super only while it is open, the countdown stays in
     * `[0, 60]`, and the balance is the starting credits plus every purchase minus the cost
     * of every capture in the history, and never negative.
     */
    ghost predicate Valid()
      reads this
    {
      && (pulseCaptured ==> pulseActive)
      && (superPulse ==> pulseActive)
      && 0 <= timeRemaining <= MaxDelay
      && availableCredits == InitialCredits + PurchaseAmount * purchases - TotalCost(pulseHistory)
      && availableCredits >= 0
    }

    /** Every capture cost 1 to 3 credits, so the balance lies between these bounds. */
    lemma CreditsBounds()
      requires Valid()
      ensures availableCredits >= InitialCredits + PurchaseAmount * purchases - 3 * |pulseHistory|
      ensures availableCredits <= InitialCredits + PurchaseAmount * purchases - |pulseHistory|
    {
      TotalCostBounds(pulseHistory);
    }

    constructor ()
      ensures Valid()
      ensures timeRemaining == InitialCountdown && availableCredits == InitialCredits
      ensures !pulseActive && !pulseCaptured && !superPulse && pulseHistory == []
    {
      timeRemaining := InitialCountdown;
      pulseActive, pulseCaptured, superPulse := false, false, false;
      availableCredits := InitialCredits;
      pulseHistory := [];
      purchases := 0;
    }

    /** The three newest captures shown on the page. */
    function Recent(): (r: seq<CaptureRecord>)
      reads this
      ensures |r| == 3
      ensures forall i :: 0 <= i < 3 && i < |pulseHistory| ==> r[i] == pulseHistory[i]
    {
      RecentCaptures(pulseHistory, MockCaptureHistory)
    }

    /**
     * One run of the countdown effect followed by the timer it schedules: the warning at
     * exactly 10 seconds while no window is open, a decrement while time remains, and at 0
     * a window opens with the drawn super flag and the countdown is drawn anew in `[15, 60]`.
     * The countdown does not wait for the window; a window still open when it runs out
     * again is opened once more with a new super flag.
     */
    method Tick(draw: int, superDraw: bool) returns (signal: Option<TickSignal>)
      requires Valid() && ValidDraw(MinDelay, MaxDelay, draw)
      modifies this`timeRemaining, this`pulseActive, this`superPulse
      ensures Valid()
      ensures signal == Some(PulseApproaching) <==> old(timeRemaining) == 10 && !old(pulseActive)
      ensures old(timeRemaining) > 0 ==>
        && timeRemaining == old(timeRemaining) - 1
        && pulseActive == old(pulseActive) && superPulse == old(superPulse)
        && signal == (if old(timeRemaining) == 10 && !old(pulseActive) then Some(PulseApproaching) else None)
      ensures old(timeRemaining) <= 0 ==>
        && pulseActive && superPulse == superDraw
        && timeRemaining == Draw(MinDelay, MaxDelay, draw) && MinDelay <= timeRemaining <= MaxDelay
        && signal == Some(PulseActivated(superDraw))
    {
      signal := None;
      if timeRemaining <= 10 && timeRemaining > 0 && !pulseActive {
        if timeRemaining == 10 {
          signal := Some(PulseApproaching);
        }
      }
      if timeRemaining <= 0 {
        superPulse := superDraw;
        pulseActive := true;
        signal := Some(PulseActivated(superDraw));
        timeRemaining := Draw(MinDelay, MaxDelay, draw);
        return;
      }
      timeRemaining := timeRemaining - 1;
    }

    /**
     * The window timeout, which is only set while a window is open: clears the three flags;
     * `missed` says the window closed uncaptured.
     */
    method ClosePulse() returns (missed: bool)
      requires Valid() && pulseActive
      modifies this`pulseActive, this`pulseCaptured, this`superPulse
      ensures Valid()
      ensures missed == !old(pulseCaptured)
      ensures !pulseActive && !pulseCaptured && !superPulse
    {
      missed := !pulseCaptured;
      pulseActive := false;
      pulseCaptured := false;
      superPulse := false;
    }

    /**
     * `capturePulse`: nothing happens unless a window is open and uncaptured; it is refused,
     * changing nothing, when the credits do not cover the cost; otherwise the cost is debited,
     * the window marked captured and one record put in front of the history.
     */
    method CapturePulse(date: string, asset: string, profit: string) returns (outcome: CaptureOutcome)
      requires Valid()
      modifies this`pulseCaptured, this`availableCredits, this`pulseHistory
      ensures Valid()
      ensures !(pulseActive && !old(pulseCaptured)) ==> outcome == Ignored && unchanged(this)
      ensures pulseActive && !old(pulseCaptured) && old(availableCredits) < CreditCost(superPulse) ==>
        outcome == NotEnoughCredits(CreditCost(superPulse)) && unchanged(this)
      ensures pulseActive && !old(pulseCaptured) && old(availableCredits) >= CreditCost(superPulse) ==>
        && outcome == Captured(CreditCost(superPulse))
        && availableCredits == old(availableCredits) - CreditCost(superPulse)
        && pulseCaptured
        && pulseHistory == [CaptureRecord(date, asset, profit, superPulse)] + old(pulseHistory)
    {
      if pulseActive && !pulseCaptured {
        var creditCost := CreditCost(superPulse);
        if availableCredits < creditCost {
          return NotEnoughCredits(creditCost);
        }
        pulseCaptured := true;
        availableCredits := availableCredits - creditCost;
        var newCapture := CaptureRecord(date, asset, profit, superPulse);
        pulseHistory := [newCapture] + pulseHistory;
        return Captured(creditCost);
      }
      return Ignored;
    }

    /** `buyCredits`: ten more credits, nothing else in the pulse state changes. */
    method BuyCredits()
      requires Valid()
      modifies this`availableCredits, this`purchases
      ensures Valid()
      ensures availableCredits == old(availableCredits) + PurchaseAmount
      ensures purchases == old(purchases) + 1
    {
      availableCredits := availableCredits + PurchaseAmount;
      purchases := purchases + 1;
    }
  }
}
