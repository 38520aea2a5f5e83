# Pulse lifecycle model

A Dafny model of the pulse lifecycle of the Market Pulse dashboard: a countdown that opens a
timed capture window (a *pulse*), a rare "super" variant of the window, at most one capture per
window, and a credit balance the capture is settled against. The repository holds two versions
of the machine, and the model keeps both:

- `src/hooks/usePulseTimer.js`, the reusable hook, becomes the class `PulseTimer.PulseTimer`
  (file `pulse_timer.dfy`). It draws a countdown in `[minDuration, maxDuration]` (demo mode:
  15 to 60 seconds, a 15-second window), warns once at 10 seconds, opens a window at 0 with a
  drawn super flag, accepts one capture per window at cost 3 (super) or 1, and on close clears
  every flag and draws a new countdown.
- `src/pages/Dashboard.jsx`, which inlines the same machine, becomes the class
  `Dashboard.MarketPulse` (file `dashboard.dfy`). It adds the credit balance (15 to start, a
  capture is refused when the credits do not cover its cost, a purchase adds 10) and the
  history of the session's captures, newest first. Its pure helpers are the sentiment colour
  buckets and the three-entry "Recent Captures" view.
- The `MM:SS` formatter, written identically in both files, is `TimeFormat.FormatTime`
  (file `time_format.dfy`) with a parser `TimeFormat.ParseTime` as its partner.
- The draw `Math.floor(Math.random() * (hi - lo + 1)) + lo` and the credit cost, shared by both
  versions, are in `PulseRules` (file `pulse_rules.dfy`).

Timers become steps the caller drives: `Tick` is one run of the countdown effect together with
the one-second timer it schedules, and `ClosePulse` is the window timeout firing. Random draws
are parameters: `draw` is the integer part `Math.floor(Math.random() * span)`, restricted by
`PulseRules.ValidDraw` to the values JavaScript can produce (including the case of bounds given
the wrong way round, which the hook does not reject), and `superDraw` is the outcome of the
`Math.random() < chance` comparison. The capture date, the asset symbol and the random profit
string of a history record are parameters too.

Each class has a `Valid()` invariant that every method keeps: a window is captured or super
only while it is open; in the hook an open window has a run-out countdown and the countdown
stays within what a draw can produce; in the dashboard the countdown stays in `[0, 60]` and
the balance equals 15 plus 10 per purchase minus the cost of every recorded capture, and is
never negative.

In these respects the model follows the code as written:
- A refused capture is not split into "not open" and "already captured". The hook returns
  `success = false` for both. The dashboard does nothing for both.
- Bounds with `minDuration > maxDuration` are not rejected. The draw then lies in
  `[maxDuration + 1, minDuration]`.
- The warning threshold is the constant 10.
- In the hook, the countdown stays at 0 while a window is open.
- In the dashboard, opening a window draws the next countdown at once, so the countdown runs
  on while the window is open. If it runs out again before the window closes, the window is
  opened again with a freshly drawn super flag; its captured flag is kept.
- There is no configuration validation.

## Model

| member | source | states |
|---|---|---|
| `PulseRules.Draw` | src/hooks/usePulseTimer.js:33-35 | a drawn countdown lies in `[minDuration, maxDuration]` inclusive when the bounds are ordered, and in `[maxDuration + 1, minDuration]` otherwise |
| `PulseRules.DrawFor` | src/hooks/usePulseTimer.js:45 | every value of `[minDuration, maxDuration]` is the outcome of some admissible draw, so the draw covers the whole range |
| `PulseTimer.Effective` | src/hooks/usePulseTimer.js:26-30 | demo mode replaces the options by ordered bounds; the constructor's demo-mode `ensures` gives the values 15, 60 and 15 |
| `PulseTimer.PulseTimer.constructor` | src/hooks/usePulseTimer.js:15-38 | the hook starts with the effective options, a drawn countdown and all three flags false, satisfying the invariant; in demo mode the bounds are 15 and 60 and the window 15 whatever was passed, so the first countdown is in `[15, 60]`; with the defaults it is in `[300, 900]` with a 30-second window |
| `PulseTimer.PulseTimer.WellOrderedBounds` | src/hooks/usePulseTimer.js:33-50 | with `0 <= minDuration <= maxDuration` the countdown is always in `[0, maxDuration]` and an open window shows 0 |
| `PulseTimer.PulseTimer.StartNewTimer` | src/hooks/usePulseTimer.js:44-50 | `startNewTimer`/`resetTimer` draws a countdown in range and clears active, captured and super whatever the prior phase |
| `PulseTimer.PulseTimer.FormattedTime` | src/hooks/usePulseTimer.js:130-132 | the returned `formattedTime` reads back as the current countdown |
| `PulseTimer.PulseTimer.CapturePulse` | src/hooks/usePulseTimer.js:60-74 | succeeds iff a window is open and not yet captured; on success marks it captured and reports cost 3 for super, 1 otherwise; a refusal reports cost 0 and changes nothing, so a second capture in the same window fails |
| `PulseTimer.PulseTimer.Tick` | src/hooks/usePulseTimer.js:77-119 | a positive countdown drops by exactly 1 and the only notice is the warning, sent iff the countdown is exactly 10 and no window is open; at 0 a closed window opens with the drawn super flag and the start notice carries `duration = pulseDuration`; an open window waits unchanged with no notice |
| `PulseTimer.PulseTimer.ClosePulse` | src/hooks/usePulseTimer.js:98-110 | the timeout, only scheduled by an opening, reports captured and super as they stood at the close; all three flags are cleared and a new countdown in range is drawn |
| `TimeFormat.FormatTime` | src/hooks/usePulseTimer.js:53-57 | no contract of its own; `FormatTimeShape` states its shape and `FormatTimeRoundTrip` its read-back |
| `TimeFormat.ParseTime` | src/pages/Dashboard.jsx:148-152 | no contract of its own; the partner of `FormatTime`, see `FormatTimeRoundTrip` |
| `TimeFormat.IntToString` | src/hooks/usePulseTimer.js:56 | no contract of its own; `toString` of any integer, with a minus sign for a negative one; for non-negative numbers see `Decimal` and `DecimalRoundTrip`, and the `FormattedTime` line under "## Left out" for negative ones |
| `TimeFormat.Field` | src/hooks/usePulseTimer.js:56 | no contract of its own; `n.toString().padStart(2, '0')`, see `FieldValue` and `FormatTimeShape` |
| `TimeFormat.Remainder60` | src/hooks/usePulseTimer.js:55 | JavaScript's `%`: for non-negative seconds the usual remainder below 60, for negative seconds a non-positive remainder congruent to the dividend |
| `TimeFormat.Decimal` | src/hooks/usePulseTimer.js:56 | `toString` of a non-negative integer is a non-empty digit string, one digit exactly below 10, without a leading zero |
| `TimeFormat.PadTwo` | src/hooks/usePulseTimer.js:56 | `padStart(2, '0')` keeps the string as its suffix, fills with zeros and reaches length two |
| `TimeFormat.DecimalRoundTrip` | src/hooks/usePulseTimer.js:56 | the digits `toString` writes read back as the number |
| `TimeFormat.PadTwoValue` | src/hooks/usePulseTimer.js:56 | padding with zeros keeps a digit string a digit string of the same value |
| `TimeFormat.FieldValue` | src/hooks/usePulseTimer.js:56 | a field `n.toString().padStart(2, '0')` of a non-negative number is a digit string of at least two characters worth `n`, exactly two when `n < 100` |
| `TimeFormat.FormatTimeShape` | src/hooks/usePulseTimer.js:53-57 | for `s >= 0` the display is `mins:secs`: a minute field of at least two digits worth `mins`, a colon, a second field of exactly two digits worth `secs < 60`, with `mins * 60 + secs == s`; below 100 minutes the display has exactly five characters |
| `TimeFormat.ParseJoinedFields` | src/hooks/usePulseTimer.js:56 | the display of `mins` minutes and `secs < 60` seconds reads back as `mins * 60 + secs` |
| `TimeFormat.FormatTimeRoundTrip` | src/pages/Dashboard.jsx:148-152 | parsing the display of a non-negative countdown gives back the countdown |
| `TimeFormat.FormatTimeInjective` | src/pages/Dashboard.jsx:148-152 | two different non-negative countdowns never show the same display |
| `Dashboard.MarketPulse.constructor` | src/pages/Dashboard.jsx:52-61 | the page starts with a 30-second countdown, 15 credits, no window and an empty history |
| `Dashboard.MarketPulse.Tick` | src/pages/Dashboard.jsx:95-122 | a positive countdown drops by exactly 1 and the only toast is the approaching one, raised iff the countdown is exactly 10 and no window is open; at 0 the window opens with the drawn super flag, the activation toast is raised and the countdown is redrawn in `[15, 60]` |
| `Dashboard.MarketPulse.ClosePulse` | src/pages/Dashboard.jsx:125-145 | the timeout, set only while a window is open, clears active, captured and super, and reports a miss iff the window was not captured |
| `Dashboard.MarketPulse.CapturePulse` | src/pages/Dashboard.jsx:155-183 | nothing changes unless the window is open and uncaptured; cost is 3 for super, 1 otherwise; with too few credits it is refused and credits, flag and history are unchanged; otherwise credits drop by exactly the cost, the window is captured and exactly one record is put in front of the history; the balance never goes negative |
| `Dashboard.MarketPulse.BuyCredits` | src/pages/Dashboard.jsx:195-198 | credits rise by exactly 10 and nothing else in the pulse state changes |
| `Dashboard.MarketPulse.Recent` | src/pages/Dashboard.jsx:592 | the page shows exactly three captures, the session's own first, newest first |
| `Dashboard.RecentCaptures` | src/pages/Dashboard.jsx:592 | `slice(0, 3)` of the session history followed by the earlier ones: at most three entries, session captures first in their order, then the earlier ones |
| `Dashboard.RecentCapturesFull` | src/pages/Dashboard.jsx:592 | with the three mock captures behind it the view always has three entries, and only session captures once the session has three |
| `Dashboard.MarketPulse.CreditsBounds` | src/pages/Dashboard.jsx:157-166 | the balance is at least the starting credits plus purchases minus three per recorded capture, and at most that minus one per capture |
| `PulseRules.CreditCost` | src/hooks/usePulseTimer.js:66 | no contract of its own; the cost used by both `CapturePulse` methods, see their rows and `TotalCostBounds` |
| `Dashboard.TotalCost` | src/pages/Dashboard.jsx:157-166 | no contract of its own; see `TotalCostBounds` and the balance invariant of `MarketPulse` |
| `Dashboard.TotalCostBounds` | src/pages/Dashboard.jsx:157-166 | each recorded capture cost between 1 and 3 credits, so the credits spent lie between the number of captures and three times it |
| `Dashboard.CountAtMost` | src/pages/Dashboard.jsx:186-192 | counting the breakpoints a value has reached gives at most as many buckets as breakpoints |
| `Dashboard.CountAtMostMonotone` | src/pages/Dashboard.jsx:186-192 | a higher value has reached at least as many breakpoints |
| `Dashboard.SentimentBucket` | src/pages/Dashboard.jsx:186-192 | every value falls in one of the five buckets |
| `Dashboard.BucketBreakpoints` | src/pages/Dashboard.jsx:187-191 | the buckets are exactly below 30, `[30, 45)`, `[45, 55)`, `[55, 70)` and 70 or more |
| `Dashboard.SentimentColor` | src/pages/Dashboard.jsx:186-192 | `getSentimentColor` is total and returns the palette colour of the value's bucket |
| `Dashboard.SentimentMonotone` | src/pages/Dashboard.jsx:186-192 | the bucket map is monotone |
| `Dashboard.PaletteDistinct` | src/pages/Dashboard.jsx:186-192 | the colour determines the bucket |

## Left out

- `Math.random()`: the draws are parameters. The float comparison with `superPulseChance`, the
  frequency of super pulses and rounding in `Math.random() * span` are not modelled.
- `setTimeout`/`clearTimeout`, effect clean-up and the timeout ref: the caller drives `Tick` and
  `ClosePulse`. Real time, the length of a window (`pulseDuration`, 15 seconds on the page) and
  the cancellation of pending timers are not captured. Neither is the restart of the page's
  window timeout when a capture re-runs the effect.
- PulseTimer.PulseTimer.Tick: models the intended single opening per window. The hook's effect
  also re-runs when `isPulseActive` or `isPulseCaptured` changes while the countdown is 0. Each
  re-run draws a new super flag, calls `onPulseStart` again (usePulseTimer.js:92-95), so the
  hook sends at least two start notices per window, and schedules another close. The effect's
  dependencies (lines 127-128) also hold `onPulseStart`, `onPulseEnd` and `onWarning`, so it
  re-runs whenever the caller passes new callback identities. At a countdown of 10 with no
  window open such a re-run repeats the warning and restarts the one-second timer. These
  artefacts are left out.
- PulseTimer.PulseTimer.ClosePulse: reports `wasCaptured` as the captured flag at the close.
  The hook's callback reads the flag as it was when its effect ran. The close timeout is set by
  the opening run, when `isPulseCaptured` is still false, so that close reports
  `wasCaptured: false` even after a successful capture. Only the extra close scheduled by a
  re-run after the capture reads true. The model reports the flag at the close, the evident
  intent, and does not model the stale read.
- PulseTimer.PulseTimer.FormattedTime: states the read-back only for a non-negative countdown.
  For negative seconds `FormatTime` follows JavaScript (a minus sign, a non-positive remainder),
  but nothing is proved about that display.
- PulseTimer.PulseTimer.StartNewTimer: as `resetTimer`, the model drops an aborted open
  window silently. In the hook the window's pending close timeout (usePulseTimer.js:98) is not
  cleared by `resetTimer`; at the earliest the clean-up of the next countdown effect run
  (lines 121-126) clears it, and until then it can still fire, call `onPulseEnd` with
  `wasCaptured` false and draw another countdown through `startNewTimer` (lines 104-110).
- Dashboard.SentimentColor: values are mathematical reals. JavaScript's `NaN` (every comparison
  false, so `'text-green-500'`, which breaks monotonicity) and the infinities are not modelled;
  the page only passes the integer mock values of its assets.
- The callbacks `onPulseStart`, `onPulseEnd` and `onWarning` become returned notices. The toast
  texts, their 3-second auto-hide and the focus on the capture button are presentation.
- The capture date (`toLocaleDateString`) and the profit string (`toFixed`) are opaque strings
  given to `CapturePulse`. The selected asset is given as its symbol.
- JSX rendering, the sidebar, theme and leaderboard toggles, and the mock assets and
  leaderboard are left out. Only the mock user's credits and capture history are kept.
- `src/hooks/useToast.js`, `src/context/ThemeContext.jsx`, `src/context/UserContext.jsx`,
  `src/App.tsx` and `tailwind.config.js` are UI state, persistence, composition and build
  configuration, and are not part of this model.
