# Responsive scroll settings and breakpoint handling of a scroll-driven landing page

The landing page drives its pinned, scrubbed sections through ScrollTrigger
and ScrollSmoother. Two parts of `src/index.ts` hold logic of their own,
outside those libraries, and this project models them in Dafny:

- **`getScrollSettings(baseSettings, isMobile)`**, the responsive settings adapter.
  Off mobile it returns a copy of the base record. On mobile it does three things:
  - It rewrites the first `+=<digits>%` in `end` to `+=<Math.round(p * 0.9)>%`.
  - It turns a truthy `scrub` into `1` (for `true`) or `min(1.5 * s, 5)` (for a number).
  - It defaults a missing or zero `anticipatePin` to `0.2`.
- **The resize handler's settle step.** Once resizing has settled, the handler
  compares the mobile class of the previous width with that of the current width.
  A width is mobile when it is at most 767. On a change, the handler:
  - toggles the `is-mobile` body class;
  - refreshes ScrollTrigger;
  - if a smoother exists, kills it and creates a new one.

  In every case the handler then records the current width.

Modules:

- `Breakpoints` (`breakpoints.dfy`): the breakpoint constants and the mobile test.
- `Decimal` (`decimal.dfy`): digit strings. `Parse` is what `parseInt` does to a
  run of digits. `Show` is how a template literal writes a non-negative integer.
  Both round trips are proved.
- `EndRewrite` (`end_rewrite.dfy`): the regular expression `\+=(\d+)%`.
  - `MatchesAt` states what the expression matches at an index.
  - `TryMatchAt` and `FirstMatch` find the leftmost match, and their contracts
    tie them to `MatchesAt`.
  - `Round90` is `Math.round(p * 0.9)` computed exactly on integers.
  - `RewriteEnd` is the `replace` call.
- `ScrollSettings` (`scroll_settings.dfy`): the settings record and `GetScrollSettings`.
- `CallSites` (`call_sites.dfy`): the four settings records that the page passes
  to the adapter, worked through on mobile, plus rounding cases.
- `ResizeHandler` (`resize_handler.dfy`): the effects of one settled resize, as
  the function `SettleActions`. The class `Handler` holds the handler's closure
  state and the page state it changes, and its `Settle` method is proved
  against `SettleActions`.
- `Wrappers` (`wrappers.dfy`): `Option`, for fields that may be absent.

On the zero-length pin: `Round90(p) == 0` exactly when `p == 0`. So on mobile
the rewrite never turns a non-zero pin distance into `+=0%`. For example,
`+=1%` becomes `+=1%`, because 0.9 rounds to 1.

## Model

| member | source | states |
|---|---|---|
| `Decimal.Parse` | src/index.ts:25 | `parseInt` of the captured digit run; its behaviour is stated by `Decimal.ParseShow`, `Decimal.ShowParse`, `Decimal.ParseZero` and `Decimal.LeadingZerosDropped` |
| `Decimal.Show` | src/index.ts:26 | the text written for the rounded percentage is a canonical decimal: non-empty, all digits, no leading zero |
| `Decimal.ParseShow` | src/index.ts:25-26 | reading back the written percentage gives the number written |
| `Decimal.ParseZero` | src/index.ts:25 | `parseInt` of a digit run is 0 exactly when every digit is '0' |
| `Decimal.ShowParse` | src/index.ts:25-26 | a canonical digit run is written back exactly as it was read |
| `Decimal.LeadingZerosDropped` | src/index.ts:25-26 | leading zeros are not kept: "007" reads as 7 and is written "7" |
| `EndRewrite.DigitRun` | src/index.ts:24 | `\d+` takes the longest run of digits: every character of the run is a digit and the next one is not |
| `EndRewrite.DigitRunExact` | src/index.ts:24 | a digit run that ends on a non-digit is the longest run |
| `EndRewrite.MatchUnique` | src/index.ts:24 | a match of `\+=(\d+)%` at an index has only one length, because greedy `\d+` cannot give a digit back to '%' |
| `EndRewrite.TryMatchAt` | src/index.ts:24 | returns `Some(k)` exactly when the expression matches at the index with a `k`-digit group |
| `EndRewrite.FirstMatch` | src/index.ts:24 | finds the leftmost match at or after an index, with no match before it, or reports that there is none |
| `EndRewrite.Round90` | src/index.ts:25 | the result is `Math.round(p * 0.9)`, i.e. `r - 0.5 <= 0.9 p < r + 0.5`; it is at most `p`, and it is 0 only when `p` is 0 |
| `EndRewrite.ScaledIncrement` | src/index.ts:24-27 | the replacement is `+=`, then the canonical decimal of `round(0.9 p)`, then `%` |
| `EndRewrite.RewriteEnd` | src/index.ts:24-27 | the non-global `end.replace(/\+=(\d+)%/, …)`; its behaviour is stated by `EndRewrite.RewriteNoMatch` (no match: unchanged), `EndRewrite.RewriteLeftmost` (only the leftmost match is replaced, the rest kept) and `EndRewrite.RewriteResult` (the new percentage is `round(0.9 p)` at the same place) |
| `EndRewrite.RewriteNoMatch` | src/index.ts:24 | an `end` in which the expression matches nowhere is returned unchanged |
| `EndRewrite.RewriteLeftmost` | src/index.ts:24-27 | with the leftmost match at `i`, the text before and after the match is kept and only the match is replaced |
| `EndRewrite.PrefixNoMatch` | src/index.ts:24 | changing the text from a '+' onwards creates no match before that '+' |
| `EndRewrite.RewriteResult` | src/index.ts:24-27 | the rewritten `end` has its leftmost match at the same index; its percentage is `round(0.9 p)`, never more than `p` |
| `ScrollSettings.Truthy` | src/index.ts:30 | the `if (settings.scrub)` test: an absent scrub, `false` and 0 are falsy, everything else truthy; `ScrollSettings.MobileScrub` and `ScrollSettings.GetScrollSettings` state that the adjustment keeps it |
| `ScrollSettings.MobileScrub` | src/index.ts:30-32 | truthiness is kept; `true` becomes 1; a non-zero number becomes `min(1.5 s, 5)`, so it is at most 5, and a scrub in (0, 5] does not decrease; falsy values are unchanged |
| `ScrollSettings.MobileAnticipatePin` | src/index.ts:35 | the result is never 0; a non-zero value is kept; an absent or zero value becomes 0.2 |
| `ScrollSettings.GetScrollSettings` | src/index.ts:17-39 | `trigger`, `start` and `pin` are always copied; off mobile the result equals the input; on mobile `end` is `RewriteEnd` of the base `end`, `scrub` is `MobileScrub` of the base scrub (for a truthy number exactly `min(1.5 s, 5)`, stated as the smaller of the two), and `anticipatePin` is the base value if non-zero, else 0.2 |
| `ScrollSettings.MobileEnd` | src/index.ts:24-27 | on mobile, `end` is rewritten at its leftmost match only, and the new percentage is no larger |
| `ScrollSettings.MobileEndUnmatched` | src/index.ts:24 | on mobile, an `end` without `+=<digits>%` is kept |
| `CallSites.RewriteNoIncrement` | src/index.ts:24 | "top top" and "bottom bottom" have no increment and are kept |
| `CallSites.RewriteRoundsUp` | src/index.ts:25 | `+=111%` becomes `+=100%` (99.9 rounds to 100) |
| `CallSites.RewriteDropsLeadingZeros` | src/index.ts:25-26 | `+=007%` becomes `+=6%` |
| `CallSites.LandingEnd` | src/index.ts:112 | `+=200%` becomes `+=180%` |
| `CallSites.HomeScrollEnd` | src/index.ts:187 | `+=650%` becomes `+=585%` |
| `CallSites.MeetAnybodyEnd` | src/index.ts:475 | `+=350%` becomes `+=315%` |
| `CallSites.ReadyPlayerEnd` | src/index.ts:585 | `+=300%` becomes `+=270%` |
| `CallSites.LandingOnMobile` | src/index.ts:109-119 | the landing record on mobile: end `+=180%`, scrub 2.25, anticipatePin 0.5 kept |
| `CallSites.HomeScrollOnMobile` | src/index.ts:184-194 | the home-scroll record on mobile: end `+=585%`, scrub 3.75, anticipatePin 0.5 kept |
| `CallSites.MeetAnybodyOnMobile` | src/index.ts:472-481 | the meet-anybody record on mobile: end `+=315%`, scrub `true` becomes 1, anticipatePin defaults to 0.2 |
| `CallSites.ReadyPlayerOnMobile` | src/index.ts:582-591 | the ready-player record on mobile (scrub 3): end `+=270%`, scrub 4.5, anticipatePin defaults to 0.2 |
| `Breakpoints.IsMobile` | src/index.ts:10-14 | a width is mobile when it is at most `breakpoints.mobile` (767), as tested at src/index.ts:752-753; `ResizeHandler.SettleActions` and `ResizeHandler.Handler.Settle` state the handler's behaviour in terms of it |
| `ResizeHandler.Crosses` | src/index.ts:755 | the crossing test `(wasMobile && !isMobile) \|\| (!wasMobile && isMobile)`, i.e. the two widths differ in `IsMobile`; `ResizeHandler.SettleActions` states that no effect happens without it |
| `ResizeHandler.SettleActions` | src/index.ts:748-772 | nothing happens unless the width crosses 767; on a crossing ScrollTrigger is refreshed; `is-mobile` is added exactly when going to mobile and removed exactly when leaving it |
| `ResizeHandler.KillThenCreate` | src/index.ts:763-768 | only the live smoother is killed, and the creation of its replacement comes right after the kill |
| `ResizeHandler.LegacySettleActions` | src/index.ts:634-658 | the uncalled top-level copy only refreshes ScrollTrigger, and does so exactly on a crossing |
| `ResizeHandler.LegacyRefreshesAlike` | src/index.ts:634-658 | both copies of the handler refresh on the same resizes |
| `ResizeHandler.SettleKeepsLog` | src/index.ts:765-768 | over the whole history, every kill is of an older smoother and is followed at once by the creation of the next one |
| `ResizeHandler.Handler.constructor` | src/index.ts:776-784 | start-up: `is-mobile` is set when the first width is mobile, smoother 0 exists, and the handler records the width |
| `ResizeHandler.Handler.Settle` | src/index.ts:748-772 | fires exactly `SettleActions` and logs it; records the current width every time; afterwards the body class matches the width; the smoother is replaced only on a crossing |

## Left out

- The 250 ms debounce (`clearTimeout`/`setTimeout`, src/index.ts:745-748, 772) is event-loop timing. Only the callback that runs once resizing settles is modelled. So "a burst of resizes causes at most one refresh, using the last width" is not stated.
- Timeline construction is calls into GSAP, SplitText, ScrambleText and matchMedia, whose behaviour is not part of this model. This covers `landingTimeline`, `createAnythingV2`, `meetAnybody`, `beAnyoneTl`, `readyPlayerTl`, `createSequentialScrambleAnimation`, `prepareTextForAnimation` and `gsap.utils.wrap`.
- DOM set-up is document plumbing and is not modelled. This covers `setupScrollSmoother`, the options passed to `ScrollSmoother.create` (including `smooth` depending on the width), the Webflow bootstrap and the console log. A smoother is modelled only by the order in which it was created.
- Numbers are exact reals, not IEEE-754 doubles. So `1.5 * s`, `0.2` and `0.9` are exact, and a NaN `scrub` or `anticipatePin` is not modelled.
- `EndRewrite.Round90`: `p * 0.9` is computed exactly, while the source computes it as an IEEE-754 double before `Math.round`. The two agree for percentages below about 10^15; above that the double product can land on a different side of a half (for p = 2055589928176706 the exact product ends in .4 but the double ends in .5), and `parseInt` itself is only exact below 2^53.
- `ScrollSettings.Settings`: only the six fields the adapter reads or writes are modelled. `scrub` is absent, a boolean or a number; other JavaScript types for it are not modelled. `end` is always a string, as at every call site.
- Fields other than the six that the spread operator also copies are not modelled.
- `ResizeHandler.Handler.constructor`: the body is assumed to start without the `is-mobile` class. The initial smoother is always present, as at src/index.ts:783.
- `window.smoother` can be absent in `SettleActions`. That case is kept, following the `if (window.smoother)` guard.
- The start-up refresh 200 ms after the timelines are built (src/index.ts:798-801) is timing and library calls, and is not modelled.
- `Breakpoints.Tablet` and `Breakpoints.Desktop` are declared as in src/index.ts:10-14, but no operation of the core reads them.
