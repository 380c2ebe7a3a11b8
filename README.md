# Club landing page: verified model of its interactive state

This project models, in Dafny, the small pieces of state logic inside the
landing page of a gaming club. The page itself is presentation; what is
modelled is what its components compute and how they update their state on
each click, timer tick or browser event:

- **Tariff calculator** (`Pricing`, pricing.dfy): the static table of seven
  tariff zones; the selected-zone lookup with a fallback to the first row;
  free slots, the availability percentage and its three colour bands
  (above 50%, above 20%, the rest); the total price; the hour counter
  clamped to [1, 24] by `−`/`+`, and the quick-select buttons 1, 2, 4, 8;
  the click guard that ignores full zones; and the unit word under the
  counter. The `Calculator` class holds the two state fields
  `selectedZone` and `hours`. Its methods are proved against the pure
  `Step` function. `RunConsistent` proves that no run of clicks from the
  initial state leaves [1, 24] or selects a full zone.
- **Zone carousel** (`Zones`, zones.dfy): the `Carousel` class with the
  active index over the seven showcase zones and the autoplay flag. It
  models next, previous, go-to, the autoplay toggle and the five-second
  tick. The lemmas cover the circular index arithmetic, including that `k`
  ticks advance by `k` modulo the list length.
- **Opening countdown** (`Hero`, hero.dfy): the split of a positive
  millisecond distance into days, hours, minutes and seconds. The split is
  proved in both directions: the parts recompose to the distance, and a
  normal countdown decomposes back to itself. The update is guarded by a
  positive distance. Two-digit padding is modelled with a decimal read-back
  lemma. The `HeroState` class holds the countdown and the one-pending-frame
  `ticking` flag of the scroll handler.
- **Header** (`Header`, header.dfy): the throttle wrapper (`Throttle` class
  with the closure's `lastExecTime` and pending trailing call). Beside it
  are the scroll rule (visible above 80% of the viewport height, scrolled
  above 85%, `isScrolled` kept when hidden), the mobile menu toggle and
  close, the close-on-wide-resize rule and the menu render condition.
- **Cursor trail** (`CursorTrail`, cursor_trail.dfy): the `Trail` class.
  It holds the pool of twenty particles as an `array`, the ring-buffer write
  index, the 8 ms mouse-move throttle and the hover scale. `Animate` is
  proved against the pure `Frame` function. `FramesLeaveOneLit` proves that,
  from a dark pool, at most one particle is ever set to opacity 1: the one
  written last. Every other particle is set to opacity 0.

`Arithmetic` (arithmetic.dfy) holds the uniqueness of Euclidean division,
which the index and time proofs use, and the circular next and previous
index shared by the carousel and the trail's ring buffer. `Wrappers` (wrappers.dfy) holds
`Option`.

Modelling choices:
- Integer values of the page (slots, hours, prices, milliseconds, viewport
  heights and widths) are unbounded integers. Scroll offsets are `real`,
  since browsers report subpixel positions. They are all small or
  non-negative where `/` and `%` are used, so Dafny's Euclidean division
  agrees with JavaScript's there.
- The availability percentage is an exact `real`. `BandByCounts` shows that
  its bands are the integer comparisons `free * 100 > 50 * total` and
  `free * 100 > 20 * total`.
- The header thresholds `0.8 * innerHeight` and `0.85 * innerHeight` are
  compared exactly by cross-multiplication (`scrollY * 100 > 80 *
  innerHeight`, with a fractional `scrollY`).
- Timers and listeners become methods that the environment calls once per
  tick or event. The clock (`Date.now`, `performance.now`), `window.scrollY`,
  `window.innerHeight`, `window.innerWidth` and the hover target are
  parameters of those methods.
- The opening time is a constructor parameter of `HeroState`. The source
  parses it as a local-time date string, so its value depends on the
  browser's time zone.
- The showcase carousel counts seven zones. Its descriptive records are
  not modelled.
- The countdown does not clamp at zero, but it never shows negative
  values either: it updates only while the distance is positive, and
  otherwise keeps the last value. The model follows the code, and `CountdownAfter` and
  `HeroState.Valid` show that the parts stay non-negative.

## Model

| member | source | states |
|---|---|---|
| `Pricing.Tariffs` | src/app/components/Pricing.tsx:44-150 | seven rows with distinct ids; every row has at least one slot, `0 <= occupied <= total` and a price entry; `vr` is first at 800 per hour with 7 free slots; `vip-2` is last and full |
| `Pricing.FindIndex` | src/app/components/Pricing.tsx:152 | finds the first row whose id matches, or reports that no row matches |
| `Pricing.SelectedZoneData` | src/app/components/Pricing.tsx:152 | the row whose id is the selected one, or the first row when none matches; always well formed |
| `Pricing.FreeSlots` | src/app/components/Pricing.tsx:153 | free slots lie in [0, total] for a well-formed row and are zero exactly when the zone is full |
| `Pricing.AvailabilityPercent` | src/app/components/Pricing.tsx:154 | lies in [0, 100] for a well-formed row, and times the total equals free slots times 100 |
| `Pricing.TotalPrice` | src/app/components/Pricing.tsx:155 | the price of a non-negative number of hours is non-negative |
| `Pricing.TotalPricePerHour` | src/app/components/Pricing.tsx:155 | total divided by hours is the first price entry's hourly price; one more hour adds one hourly price |
| `Pricing.BandOf` | src/app/components/Pricing.tsx:157-161 | high band exactly above 50%, low band exactly at or below 20% |
| `Pricing.StylesShareThresholds` | src/app/components/Pricing.tsx:157-167 | text colour, background, border and bar each give two percentages the same style exactly when they fall in the same band |
| `Pricing.AvailabilityColor` | src/app/components/Pricing.tsx:157-161 | the counter's text colour is the band's hue at shade 400 |
| `Pricing.AvailabilityBg` | src/app/components/Pricing.tsx:163-167 | the panel's gradient runs from the band's hue at 500/20 to the same hue at 500/5 |
| `Pricing.AvailabilityBorder` | src/app/components/Pricing.tsx:285-286 | the panel's border is the band's hue at 400/30 |
| `Pricing.AvailabilityBar` | src/app/components/Pricing.tsx:300-302 | the bar's gradient runs from the band's hue at 400 to the same hue at 600 |
| `Pricing.BandByCounts` | src/app/components/Pricing.tsx:154-161 | the bands of the percentage are `free*100 > 50*total`, then `free*100 > 20*total`, else low |
| `Pricing.FullZoneIsLow` | src/app/components/Pricing.tsx:200-201 | a full zone is always in the low band |
| `Pricing.DecrementHours` | src/app/components/Pricing.tsx:342 | never below 1, keeps [1, 24], and is one less or, at the floor, 1 |
| `Pricing.IncrementHours` | src/app/components/Pricing.tsx:360 | never above 24, keeps [1, 24], and is one more or, at the ceiling, 24 |
| `Pricing.HourButtonsInverse` | src/app/components/Pricing.tsx:342-360 | `−` at 1 and `+` at 24 change nothing; inside the range each button undoes the other |
| `Pricing.HourWord` | src/app/components/Pricing.tsx:353 | the unit word always begins with the stem `час`; for a positive count it is `час` exactly at 1, `часа` exactly for 2–4 and `часов` exactly from 5 on |
| `Pricing.HourWordAgreeing` | src/app/components/Pricing.tsx:353 | the word agrees with the Russian plural category of the count (one, few, many) |
| `Pricing.HourWordAgreesUpTo20` | src/app/components/Pricing.tsx:353 | on [1, 24] the page's word agrees with Russian grammar exactly for counts up to 20 |
| `Pricing.HourWordFrom21` | src/app/components/Pricing.tsx:353 | for every count from 21 to 24 the page says `часов`, which is not the agreeing word: `час` is due at 21 and `часа` at 22–24 |
| `Pricing.ClickedZone` | src/app/components/Pricing.tsx:212 | a click on a full zone keeps the selection; a click on any other zone selects it |
| `Pricing.Step` | src/app/components/Pricing.tsx:340-375 | a zone click leaves the hours alone and an hour button leaves the zone alone |
| `Pricing.InitialConsistent` | src/app/components/Pricing.tsx:40-41 | the initial state (`vr`, 2 hours) has hours in range and a zone with a free slot |
| `Pricing.StepConsistent` | src/app/components/Pricing.tsx:198-213 | every offered action keeps hours in [1, 24] and the selected zone with at least one free slot |
| `Pricing.RunConsistent` | src/app/components/Pricing.tsx:198-213 | any run of offered actions from a consistent state ends in a consistent state |
| `Pricing.Calculator.constructor` | src/app/components/Pricing.tsx:40-41 | starts at `vr` and 2 hours, consistent, total 1600 |
| `Pricing.Calculator.Zone` | src/app/components/Pricing.tsx:152 | the shown zone is always a well-formed row |
| `Pricing.Calculator.ClickZoneCard` | src/app/components/Pricing.tsx:212 | new state is `Step` with the click; consistency is kept |
| `Pricing.Calculator.Decrement` | src/app/components/Pricing.tsx:342 | new state is `Step` with `−`; consistency is kept |
| `Pricing.Calculator.Increment` | src/app/components/Pricing.tsx:360 | new state is `Step` with `+`; consistency is kept |
| `Pricing.Calculator.QuickSelect` | src/app/components/Pricing.tsx:369-374 | new state is `Step` with the quick value; consistency is kept |
| `Arithmetic.NextIndex` | src/app/components/Zones.tsx:149 | stays below n; moves to i+1, wrapping from the last index to 0 (the same step advances the cursor trail's write index, effects/CursorTrail.tsx line 102) |
| `Arithmetic.PrevIndex` | src/app/components/Zones.tsx:154 | stays below n; moves to i−1, wrapping from 0 to the last index; differs from i when n ≥ 2 (the same step finds the trail particle written on the previous frame, effects/CursorTrail.tsx line 94) |
| `Arithmetic.NextPrevInverse` | src/app/components/Zones.tsx:147-155 | previous after next, and next after previous, return to the same index |
| `Zones.Advance` | src/app/components/Zones.tsx:141 | any number of ticks keeps the index below n |
| `Zones.AdvanceIsModular` | src/app/components/Zones.tsx:137-145 | `k` ticks from i reach `(i + k) mod n` |
| `Zones.FullRound` | src/app/components/Zones.tsx:137-145 | n ticks come back to the starting zone |
| `Zones.Carousel.constructor` | src/app/components/Zones.tsx:38-39 | index 0, autoplay on |
| `Zones.Carousel.Tick` | src/app/components/Zones.tsx:137-145 | with autoplay on the index moves to the next one; with it off nothing changes; the flag is kept |
| `Zones.Carousel.NextZone` | src/app/components/Zones.tsx:147-150 | autoplay off, index moves to the next one, stays in [0, 7) |
| `Zones.Carousel.PrevZone` | src/app/components/Zones.tsx:152-155 | autoplay off, index moves to the previous one, stays in [0, 7) |
| `Zones.Carousel.GoToZone` | src/app/components/Zones.tsx:157-160 | autoplay off, index is exactly the chosen one |
| `Zones.Carousel.ToggleAutoPlay` | src/app/components/Zones.tsx:371 | flips autoplay and keeps the index |
| `Hero.Decompose` | src/app/components/Hero.tsx:36-39 | days ≥ 0, hours in [0, 23], minutes and seconds in [0, 59] |
| `Hero.DecomposeRecomposes` | src/app/components/Hero.tsx:36-39 | days·86400000 + hours·3600000 + minutes·60000 + seconds·1000 + (d mod 1000) = d |
| `Hero.DecomposeCompose` | src/app/components/Hero.tsx:36-39 | a normal countdown plus under a second decomposes back to itself |
| `Hero.CountdownAfter` | src/app/components/Hero.tsx:34-41 | no change when the distance is not positive; stays normal; otherwise the parts are the distance rounded down to whole seconds |
| `Hero.Decimal` | src/app/components/Hero.tsx:458 | `String(n)` is a non-empty digit string, one digit exactly below 10, with no leading zero from 10 on |
| `Hero.ParseDecimalOfDecimal` | src/app/components/Hero.tsx:458 | reading the digits of n back gives n |
| `Hero.PadStart` | src/app/components/Hero.tsx:458 | result is `width` long (or the input, if longer), ends with the input and starts with fill characters |
| `Hero.PadTwo` | src/app/components/Hero.tsx:458 | at least two digits; a leading zero exactly below 10, the plain decimal from 10 on |
| `Hero.PadTwoReadsBack` | src/app/components/Hero.tsx:458 | the padded cell reads back as its value |
| `Hero.HeroState.constructor` | src/app/components/Hero.tsx:18-23 | all four parts zero, no frame pending |
| `Hero.HeroState.CountdownTick` | src/app/components/Hero.tsx:30-42 | new countdown is `CountdownAfter` of the distance; parts stay non-negative and in range |
| `Hero.HeroState.Display` | src/app/components/Hero.tsx:446-458 | four cells, days first; each is its part padded to two digits (`String(v).padStart(2, '0')`, a leading zero exactly below 10) and reads back as that part |
| `Hero.HeroState.HandleScroll` | src/app/components/Hero.tsx:50-58 | schedules a frame exactly when none is pending; afterwards one is pending |
| `Hero.HeroState.AnimationFrame` | src/app/components/Hero.tsx:52-55 | records the scroll offset and clears the pending flag |
| `Header.ThrottleDecision` | src/app/components/Header.tsx:30-39 | runs at once exactly when `now − last ≥ delay`; otherwise the trailing run is due at `last + delay`, after a wait in (0, delay] when `now ≥ last` |
| `Header.Throttle.constructor` | src/app/components/Header.tsx:23-25 | no last run (time 0), nothing pending |
| `Header.Throttle.Call` | src/app/components/Header.tsx:27-40 | run-now records `now` and leaves any pending run; otherwise the pending run is replaced by one that captures `now`, and `lastExecTime` is kept |
| `Header.Throttle.Fire` | src/app/components/Header.tsx:32-34 | the trailing run sets `lastExecTime` to the captured time; nothing is pending |
| `Header.OnScroll` | src/app/components/Header.tsx:184-198 | visible exactly when `scrollY > 0.8·height`; when visible, scrolled exactly when `scrollY > 0.85·height`; when hidden, `isScrolled` and the menu are kept |
| `Header.SubpixelOffsetShows` | src/app/components/Header.tsx:186-190 | a fractional offset is compared exactly: 800.5 in a 1000-pixel viewport shows the header, 800 does not |
| `Header.ScrolledImpliesVisible` | src/app/components/Header.tsx:188-192 | past the 85% mark is past the 80% mark |
| `Header.OnResize` | src/app/components/Header.tsx:208-212 | a width above 768 closes the menu; otherwise nothing changes |
| `Header.ToggleMenu` | src/app/components/Header.tsx:218-220 | negates the open flag, keeps the rest |
| `Header.CloseMenu` | src/app/components/Header.tsx:222-224 | the menu is closed, the rest kept |
| `Header.MenuTransitions` | src/app/components/Header.tsx:218-224 | toggling twice is the identity; closing is idempotent and undoes an opening toggle |
| `Header.MenuShown` | src/app/components/Header.tsx:312 | the mobile menu is drawn only while it is open, and never while the header is hidden |
| `Header.MenuHiddenNotClosed` | src/app/components/Header.tsx:312 | scrolling above the threshold hides an open menu without closing it; scrolling down shows it again |
| `Header.HeaderState.constructor` | src/app/components/Header.tsx:173-175 | hidden, not scrolled, menu closed |
| `Header.HeaderState.HandleScroll` | src/app/components/Header.tsx:185-195 | new state is `OnScroll` of the old one |
| `Header.HeaderState.HandleResize` | src/app/components/Header.tsx:208-212 | new state is `OnResize` of the old one |
| `Header.HeaderState.ToggleMobileMenu` | src/app/components/Header.tsx:218-220 | new state is `ToggleMenu` of the old one |
| `Header.HeaderState.CloseMobileMenu` | src/app/components/Header.tsx:222-224 | new state is `CloseMenu` of the old one |
| `CursorTrail.Frame` | src/app/components/effects/CursorTrail.tsx:81-99 | slot i becomes the lit particle at the cursor, the previous slot fades to opacity 0 and scale 30%, every other slot is untouched |
| `CursorTrail.FrameKeepsOneLit` | src/app/components/effects/CursorTrail.tsx:85-99 | if only the previous slot may be lit, after a frame only slot i is lit |
| `CursorTrail.Frames` | src/app/components/effects/CursorTrail.tsx:81-104 | the write index stays in the pool over any number of frames |
| `CursorTrail.FramesLeaveOneLit` | src/app/components/effects/CursorTrail.tsx:81-104 | from a dark pool, after any run of frames at most one particle is set to opacity 1, the last one written, at the last cursor position; all others are set to opacity 0 |
| `CursorTrail.Trail.constructor` | src/app/components/effects/CursorTrail.tsx:26-30 | twenty hidden particles, index 0, cursor at (−100, −100), no update yet, not hovering |
| `CursorTrail.Trail.HandleMouseMove` | src/app/components/effects/CursorTrail.tsx:50-57 | a move is stored and the time advanced only when at least 8 ms have passed; otherwise nothing changes |
| `CursorTrail.Trail.HandleMouseOver` | src/app/components/effects/CursorTrail.tsx:59-64 | the hover flag is whether the target is interactive |
| `CursorTrail.Trail.CursorScale` | src/app/components/effects/CursorTrail.tsx:78 | 150% exactly while hovering, 100% otherwise |
| `CursorTrail.Trail.Animate` | src/app/components/effects/CursorTrail.tsx:66-104 | the pool becomes `Frame` of the old pool and index, the index advances by one modulo 20, and the slot just written is the only particle not set to opacity 0 |

## Findings

| source | as written | input that shows it | evidently intended | confidence | as-written member | corrected member |
|---|---|---|---|---|---|---|
| src/app/components/Pricing.tsx:353 | the word is `час` for 1, `часа` below 5, `часов` otherwise | 21 hours (also 22–24, all reachable with `+`) gives `21 часов`, `22 часов` | the count agrees with Russian plural rules: `21 час`, `22 часа` | not executed; medium (a grammar slip visible on the page, not a crash) | `Pricing.HourWord`, exhibited by `Pricing.HourWordFrom21` | `Pricing.HourWordAgreeing`, proved by `Pricing.HourWordAgreesUpTo20` |

## Left out

- The Three.js scene (model loading, lights, camera sway, frame-rate throttling) in Hero.tsx: foreign library calls and floating-point animation.
- The cursor's smoothing (`last + (target − last) · 0.2`): `Trail.Animate` takes the smoothed position as a parameter. The CSS transform and transition strings are not modelled either, only the opacity and scale they carry.
- The trail is not started on phones and tablets (a user-agent test): browser detection is outside the model.
- Timer and listener wiring (`setInterval`, `setTimeout`, `requestAnimationFrame`, `addEventListener` and their clean-ups) is not modelled. Neither is which throttle wraps which handler, nor their delays (100 ms for scroll, 200 ms for resize): a `Throttle` takes its delay as a parameter, and a throttled call and the handler it runs are separate steps.
- `Throttle`: the arguments a trailing run passes on are not modelled, only the times. After a timer fires, the source keeps its stale id; the model clears it, because cancelling a fired timer has no effect.
- Floating point: percentages are exact reals and the header thresholds are exact integer comparisons, so rounding at the boundaries is not modelled. No row of the table sits on a boundary.
- Image fallbacks on load errors and `toLocaleString` formatting of the total: browser- and locale-dependent output.
- The showcase zones' descriptive records (Zones.tsx) and all JSX, animation props and styles: presentation only.
- Contacts.tsx (static tables, a hover highlight, random particle positions), page.tsx and layout.tsx: Contacts.tsx is not part of this model, and the other two only compose components and set fonts.
- Particle fades: each particle carries a 0.3 s CSS opacity and transform transition (effects/CursorTrail.tsx line 90), so a particle set to opacity 0 stays on screen while it fades, and several fading particles make up the visible trail. The model records only the opacity each frame writes, the target of that transition, not what is on screen during it.
- `CursorTrail.Frame`: the lit and faded slots are stated only for pools of two or more particles. With one particle the source lights and fades the same slot in one frame; the pool always has twenty.
