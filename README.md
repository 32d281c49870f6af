# Interactive logic of the concierge marketing site, modelled in Dafny

The site is a single-page React application. Almost all of it is static content, styling and
animation settings. This project models the few pieces of it that carry state or a rule:

- **Page shell** (`app.dfy`, module `App`): the `activeSection` and `selectedService` state
  cells, explicit navigation to a section (`scrollToSection`, `handleBookNow`,
  `handleBookService`), and the scroll-spy `handleScroll`. The scroll-spy computes the probe
  point `scrollY + innerHeight / 2`. It then walks the seven sections in registration order
  (home, about, team, testimonials, services, catalog, contact), skips null refs, and makes the
  first section whose half-open interval `[top, top + height)` holds the probe active. If no
  section matches, it keeps the previous value.
- **Navigation bar** (`navigation.dfy`, module `Navigation`): the highlight rule, which compares
  an item's id with `activeSection`.
- **Testimonial carousel** (`testimonials.dfy`, module `Testimonials`): wrap-around paging over
  five entries, the swipe classifier (threshold 10000 on `|offset| * velocity`), and the dots.
- **Particle field** (`particle_system.dfy`, module `Particles`): a pool of 40 particles, their
  creation ranges, the per-frame update (drift, ageing, recycling at the bottom of the
  canvas), the frame loop over the pool, and the resize handler.
- **Count-up figure** (`stats_bar.dfy`, module `StatsBar`): each frame shows
  `floor(value * progress)` until progress reaches 1. The final frame shows `value` and
  requests no further frame.
- **Typewriter** (`typewriter.dfy`, module `Typewriter`): the start guard, the interval that
  shows growing prefixes and stops after `|text| + 1` ticks, and the cursor rule.
- **Language switcher** (`language_switcher.dfy`, module `LanguageSwitcher`): the
  three-language table, the lookup with English as fallback, `changeLanguage`, and the menu
  flag.
- **Contact form** (`contact.dfy`, module `Contact`): the initial record, the single-field
  change, submission, and the button label.

`wrappers.dfy` holds the `Option` type used for null refs, failed lookups and absent props.

Inputs from the browser are parameters:
- layout reads (`offsetTop`/`offsetHeight`, or `None` for a null ref);
- scroll position and window size;
- frame timestamps, as a sequence;
- `Math.random()` draws, each in `[0, 1)`.

The i18n library's language, the document element's `dir`/`lang` attributes and local
storage are fields of the switcher. Screen offsets, velocities, timestamps and durations are
`real` (exact arithmetic). Canvas and window sizes are `int`.

Behaviour worth noting:
- A particle is recycled when its life counter exceeds its lifespan (`life > maxLife`,
  src/components/ParticleSystem.tsx:44), and `maxLife` is a real number.
- When no section holds the probe, `activeSection` keeps its value (src/App.tsx:89-98).
- `handleScroll` calls `setActiveSection` on every match. React's skipping of equal updates is
  not modelled.

Several rows below rely on specification functions that have no row of their own:
`Particles.Step` (one update, src/components/ParticleSystem.tsx:39-48), `Particles.Spawn` (a
new particle, src/components/ParticleSystem.tsx:29-36), `App.ActiveAfterScroll` (the scroll
handler's outcome, src/App.tsx:85-98), `Testimonials.SwipePower` (src/components/Testimonials.tsx:86-88)
and `StatsBar.Progress` (src/components/ProfessionalStatsBar.tsx:25). `Particle.Update`,
`StepCases`, the `Particle` constructor, `ActiveAfterScrollCases`, `ClassifySwipe` and
`AnimateCases` state what they compute. The same holds for these smaller helpers, each used
inside other rows' contracts: `App.Probe` (src/App.tsx:87), `App.Navigable`
(src/App.tsx:69-70), `Particles.OrWindow` (src/components/ParticleSystem.tsx:29-30, 46-47),
`StatsBar.BelowOne` (src/components/ProfessionalStatsBar.tsx:27), `Typewriter.CursorVisible`
(src/components/TypewriterText.tsx:32), `Typewriter.Typewriter.WillStart`
(src/components/TypewriterText.tsx:13), `Navigation.Highlighted` (src/components/Navigation.tsx:50),
`LanguageSwitcher.ActiveItems` (src/components/LanguageSwitcher.tsx:110-111) and
`Contact.InitialService` (src/components/Contact.tsx:14).

## Model

| member | source | states |
|---|---|---|
| App.FirstHit | src/App.tsx:89-97 | the position found is a mounted section whose half-open interval holds the probe |
| App.KeyIndex | src/App.tsx:69 | the lookup of a section name among the registered keys finds its position, or reports that it is not a key |
| App.FirstHitIsFirstMatch | src/App.tsx:89-96 | the search returns position `i` exactly when slot `i` is mounted and holds the probe and no earlier slot does (first match, null refs skipped, stop at the first match) |
| App.FirstHitNone | src/App.tsx:89-98 | the search finds nothing exactly when no mounted section holds the probe |
| App.ActiveAfterScrollCases | src/App.tsx:85-98 | after a scroll event the active section is the key of the first match, and it is the previous value when nothing matches |
| App.ScrollIsIdempotent | src/App.tsx:85-99 | a second scroll event on the same layout and scroll position leaves the active section unchanged |
| App.EmptySectionNeverMatches | src/App.tsx:93 | a section of zero (or negative) height is never selected by scrolling |
| App.StackedPicksContainingSection | src/App.tsx:89-96 | in a stacked layout the section whose interval holds the probe is the one chosen, so a probe exactly at `top + height` selects the next section |
| App.HomeAtTop | src/App.tsx:87-96 | scroll 0, viewport 800, home at [0, 800) and about at [800, 1600): home is active |
| App.AboutAfterScrolling | src/App.tsx:87-96 | the same layout at scroll 500 (probe 900): about is active |
| App.Shell.constructor | src/App.tsx:40-41 | initially `activeSection` is "home" and `selectedService` is empty |
| App.Shell.ScrollToSection | src/App.tsx:68-74 | the active section becomes `section` exactly when it is a registered key with a mounted ref; otherwise nothing changes |
| App.Shell.BookNow | src/App.tsx:77 | navigates to "contact" (when mounted) and leaves the selected service alone |
| App.Shell.BookService | src/App.tsx:79-82 | sets the selected service, then navigates to "contact" |
| App.Shell.HandleScroll | src/App.tsx:85-99 | the loop with its early exit leaves exactly the scroll-spy outcome for the probe `scrollY + innerHeight / 2` and does not touch the selected service |
| Navigation.HighlightIsUnique | src/components/Navigation.tsx:10-51 | at most one item is highlighted; exactly one when the active section has an item; none while "testimonials" is active |
| Navigation.NavItemsAreSections | src/components/Navigation.tsx:10-46 | every navigation item names a registered section, so clicking it navigates whenever that section is mounted |
| Testimonials.NextIndex | src/components/Testimonials.tsx:92-97 | the new index is always in `[0, 5)`, and it is `prev + d` whenever that is in range |
| Testimonials.WrapsAtEnds | src/components/Testimonials.tsx:94-95 | a step forward from 4 gives 0, a step back from 0 gives 4 |
| Testimonials.StepsAreInverse | src/components/Testimonials.tsx:90-98 | a step forward then back, or back then forward, restores any in-range index |
| Testimonials.ForwardIsModular | src/components/Testimonials.tsx:90-98 | `n` forward steps from an in-range index reach `(i + n) mod 5` |
| Testimonials.FullCycle | src/components/Testimonials.tsx:90-98 | five forward steps return to the starting index |
| Testimonials.ClassifySwipe | src/components/Testimonials.tsx:154-163 | a swipe advances exactly when its power is below -10000, goes back exactly when above 10000, and does nothing otherwise |
| Testimonials.SwipeDirection | src/components/Testimonials.tsx:85-88 | advancing needs a leftward (negative) velocity and going back a rightward one; a drag with distance and speed both at most 100 stays put |
| Testimonials.Carousel.constructor | src/components/Testimonials.tsx:65-66 | initially the index and the direction are 0 |
| Testimonials.Carousel.Paginate | src/components/Testimonials.tsx:90-98 | sets the direction to the step and moves the index by it with wrap-around, keeping it in range |
| Testimonials.Carousel.DragEnd | src/components/Testimonials.tsx:154-164 | pages forward, pages back or changes nothing, as the swipe classification says |
| Testimonials.Carousel.SelectDot | src/components/Testimonials.tsx:241-244 | sets the index to the dot's and the direction to 1 for a higher index and -1 otherwise (including the current dot) |
| Particles.SpawnInRanges | src/components/ParticleSystem.tsx:31-36 | a new particle has life 0, lifespan in [200, 400), size in [1, 4), horizontal speed in [-0.25, 0.25) and vertical speed in [0.1, 0.4) |
| Particles.SpawnOnSurface | src/components/ParticleSystem.tsx:29-30 | a new particle starts on the surface: `0 <= x <= width` and `0 <= y <= height` |
| Particles.StepCases | src/components/ParticleSystem.tsx:39-48 | one update keeps life in `[0, maxLife]`; an ordinary tick moves by exactly the velocity and adds one to life; a recycling tick sets life to 0, `y` to `height + 10` and `x` to the draw times the width; size, speeds and lifespan never change |
| Particles.RunWithoutRecycle | src/components/ParticleSystem.tsx:39-42 | `n` updates without a recycle move a particle by exactly `n` times its velocity |
| Particles.RisesBetweenRecycles | src/components/ParticleSystem.tsx:39-42 | with an upward speed, at least one update and no recycle, a particle ends strictly higher than it started |
| Particles.RunKeepsLifeInRange | src/components/ParticleSystem.tsx:42-45 | over any number of updates the life counter stays within the unchanged lifespan |
| Particles.Particle.constructor | src/components/ParticleSystem.tsx:28-37 | a new particle gets the fields drawn from the random values and keeps the particle invariant |
| Particles.Particle.Update | src/components/ParticleSystem.tsx:39-48 | the fields after `update` are one step of the particle's motion and ageing, and the invariant is kept |
| Particles.ParticleSystem.constructor | src/components/ParticleSystem.tsx:12-68 | the canvas takes the window's size, and the pool holds exactly 40 distinct new particles made from the draws in order |
| Particles.ParticleSystem.Tick | src/components/ParticleSystem.tsx:72-81 | one frame updates every particle of the pool by exactly one step, adds and removes none, and keeps every invariant |
| Particles.ParticleSystem.Resize | src/components/ParticleSystem.tsx:85-88 | only the canvas size changes; every particle is untouched |
| StatsBar.Animate | src/components/ProfessionalStatsBar.tsx:23-33 | an unset start time becomes the frame's timestamp, and the start time never lies after it |
| StatsBar.RunFrames | src/components/ProfessionalStatsBar.tsx:23-35 | a run of frames shows at most one count per frame |
| StatsBar.AnimateCases | src/components/ProfessionalStatsBar.tsx:25-32 | below progress 1 the count is `floor(value * progress)`, in `[0, value)` for a positive value, and another frame is requested; otherwise the count is `value` and the chain ends |
| StatsBar.FirstFrameShowsZero | src/components/ProfessionalStatsBar.tsx:22-28 | the first frame after the start time is set has progress 0, shows 0 and requests another frame |
| StatsBar.NothingWithoutPendingFrame | src/components/ProfessionalStatsBar.tsx:19-20 | before the element is in view no frame is pending and nothing is ever shown |
| StatsBar.FollowingFrameNotSmaller | src/components/ProfessionalStatsBar.tsx:24-29 | a frame that requests another is followed by a count no smaller than its own |
| StatsBar.ShownIsNonDecreasing | src/components/ProfessionalStatsBar.tsx:25-31 | for non-decreasing timestamps, a non-negative value and a positive duration, each count shown is at most the next |
| StatsBar.ShownIsMonotone | src/components/ProfessionalStatsBar.tsx:25-31 | under the same conditions, any count shown is at most every later one |
| StatsBar.EarlyStopShowsValue | src/components/ProfessionalStatsBar.tsx:27-32 | a run that stops before the timestamps run out has shown `value` last and has no frame pending |
| StatsBar.CountUp.constructor | src/components/ProfessionalStatsBar.tsx:14-15 | the count starts at 0 with no frame pending |
| StatsBar.CountUp.Start | src/components/ProfessionalStatsBar.tsx:19-35 | out of view nothing changes; in view the start time is cleared and the first frame is requested |
| StatsBar.CountUp.OnFrame | src/components/ProfessionalStatsBar.tsx:23-33 | the frame callback leaves exactly the start time, count and pending flag of one frame |
| StatsBar.CountUp.Play | src/components/ProfessionalStatsBar.tsx:23-35 | delivering the timestamps in order shows exactly the counts of the run, and the count ends as the last one shown |
| Typewriter.Slice | src/components/TypewriterText.tsx:17 | `text.slice(0, n)` is the prefix of the text whose length is `n` or, when `n` passes the end, the text's length |
| Typewriter.SlicesGrow | src/components/TypewriterText.tsx:16-18 | the text shown at an earlier tick is a prefix of the text shown at a later one |
| Typewriter.CursorUntilComplete | src/components/TypewriterText.tsx:32 | after tick `k` the cursor is shown exactly when `k` is less than the text's length |
| Typewriter.Typewriter.constructor | src/components/TypewriterText.tsx:10 | the displayed text starts empty |
| Typewriter.Typewriter.Effect | src/components/TypewriterText.tsx:12-27 | when the displayed text is empty and the delay positive, the interval runs exactly one tick more than the text has characters, tick `k` shows the first `k` characters (all of them once `k` passes the end), and it ends with the whole text; otherwise nothing changes, so with a non-positive delay the text stays empty |
| LanguageSwitcher.Find | src/components/LanguageSwitcher.tsx:45 | a found entry is in the table with the code asked for; nothing is found exactly when no entry has it |
| LanguageSwitcher.CurrentLanguage | src/components/LanguageSwitcher.tsx:42 | the current language is the table's entry for the active code, or English when no entry has it |
| LanguageSwitcher.FindIsFirstMatch | src/components/LanguageSwitcher.tsx:42 | the lookup returns the first entry with the code |
| LanguageSwitcher.ExactlyOneActiveItem | src/components/LanguageSwitcher.tsx:110-111 | the table's codes are distinct, and exactly one menu item is marked active whatever the language |
| LanguageSwitcher.KnownCodes | src/components/LanguageSwitcher.tsx:14-36 | the known codes are en, ar and fr, and only ar is right-to-left |
| LanguageSwitcher.Switcher.constructor | src/components/LanguageSwitcher.tsx:40 | the menu starts closed |
| LanguageSwitcher.Switcher.ChangeLanguage | src/components/LanguageSwitcher.tsx:44-59 | a known code sets the language, the document direction (from the table), the document language and the stored preference, and closes the menu; an unknown code changes nothing and the menu stays as it was |
| LanguageSwitcher.Switcher.Toggle | src/components/LanguageSwitcher.tsx:67 | the trigger flips the menu flag, so two clicks restore it |
| LanguageSwitcher.Switcher.Close | src/components/LanguageSwitcher.tsx:91 | the backdrop closes the menu |
| Contact.InitialForm | src/components/Contact.tsx:10-18 | the form has exactly its seven fields, all empty except the service |
| Contact.Changed | src/components/Contact.tsx:31 | a change sets the named field to the value and leaves every other field as it was |
| Contact.ChangeIsIdempotent | src/components/Contact.tsx:31 | the same change applied twice gives the same record as once |
| Contact.ChangeKeepsFields | src/components/Contact.tsx:31 | a change to one of the form's fields keeps the set of fields |
| Contact.ButtonLabel | src/components/Contact.tsx:212 | the label is "INQUIRY SUBMITTED ✓" exactly when submitted and "SUBMIT INQUIRY" exactly when not |
| Contact.ContactForm.constructor | src/components/Contact.tsx:10-20 | the record starts as the initial form and the form is not submitted; the service prop is read here only, so a later change of it does not reach the form |
| Contact.ContactForm.HandleChange | src/components/Contact.tsx:28-32 | the record becomes the changed record and the submitted flag is untouched |
| Contact.ContactForm.HandleSubmit | src/components/Contact.tsx:22-26 | the form is marked submitted and the record is untouched |

## Left out

- Rendering: JSX, styling and animation settings (framer-motion variants, springs, the slide
  offsets), and canvas drawing (`draw`, `clearRect`). They are presentation only.
- The particle opacity: `sin(life / maxLife * π)` times a fresh random factor. It is
  floating-point trigonometry, and nothing else reads it.
- The particle effect's early return when the canvas ref is null. The component always renders
  its canvas, so that path is not modelled.
- Scheduling: `requestAnimationFrame`, `cancelAnimationFrame`, `setTimeout`, `setInterval` and
  their cleanup. Frames are an input sequence and the interval is a loop. React's effect
  re-runs and its skipping of equal state updates are also left out.
- App.Shell.constructor: the mount effect's immediate `handleScroll()` call (src/App.tsx:102)
  is not part of the constructor. Mounting corresponds to the constructor followed by
  `HandleScroll`.
- Delays: the three-second reset of `submitted` and the loading overlay's timer.
- Typewriter.Typewriter.Effect: runs the whole interval in one call and returns what each tick
  shows; rendering between ticks is not modelled. An unmount during the start delay cancels the
  timer, so the reveal never starts; that is not modelled. Once started, the interval runs to
  the end even after an unmount, because the cleanup at src/components/TypewriterText.tsx:23 is
  returned from the timer callback and discarded.
- Particles.ParticleSystem.constructor: the effect's immediate `animate()` call
  (src/components/ParticleSystem.tsx:83) is not part of the constructor. Mounting corresponds
  to the constructor followed by `Tick`.
- Typewriter.Slice: works on Dafny characters (Unicode scalar values), whereas JavaScript
  slices UTF-16 code units. The two differ only for text outside the Basic Multilingual Plane.
- StatsBar.CountUp.Start: each effect run in the source captures a fresh start time while an
  older frame chain may still run. The model has a single chain.
- StatsBar.Animate: `value` is an integer, as every caller passes. IEEE special values are not
  modelled except for a zero duration, where the quotient is NaN or +Infinity and the source
  goes straight to `value`. Timestamps are assumed never to go backwards, as the browser
  guarantees.
- `toLocaleString` number formatting in the stats bar.
- Foreign calls: `scrollIntoView`, ReactGA, pull-to-refresh, lazy loading and Suspense. The
  SEO meta tags, the structured-data script, and the WhatsApp link with `window.open` are also
  foreign.
- `i18n.changeLanguage` is asynchronous in the library. The model sets the language at once.
