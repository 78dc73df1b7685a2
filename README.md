# Showcase carousel, navigation bar and text animation: a Dafny model

This project models the three pieces of a single-page marketing site that
hold logic rather than markup:

- **The showcase carousel** (`ShowcaseSection`): a fixed table of four
  items, the index of the item on display, the direction of the last move
  and a ref that holds at most one autoplay timer. Autoplay advances the
  index every 5000 ms; the next and previous arrows and the dot indicators
  stop autoplay, move, and start it again.
- **The navigation bar** (`Navbar`): a table of four in-page links, a flag
  that follows whether the page is scrolled past 20 pixels and a flag for
  the mobile menu.
- **The text component** (`TextAnimation`): the container's class string
  built from a variant table, and the choice between a fade-in, a
  typewriter and a staggered per-character form, where every space becomes
  a no-break space.

Files and modules:

- `wrappers.dfy`, module `Wrappers`: `Option`, for the nullable timer ref
  and for props left undefined.
- `timers.dfy`, module `Timers`: `IntervalTable`, the browser's table of
  repeating timers (`setInterval` hands out a new positive handle and makes
  it live; `clearInterval` removes a handle). The number of live timers is
  an observable quantity of this table, not of the carousel's own fields.
- `showcase.dfy`, module `Showcase`: the item table, the wrap-around index
  arithmetic with its lemmas, and the class `Carousel`. `Carousel.Valid()`
  is the invariant every operation keeps: the index is in bounds, the
  direction is -1, 0 or 1, and the set of live timers is exactly the one
  named by the ref (empty when the ref is null). `Tick(h)` is what the
  interval callback of the live timer `h` does when it fires.
- `navbar.dfy`, module `Navbar`: the link table and the class `NavbarState`.
- `text_animation.dfy`, module `TextAnimation`: pure functions over the
  props and the rendered view.

The `Showcase` and `Navbar` modules each end with a `Scenario` method that drives
their class through a visitor's session, with assertions that follow from the
contracts alone (for the carousel: next, previous, a dot click to the last
item, a wrap-around, three autoplay periods and unmount).

The model follows the code: `direction` starts at 0 and becomes 1 or -1
only after the first move; a dot click on the item already on display sets
it to -1 (src/components/ShowcaseSection.tsx:38, 72).

## Model

| member | source | states |
|---|---|---|
| `Showcase.ItemsTable` | src/components/ShowcaseSection.tsx:5-34 | The item table has exactly four entries with ids 1 to 4 in order, so the ids are distinct. |
| `Showcase.NextIndex` | src/components/ShowcaseSection.tsx:59 | One forward step stays in `[0, n)` and is `i + 1`, except that the last index wraps to 0. |
| `Showcase.PrevIndex` | src/components/ShowcaseSection.tsx:66 | One backward step stays in `[0, n)`, is never negative, and is `i - 1`, except that 0 wraps to `n - 1`. |
| `Showcase.NextPrevInverse` | src/components/ShowcaseSection.tsx:56-68 | A backward step undoes a forward step and a forward step undoes a backward step. |
| `Showcase.NextTimesIsShift` | src/components/ShowcaseSection.tsx:44-47 | `m` forward steps (ticks or next clicks) from `i` land on `(i + m) mod n`. |
| `Showcase.PrevTimesIsShift` | src/components/ShowcaseSection.tsx:63-68 | `m` backward steps from `i` land on `(i - m) mod n`, a non-negative index. |
| `Showcase.FullRound` | src/components/ShowcaseSection.tsx:44-68 | `n` steps in either direction bring the carousel back to the item it started on. |
| `Showcase.DotDirection` | src/components/ShowcaseSection.tsx:72 | The direction of a dot click is 1 exactly when the target index is greater than the current one, and -1 otherwise, including for the current index. |
| `Timers.IntervalTable.SetInterval` | src/components/ShowcaseSection.tsx:44 | Scheduling a timer returns a handle that was not live before and adds exactly that handle to the live timers. |
| `Timers.IntervalTable.ClearInterval` | src/components/ShowcaseSection.tsx:52 | Clearing a handle removes exactly it from the live timers. |
| `Showcase.Carousel.LiveTimerCount` | src/components/ShowcaseSection.tsx:39-54 | At most one timer is ever live, and one is live exactly when the ref holds a handle. |
| `Showcase.Carousel.CurrentItem` | src/components/ShowcaseSection.tsx:194-225 | The item rendered for `activeIndex` is always an entry of the table, the one with id `activeIndex + 1`. |
| `Showcase.Carousel.Mount` | src/components/ShowcaseSection.tsx:37-78 | After mounting, the index and direction are 0 and exactly one timer is live. |
| `Showcase.Carousel.Unmount` | src/components/ShowcaseSection.tsx:80-82 | Unmounting leaves no live timer and does not move the carousel. |
| `Showcase.Carousel.StartAutoPlay` | src/components/ShowcaseSection.tsx:42-48 | Afterwards exactly one timer is live; if one already was, nothing changes (idempotent), otherwise a fresh one is scheduled; index and direction are untouched. |
| `Showcase.Carousel.StopAutoPlay` | src/components/ShowcaseSection.tsx:50-54 | Afterwards no timer is live and the ref is null; with no timer it changes nothing (idempotent); index and direction are untouched. |
| `Showcase.Carousel.Tick` | src/components/ShowcaseSection.tsx:44-47 | A firing of the live timer sets direction 1, steps the index forward with wrap-around and keeps the same timer. |
| `Showcase.Carousel.HandleNext` | src/components/ShowcaseSection.tsx:56-61 | Direction 1, index stepped forward with wrap-around, and exactly one live timer, a fresh one, whether or not a timer was live before. |
| `Showcase.Carousel.HandlePrev` | src/components/ShowcaseSection.tsx:63-68 | Direction -1, index stepped back with wrap-around, and exactly one live timer, a fresh one. |
| `Showcase.Carousel.HandleDotClick` | src/components/ShowcaseSection.tsx:70-75 | For an in-range index: the index becomes it, the direction is 1 iff it lies after the old index, and exactly one live timer, a fresh one. |
| `Navbar.NavItemsAnchors` | src/components/Navbar.tsx:5-10 | There are four links and each one's `href` is `#` followed by its title in lower case. |
| `Navbar.ScrolledAtThreshold` | src/components/Navbar.tsx:18 | The scrolled test is strict (an offset of exactly 20 is not scrolled) and stays true as the page scrolls further down. |
| `Navbar.NavbarState.constructor` | src/components/Navbar.tsx:13-14 | Both flags start false, so no mobile link is rendered. |
| `Navbar.NavbarState.HandleScroll` | src/components/Navbar.tsx:17-19 | `isScrolled` becomes exactly `scrollY > 20`; the menu flag is untouched. |
| `Navbar.NavbarState.ToggleMobileMenu` | src/components/Navbar.tsx:25-27 | The menu flag is negated, so two toggles restore it, and the rendered mobile links switch between none and all four; `isScrolled` is untouched. |
| `Navbar.NavbarState.CloseMobileMenu` | src/components/Navbar.tsx:149 | The menu flag is false whatever it was, so a second click changes nothing and no mobile link is rendered; `isScrolled` is untouched. |
| `Navbar.NavbarState.MobileMenuItems` | src/components/Navbar.tsx:134-153 | The mobile menu shows all four links while the flag is true and none while it is false. |
| `TextAnimation.ClassNames` | src/components/TextAnimation.tsx:26 | The class string is the variant's classes, then one space, then the caller's classes. |
| `TextAnimation.ClassNamesInjective` | src/components/TextAnimation.tsx:20-26 | Two class strings are equal only for the same variant and the same extra classes. |
| `TextAnimation.DefaultClassNames` | src/components/TextAnimation.tsx:14-26 | With the default variant and no extra classes the class string is `"text-white "`. |
| `TextAnimation.Glyph` | src/components/TextAnimation.tsx:43 | A space becomes a no-break space; every other character is kept; the result is never a space. |
| `TextAnimation.Spans` | src/components/TextAnimation.tsx:31-45 | The staggered form has one span per character of the text, in the same order, each the character's glyph. |
| `TextAnimation.SpansHaveNoSpace` | src/components/TextAnimation.tsx:43 | No span of the staggered form holds a plain space. |
| `TextAnimation.SpansIdempotent` | src/components/TextAnimation.tsx:43 | Applying the per-character map twice gives the same as applying it once. |
| `TextAnimation.RestoreSpans` | src/components/TextAnimation.tsx:31-45 | A text without no-break spaces of its own is recovered from its spans, so the map loses nothing else. |
| `TextAnimation.Render` | src/components/TextAnimation.tsx:12-94 | `staggered` selects the per-character form, `typewriter` the whole-text form with `relative` appended to the classes, and anything else (left undefined or `fadeIn`) the fade form; the per-character form's spans are exactly the glyphs of the text; the whole-text forms show the text unchanged; defaults are variant `regular` and no extra classes. |
| `TextAnimation.RenderDefaults` | src/components/TextAnimation.tsx:12-18 | A component given only its text renders the fade form with classes `"text-white "` and the text unchanged. |

## Left out

- Real timer scheduling: the 5000 ms period and the event loop are not modelled; a firing is the explicit call `Tick(h)`, allowed only for a live timer `h`, as the browser only runs callbacks of live timers.
- Showcase.Carousel.Tick: requires the timer to be live, because a cleared interval never fires.
- Showcase.Carousel.HandleDotClick: requires an index inside the table; the code does no bounds check, and its only callers pass the index of a dot drawn from the table itself.
- React's asynchronous state batching and the closure read of `activeIndex` in the dot handler: updates are modelled as sequential field assignments on the current state.
- The carousel's timer table is owned by the carousel; timers started by other code on the page are not modelled.
- The scroll-parallax effect of the showcase, the slide `variants`, and every tween, easing curve, spring and stagger delay, including the TextAnimation delays and the typewriter's duration: these are floating-point animation parameters handed to animation libraries.
- The typewriter's blinking-cursor element and the markup of every form: only the container classes and the content are modelled.
- Registration and removal of the scroll listener of the navigation bar; the handler itself is modelled as `HandleScroll`.
- `String.prototype.split('')` splits into UTF-16 code units; the model treats the text as a sequence of Unicode characters, so a character outside the Basic Multilingual Plane is one span here and two there.
- `variant` and `animation` are the closed sets the component's prop types allow; a value outside them (possible from untyped JavaScript) is not modelled.
- The scroll offset is a real number; pixel rounding by the browser is not modelled.
- The rest of the page (hero, features, contact form, footer, animated background, cursor, smooth scrolling, scroll indicator, preloader) and the styling configuration: presentation only, with no state that this model's properties concern.
