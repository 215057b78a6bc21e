# Before/after slider, navigation menu and theme switch — a Dafny model

This project models the three stateful scripts of a real-estate marketing site.

- **`LuxurySlider`** (slider.js) is a before/after image comparison widget. Its state is
  `sliderPosition` (a percentage), `isDragging` and `isHovered`. A press on the
  container starts a drag and jumps the boundary to the pointer. Moves anywhere on
  the document follow the pointer only while dragging. A release ends the drag.
  Every position change is projected onto four elements: the before-layer's
  width, the handle's offset, and two edge labels that are hidden within 10
  points of their edge. The slider is first drawn at 50 %. At start-up a quart
  ease-out intro then eases the boundary towards 50 % again. Its first frame comes
  at least 500 ms after the intro's start time, so it already shows more than
  40 %: the visible motion is a short dip from 50 % and back, not a sweep from 0 %.
- **`MobileMenu`** (menu.js) is a slide-out menu. Its open/closed flag is flipped
  by the menu button. It is closed by the overlay, by any link and by Escape.
  While it is open, a Tab focus trap keeps focus among its links.
- **`ThemeSwitcher`** (theme.js) is a light/dark flag on the body. It is restored at
  load from the saved `theme` preference and flipped by a button. Each flip is
  saved, and the sun/moon icons follow it.

Each script is a module (`Slider`, `Menu`, `Theme`) built around a class whose
fields are the script's state and the parts of the page it writes. Each class
has a predicate saying the page reflects the state:

- `LuxurySlider.Valid`: the position lies in [0, 100], every present element shows
  it, and missing elements are never styled.
- `MobileMenu.Reflects`: `aria-expanded`, overlay, panel, scroll lock and every
  link's `tabindex` agree with the open flag.
- `ThemeSwitcher.IconsShow`: the icons agree with the mode.

The methods keep these predicates and state their effect against pure
functions. Examples are `PointerPosition`, `Project`, `IntroPosition`,
`TabWrap` and `SavedValue`. The properties are proved about those functions.

The slider also has an event-level view. `SliderState` holds the three fields,
and `Step`/`Run` replay an interleaved history of presses, moves, releases,
hovers and intro frames. This view is used to prove three things:

- no history moves the boundary outside [0, 100];
- a release always ends a drag;
- an idle slider ignores document-level moves.

Numbers (pixels, percentages, milliseconds) are `real`. Strings are `string`.
Absent elements and unset storage use `Option`.

## Model

| member | source | states |
|---|---|---|
| `Slider.Clamp` | slider.js:168 | the result lies in [0, 100], equals the input inside that range, and is 0 below it and 100 above it |
| `Slider.PointerPosition` | slider.js:162-168 | for a positive width the position always lies in [0, 100], even for a pointer far outside the container. Inside the container it is 100·x/width. At or left of the left edge it is 0, and at or right of the right edge it is 100 |
| `Slider.PointerPositionMonotone` | slider.js:165-168 | moving the pointer right never moves the boundary left |
| `Slider.Project` | slider.js:172-192 | the before-layer width and the handle offset both equal the position. The before-label opacity is 0 exactly when the position is below 10, the after-label opacity is 0 exactly when it is above 90, and each opacity is 0 or 1 |
| `Slider.LabelsNeverBothHidden` | slider.js:186-191 | the two dead zones are disjoint, so at least one label is always shown |
| `Slider.InstructionOpacity` | slider.js:154-160 | the hint is hidden (0) exactly when the pointer is over the widget or a drag is on; otherwise it is 0.8 |
| `Slider.Progress` | slider.js:87-92 | progress lies in [0, 1] and reaches 1 exactly when the 1500 ms duration has elapsed |
| `Slider.ProgressMonotone` | slider.js:91-92 | later frames never have less progress |
| `Slider.EaseOutQuart` | slider.js:93 | 1-(1-p)^4 maps [0, 1] into [0, 1], with 0 at p=0 and 1 at p=1 |
| `Slider.IntroPosition` | slider.js:85-95 | the intro position lies in [0, 50], with 0 at progress 0 and 50 at progress 1 |
| `Slider.IntroPositionMonotone` | slider.js:93-95 | the intro position is non-decreasing in progress |
| `Slider.IntroEndsExactlyAtDuration` | slider.js:91-102 | a frame shows 50 exactly when at least 1500 ms have elapsed, so the end value is not reached early |
| `Slider.DelayedFirstFrame` | slider.js:88-107 | any frame at least 500 ms after the start time shows the boundary beyond 40 %. The start time is read before the 500 ms timeout, so the first intro frame never shows 0 % |
| `Slider.IntroTrace` | slider.js:90-99 | a run of frames writes one position per frame, the k-th being `IntroPosition(Progress(elapsed[k]))` |
| `Slider.FramesRun` | slider.js:92-102 | the intro runs no more frames than are delivered. Every frame before its last had progress below 1, and it stops early only after a frame whose progress is 1 |
| `Slider.FramesRunIsFirstFinished` | slider.js:98-102 | `FramesRun` is the only count consistent with that stopping rule |
| `Slider.IntroStopsAtEnd` | slider.js:92-102 | when the intro stops before the host runs out of frames, its last frame leaves the boundary at 50 |
| `Slider.IntroTraceMonotone` | slider.js:90-99 | frames delivered in time order write a non-decreasing run of positions |
| `Slider.ReleaseIdempotent` | slider.js:146-152 | a release leaves the slider idle, and releasing twice equals releasing once |
| `Slider.IdleMoveIgnored` | slider.js:139-144 | a move while not dragging changes nothing |
| `Slider.Step` | slider.js:113-121 | one event (a press, move, release, hover or intro frame) is applied as its abstract handler `Pressed`, `Moved`, `Released`, `Hovered` or `IntroFrame`. Each event keeps the position within [0, 100]. `Run` replays a history of events through `Step` |
| `Slider.RunKeepsRange` | slider.js:113-170 | no history of events moves the position outside [0, 100] |
| `Slider.ReleaseEndsDrag` | slider.js:119-152 | any history that ends with a mouseup/touchend leaves the slider not dragging, whatever came before |
| `Slider.IdleIgnoresDrags` | slider.js:118-144 | an idle slider ignores any number of document-level moves and keeps its state |
| `Slider.LuxurySlider.constructor` | slider.js:12-37 | when the container is found, the slider starts at position 50, neither dragging nor hovered, and is already rendered at 50 % |
| `Slider.LuxurySlider.UpdateSliderPosition` | slider.js:172-192 | the styles become `Rendering(parts, sliderPosition)`: every present element shows its part of `Project(sliderPosition)` and missing elements stay unstyled. Position, flags and hint are unchanged |
| `Slider.LuxurySlider.UpdatePosition` | slider.js:162-170 | the position becomes `PointerPosition(x, width)` and is rendered; flags, the `dragging` class and the hint are unchanged |
| `Slider.LuxurySlider.HandleStart` | slider.js:132-137 | dragging starts, the `dragging` class is added, the boundary jumps to the pointer (so a simple click moves it), and the invariant holds |
| `Slider.LuxurySlider.HandleMove` | slider.js:139-144 | while dragging, the position follows the pointer and the default action is suppressed. Otherwise nothing at all changes |
| `Slider.LuxurySlider.HandleEnd` | slider.js:146-152 | dragging ends and the `dragging` class is removed, whatever the prior state; the position and all styles are unchanged |
| `Slider.LuxurySlider.HandleHover` | slider.js:154-160 | `isHovered` becomes the argument, and a present hint gets `InstructionOpacity(hovered, dragging)`; the position and its styles are unchanged |
| `Slider.LuxurySlider.AnimateFrame` | slider.js:90-103 | one `animate` frame writes and renders `IntroPosition(Progress(elapsed))`, keeps the invariant and drag/hover state, and requests another frame exactly when progress is below 1 |
| `Slider.LuxurySlider.RunIntroAnimation` | slider.js:82-108 | the loop runs exactly `FramesRun(elapsed)` frames. The positions it writes, one per frame, are `IntroTrace` of those frames, and they are non-decreasing when the frames come in time order. It ends with the position the last frame wrote, or with the old position when none ran. The invariant and drag/hover state are kept |
| `Slider.IntroTraceOfRun` | slider.js:90-99 | positions written one per frame by the first n frames are `IntroTrace` of those frames, and they never decrease when the frames come in time order |
| `Menu.TabWrap` | menu.js:64-83 | Tab on the last link goes to the first link, and Shift+Tab on the first link goes to the last. Everything else, and a menu without links, is left to the browser. Any target is a link of the menu |
| `Menu.TrappedTab` | menu.js:66-82 | with the trap, Tab or Shift+Tab from a menu link always lands on a menu link |
| `Menu.TabCyclesForward` | menu.js:76-81 | with the trap, Tab moves from link i to link (i+1) mod n |
| `Menu.TabCyclesBackward` | menu.js:71-75 | with the trap, Shift+Tab moves from link i to link (i-1) mod n |
| `Menu.MobileMenu.constructor` | menu.js:1-6 | the menu starts closed over the page's markup as found |
| `Menu.MobileMenu.SetLinkTabIndex` | menu.js:22 | every link gets the given `tabindex` (the same loop closes the menu at menu.js:31) |
| `Menu.MobileMenu.ToggleMenu` | menu.js:8-34 | the open flag and the button's `is-active` class flip, and `aria-expanded` equals the new flag. Open means the overlay and panel are shown, overflow is `hidden` and every tabindex is `0`. Closed means they are hidden, overflow is empty, every tabindex is `-1` and the button gets focus |
| `Menu.MobileMenu.CloseMenu` | menu.js:36-55 | after a click on the overlay or any link the menu is closed. An open menu is toggled shut, and on a closed menu nothing changes, so closing is idempotent |
| `Menu.MobileMenu.OnDocumentKeydown` | menu.js:58-62 | Escape leaves the menu closed. On an open menu it closes the menu the way the toggle does: the page reflects the closed state, `is-active` flips and the button gets focus. Any other key, or Escape on a closed menu, changes nothing |
| `Menu.MobileMenu.OnMenuKeydown` | menu.js:65-84 | while the menu is open, Tab/Shift+Tab is redirected exactly when `TabWrap` says so, and focus moves to its target. Otherwise focus is left alone and nothing is prevented |
| `Theme.SavedValue` | theme.js:24-27 | a click saves `dark` or `light`, and loading that value back gives the same mode |
| `Theme.ThemeSwitcher.constructor` | theme.js:6-19 | dark mode is on after load exactly when the markup had it or the saved value is `dark`; any other or missing value adds nothing. The icons show the saved preference |
| `Theme.ThemeSwitcher.UpdateIcon` | theme.js:34-50 | in dark mode the sun is shown and the moon hidden, and the reverse in light mode. Nothing changes without the button or either icon |
| `Theme.ThemeSwitcher.Click` | theme.js:21-32 | each click flips dark mode, saves `dark` exactly when dark mode is now on (else `light`), and the icons follow the new mode. Without both icons, neither icon's `hidden` class changes |
| `Theme.ClickTwice` | theme.js:23 | two clicks restore the original mode, and the saved value and icons agree with it |

## Left out

- animations.js is not part of this model. It holds scroll-triggered class toggling, smooth scrolling and a parallax offset, and keeps no state the core uses.
- Console logging and the image `load`/`error` listeners (slider.js:39-54) are left out; they only write diagnostics.
- Scheduling and clocks are left out. `performance.now`, `requestAnimationFrame` and the `setTimeout` calls (slider.js:57-59, 88, 99, 105-107) are not modelled. `RunIntroAnimation` instead takes the elapsed time of each frame the host delivers, and `AnimateFrame` is the frame callback. `DelayedFirstFrame` keeps the one consequence of the 500 ms timeout.
- The order in which events arrive is not constrained. Listeners attach 100 ms after construction (slider.js:57-59). The model lets any handler run on any constructed slider, including between intro frames, where the next frame overwrites a dragged position as the source does.
- Pointer geometry is left out. Reading `clientX` from mouse or touch events and `getBoundingClientRect` (slider.js:163-166) become the parameters `x` (pointer offset from the container's left edge) and `width`. A touch event without touch points is not modelled.
- `UpdatePosition`, `HandleStart`, `HandleMove`: require a positive container width while they compute a position. The source divides by `rect.width` with no guard (slider.js:168), so a zero width gives NaN or ±Infinity, and the model's `real` numbers have neither. The code has no zero-width guard; the model makes `width > 0` a precondition.
- `Slider.Run`: its events are limited to positive widths on every move, even while idle. `HandleMove` itself demands a positive width only while dragging.
- JavaScript numbers are modelled as exact reals. Floating-point rounding in `x / width * 100` and in `Math.pow` is not captured.
- `fixBeforeImageWidth` and the resize listener (slider.js:69-80, 123-127) are left out; they write a pixel width measured from the DOM. The resize listener also calls `updateSliderPosition`, which is `UpdateSliderPosition` and keeps the invariant.
- Styles are modelled as numbers. The `"<n>%"` strings and the opacity strings `'0'`, `'1'` and `'0.8'` become the reals they denote.
- Only one slider exists, built once (slider.js:199), with no teardown or cancellation. The code has no multi-instance registry, teardown or intro cancellation. `modifies this` on every handler shows that a slider changes only itself.
- The menu's focus on opening is left out. Focus moves to the first link after a 100 ms timeout (menu.js:23); the model leaves focus where it was when the menu opens.
- The menu model assumes the menu button and overlay exist. Without the button the menu can never open. Without the overlay `toggleMenu` would throw at menu.js:17; that path is not modelled. `stopPropagation` on the button click is left out.
- The menu model assumes `#main-menu` exists. Without it the script throws at menu.js:5, before any listener is attached, so no menu behaviour exists; the `MobileMenu` constructor takes the links of an existing menu.
- `TrappedTab`, `TabCyclesForward` and `TabCyclesBackward` model the browser's default Tab move as "the adjacent link in document order". The trap itself (`TabWrap`, `OnMenuKeydown`) needs no such assumption.
- Local storage becomes the field `saved` of `ThemeSwitcher`. Storage failures and other keys are not modelled.
