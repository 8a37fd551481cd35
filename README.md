# Portfolio interaction logic, verified in Dafny

This project models the sequential logic behind three interactive parts of a
portfolio web site, and proves properties of that logic.

- **The certificate carousel** (`Carousel.dfy`, module `Carousel`): the CPU side
  of the WebGL gallery.
  - The carousel is built as a ring of image planes, made by doubling the item list.
  - `Media.resize` lays out each plane at `width * index`.
  - Each frame eases the scroll position towards its target with `lerp`.
  - `Media.update` wraps a plane that leaves the view to the other end of the ring
    by shifting its `extra` offset by one ring width.
  - A pointer press, moves and release are told apart as a tap or a drag.
  - A tap finds the first plane, in ring order, whose box holds the point, and
    reports it as clicked.
  - `Media` and `WebGLApp` are classes. Their fields are the source's fields,
    with the GL mesh reduced to real-valued scale and position fields.
  - The planes are an `array<Media>`. The `forEach` loops and the first-hit
    `for … break` loop are `while` loops with invariants.
- **The project showcase** (`Playlist.dfy`, module `Playlist`): the React state
  of the projects table and its expanded panel.
  - ProjectsPlaylist's state is the class `ProjectsPlaylist`, one field per piece
    of React state, plus the page body's overflow style.
  - Each handler is a method whose effect is a pure step function on the
    snapshot `Panel`:
    - the gallery's previous/next/indicator navigation;
    - the index reset effect;
    - hover;
    - the guarded open (`handleClick`) and close (`handleClose`);
    - Escape.
  - The derived values are pure functions with lemmas: the gallery list, the
    displayed image, the first three technology chips with the `+n` badge, and
    the description split into sentences.
- **The navigation bar** (`Navbar.dfy`, module `Navbar`).
  - The closure of `initNavbar` is the class `NavbarScript`. Its fields hold the
    page elements it found (`None` when absent) and the `isMenuOpen` flag.
  - `toggleMenu` rewrites the class lists, the `aria-expanded` attribute, the
    hamburger-line styles and the body overflow from the flag. Its effect is the
    pure function `Toggled`.
  - The link, overlay, resize and Escape listeners can only close the menu.
  - The scroll listener keeps `nav-scrolled` in step with the scroll position.

`Options.dfy` holds the `Option` type that stands for `null`/`undefined` and for
optional fields.

State-changing methods are specified against pure functions of the old state
(`ensures State() == Toggled(old(State()))`, for example). What the source
promises is proved about those functions as lemmas.

The model follows the code on these points:
- A drag is detected per move step (`|(touchStart - x) * 6| > 2` on a single
  step), not on the total displacement of the gesture.
- A release is handled even without a preceding press: `mouseup` is a window
  listener.
- There is no snap-to-item, no placeholder for an empty item list, and no
  configurable scroll speed or ease, even though the component's props mention
  `scrollSpeed`/`scrollEase`.
- The Escape listener of the showcase is registered again only when the expanded
  project changes, so the `handleClose` it calls sees `isClosing` as it was when
  the panel opened. A second Escape during the fade-out therefore schedules a
  second completion of the close. `StaleCompletionClosesReopenedPanel` shows that
  this completion closes a panel opened after the first one.

## Model

| member | source | states |
|---|---|---|
| `Carousel.Lerp` | src/components/ReactBits/CertificatesGallery.tsx:7-9 | lerp covers the fraction t of the way from p1 to p2 and leaves (1 - t) of it to go |
| `Carousel.LerpContracts` | src/components/ReactBits/CertificatesGallery.tsx:7-9 | for 0 <= t <= 1 one lerp step leaves exactly (1 - t) of the distance to the target, never overshoots (the result lies between the two ends), and lands on the target iff t = 1 or the ends coincide |
| `Carousel.EasedOffset` | src/components/ReactBits/CertificatesGallery.tsx:304-305 | after n frames towards a fixed target the signed distance is (1 - ease)^n times the first one |
| `Carousel.EasedDistance` | src/components/ReactBits/CertificatesGallery.tsx:304-305 | for 0 < ease <= 1 the distance after n frames is (1 - ease)^n times the first one, and strictly smaller than it for n > 0 unless already on target |
| `Carousel.PlaneSizeFollowsViewHeight` | src/components/ReactBits/CertificatesGallery.tsx:121-126 | with the view's width following the container's aspect ratio, a plane's scale is 7/15 of the view height wide and 3/5 of it tall, whatever the container size |
| `Carousel.LayoutSpacing` | src/components/ReactBits/CertificatesGallery.tsx:121-132 | after resize, width = scale.x + 1.5, x = width * index, and neighbouring ring indices sit exactly one width apart |
| `Carousel.UpdateWrapsAtMostOnce` | src/components/ReactBits/CertificatesGallery.tsx:134-146 | update sets widthTotal = width * length and position = x - scroll - extra (the pre-wrap extra), changes nothing else, and moves extra by -widthTotal, 0 or +widthTotal |
| `Carousel.WrapMovesToOtherEnd` | src/components/ReactBits/CertificatesGallery.tsx:141-145 | with positive width and ring length, extra decreases iff direction is 1 and the plane is wholly left of the view, increases iff direction is -1 and it is wholly right of it, and the wrapped plane's next position is one ring width along |
| `Carousel.UpdateKeepsWholeWraps` | src/components/ReactBits/CertificatesGallery.tsx:136-145 | if extra is k ring widths before an update it is k - 1, k or k + 1 ring widths after, and the plane is drawn at x - scroll - k ring widths |
| `Carousel.ResizeKeepsLayout` | src/components/ReactBits/CertificatesGallery.tsx:121-132 | with the view height fixed, resizing a plane for any two container sizes gives the same scale, width and x: a resize never moves a plane along the ring |
| `Carousel.SpacedBoxesAreDisjoint` | src/components/ReactBits/CertificatesGallery.tsx:148-160 | two planes of equal scale drawn at least one layout width apart never both contain a point |
| `Carousel.HitTestExample` | src/components/ReactBits/CertificatesGallery.tsx:148-160 | the box is closed: its centre and its edge are hit, a point just outside is not |
| `Carousel.ToWorld` | src/components/ReactBits/CertificatesGallery.tsx:268-274 | the mapping from container pixels to world coordinates is invertible: the pointer position is recovered from its world point on each axis where the view is non-empty |
| `Carousel.ToWorldBounds` | src/components/ReactBits/CertificatesGallery.tsx:268-274 | a point inside the container maps inside the view, the centre maps to (0, 0) and the top-left corner to (-width/2, +height/2) |
| `Carousel.MovesOutsideDragAreIgnored` | src/components/ReactBits/CertificatesGallery.tsx:250-261 | moves while not dragging change nothing, and once hasMoved is set further moves keep it set |
| `Carousel.DragTargetTelescopes` | src/components/ReactBits/CertificatesGallery.tsx:250-261 | during a drag the target moves by the total pointer travel times 6 * 0.01, and touchStart ends at the last pointer position |
| `Carousel.DragClassification` | src/components/ReactBits/CertificatesGallery.tsx:250-261 | after a press, hasMoved ends set iff it was set or some single move step exceeds the threshold |
| `Carousel.GestureIsTapIffNoLongStep` | src/components/ReactBits/CertificatesGallery.tsx:244-261 | press then moves: the gesture stays a tap iff no single step exceeds the threshold |
| `Carousel.RingEntry` | src/components/ReactBits/CertificatesGallery.tsx:214-228 | entry i of the doubled item list is item i mod N, and entries i and i + N are the same item |
| `Carousel.Media.constructor` | src/components/ReactBits/CertificatesGallery.tsx:72-110 | a new plane has its image, text and index, unit mesh scale, and zero position, width, widthTotal, x and extra |
| `Carousel.Media.HitTest` | src/components/ReactBits/CertificatesGallery.tsx:148-160 | a point hits the plane iff it is within half the plane's scale of the plane's centre on both axes (edges included) |
| `Carousel.Media.Resize` | src/components/ReactBits/CertificatesGallery.tsx:121-132 | the new state is the resize layout for the view and screen, and position, widthTotal and extra are unchanged |
| `Carousel.Media.Update` | src/components/ReactBits/CertificatesGallery.tsx:134-146 | the new state is the update step, the layout fields are unchanged, and a plane whose extra was a whole number of ring widths still has one |
| `Carousel.WebGLApp.constructor` | src/components/ReactBits/CertificatesGallery.tsx:181-210 | builds the ring of 2N planes, keeps the camera's view height, lays it out for the container and runs the first frame: scroll at 0, ease 0.05, not dragging, every plane tiled, and plane i is the fresh plane laid out at index i and then updated once with scroll 0 and direction -1 (current equals last) |
| `Carousel.WebGLApp.InitMedias` | src/components/ReactBits/CertificatesGallery.tsx:214-228 | a fresh array of 2N distinct fresh planes; plane i has index i and the image and text of item i mod N (an empty list gives an empty ring) |
| `Carousel.WebGLApp.Resize` | src/components/ReactBits/CertificatesGallery.tsx:230-242 | the view keeps its height and follows the container's aspect ratio, every plane is laid out for it, positions, ring widths and extra are kept, and a tiled ring stays tiled (the plane width does not change) |
| `Carousel.WebGLApp.LayOutMedias` | src/components/ReactBits/CertificatesGallery.tsx:241 | Media.resize on every plane: all laid out for the view, scroll fields unchanged, and planes that already had the new width keep whole ring widths in extra |
| `Carousel.WebGLApp.LaidOutIsEvenlySpaced` | src/components/ReactBits/CertificatesGallery.tsx:130-131 | once laid out, every plane has the common width and plane i sits i widths along |
| `Carousel.WebGLApp.Update` | src/components/ReactBits/CertificatesGallery.tsx:304-321 | current becomes lerp(current, target, ease), direction is 1 iff current > last (else -1), every plane gets the update step, extra stays a whole number of ring widths, and last ends equal to current |
| `Carousel.WebGLApp.UpdateMedias` | src/components/ReactBits/CertificatesGallery.tsx:310-315 | Media.update on every plane with the ring length, keeping layout and whole-ring-width extras |
| `Carousel.WebGLApp.OnTouchDown` | src/components/ReactBits/CertificatesGallery.tsx:244-248 | dragging starts, hasMoved is cleared and touchStart is the press position; nothing else changes |
| `Carousel.WebGLApp.OnTouchMove` | src/components/ReactBits/CertificatesGallery.tsx:250-261 | no change unless dragging; otherwise a step longer than the threshold sets hasMoved, the target moves by step * 6 * 0.01 and touchStart follows |
| `Carousel.WebGLApp.OnWheel` | src/components/ReactBits/CertificatesGallery.tsx:286-288 | the target moves by deltaY * 0.005 and nothing else changes |
| `Carousel.WebGLApp.FindHit` | src/components/ReactBits/CertificatesGallery.tsx:277-282 | the result is the first plane in ring order whose closed box holds the point, or none when no plane does |
| `Carousel.WebGLApp.OnTouchUp` | src/components/ReactBits/CertificatesGallery.tsx:263-284 | dragging ends; after a drag nothing is clicked; after a tap the clicked item is that of the first plane hit, and nothing is clicked iff no plane is hit |
| `Playlist.GalleryImages` | src/components/ReactBits/ProjectsPlaylist.tsx:22 | no project gives no images; an expanded project's gallery is empty only for an explicit empty image list, and holds only its images or its cover |
| `Playlist.DisplayedImage` | src/components/ReactBits/ProjectsPlaylist.tsx:640 | the shown source is the cover or an image of the gallery (the indexed one whenever it is not the cover), and is never empty when the cover is not |
| `Playlist.NextIndex` | src/components/ReactBits/ProjectsPlaylist.tsx:51-56 | with L > 1 images the next index is (i + 1) mod L; with L <= 1 the index is unchanged |
| `Playlist.PrevIndex` | src/components/ReactBits/ProjectsPlaylist.tsx:25-30 | with L > 1 images the previous index is (i - 1 + L) mod L; with L <= 1 the index is unchanged |
| `Playlist.PrevAndNextAreInverse` | src/components/ReactBits/ProjectsPlaylist.tsx:25-56 | previous and next keep the index inside the gallery and undo each other |
| `Playlist.NextTimesCycles` | src/components/ReactBits/ProjectsPlaylist.tsx:51-56 | k presses of next move the index to (i + k) mod L |
| `Playlist.NextReachesEveryImage` | src/components/ReactBits/ProjectsPlaylist.tsx:51-56 | every image of the gallery is reached from any other by next presses |
| `Playlist.ShownTechs` | src/components/ReactBits/ProjectsPlaylist.tsx:421 | a row shows the first min(3, n) technologies |
| `Playlist.HiddenTechCount` | src/components/ReactBits/ProjectsPlaylist.tsx:430-434 | the +badge is shown exactly when n > 3, and its number plus the shown chips is n |
| `Playlist.ChipsAccountForEveryTech` | src/components/ReactBits/ProjectsPlaylist.tsx:420-434 | chips followed by the hidden rest are the whole list and the badge counts the rest; with no badge all are shown |
| `Playlist.Split` | src/components/ReactBits/ProjectsPlaylist.tsx:554 | split always yields at least one piece |
| `Playlist.JoinSplit` | src/components/ReactBits/ProjectsPlaylist.tsx:554 | joining the pieces of split(sep) with sep gives back the string |
| `Playlist.SplitPiecesAvoidSeparator` | src/components/ReactBits/ProjectsPlaylist.tsx:554 | no piece of split(sep) contains sep |
| `Playlist.RenderedLinesReadBack` | src/components/ReactBits/ProjectsPlaylist.tsx:554-557 | the rendered lines joined with a space are exactly the description |
| `Playlist.RenderedLinesAreSentences` | src/components/ReactBits/ProjectsPlaylist.tsx:554-557 | no rendered line contains ". " (the full stop given back ends its line) |
| `Playlist.Initial` | src/components/ReactBits/ProjectsPlaylist.tsx:6-10 | the mounted state is consistent, with no project hovered or expanded and no transition under way |
| `Playlist.StepsKeepConsistent` | src/components/ReactBits/ProjectsPlaylist.tsx:25-351 | every handler keeps the index inside the gallery (or 0), a close under way only with a panel open, and the body scroll locked exactly while a panel is open |
| `Playlist.ClickIsGuarded` | src/components/ReactBits/ProjectsPlaylist.tsx:129-131 | a click while expanding, expanded or closing changes nothing; an accepted click expands the clicked project on its first image, marks it expanding and locks the scroll |
| `Playlist.CloseIsGuarded` | src/components/ReactBits/ProjectsPlaylist.tsx:257-259 | a close with no panel or one already closing changes nothing; a close that completes leaves no panel, no hovered project, no close under way, the scroll unlocked and the index at 0 |
| `Playlist.HoverIsSuppressedWhileOpen` | src/components/ReactBits/ProjectsPlaylist.tsx:94-127 | hover handlers leave the state unchanged while a project is expanded; otherwise enter sets the hovered project and leave clears it |
| `Playlist.OpenThenCloseRestores` | src/components/ReactBits/ProjectsPlaylist.tsx:129-351 | from the idle table, open, settle and a completed close return to the same state with the hover cleared |
| `Playlist.StaleCompletionClosesReopenedPanel` | src/components/ReactBits/ProjectsPlaylist.tsx:257-362 | with two Escapes during one fade-out, the second completion of the close, run after a project was opened again, closes that panel and unlocks the scroll |
| `Playlist.ShownImageOfPanel` | src/components/ReactBits/ProjectsPlaylist.tsx:640 | with a panel open, a project without an image list always shows its cover, and one whose image list is non-empty and holds no empty string shows the image at the index |
| `Playlist.ProjectsPlaylist.constructor` | src/components/ReactBits/ProjectsPlaylist.tsx:6-10 | the component mounts in the initial state |
| `Playlist.ProjectsPlaylist.SetExpandedProject` | src/components/ReactBits/ProjectsPlaylist.tsx:77-80 | setting the expanded project resets the image index to 0 exactly when the expanded id changes |
| `Playlist.ProjectsPlaylist.GoToPrevImage` | src/components/ReactBits/ProjectsPlaylist.tsx:25-49 | the index becomes the previous one of the current gallery |
| `Playlist.ProjectsPlaylist.GoToNextImage` | src/components/ReactBits/ProjectsPlaylist.tsx:51-75 | the index becomes the next one of the current gallery |
| `Playlist.ProjectsPlaylist.SelectImage` | src/components/ReactBits/ProjectsPlaylist.tsx:673-699 | an indicator moves the index to its own image, and is a no-op on the current one |
| `Playlist.ProjectsPlaylist.HandleMouseEnter` | src/components/ReactBits/ProjectsPlaylist.tsx:94-105 | the hovered project is set unless a project is expanded |
| `Playlist.ProjectsPlaylist.HandleMouseLeave` | src/components/ReactBits/ProjectsPlaylist.tsx:107-116 | the hovered project is cleared unless a project is expanded |
| `Playlist.ProjectsPlaylist.HandleContainerLeave` | src/components/ReactBits/ProjectsPlaylist.tsx:119-127 | the hovered project is cleared unless a project is expanded |
| `Playlist.ProjectsPlaylist.HandleClick` | src/components/ReactBits/ProjectsPlaylist.tsx:129-255 | the guarded open: when accepted, expanding is set, the project expanded, the index reset and the body scroll locked |
| `Playlist.ProjectsPlaylist.ExpandTimerFired` | src/components/ReactBits/ProjectsPlaylist.tsx:250 | the delayed callback clears isExpanding |
| `Playlist.ProjectsPlaylist.HandleClose` | src/components/ReactBits/ProjectsPlaylist.tsx:257-259 | the guarded start of a close: isClosing is set when a panel is shown and no close is under way |
| `Playlist.ProjectsPlaylist.CloseTweenDone` | src/components/ReactBits/ProjectsPlaylist.tsx:347-350 | the end of a close, whenever a scheduled completion runs (also a second one after isClosing was cleared): no panel, no hovered project, isClosing cleared, scroll unlocked |
| `Playlist.ProjectsPlaylist.OnKeyDown` | src/components/ReactBits/ProjectsPlaylist.tsx:353-362 | Escape with a project expanded starts a close, and a second Escape during the fade-out leaves the state as it is; any other key, or no panel, changes nothing |
| `Navbar.NavAfterScroll` | src/scripts/navbar.ts:22-25 | nav-scrolled is on the nav iff scrollTop > 20, and no other class, attribute or style changes |
| `Navbar.LinesFor` | src/scripts/navbar.ts:60-71 | the hamburger lines keep their number |
| `Navbar.ToggledShowsFlag` | src/scripts/navbar.ts:29-72 | a toggle flips the flag; the menu holds translate-x-0 iff open and translate-x-full iff closed; the overlay holds opacity-100/pointer-events-auto when open and opacity-0/pointer-events-none when closed; aria-expanded is "true"/"false" to match; three lines show the X iff open; body overflow follows when the menu exists; no element appears or disappears, the nav is untouched, the menu and overlay keep their attributes, styles and other classes, the button keeps its classes, style and other attributes, and the lines keep their classes, attributes and other style keys (all of them when there are not three) |
| `Navbar.ToggleTwiceRestores` | src/scripts/navbar.ts:29-72 | from a page whose elements show the flag, two toggles restore the whole page exactly |
| `Navbar.ListenersOnlyClose` | src/scripts/navbar.ts:79-108 | the link, overlay, resize and Escape triggers never open the menu, do nothing when it is closed, and close an open menu (resize only at width >= 768, a key only for Escape) |
| `Navbar.NavbarScript.constructor` | src/scripts/navbar.ts:3-11 | the script starts with the elements it found and the menu closed |
| `Navbar.NavbarScript.OnScroll` | src/scripts/navbar.ts:14-26 | the nav's classes are updated for the scroll position, nothing else changes |
| `Navbar.NavbarScript.ToggleMenu` | src/scripts/navbar.ts:29-72 | the page becomes its toggled version |
| `Navbar.NavbarScript.OnToggleClick` | src/scripts/navbar.ts:74-76 | a click on the toggle button toggles the menu |
| `Navbar.NavbarScript.OnMobileLinkClick` | src/scripts/navbar.ts:79-85 | a link click toggles only an open menu |
| `Navbar.NavbarScript.OnOverlayClick` | src/scripts/navbar.ts:88-94 | an overlay click toggles only an open menu |
| `Navbar.NavbarScript.OnResize` | src/scripts/navbar.ts:97-101 | a resize to width >= 768 toggles only an open menu |
| `Navbar.NavbarScript.OnKeyDown` | src/scripts/navbar.ts:104-108 | Escape toggles only an open menu |

## Left out

- GLSL shaders (the bend curve, rounded corners, object-cover UVs) and the bend
  uniform: GPU code with no CPU-side behaviour.
- The ogl objects (renderer, camera, meshes, textures, geometry), image loading and
  `render` calls: foreign library code. Mesh scale and position are real fields.
  The camera's visible height (`2 * tan(fov / 2) * z`, with fov and z fixed when
  the carousel is built) is a positive constant given to the constructor, because
  it needs `Math.tan`.
- Floating point: all numbers are exact reals. Rounding and IEEE edge cases are not
  modelled.
- Positive container sizes and bounding-rectangle sizes are required: the code
  divides by them unguarded.
- Event listener wiring and teardown (`addEvents`, `destroy`, `removeEventListener`,
  React effect clean-up) is left out. Each listener is a method to call.
- `requestAnimationFrame` scheduling: `Update` is one frame.
- The React wrapper of the carousel: the expanded-image modal state,
  `handleImageClick`, its `handleClose` with gsap timeline and its Escape
  listener. These are animation glue around one optional value. The props
  `scrollSpeed`, `scrollEase`, `textColor`, `font` and `borderRadius` are unused
  by the logic.
- gsap tweens, timelines, `setTimeout` and the `await` in `handleClose` are
  animation timing. The two asynchronous handlers are each split into a
  synchronous start (`HandleClick`, `HandleClose`) and a continuation
  (`ExpandTimerFired`, `CloseTweenDone`), which the environment calls later.
- The queue of pending close completions is not tracked: `CloseTweenDone` may be
  called at any time. The model does not rule out a completion that no close
  scheduled.
- The image-navigation tweens set the index on completion. The model sets it at
  once, to the value the click computed.
- The `expandedRef.current` test of `handleClose` is modelled as "a project is
  expanded". The model does not capture the moment between `setExpandedProject`
  and the render that mounts the panel.
- `handleMouseMove` (the preview follows the cursor) only moves the preview with gsap.
- JSX markup and styling, including:
  - the technology bullets;
  - the zero-padded features count;
  - the "See Project"/"Not available" link choice;
  - the image counter text.
- The `+n` badge's decimal text is left out: the model keeps its number.
- The `Project` data in the project list is static data. Only its shape is
  modelled.
- `src/scripts/animations.ts` is gsap/ScrollTrigger configuration with no logic.
- The scroll-progress percentage: it is a float division that is unguarded when
  the page fits the window.
- `DOMContentLoaded` bootstrapping is left out.
- The page body's overflow style is written by both the showcase and the navbar.
  Each model keeps its own copy, so their interleaving is not modelled.
- Page elements are values in fields, not shared objects. Aliasing between them
  (one element found under two names) is not modelled.
- Navbar.ToggleTwiceRestores: assumes a page whose elements already show the
  flag. The markup present before the first toggle is not known, so from an
  arbitrary page two toggles restore only the flag.
