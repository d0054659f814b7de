# Portfolio site logic, modelled in Dafny

This project models the three pieces of a personal portfolio site that hold logic rather than markup, and proves properties of them.

- **The project gallery** (`projects.dfy`, module `Projects`) narrows the project list in three stages. First it filters by category, then by project type, and then by a case-insensitive substring search over the title, the description and the technology names. A stage whose selector is `'All'` (or whose search term is empty) passes the list through. The gallery also shows:
  - the category buttons: `'All'` plus each distinct category, in order of first appearance;
  - the number on each type tab;
  - the type badge colours, which fall back to the `'Key Project'` colours;
  - the card's technology badges: the first four, plus a `+N` badge when there are more.
- **The skills-sphere rotation driver** (`orbit_driver.dfy`, module `OrbitDriver`) is a small state machine over these fields:
  - the rotation in degrees;
  - the velocity;
  - the auto-rotate flag and the dragging flag;
  - the last pointer position;
  - the animation loop's previous timestamp;
  - the cooldown timers still pending.

  The whole state is a value (`State`), and each event is a function on it: a frame, pointer down, pointer move, pointer up, and a cooldown firing. The class `SkillsOrbit` holds the same state in mutable fields. Each of its handlers is proved to perform exactly the matching transition.
- **The sphere's per-frame rendering** (`orbit_nodes.dfy`, module `OrbitNodes`) takes each skill's rotated point as input. From it, it computes the perspective factor and the depth cues (scale, opacity and stacking index, all linear in the depth `z2`). It then sorts the node array in place, back to front.
- **The build's chunk rule** (`vendor_chunks.dfy`, module `VendorChunks`) is `manualChunks`. Modules under `node_modules` go to the `'three'` chunk when their path mentions `three`, and to `'vendor'` otherwise. Everything else gets no chunk.

Three support modules go with these:
- `text.dfy` (`Text`) models JavaScript's `includes` and `toLowerCase`;
- `lists.dfy` (`Lists`) models `Array.prototype.filter` and the insertion order of a `Set`;
- `wrappers.dfy` (`Wrappers`) holds `Option`, which stands for `undefined`.

JavaScript numbers are modelled as Dafny `real`.

On these points the model follows the code exactly:
- **Pointer moves.** A vertical move turns the sphere about X with the opposite sign (`x -= dy * 0.45`). A horizontal move turns it about Y (`y += dx * 0.45`).
- **Momentum.** After release the velocity is added to the rotation and then scaled by 0.95 once per animation frame, whatever the time between frames. Auto-spin, in contrast, advances by elapsed time.
- **Return to auto-spin.** Momentum never hands back to auto-spin by itself. Only the cooldown check, 1200 ms after release, turns auto-spin on, and only if both velocity components are below 0.1 at that moment.

Two consequences of the code are proved as lemmas:
- `MomentumSettles` with `OnlyCooldownResumesAutoSpin` and `LaterReleaseResumesAutoSpin`: after a fast flick, the cooldown may find the velocity still at 0.1 or more. Then auto-spin stays off and the sphere coasts to a stop. It stays off until a later release schedules another check. A click or the pointer leaving the widget also counts as a release. Once coasting has stopped, that later check turns auto-spin back on.
- `StaleCooldownResumesDuringDrag`: a new press does not cancel a cooldown from an earlier release. That old cooldown can turn auto-spin on in the middle of the new drag.

## Model

| member | source | states |
|---|---|---|
| Text.Includes | src/pages/Projects.jsx:32-34 | `s.includes(sub)` is true exactly when `sub` occurs at some index of `s` |
| Text.Lower | src/pages/Projects.jsx:32-34 | `toLowerCase` keeps the length, turns each ASCII upper-case letter into its lower-case letter (code point plus 32) and keeps every other character |
| Text.LowerIdempotent | src/pages/Projects.jsx:32-34 | lower-casing an already lower-cased search term or field changes nothing |
| Lists.Filter | src/pages/Projects.jsx:22 | `filter` returns a subsequence of its input, with no element more often than in the input; every element kept passes the test, and every value that passes is kept exactly as often as it occurs in the input |
| Lists.Distinct | src/pages/Projects.jsx:16 | spreading a `Set` built from a list gives exactly the list's values, each once, in the order of their first appearance in the list |
| Projects.MatchesSearch | src/pages/Projects.jsx:30-35 | the search test: the lower-cased term occurs in the lower-cased title, description or some technology; what it selects is stated by the pipeline lemmas below |
| Projects.FilterProjects | src/pages/Projects.jsx:18-39 | the category, type and search stages, each skipped when its selector is `'All'` or the term is empty; stated by the lemmas below |
| Projects.FilterProjectsIsOneFilter | src/pages/Projects.jsx:18-39 | the three chained filters (category, type, search) select exactly what a single filter by the combined criteria selects, where an `'All'` selector or an empty term imposes nothing |
| Projects.FilterProjectsIsSubsequence | src/pages/Projects.jsx:19-36 | the shown list is the project list with items deleted; nothing is added, duplicated or reordered |
| Projects.FilterProjectsSound | src/pages/Projects.jsx:21-35 | every shown project is in the list, has the selected category unless it is `'All'`, has the selected type unless it is `'All'`, and matches a non-empty search term |
| Projects.FilterProjectsComplete | src/pages/Projects.jsx:29-35 | every listed project that passes the category and type selectors and whose lower-cased title, description or some technology contains the lower-cased term is shown |
| Projects.FilterProjectsUnfiltered | src/pages/Projects.jsx:19-36 | with category `'All'`, type `'All'` and an empty term the whole list is shown |
| Projects.SearchIgnoresCase | src/pages/Projects.jsx:32-34 | a search term and any case variant of it show the same projects |
| Projects.CategoriesSpec | src/pages/Projects.jsx:16 | the category buttons are `'All'` followed by every category some project has, each exactly once, in first-appearance order |
| Projects.Categories | src/pages/Projects.jsx:16 | `'All'` followed by the distinct categories; stated by `CategoriesSpec` |
| Projects.TabCountIsMultiplicity | src/pages/Projects.jsx:84 | a type tab other than `'All'` shows the number of projects of that type |
| Projects.TabCountIsResultLength | src/pages/Projects.jsx:84 | each tab's number equals the length of the list shown when that tab is selected and no other selector is on; the `'All'` tab shows the list's length |
| Projects.TabCount | src/pages/Projects.jsx:84 | the length of the list for `'All'`, otherwise the number of projects of that type; stated by the tab-count lemmas |
| Projects.TabCountsPartition | src/pages/Projects.jsx:76-86 | when every project has one of the three types, the three type tabs add up to the `'All'` tab |
| Projects.TypeStyle | src/pages/Projects.jsx:127 | a known type gets its own badge colours; any other type gets the `'Key Project'` colours, which are used exactly for types other than Company and Freelance |
| Projects.CardTechBadges | src/pages/Projects.jsx:156-178 | a card shows at most four technology badges, namely the first `min(4, n)`, plus a `+N` badge exactly when `n > 4`, with `N = n - 4`, so the badges account for every technology |
| OrbitDriver.SkillsOrbit.constructor | src/components/OrbitalSkills.jsx:28-33 | the sphere starts tilted -20 degrees about X, at rest, auto-rotating, not dragging, with the pointer at the origin |
| OrbitDriver.SkillsOrbit.Frame | src/components/OrbitalSkills.jsx:45-69 | the animation-frame callback performs exactly one `AfterFrame` transition on the component's fields |
| OrbitDriver.SkillsOrbit.StartDrag | src/components/OrbitalSkills.jsx:81-86 | the pointer-down handler performs exactly the `AfterStartDrag` transition, restarting the animation loop if dragging was off |
| OrbitDriver.SkillsOrbit.MoveDrag | src/components/OrbitalSkills.jsx:88-100 | the pointer-move handler performs exactly the `AfterMoveDrag` transition |
| OrbitDriver.SkillsOrbit.EndDrag | src/components/OrbitalSkills.jsx:102-109 | the pointer-up handler stops dragging, restarts the loop if dragging was on, and schedules one cooldown check |
| OrbitDriver.SkillsOrbit.CooldownFired | src/components/OrbitalSkills.jsx:104-108 | the timer callback consumes one scheduled check and performs exactly the `AfterCooldown` transition |
| OrbitDriver.AfterFrame | src/components/OrbitalSkills.jsx:45-69 | one animation frame: auto-spin by elapsed time, else coast and decay, else only the timestamp; stated by the frame lemmas below |
| OrbitDriver.AfterStartDrag | src/components/OrbitalSkills.jsx:81-86 | the pointer-down transition; stated by `StartDragSpec` |
| OrbitDriver.AfterMoveDrag | src/components/OrbitalSkills.jsx:88-99 | the pointer-move transition; stated by `MoveDragSpec` and `DragFollowsPointer` |
| OrbitDriver.AfterEndDrag | src/components/OrbitalSkills.jsx:102-108 | the pointer-up and pointer-leave transition; stated by `EndDragSpec` |
| OrbitDriver.AfterCooldown | src/components/OrbitalSkills.jsx:104-108 | the timer callback's transition; stated by `CooldownSpec` |
| OrbitDriver.AutoSpinFrame | src/components/OrbitalSkills.jsx:50-55 | an auto-spin frame leaves X alone and adds `dt * 0.018` degrees to Y, where `dt` is the time since the previous frame (0 on a restarted loop) |
| OrbitDriver.FirstFrameAddsNoSpin | src/components/OrbitalSkills.jsx:43-48 | while auto-spinning, the first frame after the loop (re)starts measures no elapsed time and leaves the rotation unchanged |
| OrbitDriver.AutoSpinIsTimeBased | src/components/OrbitalSkills.jsx:45-55 | over any run of auto-spin frames, Y grows by 0.018 times the time from the loop's first timestamp to the last frame, however many frames there were |
| OrbitDriver.OneSecondOfAutoSpin | src/components/OrbitalSkills.jsx:53 | one second of auto-spin turns the sphere 18 degrees about Y and leaves X unchanged |
| OrbitDriver.MomentumFrame | src/components/OrbitalSkills.jsx:56-68 | without auto-spin or dragging: if some velocity component exceeds 0.01 the rotation advances by the velocity and the velocity becomes 0.95 of itself; otherwise nothing but the timestamp changes |
| OrbitDriver.DecayShrinks | src/components/OrbitalSkills.jsx:65-66 | a coasting frame strictly shrinks every nonzero velocity component and keeps its sign |
| OrbitDriver.MomentumSettles | src/components/OrbitalSkills.jsx:60-66 | from any velocity, coasting stops (both components at most 0.01) within an explicit finite number of frames |
| OrbitDriver.SettledStaysSettled | src/components/OrbitalSkills.jsx:56-69 | once coasting has stopped, further frames change neither rotation nor velocity nor the flags |
| OrbitDriver.DraggingFrameHoldsRotation | src/components/OrbitalSkills.jsx:50-56 | while dragging, a frame changes nothing but the loop's timestamp |
| OrbitDriver.StartDragSpec | src/components/OrbitalSkills.jsx:81-86 | pressing sets dragging, clears auto-spin, zeroes the velocity, records the pointer and keeps the rotation |
| OrbitDriver.MoveDragSpec | src/components/OrbitalSkills.jsx:88-99 | a move changes nothing unless dragging; while dragging the velocity becomes `(-dy * 0.45, dx * 0.45)`, the rotation advances by that velocity and the pointer is recorded |
| OrbitDriver.EndDragSpec | src/components/OrbitalSkills.jsx:102-108 | releasing, or the pointer leaving the widget, stops dragging and adds one pending check. It restarts the loop only if a drag was in progress. Rotation, velocity and auto-spin are kept, so momentum starts from the drag's last velocity |
| OrbitDriver.DragFollowsPointer | src/components/OrbitalSkills.jsx:88-99 | over any sequence of moves in one drag, the rotation advances by 0.45 times the total pointer displacement, whatever path the pointer took |
| OrbitDriver.CooldownSpec | src/components/OrbitalSkills.jsx:104-108 | the cooldown turns auto-spin on exactly when both velocity components are below 0.1, never turns it off, consumes one pending timer, and changes nothing else |
| OrbitDriver.OnlyCooldownResumesAutoSpin | src/components/OrbitalSkills.jsx:50-109 | no frame, press, move or release turns auto-spin on |
| OrbitDriver.StaleCooldownResumesDuringDrag | src/components/OrbitalSkills.jsx:81-109 | a cooldown scheduled by an earlier release survives a new press, can turn auto-spin on mid-drag, and then auto-spin takes over at release whatever the drag's velocity |
| OrbitDriver.FramesKeepTimers | src/components/OrbitalSkills.jsx:45-69 | animation frames neither fire nor schedule a cooldown check |
| OrbitDriver.LaterReleaseResumesAutoSpin | src/components/OrbitalSkills.jsx:102-108 | without auto-spin, after a later release or pointer-leave and enough frames for coasting to stop, the new check finds the sphere slow and turns auto-spin on |
| OrbitNodes.Round | src/components/OrbitalSkills.jsx:157 | `Math.round` returns the integer within one half of its argument, with halves rounding up |
| OrbitNodes.ProjectNode | src/components/OrbitalSkills.jsx:143-158 | a projected node keeps its skill and its depth `z2`, and its scale, opacity and stacking index are the ones that depth calls for |
| OrbitNodes.Depth | src/components/OrbitalSkills.jsx:148 | `z2` mapped to [0, 1]; stated by `DepthCuesMonotone` and `DepthCueBounds` |
| OrbitNodes.NodeScale | src/components/OrbitalSkills.jsx:154 | the scale cue `0.6 + depth * 0.55`; stated by `DepthCuesMonotone` and `DepthCueBounds` |
| OrbitNodes.NodeOpacity | src/components/OrbitalSkills.jsx:155 | the opacity cue `0.35 + depth * 0.65`; stated by `DepthCuesMonotone` and `DepthCueBounds` |
| OrbitNodes.ZIndex | src/components/OrbitalSkills.jsx:157 | the stacking index `Math.round(depth * 100)`; stated by `DepthCuesMonotone` and `DepthCueBounds` |
| OrbitNodes.Perspective | src/components/OrbitalSkills.jsx:144-145 | the perspective factor; stated by `PerspectiveBounds` |
| OrbitNodes.DepthCuesMonotone | src/components/OrbitalSkills.jsx:147-157 | depth, scale, opacity and stacking index never decrease as `z2` grows |
| OrbitNodes.DepthCueBounds | src/components/OrbitalSkills.jsx:147-157 | for `z2` in [-1, 1] scale lies in [0.6, 1.15], opacity in [0.35, 1] and the stacking index in [0, 100], with the end values reached at the back and the front |
| OrbitNodes.PerspectiveBounds | src/components/OrbitalSkills.jsx:144-145 | for `z2` in [-1, 1] the perspective factor lies between 900/1120 and 900/680 and grows with `z2` |
| OrbitNodes.PaintOrderAgreesWithCues | src/components/OrbitalSkills.jsx:150-162 | along nodes sorted back to front, stacking index, scale and opacity never decrease |
| OrbitNodes.SortBackToFront | src/components/OrbitalSkills.jsx:162 | sorting the node array in place leaves it in ascending depth order and a permutation of what it held |
| VendorChunks.ManualChunksCases | vite.config.js:29-38 | no chunk exactly when the id lacks `node_modules`; `'three'` exactly when it has both `node_modules` and `three`; `'vendor'` exactly when it has `node_modules` but not `three` |
| VendorChunks.ManualChunks | vite.config.js:29-38 | the chunk rule itself; stated by the lemmas around it |
| VendorChunks.ManualChunksRange | vite.config.js:31-37 | the result is always no chunk, `'three'` or `'vendor'` |
| VendorChunks.ManualChunksDependsOnTests | vite.config.js:31-37 | two ids that agree on the two substring tests get the same result |
| VendorChunks.AppModulesGetNoChunk | vite.config.js:31 | an id without `node_modules` is left to the bundler |
| VendorChunks.ThreePackageChunk | vite.config.js:32-34 | every module of the `three` package goes to the `'three'` chunk |
| VendorChunks.ThreeNamedPackageChunk | vite.config.js:32-34 | any dependency whose package name contains `three` also goes to `'three'`, because the test looks at the whole path and takes precedence over `'vendor'` |
| VendorChunks.ReactThreeFiberChunk | vite.config.js:32-34 | in particular `@react-three/fiber` goes to the `'three'` chunk |

## Left out

- The Fibonacci-sphere placement and the rotation matrices (src/components/OrbitalSkills.jsx:7-20, 125-141) need `sin`, `cos`, `acos` and `sqrt`. Dafny cannot express these, so the rotated point `(x2, y2, z2)` is an input to `ProjectNode`.
- Floating point: all arithmetic is exact over the reals. Double rounding, `NaN` and infinities are not modelled.
- OrbitNodes.Perspective: requires `z2 * 220 != 900`. This excludes the division by zero, which a rotated unit vector never reaches; JavaScript would give `Infinity` there.
- Text.Lower: maps only the ASCII letters. JavaScript's `toLowerCase` also maps the rest of Unicode.
- SortBackToFront: does not state that nodes of equal depth keep their relative order, although JavaScript's sort is stable.
- Projects.TypeStyle: does not model keys inherited from `Object.prototype`, such as a type named `toString`. For those, the JavaScript lookup finds a truthy value and never falls back.
- Projects.CardTechBadges: gives the count `N` of the `+N` badge, not its decimal rendering.
- The badge animations, the modal, the IntersectionObserver reveal effect (src/pages/Projects.jsx:41-57) and all markup are left out, because they carry no logic.
- React specifics are left out:
  - State updates take effect immediately in the model. React applies them at the next render, so a handler can briefly see the old dragging flag.
  - The animation loop's restart when the dragging flag changes is modelled as clearing the previous timestamp; `requestAnimationFrame` scheduling and its cancellation on unmount are not modelled.
- The 1200 ms delay itself is not modelled, because the model has no clock. Pending timers are counted, and `CooldownFired` may run whenever one is pending.
- The touch handlers only act on single-finger touches before calling the same drag handlers. Counting touches is not modelled.
- The rest of the site is not part of this model:
  - src/components/ThreeDBackground.jsx and src/utils/threeSetup.js: WebGL, random placement, trigonometric animation, window sniffing;
  - src/pages/Contact.jsx: a network form post;
  - src/pages/Home.jsx: presentation, plus duplicates of the filtering and badge rules above;
  - the header, footer, journey page, WhatsApp button and router: markup;
  - src/mock.js: static content.
