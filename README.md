# Music player page enhancements, modelled in Dafny

This project models the logic inside `main.js` of a browser music player page.
The script adds four features around a shared `<audio>` element. Each is a
module here:

- `Favorites` (favorites.dfy): the favorites list kept in local storage under
  `musicFavorites`. `toggleFavorite` appends the current song's file name when
  it is absent. When it is present, it removes the occurrence that `indexOf`
  finds. The class `FavoritesFeature` holds the storage as a map from keys to
  parsed lists. Its methods are `getFavorites`, `saveFavorites`, `isFavorite`
  and `toggleFavorite`. The pure function `Toggled` specifies the toggle, and
  the lemmas state what a toggle does to the list.
- `BarLayout` (bar_layout.dfy): the geometry of one frame of the spectrum.
  The bar width is `width / n * 2.5`. Bar `i` starts at `i * (barWidth + 1)`.
  A bar is `value / 255 * height` tall. Arithmetic is over exact reals.
  `LayoutBars` is the draw loop that accumulates `x`. It is proved equal to
  the function `Layout`, and lemmas bound and order the bars.
- `Visualizer` (visualizer.dfy): the lifecycle that the globals `audioContext`,
  `analyser`, `dataArray` and `animationId` drive. It covers the once-only
  `initAudioContext`, the self-rescheduling `drawVisualizer`, and the `play`,
  `pause` and `resize` handlers. The datatype `Globals` and its step functions
  give the meaning. The class `Session` holds the same state as fields, and
  each of its methods is tied to a step function. The host's frame scheduler
  is abstract. It has a set of pending request handles and a counter of the
  handles it has handed out, so `requestAnimationFrame` returns a fresh
  positive handle and `cancelAnimationFrame` removes that handle from the set.
  The platform's behaviour during set-up is a parameter (`InitOutcome`). So is
  the initial state of a new audio context, and so are the spectrum bytes
  that `getByteFrequencyData` delivers.
- `Theme` (theme.dfy): the light/dark switch. The preference lives under
  `musicPlayerTheme` and reads as `'dark'` when it is missing or empty.
  `applyTheme` stores `'light'` only for exactly `'light'`, and `'dark'` for
  anything else. A click applies `'light'` after `'dark'` and `'dark'` after
  anything else.

Three behaviours of the code are easy to misread, and the model states each
one as the code has it:

- Pause and play look as if they stop and restart the drawing. The code
  never restarts it once a context exists. `pause` cancels the pending frame
  but never clears `animationId`. A later `play` on a context that is not
  suspended reaches `initAudioContext`, which returns at once because
  `audioContext` is set, so no frame is requested again. On a suspended
  context, `play` only resumes it. `NoRedrawAfterPause` proves that no later
  sequence of events makes a frame pending again.
- A throw while attaching the media element is never retried, because
  `audioContext` has already been assigned (`InertAfterSourceFailure`). When
  the context constructor itself throws, `audioContext` stays undefined and
  the next `play` tries the whole set-up again (`ConstructorFailureIsRetried`).
- Toggling a favorite reads as set membership, but `splice` removes only the
  first copy of the name. So a list that already holds a name twice still
  holds it after one toggle (`DuplicateSurvivesToggle`). For this reason the
  membership flip and the "twice moves to end" property assume a list
  without duplicates. Toggles never create a duplicate
  (`TogglePreservesNoDup`).

## Model

| member | source | states |
|---|---|---|
| `Favorites.FirstIndex` | main.js:146 | the result is -1 exactly when the name is absent; otherwise it is the position of the first occurrence |
| `Favorites.IndexOf` | main.js:146 | the search loop of `indexOf` returns the first occurrence, or -1 |
| `Favorites.Toggled` | main.js:145-157 | an absent name is appended at the end; removing a present name shortens the list by one and removes exactly one copy of it (multiset difference) |
| `Favorites.ToggleRemovesFirstOccurrence` | main.js:146-155 | the entries before the `indexOf` position are kept in place, and the entries after it shift down by one in order |
| `Favorites.ToggleFlipsMembership` | main.js:136-157 | on a list without duplicates, the name is a favorite after a toggle exactly when it was not before |
| `Favorites.DuplicateSurvivesToggle` | main.js:146-155 | for any list and any two positions holding the same name, the name is still a favorite after one toggle, since only the first copy is spliced out |
| `Favorites.TogglePreservesNoDup` | main.js:148-157 | toggling keeps a duplicate-free list duplicate-free |
| `Favorites.ToggleTwiceAbsentRestores` | main.js:145-157 | toggling an absent name twice gives back the original list exactly |
| `Favorites.ToggleTwicePresentMovesToEnd` | main.js:145-157 | on a duplicate-free list, toggling a present name twice keeps the same members and moves the name to the end |
| `Favorites.FavoritesFeature.Favorites` | main.js:127 | the list `getFavorites` parses: the list stored under `musicFavorites`, or the empty list when that key is absent |
| `Favorites.FavoritesFeature.GetFavorites` | main.js:126-128 | returns the list stored under `musicFavorites`, or the empty list when that key is absent |
| `Favorites.FavoritesFeature.SaveFavorites` | main.js:131-133 | writes the list under `musicFavorites` and leaves every other key unchanged |
| `Favorites.FavoritesFeature.IsFavorite` | main.js:136-138 | true exactly when the stored list includes the name |
| `Favorites.FavoritesFeature.ToggleFavorite` | main.js:141-162 | leaves the storage unchanged when `currentIndex` is -1 or names no song; otherwise stores the toggled list of that song's name |
| `BarLayout.BarWidth` | main.js:55 | the width is non-negative, and n bars of that width span 2.5 times the surface width |
| `BarLayout.BarHeight` | main.js:65 | the height is exactly `value / 255 * height` (stated as `h * 255 == value * height`): between 0 and the surface height, 0 for value 0, the full height for 255 |
| `BarLayout.ScaleByte` | main.js:65 | scaling a non-negative height by `v / 255` for `v` in [0, 255] stays between 0 and that height, and multiplying by 255 undoes the division |
| `BarLayout.BarLeft` | main.js:56-81 | the left edge that `x` accumulates: it starts at 0 and grows by one bar width plus one per bar, so bar `i` starts at or beyond `i` for any non-negative width |
| `BarLayout.BarLeftClosedForm` | main.js:56-81 | the accumulated left edge of bar `i` is exactly `i * (barWidth + 1)` |
| `BarLayout.BarHeightMonotone` | main.js:65 | bar height is monotone in the sample value |
| `BarLayout.BarLeftGap` | main.js:56-81 | later bars start strictly further right, and each bar ends at least one unit before any later bar starts |
| `BarLayout.Bars` | main.js:64-81 | the first `i` bars in the order the `forEach` emits them, one per bin visited so far |
| `BarLayout.Layout` | main.js:55-81 | one bar per frequency bin |
| `BarLayout.LayoutAt` | main.js:55-81 | bar `k` of a frame has the accumulated left edge for `k`, the common width, and the height for bin `k` |
| `BarLayout.LayoutShape` | main.js:55-81 | all bars of a frame lie within the surface height and share one width, and they are disjoint and ordered left to right |
| `BarLayout.LayoutHeightsFollowSamples` | main.js:64-65 | a louder bin never gets a shorter bar than a quieter bin in the same frame |
| `BarLayout.LayoutSpan` | main.js:55-81 | the last bar ends at 2.5 times the surface width plus one unit per gap, so the bars are not fitted to the surface |
| `BarLayout.LastBarEnd` | main.js:55-81 | with `n` bins, the last left edge plus one bar width is 2.5 times the surface width plus `n - 1` |
| `BarLayout.LayoutBars` | main.js:55-82 | the loop that accumulates `x` produces exactly `Layout` |
| `Visualizer.FrequencyBinCount` | main.js:29-30 | the bin count is half the FFT size, rounded down; for the size 128 the code sets, it is 64 |
| `Visualizer.Start` | main.js:2-5 | the globals at page load: no context, no analyser, no bin buffer, `animationId` undefined (0) and nothing scheduled |
| `Visualizer.AtMostOnePending` | main.js:44-50 | in every well-formed state, at most one draw callback is pending |
| `Visualizer.Zeros` | main.js:31 | the new bin buffer has the requested length and is all zeros |
| `Visualizer.CopyInto` | main.js:51 | the spectrum overwrites the leading bytes of the buffer, and the buffer keeps its length |
| `Visualizer.RequestFrame` | main.js:50 | the new `animationId` is a fresh handle and is added to the pending requests; the context, the analyser and the bin buffer stay as they were |
| `Visualizer.DrawStep` | main.js:44-51 | without an analyser nothing changes; otherwise exactly the new request is pending and the bin buffer holds the spectrum read by `getByteFrequencyData`; the context and analyser are kept; well-formedness is kept |
| `Visualizer.InitStep` | main.js:22-41 | does nothing once `audioContext` is set or when the constructor throws; keeps the context when attaching the source throws; on success builds an analyser with 64 bins whose buffer holds the first spectrum read, and one pending frame |
| `Visualizer.PlayStep` | main.js:86-92 | a suspended context is resumed and nothing else changes; any other existing context leaves the globals exactly as they were; with no context, the step is the set-up of `initAudioContext` |
| `Visualizer.PauseStep` | main.js:103-107 | only cancels: `animationId`, the handle counter, the context, the analyser and the bin buffer are unchanged, and in a well-formed state no frame is pending afterwards |
| `Visualizer.PauseIdempotent` | main.js:103-107 | pausing twice is the same as pausing once |
| `Visualizer.FrameStep` | main.js:44-51 | a firing frame schedules exactly one successor with a newer handle and refreshes the bin buffer from the spectrum; the context and analyser are kept; with nothing pending, nothing happens |
| `Visualizer.ContextStep` | main.js:87 | the host's change of an existing context's state, which has no source line of its own and which the `suspended` test reads; it keeps the globals well formed and leaves the analyser and the pending frames alone |
| `Visualizer.Step` | main.js:86-107 | each event goes to its handler (`play` at main.js:86, `pause` at main.js:103, and the host's frame and context events); every step keeps the globals well formed, never unsets the context, and never replaces a built analyser |
| `Visualizer.Run` | main.js:86-107 | any sequence of play, pause, frame and context-state events keeps the globals well formed |
| `Visualizer.ReachableWellFormed` | main.js:2-107 | every state reachable from page load is well formed and has at most one pending frame |
| `Visualizer.GraphBuiltOnce` | main.js:22-31 | once an analyser exists, no sequence of events replaces it or unsets the context |
| `Visualizer.InertAfterSourceFailure` | main.js:23-40 | if the context was set but the graph was not built, no analyser ever appears and no frame is ever pending |
| `Visualizer.NoRedrawAfterPause` | main.js:86-107 | after a pause on an existing context, no sequence of events makes a frame pending again |
| `Visualizer.StoppedStaysStopped` | main.js:86-107 | with a context set and nothing pending, every event keeps it that way |
| `Visualizer.FirstPlayStartsDrawing` | main.js:25-37 | from any well-formed state without a context, and whatever state the new context starts in, a successful `play` builds an analyser with fftSize 128 and 64 bins holding the first spectrum read, and makes the next fresh handle pending |
| `Visualizer.ConstructorFailureIsRetried` | main.js:23-26 | from any well-formed state without a context, a `play` whose constructor throws changes nothing, and a following successful `play` builds the analyser |
| `Visualizer.Session.constructor` | main.js:12 | all globals start undefined, and the canvas starts with the default 300 by 150 backing size |
| `Visualizer.Session.Draw` | main.js:44-83 | the globals move as `DrawStep` says; with an analyser, the canvas takes its container's size and the frame's bars are `Layout` of the refreshed bins |
| `Visualizer.Session.InitAudioContext` | main.js:22-41 | the globals move as `InitStep` says; when a context already exists or set-up throws, nothing is drawn and the canvas keeps its size; a successful set-up sizes the canvas to its container and draws 64 bars |
| `Visualizer.Session.OnPlay` | main.js:86-92 | the globals move as `PlayStep` says; with an existing context, or when set-up throws, nothing is drawn and the canvas keeps its size; a first successful `play` sizes the canvas to its container and draws 64 bars |
| `Visualizer.Session.OnPause` | main.js:103-107 | nothing is pending afterwards, and `animationId` is unchanged |
| `Visualizer.Session.OnFrame` | main.js:44-50 | the globals move as `FrameStep` says; with nothing pending, nothing is drawn and the canvas keeps its size; otherwise the canvas takes its container's size and the callback draws 64 bars of the refreshed bins |
| `Visualizer.Session.OnResize` | main.js:95-100 | the canvas takes its container's size, and the globals are unchanged |
| `Theme.LookOf` | main.js:291-307 | the light look is chosen exactly for `'light'`; the stored name equals the input exactly when the input is a theme name |
| `Theme.SavedTheme` | main.js:287 | a missing entry and an empty entry both read as `'dark'`; any other entry reads as itself |
| `Theme.Flipped` | main.js:311-312 | gives the other theme name for a theme name, and `'dark'` for any other string |
| `Theme.Applied` | main.js:291-307 | stores `'light'` exactly when the theme is `'light'`, and `'dark'` otherwise; other keys are untouched |
| `Theme.Clicked` | main.js:310-313 | one click stores a theme name, `'light'` exactly when the preference read as `'dark'`; other keys are untouched and no key is added |
| `Theme.LoadNormalises` | main.js:287-288 | after page load the stored preference is a theme name, and it is light exactly when `'light'` was stored |
| `Theme.ClickFlips` | main.js:310-313 | each click flips a normalised preference and the page's look |
| `Theme.ClickTwiceRestores` | main.js:310-313 | two clicks give back the whole storage |
| `Theme.FirstClickFromNothingIsLight` | main.js:287-312 | with nothing stored, the page reads as dark and the first click stores `'light'` |
| `Theme.ClickOnForeignValueStaysDark` | main.js:311-312 | a stored value that is not a theme name reads as dark, and a click stores `'dark'` |
| `Theme.ThemeSwitch.constructor` | main.js:287-288 | load applies the saved preference and leaves it normalised |
| `Theme.ThemeSwitch.ReadTheme` | main.js:311 | returns the stored preference, or `'dark'` when it is missing or empty |
| `Theme.ThemeSwitch.ApplyTheme` | main.js:291-307 | sets the look for the theme and stores its normalised name |
| `Theme.ThemeSwitch.Click` | main.js:310-313 | stores the flipped preference; a normalised preference changes the look |

## Left out

- Building the DOM: the containers, buttons, class-name strings and `innerHTML` icon swaps (main.js:9-17, 115-123, 150-156, 219-244, 278-304). These are presentation only. The `Theme` model keeps only which look the body has.
- Canvas drawing: `clearRect`, the rounded-rectangle path with radius 3, and the three-stop gradient (main.js:53, 59-79). These are calls into the rendering library. The model keeps only each bar's position, width and height.
- Floating point: the geometry uses exact reals, and IEEE-754 rounding is not modelled. Canvas sizes are natural numbers, as backing sizes are.
- `BarLayout.LayoutBars`: with no bins, the code computes `width / 0`, which is never used. The model uses 0 there. In practice the buffer always has 64 bins.
- Host scheduling: frame timing, the `setTimeout` delays and the toast animation (main.js:153, 208-209, 255-271). A pending frame is a handle in a set, and the host runs it through `OnFrame` / `FrameStep`.
- `AudioContext.resume()` is asynchronous. The model sets the state to running at once. The host may change the context's state (the `ContextChanged` event). The class `Session` has no method for that; its contexts start in the `created` state.
- Web Audio internals: `createMediaElementSource`, `connect` and the analysis itself (main.js:27, 33-34, 51). The spectrum is an arbitrary byte sequence. Only the constructor and the source attachment are modelled as throwing, because those are the failures the platform produces. The error log (main.js:39) is not modelled.
- `JSON.parse`/`stringify` and `localStorage` I/O (main.js:127, 132). The storage is a typed map. A malformed stored payload is not modelled, because the code does not guard against one.
- The `songs` array and `currentIndex` belong to the player script, which is not part of this model. They are parameters of `ToggleFavorite`, and every song object is assumed present and named.
- The playback-speed selector and the toast (main.js:218-274). They copy a fixed option value into `playbackRate` and show a message, with no logic to prove.
- `updatePlaylistFavorites`, `updateFavoriteButton` and the `addSongToPlaylist` wrapper (main.js:165-201). These walk the DOM and swap icons.
