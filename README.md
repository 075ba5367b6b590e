# ViserTube UI logic in Dafny

ViserTube is a React video-site front end. Most of it is layout. This project
models the parts of it that carry rules and state, and proves what those rules
promise:

- **Custom video player** (`VideoPlayer`). The `Controller` class holds the
  component's React state. It also holds the media element's properties that
  the component writes, and a flag for the single pending hide timer. Each
  handler is a method. Requests to the browser are returned as values
  (`Media.MediaRequest`, `Media.FullscreenRequest`): `play()`, `pause()`,
  `requestFullscreen()` and `exitFullscreen()`. `FormatTime` and its parse-back
  partner model the "MM:SS" labels. The volume/mute rules and the seek/progress
  arithmetic are pure functions with lemmas relating them.
- **Shorts feed** (`ShortsPage`). The feed is the order-preserving sub-list of
  short videos. `ShortsFeed` holds `visibleIndex` and one `ShortsPlayer` per
  panel. The intersection-observer callback folds a batch of entries into
  `visibleIndex`, and the last intersecting entry wins (`LastIntersecting`).
  The re-render that follows hands each panel its `isVisible` prop. The panels
  whose prop changed run their play/pause effect.
- **Watch-later bookmark** (`VideoCard`). `Toggle` removes a saved id, every
  occurrence of it, or appends an unsaved one. `Card.HandleSaveClick` writes
  the toggled list to the stored 'savedVideos' entry and sets `isSaved`.
- **Home feed filter** (`HomePage`). This is the six-case category predicate
  and the "No videos found" branch.
- **Application shell** (`App`). `AppState` holds the current page, the video
  open in the watch modal, the upload-dialog flag and the category. The
  derived body scroll lock and page choice are functions of that state. The
  sidebar's and header's navigation calls are included.
- **Watch modal** (`WatchModal`). This covers the watch-next list and the rules
  for closing the modal and for switching to another video. Escape and a click
  on the backdrop close it; clicks inside the dialog do not, except its ×
  button (components/WatchModal.tsx:94), which calls the close handler directly
  (`App.AppState.HandleCloseWatchModal`).
- **Upload dialog** (`UploadModal`). `UploadForm` steps through prompt
  validation, loading, error, title and description around the metadata
  service call. The call's outcome is a parameter.

The supporting modules are:

- `Types`: the `Video`, `Channel`, `Comment` and `Page` records of `types.ts`.
- `Seqs`: an order-preserving `Filter`, with its membership, multiplicity,
  concatenation and no-duplicates lemmas.
- `Decimal`: `String(n)`, `padStart` and base-10 `parseInt` on digit strings,
  with the round trip between them.

A few helpers carry no contract of their own and are used by the members
below: `HomePage.MatchesCategory` is the six-case callback of the home filter
(pages/HomePage.tsx:27-42), `HomePage.InCategory`, `WatchModal.IsNextCandidate`
and `ShortsPage.IsShortVideo` are the filter callbacks, `VideoPlayer.HalfStepText`
is `${speed}` for the four menu speeds, `VideoPlayer.ParseTime` reads a time
label back as seconds (the partner of `FormatTime`), and the class
`VideoCard.SavedVideosStore` is the 'savedVideos' local-storage entry that the
cards and the home page share.

The catalogue, the subscribed channel ids and the local-storage contents are
constants the components read from elsewhere. Here they are parameters.

Five places where the code does something a reader might not expect; the
model follows the code:

- **Mute restore.** `toggleMute` restores volume 0.5 when it *mutes* at volume
  0, not when it unmutes, because components/VideoPlayer.tsx:129 tests the flag
  before the flip.
  `NotMutedAtZero` and `AudioOperationsKeepAudible` show that the muted-at-0
  state never arises, so every unmute is audible anyway.
- **Seek guard.** `handleSeek` (components/VideoPlayer.tsx:136-141) has no guard
  for an unknown duration. The model requires a positive duration rather than
  inventing a no-op.
- **Play errors.** Rejections of `play()` are not caught
  (components/VideoPlayer.tsx:50, pages/ShortsPage.tsx:16), so no recovery is
  modelled.
- **Rate after a watch-next pick.** Picking a watch-next video keeps the modal
  and re-renders the same `<VideoPlayer>` with a new `src`
  (components/WatchModal.tsx:47). The element reloads and its playback rate
  falls back to 1, but the component's `playbackRate` state is kept. The menu
  then highlights the old speed while the video plays at 1x
  (`VideoPlayer.RateAfterSourceChange`). For this reason the controller's
  invariant mirrors volume and mute onto the element, but not the rate.
- **Tapping a hidden short.** `handleVideoClick` (pages/ShortsPage.tsx:24-34)
  does not check visibility. Scrolling keeps every panel but the visible one
  paused (`ShortsFeed.OnIntersection`), so at most one plays
  (`ShortsFeed.AtMostOnePlays`). A tap on a panel that is not the visible one,
  such as one scrolled only partly into view, starts it while the visible panel
  keeps playing (`ShortsPage.TapHiddenPanelScenario`).

## Model

| member | source | states |
|---|---|---|
| VideoPlayer.TwoDigitField | components/VideoPlayer.tsx:30 | `String(n).padStart(2,'0')` has at least two characters, and exactly two for n < 100 |
| VideoPlayer.TwoDigitFieldValue | components/VideoPlayer.tsx:30 | a padded field is all digits and reads back as n |
| VideoPlayer.FormatTime | components/VideoPlayer.tsx:27-31 | the label has at least 5 characters, with ':' third from the end; it is exactly 5 characters ("MM:SS") below 6000 seconds |
| VideoPlayer.FormatTimeFields | components/VideoPlayer.tsx:27-31 | both fields are digits; the seconds field reads back below 60; 60·minutes + seconds equals the time shown |
| VideoPlayer.FormatTimeRoundTrip | components/VideoPlayer.tsx:27-31 | parsing a label gives back its time, so distinct times get distinct labels |
| VideoPlayer.WholeSeconds | components/VideoPlayer.tsx:28-29 | the floor of a non-negative time: n ≤ t < n + 1 |
| VideoPlayer.SpeedLabel | components/VideoPlayer.tsx:227 | the label is "Normal" exactly for speed 1; any other speed's label ends in 'x' |
| VideoPlayer.SpeedLabelTexts | components/VideoPlayer.tsx:221-227 | the four entries read "0.5x", "Normal", "1.5x", "2x" |
| VideoPlayer.SpeedLabelsDistinct | components/VideoPlayer.tsx:221-227 | the four menu entries of PLAYBACK_SPEEDS have pairwise different labels |
| VideoPlayer.VolumeChanged | components/VideoPlayer.tsx:115-123 | a volume change takes the new level and clears mute |
| VideoPlayer.MuteToggled | components/VideoPlayer.tsx:125-134 | mute flips; the volume changes exactly when muting at volume 0, and then becomes 0.5 |
| VideoPlayer.MuteToggledTwice | components/VideoPlayer.tsx:125-134 | two toggles restore the flag, and the volume too, except after muting at 0 |
| VideoPlayer.AudioOperationsKeepAudible | components/VideoPlayer.tsx:115-134 | volume change and mute toggle both keep "muted ⇒ volume > 0", so unmuting is always audible |
| VideoPlayer.SeekTarget | components/VideoPlayer.tsx:138 | the seek position lies in [0, D]; it is 0 exactly at 0 % and D exactly at 100 % |
| VideoPlayer.ProgressPercent | components/VideoPlayer.tsx:65 | progress lies in [0, 100] |
| VideoPlayer.SeekThenProgress | components/VideoPlayer.tsx:136-141 | after seeking to p %, the next time update shows progress p |
| VideoPlayer.ProgressThenSeek | components/VideoPlayer.tsx:63-68 | seeking to the shown progress returns to the current position |
| VideoPlayer.Controller.constructor | components/VideoPlayer.tsx:16-25 | the initial state (paused, volume 1, not muted, "00:00" labels, rate 1, menu closed, controls visible, one hide timer pending) satisfies the invariant |
| VideoPlayer.Controller.ShowControls | components/VideoPlayer.tsx:39-45 | controls become visible and exactly one hide timer is pending; the invariant holds after it |
| VideoPlayer.Controller.ExpireHideTimer | components/VideoPlayer.tsx:33-37 | the timer is consumed; controls hide only while playing; paused ⇒ visible is kept |
| VideoPlayer.Controller.OnMouseLeave | components/VideoPlayer.tsx:167 | mouse-leave hides only while playing |
| VideoPlayer.Controller.OnPlay | components/VideoPlayer.tsx:61 | the play event sets isPlaying; a change re-shows controls and reschedules the timer (effect at 110-113) |
| VideoPlayer.Controller.OnPause | components/VideoPlayer.tsx:62 | the pause event clears isPlaying and leaves controls visible |
| VideoPlayer.Controller.HandlePlayPause | components/VideoPlayer.tsx:47-55 | requests play exactly when an element is attached and paused, and pause exactly when attached and playing; no state changes |
| VideoPlayer.Controller.OnKeyDown | components/VideoPlayer.tsx:78-83 | default is prevented exactly for Space; Space acts as play/pause; other keys request nothing |
| VideoPlayer.Controller.HandleVolumeChange | components/VideoPlayer.tsx:115-123 | the state becomes VolumeChanged of the old state; the element gets the level and is unmuted |
| VideoPlayer.Controller.ToggleMute | components/VideoPlayer.tsx:125-134 | with an element, the state becomes MuteToggled of the old state and the element mirrors it; without one, nothing changes |
| VideoPlayer.Controller.OnLoadedMetadata | components/VideoPlayer.tsx:69-73 | the duration label is FormatTime of the whole seconds of the duration |
| VideoPlayer.Controller.OnTimeUpdate | components/VideoPlayer.tsx:63-68 | progress is the position's percentage of the duration and the time label is its FormatTime |
| VideoPlayer.Controller.HandleSeek | components/VideoPlayer.tsx:136-141 | the element's position becomes SeekTarget, within [0, D]; without an element nothing changes |
| VideoPlayer.Controller.ToggleFullscreen | components/VideoPlayer.tsx:143-152 | requests entry exactly when the document is not fullscreen and exit otherwise; nothing without a container; isFullscreen untouched |
| VideoPlayer.Controller.OnFullscreenChange | components/VideoPlayer.tsx:74-76 | isFullscreen follows the document, and only here |
| VideoPlayer.Controller.ToggleSettings | components/VideoPlayer.tsx:215 | the settings menu flag flips |
| VideoPlayer.Controller.HandlePlaybackRateChange | components/VideoPlayer.tsx:154-160 | with an element, rate set on state and element and menu closed; the rate stays one of the four speeds |
| VideoPlayer.Controller.OnSourceChange | components/WatchModal.tsx:47 | a new `src` resets the element's rate to 1, its position to 0 and its duration to unknown (0 in the model); the component's state, rate included, is kept |
| VideoPlayer.RateAfterSourceChange | components/VideoPlayer.tsx:154-160 | after choosing 1.5x and a new source, the menu shows "1.5x" while the element's rate is 1 |
| VideoPlayer.Controller.CurrentSpeedLabel | components/VideoPlayer.tsx:225-227 | the highlighted entry reads "Normal" exactly at rate 1 |
| ShortsPage.ShortVideos | pages/ShortsPage.tsx:72 | the feed is an order-preserving subsequence holding exactly the short videos |
| ShortsPage.ShortVideosCounts | pages/ShortsPage.tsx:72 | every short is kept as often as it occurs in the catalogue |
| ShortsPage.ShortVideosOfShorts | pages/ShortsPage.tsx:72 | a catalogue of shorts is its own feed |
| ShortsPage.VisibilityFlags | pages/ShortsPage.tsx:106 | panel i's isVisible is i == visibleIndex |
| ShortsPage.VisibleCount | pages/ShortsPage.tsx:104-106 | exactly one panel is visible when visibleIndex is inside the feed, none otherwise (an empty feed has none) |
| ShortsPage.AtMostOneVisible | pages/ShortsPage.tsx:106 | no two panels are visible at once |
| ShortsPage.DataIndexAttribute | pages/ShortsPage.tsx:105 | a panel's data-index is a digit string |
| ShortsPage.ReadIndex | pages/ShortsPage.tsx:81 | a missing or empty data-index reads as 0 |
| ShortsPage.ReadIndexRoundTrip | pages/ShortsPage.tsx:81 | reading a panel's own data-index gives its position |
| ShortsPage.LastIntersecting | pages/ShortsPage.tsx:78-85 | the result is the index of the last intersecting entry; with none, the index is unchanged |
| ShortsPage.VisibilityRequest | pages/ShortsPage.tsx:14-22 | becoming visible requests play, becoming hidden requests pause, only with an element |
| ShortsPage.ShortsPlayer.constructor | pages/ShortsPage.tsx:10-22 | mounting sets isPlaying to the isVisible prop, and the effect's first run requests play when visible and pause when hidden (with an element) |
| ShortsPage.ShortsPlayer.UpdateVisibility | pages/ShortsPage.tsx:14-22 | the effect runs only on a changed prop: isPlaying follows it and play/pause is requested |
| ShortsPage.ShortsPlayer.HandleVideoClick | pages/ShortsPage.tsx:24-34 | a tap flips isPlaying and requests the matching call; no-op without an element |
| ShortsPage.ShortsFeed.constructor | pages/ShortsPage.tsx:71-74 | panels are the short videos in order, visibleIndex is 0, and only panel 0 plays; panel 0 alone requests play at mount, and a play request is made exactly when the feed is non-empty and the elements are attached; every panel but the visible one is paused |
| ShortsPage.ShortsFeed.MountPanels | pages/ShortsPage.tsx:104-108 | one distinct fresh player per feed entry, with isVisible == (index == 0) and the matching mount request |
| ShortsPage.ShortsFeed.OnIntersection | pages/ShortsPage.tsx:76-85 | visibleIndex becomes LastIntersecting of the batch; exactly the panels whose visibility changed play or pause; "every panel but the visible one is paused" is kept |
| ShortsPage.ShortsFeed.ObserverCallback | pages/ShortsPage.tsx:79-84 | the forEach loop leaves LastIntersecting of the batch in visibleIndex |
| ShortsPage.ShortsFeed.Rerender | pages/ShortsPage.tsx:104-108 | each panel gets isVisible == (index == visibleIndex); unchanged panels keep isPlaying and request nothing |
| ShortsPage.ShortsFeed.TapPanel | pages/ShortsPage.tsx:24-34 | a tap flips only that panel's isPlaying, requests the matching play/pause (nothing without an element) and leaves visibleIndex alone; a tap on the visible panel keeps "every panel but the visible one is paused" |
| ShortsPage.ThreeShortsScenario | pages/ShortsPage.tsx:71-108 | with three shorts, the second scrolling into view pauses the first, plays the second and leaves the third |
| ShortsPage.ShortsFeed.AtMostOnePlays | pages/ShortsPage.tsx:10-34 | while every panel but the visible one is paused, no two panels play at once |
| ShortsPage.TapHiddenPanelScenario | pages/ShortsPage.tsx:24-34 | right after mounting three shorts, a tap on the hidden third panel leaves the first and the third both playing |
| VideoCard.SavedVideos | components/VideoCard.tsx:6-8 | nothing stored reads as the empty list |
| VideoCard.Toggle | components/VideoCard.tsx:44-52 | the id is in the result exactly when it was not saved; removal keeps a subsequence of the other ids; an absent id is appended at the end |
| VideoCard.ToggleRemovesOnlyThatId | components/VideoCard.tsx:47 | removal drops every occurrence of the id and keeps every other id's count |
| VideoCard.ToggleTwiceRestores | components/VideoCard.tsx:46-51 | saving then unsaving an absent id restores the list exactly |
| VideoCard.ToggleTwiceMovesToEnd | components/VideoCard.tsx:46-51 | unsaving then saving moves the id to the end |
| VideoCard.ToggleKeepsNoDuplicates | components/VideoCard.tsx:46-51 | a duplicate-free list stays duplicate-free |
| VideoCard.FormatViews | components/VideoCard.tsx:24-26 | the text is the views followed by " views" |
| VideoCard.Card.constructor | components/VideoCard.tsx:20-22 | the initial isSaved is the id's membership in the stored list |
| VideoCard.Card.HandleSaveClick | components/VideoCard.tsx:42-55 | the store holds Toggle of the old list; isSaved is membership in the new list, the negation of the old membership |
| HomePage.FilteredVideos | pages/HomePage.tsx:27-42 | the result is an order-preserving subsequence of exactly the videos matching the category |
| HomePage.FilteredVideosCounts | pages/HomePage.tsx:27-42 | every matching video is kept as often as it occurs, every other dropped |
| HomePage.CategoryCases | pages/HomePage.tsx:27-42 | the six cases: Shorts keeps the shorts; others drop shorts; All keeps all non-shorts; Subscriptions and Watch Later go by subscribed ids and saved ids; any other by category equality |
| HomePage.HomeContent | pages/HomePage.tsx:66-74 | "No videos found" exactly when no catalogue video matches; otherwise the cards are the filtered list |
| WatchModal.NextVideos | components/WatchModal.tsx:16 | an order-preserving subsequence of the catalogue holding exactly the non-shorts with a different id |
| WatchModal.NextVideosCounts | components/WatchModal.tsx:16 | every other non-short is listed as often as it occurs in the catalogue |
| WatchModal.OnKeyDown | components/WatchModal.tsx:19-27 | Escape closes and no other key does anything |
| WatchModal.OnBackdropClick | components/WatchModal.tsx:29-33 | closes exactly when the click target is the backdrop itself |
| WatchModal.OnWatchNextClick | components/WatchModal.tsx:96-97 | selects exactly the clicked i-th watch-next item, a catalogue video other than the current one and not a short |
| App.AppState.constructor | App.tsx:13-16 | page 'home', nothing selected, upload dialog closed, category 'All' |
| App.AppState.BodyOverflow | App.tsx:18-28 | "hidden" exactly when a video is selected or the upload dialog is open, "auto" otherwise |
| App.AppState.RenderPage | App.tsx:44-52 | the shorts page exactly for 'shorts'; otherwise the home page with the selected category |
| App.AppState.HandleNavigate | App.tsx:38-42 | selection cleared, page and category set (default 'All'), upload flag kept, scroll lock then follows the dialog alone |
| App.AppState.NavigateFromSidebar | components/Sidebar.tsx:14-18 | each sidebar entry's page and category; Shorts takes the default 'All' |
| App.AppState.OnLogoClick | App.tsx:58 | the logo navigates home with category 'All' |
| App.AppState.HandleVideoSelect | App.tsx:30-32 | the video is selected and scrolling locks; nothing else changes |
| App.AppState.HandleCloseWatchModal | App.tsx:34-36 | the selection is cleared; nothing else changes |
| App.AppState.SelectCategory | App.tsx:50 | the home page's chip sets the category |
| App.AppState.OpenUploadModal | App.tsx:57 | the header's upload button opens the dialog and locks scrolling |
| App.AppState.CloseUploadModal | App.tsx:66 | closing the dialog leaves the lock to the selection alone |
| UploadModal.UploadForm.constructor | components/UploadModal.tsx:10-14 | all fields empty, not loading |
| UploadModal.UploadForm.EditPrompt | components/UploadModal.tsx:68 | the prompt takes the typed text |
| UploadModal.UploadForm.EditTitle | components/UploadModal.tsx:90 | the title takes the typed text |
| UploadModal.UploadForm.EditDescription | components/UploadModal.tsx:99 | the description takes the typed text |
| UploadModal.UploadForm.StartGenerate | components/UploadModal.tsx:16-22 | the call is made exactly for a non-empty prompt; an empty one sets the prompt error; otherwise loading starts with the error cleared |
| UploadModal.UploadForm.FinishGenerate | components/UploadModal.tsx:23-31 | success replaces title and description; failure sets the failure message and keeps them; loading ends either way |
| UploadModal.UploadForm.HandleGenerate | components/UploadModal.tsx:16-31 | the whole handler for a given outcome, including "no error while loading" |
| UploadModal.UploadForm.Button | components/UploadModal.tsx:74-78 | disabled and captioned "Generating..." exactly while loading |

## Left out

- JSX layout, CSS classes and icons are not modelled. Neither is the header's and sidebar's rendering beyond their navigation calls, nor the subscription list.
- Listener registration and cleanup, and `useEffect` lifecycles, are left out. The effects' bodies are modelled where they change state, but unmount cleanup (including restoring `overflow` to 'auto') is not.
- The hide timer's 3-second wall-clock delay is left out. The timer is a pending flag plus an explicit expiry event.
- IntersectionObserver geometry and its 0.5 threshold are left out. Each entry's `isIntersecting` and `data-index` are inputs, and the attribute is assumed to be a digit string, as the panels render it.
- JSON parsing and serialisation of local storage are left out, as are the `storageUpdated` event and the home page's forced re-render. Storage is a field holding the list of ids.
- Thumbnail generation (`handleGenerateThumbnail`) is left out because it is an external AI call. The metadata service is represented only by its outcome.
- The Fullscreen API and the promise `play()` returns are left out. Requests are returned as values.
  - Rejections of `play()` (components/VideoPlayer.tsx:50, pages/ShortsPage.tsx:16) and `exitFullscreen()` (components/VideoPlayer.tsx:150) go unhandled in the code.
  - A rejection of `requestFullscreen()` is caught and logged to the console (components/VideoPlayer.tsx:146-148). That logging is not modelled.
- Floating point, NaN and `parseFloat` of slider strings are not modelled. Volume, progress and seek use exact reals.
- Async interleaving is left out. `HandleGenerate` runs the handler to completion with a given outcome, and a second click while loading is excluded because the button is disabled.
- The `WatchPage` page is not part of this model; its watch-next filter is the same as the modal's.
- `ShortsPage.ShortsFeed.constructor`: all panels share one flag saying whether their media elements are attached.
- `VideoPlayer.FormatTime`: takes whole seconds. `WholeSeconds` supplies the floor of a non-negative real, which agrees with the source's floor of quotient and remainder for t ≥ 0.
- `VideoPlayer.Controller.HandleSeek`: requires a positive duration when an element is attached. The code has no guard. Before metadata loads the duration is NaN, so line 138 would assign a non-finite position, which the element rejects with a TypeError thrown out of the change handler. That error path is not modelled.
- `VideoPlayer.Controller.OnTimeUpdate`: requires a positive duration and a position within it, for the same reason.
- `VideoPlayer.Controller.OnLoadedMetadata`: requires a finite, non-negative duration.
- `VideoPlayer.Controller.OnSourceChange`: the element's unknown (NaN) duration after a reload is represented as 0. The reload's other effects on the element (pausing, firing new events) are left to the existing event methods.
- `Decimal.PadStart`: its own contract states only the length. The shape of the result is in `Decimal.PadStartShape`, and its value in `Decimal.PadZerosValue`.
