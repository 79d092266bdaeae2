# HFlix front-end state machines in Dafny

HFlix is a browser front end for a streaming service, built over mock data and
local browser storage. There is no server and no media pipeline. Four pieces of
it behave as small sequential state machines, and this project models them and
proves properties about them:

- **Playback control widget** (`VideoPlayer`, file `video_player.dfy`). The class
  `Player` has a `mounted` flag and the widget's state fields (`isPlaying`, `currentTime`, `duration`,
  `volume`, `isMuted`, `isFullscreen`, `showControls`, and the slot holding the
  hide-controls timer handle). Each handler and media-element event is a method,
  and each requires the widget to be mounted: teardown removes the listeners.
  The environment is kept in fields beside the widget's own: the live hide
  timers with the `isPlaying` each one captured, and what was last written to the
  media element (volume, position, play/pause). The invariant `Consistent` says:
  - the stored volume is within the slider's range, 0 to 1;
  - the only live timer is the one in the slot;
  - the controls stay shown while a hide timer is live;
  - no timer is live once the widget is torn down;
  - the media element always has volume `isMuted ? 0 : volume`;
  - the media element has the displayed position;
  - the media element has the play/pause intent.

  The pure helpers are `FormatTime`, which gives the `M:SS` display, and
  `SelectVolumeIcon`.
- **Profile selection** (`ProfileSelection`, `profile_selection.dfy`). The class
  `ProfilePage` holds the profile list, the create and edit dialogs, the name
  field, the selected profile and edit mode. Create appends; update renames by id.
  Its invariant has two parts: `profiles[i].id == i + 1`, so ids are unique, and
  a selected profile is one on the list.
- **Admin panel** (`AdminPanel`, `admin_panel.dfy`). The class `AdminPage` holds
  the gate flag and the list on screen. `UploadedStore` is the local-storage entry
  shared with other pages. The file also has the mount merge, the
  order-preserving delete filter `Without`, and the season label.
- **Upload dialog** (`MovieUpload`, `movie_upload.dfy`). The class `UploadDialog`
  holds the form fields, the two file pickers, the thumbnail preview, the upload
  flag and the open flag. The submit guard and the submit-button predicate are
  separate pure predicates.

Shared helpers live in `text.dfy` (module `Text`): an `Option` type, JavaScript's
decimal rendering of integers (with its inverse, `ParseDigits`), and
`String.prototype.trim` over ECMAScript's whitespace set.

The classes `Player`, `ProfilePage` and `UploadDialog` each have a `State()`
function that returns a datatype snapshot of all their fields, and each of their
methods states its whole new state as `old(State())` with the changed fields
replaced. The admin page's two classes, `AdminPage` and `UploadedStore`, have
only two fields and one field, so their methods state each field's new value
one by one.

Browser services are abstract inputs. The media element's events, the fullscreen
notification, timer firing, the file reader's load event and the result of
reading local storage arrive as method calls or parameters. The current year and
the avatar URL are parameters. A navigation is returned as a path.

Three behaviours of the code that a reader might not expect, all kept by the model:
- The hide-controls timer tests the `isPlaying` value it captured when it was
  scheduled, not the value when it fires. So a timer scheduled while playing
  still hides the controls after a pause (`PauseAfterMoveHides`).
- Without a video source, the play button still flips `isPlaying`. Nothing is
  sent anywhere and nothing reverts it.
- `seek` does not clamp. Only the slider's own bounds limit the target.

## Model

| member | source | states |
|---|---|---|
| `VideoPlayer.FormatTimeParts` | src/components/VideoPlayer.tsx:123-127 | for a time t >= 0, the display is the clock text of `floor(t) / 60` minutes and `floor(t) % 60` seconds: the minutes unpadded, a colon, and the seconds as exactly two digits |
| `VideoPlayer.ClockTextReadsBack` | src/components/VideoPlayer.tsx:126 | a clock text has the `M:SS` shape and reads back as its minutes times 60 plus its seconds, with the two-digit field equal to the seconds |
| `VideoPlayer.FormatTimeShowsWholeSeconds` | src/components/VideoPlayer.tsx:123-127 | for t >= 0 the display has the `M:SS` shape, its seconds field is below 60, and it reads back as exactly `floor(t)` seconds |
| `VideoPlayer.FormatTimeExamples` | src/components/VideoPlayer.tsx:123-127 | 0 shows "0:00", 65 shows "1:05", 3599 shows "59:59" |
| `VideoPlayer.FormatTime` | src/components/VideoPlayer.tsx:123-127 | the display of a time in seconds, with JavaScript's truncating `%`; its meaning is given by `FormatTimeParts` and `FormatTimeShowsWholeSeconds` |
| `VideoPlayer.EffectiveVolume` | src/components/VideoPlayer.tsx:215 | the slider's value `isMuted ? 0 : volume`, which the volume effect also writes to the element; `Consistent` and `ElementVolumeFollowsControls` say the element keeps it |
| `VideoPlayer.Consistent` | src/components/VideoPlayer.tsx:54-143 | the invariant every `Player` method keeps: volume in 0..1, the only live hide timer is the one in the slot with a handle already issued, the controls are shown while a hide timer is live, no timer is live after teardown, and a present element has the effective volume, the displayed position and the play/pause intent |
| `VideoPlayer.ElementVolumeFollowsControls` | src/components/VideoPlayer.tsx:65-70 | between events a present element's volume is within 0..1, is 0 while muted and the slider's volume otherwise, and is above one half exactly when the high-volume icon shows |
| `VideoPlayer.SelectVolumeIcon` | src/components/VideoPlayer.tsx:145-149 | Muted exactly when muted; High exactly when unmuted with volume > 0.5; Low exactly when unmuted with volume <= 0.5 |
| `VideoPlayer.IconMatchesEffectiveVolume` | src/components/VideoPlayer.tsx:145-149 | the High icon shows exactly when the effective volume is above 0.5; the Muted icon only shows with effective volume 0 |
| `VideoPlayer.Initial` | src/components/VideoPlayer.tsx:14-21 | the mount state: not playing, time 0, duration 0, volume 0.7, unmuted, not fullscreen, controls shown, no timer; it satisfies the invariant |
| `VideoPlayer.Player.constructor` | src/components/VideoPlayer.tsx:14-21 | a new widget is in the initial state and valid |
| `VideoPlayer.Player.TogglePlay` | src/components/VideoPlayer.tsx:89-91 | flips `isPlaying`; a present element is told play or pause to match; nothing else changes |
| `VideoPlayer.Player.PlayRejected` | src/components/VideoPlayer.tsx:54-63 | a rejected play request sets `isPlaying` false, whatever it was; nothing else of the widget changes |
| `VideoPlayer.Player.Ended` | src/components/VideoPlayer.tsx:39-41 | the ended event sets `isPlaying` false, whatever it was |
| `VideoPlayer.Player.TimeUpdate` | src/components/VideoPlayer.tsx:31-33 | the element's reported position becomes `currentTime` |
| `VideoPlayer.Player.DurationChange` | src/components/VideoPlayer.tsx:35-37 | the element's reported duration becomes `duration` |
| `VideoPlayer.Player.SetVolume` | src/components/VideoPlayer.tsx:93-97 | sets `volume := v` and `isMuted := (v == 0)`; the element gets v; invariant kept |
| `VideoPlayer.Player.ToggleMute` | src/components/VideoPlayer.tsx:99-101 | flips `isMuted`, keeps `volume`, and gives the element the new effective volume |
| `VideoPlayer.Player.Seek` | src/components/VideoPlayer.tsx:103-109 | the target becomes `currentTime` at once and is given to a present element; nothing else changes |
| `VideoPlayer.Player.ToggleFullscreen` | src/components/VideoPlayer.tsx:111-121 | requests fullscreen exactly when no element is fullscreen, otherwise exits; widget state is not touched |
| `VideoPlayer.Player.FullscreenChange` | src/components/VideoPlayer.tsx:72-81 | `isFullscreen` becomes whether the fullscreen element is this player |
| `VideoPlayer.Player.MouseMove` | src/components/VideoPlayer.tsx:129-143 | shows the controls, clears the stored timer, and leaves exactly one live timer, the new one, in the slot, capturing the current `isPlaying` |
| `VideoPlayer.Player.HideTimerFired` | src/components/VideoPlayer.tsx:136-140 | a live timer hides the controls exactly when its captured `isPlaying` was true; afterwards no timer is live |
| `VideoPlayer.Player.Unmount` | src/components/VideoPlayer.tsx:83-87 | teardown clears the stored timer and marks the widget unmounted: no timer scheduled before it can fire, and no handler, which all require a mounted widget, runs after it |
| `VideoPlayer.ToggleMuteTwice` | src/components/VideoPlayer.tsx:99-101 | muting twice restores the whole state, including the effective volume |
| `VideoPlayer.MoveTwiceKeepsOneTimer` | src/components/VideoPlayer.tsx:129-143 | after two mouse moves only the second timer is live |
| `VideoPlayer.PauseAfterMoveHides` | src/components/VideoPlayer.tsx:129-143 | play, a mouse move, pause and the timer firing leave the widget paused with its controls hidden |
| `Text.IntToString` | src/pages/AdminPanel.tsx:128 | how a template or JSX text renders an integer-valued number: a minus sign exactly for a negative value, and decimal digits otherwise |
| `Text.NatToString` | src/components/VideoPlayer.tsx:126 | the decimal text of a number: at least one digit, and no leading zero except for 0 |
| `Text.ParseNatToString` | src/components/VideoPlayer.tsx:126 | reading the rendered digits back gives the number |
| `Text.Trim` | src/pages/ProfileSelection.tsx:28 | the trimmed name is no longer than the name and, when not empty, starts and ends with a character that is not whitespace |
| `Text.TrimStartDropsBlank` | src/pages/ProfileSelection.tsx:28 | what is cut from the front is all whitespace, and everything is cut exactly when the name is blank |
| `Text.TrimEndDropsBlank` | src/pages/ProfileSelection.tsx:28 | what is cut from the end is all whitespace, and everything is cut exactly when the name is blank |
| `Text.TrimEmptyIffBlank` | src/pages/ProfileSelection.tsx:28 | the trimmed name is empty exactly when the name is made only of whitespace |
| `Text.TrimIsSlice` | src/pages/ProfileSelection.tsx:28 | trimming keeps one contiguous run of the name, with only whitespace cut on either side |
| `ProfileSelection.InitialIdsSequential` | src/pages/ProfileSelection.tsx:12-16 | the three initial profiles have ids 1, 2, 3 in order |
| `ProfileSelection.SequentialIdsUnique` | src/pages/ProfileSelection.tsx:30 | when every id equals its position plus one, no two profiles share an id |
| `ProfileSelection.AppendProfile` | src/pages/ProfileSelection.tsx:29-35 | creating keeps every existing profile and adds one at the end with id old length + 1, the given name and avatar |
| `ProfileSelection.AppendKeepsSequentialIds` | src/pages/ProfileSelection.tsx:29-35 | appending keeps `profiles[i].id == i + 1`, and the new id is not an existing profile's id |
| `ProfileSelection.RenameProfile` | src/pages/ProfileSelection.tsx:48-52 | renames every profile with the given id; length, order, ids, avatars and other profiles are unchanged |
| `ProfileSelection.RenameKeepsSequentialIds` | src/pages/ProfileSelection.tsx:48-52 | with sequential ids, renaming keeps them sequential and is exactly the update of the profile at position id - 1 to the new name, or no change at all when no position has that id |
| `ProfileSelection.ConfirmDisabled` | src/pages/ProfileSelection.tsx:151 | the Create and Save buttons' `disabled` test, `!name.trim()`, as an empty trim; `ConfirmDisabledIffBlank` gives its meaning |
| `ProfileSelection.ConfirmDisabledIffBlank` | src/pages/ProfileSelection.tsx:151 | the Create and Save buttons are disabled exactly for names made only of whitespace |
| `ProfileSelection.ProfilePage.constructor` | src/pages/ProfileSelection.tsx:20-25 | the page starts with the initial profiles, both dialogs closed, an empty name, no selection and edit mode off |
| `ProfileSelection.ProfilePage.HandleCreateProfile` | src/pages/ProfileSelection.tsx:27-44 | a blank name changes nothing; otherwise the untrimmed name is appended, the name is cleared and the create dialog closes; ids stay sequential |
| `ProfileSelection.ProfilePage.HandleUpdateProfile` | src/pages/ProfileSelection.tsx:46-62 | the new page state is `AfterUpdate` of the old: without a selection or with a blank name nothing changes; otherwise the selected id is renamed, the selection is cleared, the name reset and the edit dialog closed; ids stay sequential |
| `ProfileSelection.UpdateRenamesSelected` | src/pages/ProfileSelection.tsx:46-62 | on a valid page with a selection, Save with a non-blank name changes exactly the selected profile's name, at position id - 1, and clears the selection and name and closes the dialog; a blank name changes nothing |
| `ProfileSelection.ProfilePage.StartEditMode` | src/pages/ProfileSelection.tsx:64-66 | flips edit mode and changes nothing else |
| `ProfileSelection.ProfilePage.FinishEditMode` | src/pages/ProfileSelection.tsx:121 | leaves edit mode |
| `ProfileSelection.ProfilePage.OpenEditDialog` | src/pages/ProfileSelection.tsx:68-72 | selects the profile, prefills its name and opens the edit dialog |
| `ProfileSelection.ProfilePage.SetCreateOpen` | src/pages/ProfileSelection.tsx:132 | opens or closes the create dialog only |
| `ProfileSelection.ProfilePage.SetEditOpen` | src/pages/ProfileSelection.tsx:160 | opens or closes the edit dialog only; the selection is kept |
| `ProfileSelection.ProfilePage.SetNewProfileName` | src/pages/ProfileSelection.tsx:144 | typing sets the name field only |
| `ProfileSelection.CreateThenRename` | src/pages/ProfileSelection.tsx:27-72 | creating a profile and renaming it through the edit dialog leaves the old list plus one profile at the end, with the new name |
| `AdminPanel.InitialContent` | src/pages/AdminPanel.tsx:39-61 | an admin sees the mock list followed by the stored list; with nothing stored, or nothing parseable, the mock list alone |
| `AdminPanel.Without` | src/pages/AdminPanel.tsx:65 | no item with the id remains; an item is kept exactly when it was there with another id; deleting an absent id changes nothing |
| `AdminPanel.WithoutIsSubsequence` | src/pages/AdminPanel.tsx:65 | the kept items stay in their original relative order |
| `AdminPanel.WithoutCounts` | src/pages/AdminPanel.tsx:65 | every item with another id is kept as many times as it occurred |
| `AdminPanel.WithoutIdempotent` | src/pages/AdminPanel.tsx:65 | deleting twice is the same as deleting once |
| `AdminPanel.WithoutCommutes` | src/pages/AdminPanel.tsx:65 | deleting two ids in either order gives the same list |
| `AdminPanel.WithoutConcat` | src/pages/AdminPanel.tsx:64-77 | deleting from the merged list equals the mock part with the id deleted followed by the stored part with the id deleted |
| `AdminPanel.SeasonLabel` | src/pages/AdminPanel.tsx:128 | "Season" exactly when the count is 1, otherwise "Seasons" |
| `AdminPanel.CardDetail` | src/pages/AdminPanel.tsx:127-130 | the last detail of a card; its meaning is given by `CardDetailReadsBack` |
| `AdminPanel.CardDetailReadsBack` | src/pages/AdminPanel.tsx:127-130 | a show's detail is its count, a space and the season noun: the part before the space starts with a minus exactly for a negative count and otherwise reads back as the count's decimal digits; a show without a count shows " Seasons"; a movie's detail is its stored running time, empty exactly when that is missing or empty |
| `AdminPanel.AdminPage.constructor` | src/pages/AdminPanel.tsx:27-28 | the page starts not admin and with an empty list |
| `AdminPanel.AdminPage.Render` | src/pages/AdminPanel.tsx:85-87 | only the placeholder is rendered exactly while not admin; an admin sees one card per item, in order |
| `AdminPanel.AdminPage.Mount` | src/pages/AdminPanel.tsx:31-62 | a profile not named exactly "Admin" is sent to /home and the page is unchanged; an admin gets the flag and the merged list |
| `AdminPanel.AdminPage.DeleteContent` | src/pages/AdminPanel.tsx:64-83 | the id is deleted from the list on screen and from a stored list; a missing or unparseable entry is left alone |
| `AdminPanel.MountThenDelete` | src/pages/AdminPanel.tsx:51-77 | after an admin mount and a delete, the screen shows the mock list without the id followed by exactly what storage holds |
| `MovieUpload.WithField` | src/components/MovieUpload.tsx:32-35 | an input change sets the named field and leaves the other fields unchanged |
| `MovieUpload.WithFieldLaws` | src/components/MovieUpload.tsx:32-35 | retyping a field's value is a no-op, the last edit of a field wins, and edits of different fields commute |
| `MovieUpload.DefaultForm` | src/components/MovieUpload.tsx:22-26 | title and description are empty and the year is the current year's digits |
| `MovieUpload.MissingFiles` | src/components/MovieUpload.tsx:71 | the submit handler's guard: either file is missing |
| `MovieUpload.SubmitDisabled` | src/components/MovieUpload.tsx:239 | the submit button is disabled while uploading, with an empty title, or with either file missing; `EnabledSubmitPassesGuard` relates it to the guard |
| `MovieUpload.EnabledSubmitPassesGuard` | src/components/MovieUpload.tsx:239 | an enabled submit button always passes the missing-files guard; with both files present, the button is enabled exactly when not uploading and the title is non-empty |
| `MovieUpload.AfterReset` | src/components/MovieUpload.tsx:57-66 | a reset gives the default form, no files and no preview, and leaves the open and uploading flags alone |
| `MovieUpload.UploadDialog.constructor` | src/components/MovieUpload.tsx:21-30 | the dialog starts closed, with the default form, no files, no preview and not uploading |
| `MovieUpload.UploadDialog.SetOpen` | src/components/MovieUpload.tsx:120 | opens or closes the dialog only |
| `MovieUpload.UploadDialog.HandleInputChange` | src/components/MovieUpload.tsx:32-35 | only the named field of the form changes |
| `MovieUpload.UploadDialog.HandleThumbnailChange` | src/components/MovieUpload.tsx:37-49 | the first picked file becomes the thumbnail; an empty pick changes nothing |
| `MovieUpload.UploadDialog.ThumbnailLoaded` | src/components/MovieUpload.tsx:44-46 | the file reader's result becomes the preview |
| `MovieUpload.UploadDialog.HandleVideoChange` | src/components/MovieUpload.tsx:51-55 | the first picked file becomes the video; an empty pick changes nothing |
| `MovieUpload.UploadDialog.RemoveThumbnail` | src/components/MovieUpload.tsx:192-195 | clears the thumbnail file and its preview together, nothing else |
| `MovieUpload.UploadDialog.RemoveVideo` | src/components/MovieUpload.tsx:220 | clears only the video file |
| `MovieUpload.UploadDialog.ResetForm` | src/components/MovieUpload.tsx:57-66 | the new state is the reset of the old state |
| `MovieUpload.UploadDialog.HandleSubmit` | src/components/MovieUpload.tsx:68-80 | rejects exactly when a file is missing, and then changes nothing; otherwise only the upload flag goes up |
| `MovieUpload.UploadDialog.UploadSettled` | src/components/MovieUpload.tsx:84-116 | on success the form is reset and the dialog closed; on every path the upload flag ends false |
| `MovieUpload.SubmitAndSucceed` | src/components/MovieUpload.tsx:68-117 | a submit from an enabled button that succeeds ends with the dialog closed, reset and not uploading |

## Left out

- Media element promises are not modelled. `play()` and `pause()` are asynchronous, and overlapping play requests can settle in any order. The model is sequential: a rejection arrives as one `PlayRejected` event.
- `NaN` durations are not modelled, and neither is `duration || 0` in the display or `duration || 100` as the slider maximum. Durations are reals.
- `parseFloat` and double-precision rounding are not modelled. Times and volumes are exact reals.
- Stale closures between events handled against the same render are not modelled. Every handler sees the state as re-rendered after the previous event. In the browser, two `mousemove` events handled before React re-renders both read the same `hideControlsTimeout`, so the second does not clear the first one's timer, and the unmount cleanup clears only the stored one. The model's guarantee that at most one hide timer is live holds only under this one-render-per-event assumption.
- The 3000 ms hide delay is not modelled. Firing a live timer is an event, and there is no clock.
- VideoPlayer.Player.SetVolume: volumes outside 0..1 are not modelled. Only the volume slider calls it, and its bounds are 0 and 1.
- The media events (`TimeUpdate`, `DurationChange`, `Ended`, `PlayRejected`) require a media element. Without a video source, no listener is attached.
- The null check on the player container in `toggleFullscreen` is not modelled. The container exists whenever the widget is mounted. Rejected fullscreen requests and console logging are left out.
- The skip-back and skip-forward buttons are left out because they have no handlers.
- Rendering, styling, toasts and console output are left out, as are the fallback preview image and the mock upload record, which is only logged.
- Router navigation is returned as a path and not performed.
- `Date.now()`-based avatar URLs and ids, and `new Date()` years, are parameters.
- `FileReader` and `URL.createObjectURL` are not modelled. The reader's result arrives as `ThumbnailLoaded`.
- The browser's own form validation is left out: the `required` title and the year input's min and max. `HandleSubmit` models only the handler's guard.
- A stored value that parses to something other than a list is not distinguished. For example, a JSON string would be spread into characters. The model only knows a missing entry, an unusable one, or a list of items.
- Pages with no state machine are not part of this model: src/pages/Index.tsx (a storage read), src/pages/Browse.tsx, src/components/Hero.tsx, src/components/MovieCard.tsx, and the scroll arithmetic in src/components/ContentRow.tsx.
