# vr-event-nexus admin dashboard — a Dafny model

vr-event-nexus is the web dashboard through which an operator manages VR
events. An event is a password-gated playlist of 360° videos. The
dashboard has four working pages and one URL helper, and this project
models the logic of each:

- **Streaming control** (`streaming_control.dfy`). It plays an event's
  playlist and moves to the next video, wrapping round, when one ends. It
  reports the playing video's id as the event's `streaming` field, toggles
  mute, and formats the elapsed-time label. Once a second it polls the media
  listing for the newest snapshot a headset has uploaded, shows it, and
  deletes the snapshot shown before it.
- **Event details** (`event_details.dfy`). A username and password gate
  stands in front of one event. The page has a create mode and an edit mode,
  a save payload that depends on the mode, and a playlist. Videos are added
  to and removed from the playlist by sending the event's whole new list of
  media ids.
- **Event management** (`event_management.dfy`). The event list has a search
  on title or description that ignores letter case, a status badge and
  action per event, and deletion after confirmation.
- **Video management** (`video_management.dfy`). The 360° video library has
  a title search, sizes rounded to megabytes, a preview player, deletion
  after confirmation, and an upload dialog that prepends the new video.
- **Media URLs** (`utils.dfy`). `getMediaFile` builds the URL of a stored
  file from the server base and its path.

Shared modules:

- `records.dfy` holds the records exchanged with the backend and the requests
  the pages send.
- `sequences.dfy` holds an order-preserving filter (`Array.prototype.filter`)
  and its laws.
- `strings.dfy` holds lower-casing, `startsWith`/`includes`, and decimal
  printing and parsing.

Each page is a class. React state variables are its fields and event
handlers are its methods. A method takes the backend's answer as a
parameter, which is `None` when the request fails. Every mutating request a
page sends is appended to its `requests` field, so contracts can state
exactly what was sent.

## Model

| member | source | states |
|---|---|---|
| Utils.GetMediaFile | src/lib/utils.ts:9-11 | the URL starts with the base and "/", has the base's and path's lengths plus one, and ends with the path unchanged |
| Utils.MediaPath | src/lib/utils.ts:9-11 | the inverse of `getMediaFile`: defined exactly on URLs under the base plus "/", and rebuilding from its result gives the URL back |
| Utils.MediaPathRoundTrip | src/lib/utils.ts:9-11 | recovering the path of a built URL gives the original path |
| Utils.GetMediaFileInjective | src/lib/utils.ts:9-11 | different paths give different URLs |
| Utils.LeadingSlashDoubles | src/lib/utils.ts:10 | no slash normalisation: a path starting with "/" yields "//" right after the base |
| Records.PlaylistSpec | src/pages/StreamingControl.tsx:161 | a playlist is the subsequence of the listing whose ids are listed, each media with its listing multiplicity, whatever the order or repetition of the ids |
| Strings.Lower | src/pages/EventManagement.tsx:60-61 | lower-casing keeps the length, maps each character and leaves no upper-case ASCII letter |
| Strings.ContainsAt | src/pages/EventManagement.tsx:60-61 | `includes` holds exactly when the needle occurs at some index |
| Strings.DecimalRoundTrip | src/pages/StreamingControl.tsx:97 | the decimal text of a number reads back as that number |
| Strings.PadStart | src/pages/StreamingControl.tsx:97 | `padStart` reaches the width, keeps the text as a suffix and fills only with the pad character |
| StreamingControl.NextIndex | src/pages/StreamingControl.tsx:225-229 | the next index stays inside a non-empty playlist and is the successor modulo the length |
| StreamingControl.AdvanceCycles | src/pages/StreamingControl.tsx:225-229 | after k endings the cursor has moved k places, wrapping at the playlist length |
| StreamingControl.EveryVideoReached | src/pages/StreamingControl.tsx:225-229 | as many endings as videos bring the cursor back, and every video is played on the way |
| StreamingControl.SecondListenerWouldSkip | src/pages/StreamingControl.tsx:141-145 | the two "ended" listeners must share their captured index: applying the step twice would skip a video |
| StreamingControl.CurrentVideo | src/pages/StreamingControl.tsx:41 | there is a current video exactly when the index is inside the playlist, and it is the entry at that index |
| StreamingControl.StreamingValue | src/pages/StreamingControl.tsx:191 | the reported value is the id of the entry at the index, or "" when the index is outside the playlist |
| StreamingControl.StreamingReport | src/pages/StreamingControl.tsx:189-193 | with an event selected, exactly one update of that event's `streaming` field to the value is sent; without one, nothing |
| StreamingControl.MuteToggle | src/pages/StreamingControl.tsx:365-366 | muting gives 0 exactly when the volume was not 0, and otherwise 75 |
| StreamingControl.MuteTwice | src/pages/StreamingControl.tsx:366 | muting twice restores silence, and turns any other level into 75 |
| StreamingControl.FormatTimeZero | src/pages/StreamingControl.tsx:94 | the zero guard agrees with the general minutes:seconds formula |
| StreamingControl.PaddedSeconds | src/pages/StreamingControl.tsx:97 | the seconds field is two digits that read back as the seconds |
| StreamingControl.FormatTimeRoundTrip | src/pages/StreamingControl.tsx:93-98 | every label parses back to the duration it shows |
| StreamingControl.MinutesSecondsRoundTrip | src/pages/StreamingControl.tsx:95-97 | minutes, a colon and two padded second digits read back as 60·m + s |
| StreamingControl.FormatTimeInjective | src/pages/StreamingControl.tsx:93-98 | distinct durations get distinct labels |
| StreamingControl.Latest | src/pages/StreamingControl.tsx:53-56 | the chosen frame has the greatest timestamp, and all earlier frames are strictly older, as a stable descending sort puts first |
| StreamingControl.LatestFrame | src/pages/StreamingControl.tsx:48-56 | there is no frame exactly when no media lies under "public/streaming"; otherwise the chosen one is such a media of the listing and none is newer |
| StreamingControl.PollTick | src/pages/StreamingControl.tsx:43-67 | a tick changes nothing exactly on a failed fetch, no frame, or the newest frame already shown; a swap shows the newest frame's URL, remembers its id, and deletes the previous id only when there is a non-empty one, never the new frame |
| StreamingControl.PollTickIdempotent | src/pages/StreamingControl.tsx:58 | polling the same listing again changes nothing |
| StreamingControl.FirstFrameDeletesNothing | src/pages/StreamingControl.tsx:60-62 | the first frame shown deletes nothing |
| StreamingControl.StreamingPage.constructor | src/pages/StreamingControl.tsx:24-39 | initial state: stopped, volume 75, nothing selected, empty playlist at index 0, no snapshot, listeners holding no event |
| StreamingControl.StreamingPage.Load | src/pages/StreamingControl.tsx:101-117 | the events shown; on a non-empty answer the first event is selected and its playlist loaded, which registers the listeners on that event; a failed request changes nothing and an empty answer empties the list |
| StreamingControl.StreamingPage.LoadPlaylist | src/pages/StreamingControl.tsx:158-167 | on success the playlist is the listed media in listing order, the index resets to 0 and the listeners are registered again on the selected event; on failure nothing changes, the listeners included |
| StreamingControl.StreamingPage.SelectEvent | src/pages/StreamingControl.tsx:170-174 | the event is selected, its playlist loaded and streaming stopped; the listeners move to the event only when the playlist loads |
| StreamingControl.StreamingPage.PlayVideoFor | src/pages/StreamingControl.tsx:177-194 | a `handlePlayVideo` closure sets the index, starts streaming and reports the video's id, or "", to the event it captured; a changed index registers the listeners again on the selected event |
| StreamingControl.StreamingPage.PlayVideo | src/pages/StreamingControl.tsx:177-194 | the index is set, streaming starts and the video's id, or "", is reported for the selected event |
| StreamingControl.StreamingPage.PauseVideo | src/pages/StreamingControl.tsx:196-207 | streaming stops and "" is reported for the selected event |
| StreamingControl.StreamingPage.ToggleStream | src/pages/StreamingControl.tsx:273-274 | the stream button flips streaming, keeps the index and the listeners, and sends the matching report |
| StreamingControl.StreamingPage.HandleEnded | src/pages/StreamingControl.tsx:141-156 | both registered listeners run on the captured closure: the cursor advances once, wrapping, and the report is sent twice to the event the listeners captured, which is not always the selected one |
| StreamingControl.EndedAfterFailedSelection | src/pages/StreamingControl.tsx:170-174 | after selecting another event whose media request fails, the next ending still reports to the first event, twice |
| StreamingControl.StreamingPage.ToggleMute | src/pages/StreamingControl.tsx:365-366 | the volume becomes the mute toggle of the old one and stays within 0..100 |
| StreamingControl.StreamingPage.SetVolume | src/pages/StreamingControl.tsx:377-381 | the slider sets the volume, within 0..100 |
| StreamingControl.StreamingPage.FetchStreamFrame | src/pages/StreamingControl.tsx:43-67 | the page state after one poll tick is the one `PollTick` describes, with the stale snapshot's delete request logged |
| EventDetails.EmptyCredentialsNeverUnlock | src/pages/EventDetails.tsx:253-255 | an event stored with an empty username or password cannot be opened, since the button is disabled for the only matching pair |
| EventDetails.SavePayload | src/pages/EventDetails.tsx:138-156 | the save body has title, description, password and intro, plus the username only when creating, each taken from the event |
| EventDetails.SaveRequest | src/pages/EventDetails.tsx:138-156 | a save creates exactly in create mode and otherwise updates the event's own id, carrying the save payload |
| EventDetails.CreatedEventSavesAsUpdate | src/pages/EventDetails.tsx:147-156 | once the route names the created event, the next save is an update without the username |
| EventDetails.DraftPayloadIsBlank | src/pages/EventDetails.tsx:52-65 | saving the untouched draft sends only empty texts |
| EventDetails.WithField | src/pages/EventDetails.tsx:343-393 | editing one input sets that field and leaves every other field and the id list unchanged |
| EventDetails.PickerChoicesSpec | src/pages/EventDetails.tsx:435-436 | the add-video picker offers exactly the 360° videos of the listing, in order |
| EventDetails.WithId | src/pages/EventDetails.tsx:170 | the sent list is the old list with the id appended, duplicates allowed |
| EventDetails.WithoutIdSpec | src/pages/EventDetails.tsx:186 | removal drops every occurrence of the id and keeps every other id with its multiplicity and order |
| EventDetails.RemoveKeepsPlaylistInSync | src/pages/EventDetails.tsx:186-191 | the local removal from the shown playlist equals the playlist that the sent id list gives on the same listing |
| EventDetails.AddKeepsPlaylistMembers | src/pages/EventDetails.tsx:170-175 | after an add the shown playlist has the same members as the playlist of the sent list, when listing ids are unique |
| EventDetails.AddRepeatsListedVideo | src/pages/EventDetails.tsx:170-175 | re-adding a listed video shows it twice, while the sent list yields it once |
| EventDetails.EventDetailsPage.constructor | src/pages/EventDetails.tsx:38-71 | create mode starts open and editing a blank draft; any other route starts locked with no event |
| EventDetails.EventDetailsPage.LoadAllVideos | src/pages/EventDetails.tsx:107-133 | without an event to open the listing is loaded; loading ends in every case |
| EventDetails.EventDetailsPage.EditAuthForm | src/pages/EventDetails.tsx:231-246 | the credential form holds what was typed |
| EventDetails.EventDetailsPage.HandleAuth | src/pages/EventDetails.tsx:74-105 | the gate opens exactly when both typed credentials equal the fetched event's, then the event and its playlist are shown; otherwise nothing changes and the credential form stays on screen; the event is held exactly when the gate is open |
| EventDetails.EventDetailsPage.EditEvent | src/pages/EventDetails.tsx:341-397 | typing into an enabled input replaces that field; a disabled input changes nothing |
| EventDetails.EventDetailsPage.HandleSave | src/pages/EventDetails.tsx:135-165 | without an event nothing happens; otherwise the save request is sent, and on success the backend's event is shown and edit mode ends, and a creation moves the route to the new event's id, leaving create mode |
| EventDetails.EventDetailsPage.ToggleEdit | src/pages/EventDetails.tsx:308-315 | the button enters edit mode when not editing; while editing it does exactly what a save does, including leaving everything but the request log unchanged when the save fails |
| EventDetails.EventDetailsPage.HandleAddVideo | src/pages/EventDetails.tsx:167-181 | the id list with the video appended is sent; on success the backend's event is shown and the video appended |
| EventDetails.EventDetailsPage.HandleRemoveVideo | src/pages/EventDetails.tsx:183-197 | the id list without the video is sent; on success the backend's event is shown and every entry with that id leaves the playlist |
| EventManagement.FilteredEventsSpec | src/pages/EventManagement.tsx:58-62 | the shown events are exactly those whose title or description contains the term, ignoring case, in list order |
| EventManagement.EmptyTermShowsAll | src/pages/EventManagement.tsx:58-62 | an empty search shows every event |
| EventManagement.SearchIgnoresCase | src/pages/EventManagement.tsx:58-62 | terms differing only in case show the same events |
| EventManagement.RefinedTermNarrows | src/pages/EventManagement.tsx:58-62 | refining the term never reveals new events |
| EventManagement.StatusTextSpec | src/pages/EventManagement.tsx:79-92 | the four known statuses have distinct labels and any other status is shown as it is |
| EventManagement.StatusColorSpec | src/pages/EventManagement.tsx:64-77 | a draft is styled like an unknown status, and active, scheduled and completed each have a style of their own |
| EventManagement.StatusAction | src/pages/EventManagement.tsx:242-253 | pause exactly for "active", start exactly for "scheduled" or "draft", no action otherwise |
| EventManagement.ActionHasKnownLabel | src/pages/EventManagement.tsx:242-253 | every status with an action has a translated label |
| EventManagement.DeleteCommutesWithSearch | src/pages/EventManagement.tsx:52 | deleting then searching equals searching then deleting |
| EventManagement.WithoutEventSpec | src/pages/EventManagement.tsx:52 | deletion removes every event with that id and keeps the others with their multiplicity and order |
| EventManagement.EventManagementPage.constructor | src/pages/EventManagement.tsx:24-26 | empty search, empty list, loading |
| EventManagement.EventManagementPage.Load | src/pages/EventManagement.tsx:28-42 | a failed request keeps the list, an empty answer empties it, data replaces it; loading ends |
| EventManagement.EventManagementPage.SetSearchTerm | src/pages/EventManagement.tsx:123 | the shown list becomes the search result for the new term |
| EventManagement.EventManagementPage.HandleDelete | src/pages/EventManagement.tsx:44-56 | nothing without confirmation; otherwise the delete is sent and on success the event leaves both the list and the search result |
| VideoManagement.FilteredVideosSpec | src/pages/VideoManagement.tsx:71-76 | the shown media are exactly the 360° videos whose title contains the term, ignoring case, in listing order |
| VideoManagement.EmptyTermShowsAllVideos | src/pages/VideoManagement.tsx:71-76 | an empty search shows every 360° video and nothing else |
| VideoManagement.VideoSearchIgnoresCase | src/pages/VideoManagement.tsx:71-76 | terms differing only in case show the same videos |
| VideoManagement.PrependedShownFirst | src/pages/VideoManagement.tsx:84 | an uploaded media heads the shown list when it matches the search, and leaves it unchanged otherwise |
| VideoManagement.RoundedMegabytes | src/pages/VideoManagement.tsx:188 | the label is within half a megabyte of the size, halves rounding up |
| VideoManagement.RoundedMegabytesNearest | src/pages/VideoManagement.tsx:188 | no whole number of megabytes is strictly closer to the size |
| VideoManagement.RoundedMegabytesMonotone | src/pages/VideoManagement.tsx:188 | a larger file never gets a smaller label |
| Records.WithoutMediaSpec | src/pages/VideoManagement.tsx:65 | deletion removes every media with that id and keeps the others with their multiplicity and order |
| VideoManagement.VideoManagementPage.PreviewUrl | src/pages/VideoManagement.tsx:110-116 | the player has a URL exactly while a video is previewed, and it is that video's media URL |
| VideoManagement.VideoManagementPage.constructor | src/pages/VideoManagement.tsx:29-37 | empty search and list, loading, no preview, dialog closed, no file |
| VideoManagement.VideoManagementPage.Load | src/pages/VideoManagement.tsx:41-54 | the listing replaces the list, a failed request keeps it; loading ends |
| VideoManagement.VideoManagementPage.SetSearchTerm | src/pages/VideoManagement.tsx:150 | the search box holds the new term |
| VideoManagement.VideoManagementPage.HandleDelete | src/pages/VideoManagement.tsx:57-69 | nothing without confirmation; otherwise the delete is sent and on success every media with that id leaves the list |
| VideoManagement.VideoManagementPage.SetOpenUpload | src/pages/VideoManagement.tsx:134 | the upload dialog opens or closes |
| VideoManagement.VideoManagementPage.SelectFile | src/pages/VideoManagement.tsx:274 | the chosen file, or none, is held |
| VideoManagement.VideoManagementPage.HandleUpload | src/pages/VideoManagement.tsx:79-101 | nothing without a file; otherwise the file is sent as a video by "admin", and on success the new media is prepended, the file cleared and the dialog closed; a failure changes nothing else |
| VideoManagement.VideoManagementPage.Preview | src/pages/VideoManagement.tsx:212 | the player opens on the video at its media URL |
| VideoManagement.VideoManagementPage.ClosePreview | src/pages/VideoManagement.tsx:105 | the player closes |

## Left out

- The services layer and HTTP. Each request's outcome is a parameter (`None` for a failure), and the page's own requests are recorded as values. The streaming page's snapshot delete uses a hard-coded server address; it is recorded as a `DeleteMedia` request.
- The one-second `setInterval` poll and the interleaving of asynchronous handlers. Each handler runs to completion as one method, and `FetchStreamFrame` models a single tick.
- The transient `authLoading` and `uploading` flags. Each is set and cleared within one handler, so between handlers they are always false; `LoginDisabled` takes the flag as an argument instead.
- The `<video>` element: `currentTime`, `duration`, the progress percentage, `play()`/`pause()`, and setting `volume / 100`. These are browser floating-point state. `FormatTime` is modelled on whole, non-negative seconds; NaN and fractional input are not modelled.
- Timestamps. `updatedAt` is an integer timestamp rather than an ISO date string parsed with `Date`.
- `StreamingControl.Latest`: it gives the frame that the stable descending sort puts first, but the in-place sort of the temporary `streams` array is not modelled.
- `Strings.Lower`: it lower-cases ASCII letters only; JavaScript's full Unicode case mapping is not modelled.
- `BASE_URL` is a parameter (`baseUrl`), because src/lib/api.ts is not part of this model.
- The device list on the streaming page and its `deviceService` request.
- Toasts, console logging, the browser history entry pushed after creating an event (its effect on the route is modelled), the intro and playlist dialogs' open state, and styling, apart from the status badge classes.
- `downloadFile`, which drives the DOM, and `cn`, which merges CSS class names.
- `VideoManagement.VideoManagementPage.HandleUpload`: the upload's answer is taken to be the uploaded media, as VideoManagement.tsx:84 reads `res.data`; the `{code, message, files}` shape that src/services/mediaService.ts:18-22 declares for it is not modelled.
- `window.confirm`. The user's answer is a boolean parameter.
- The record fields. `MediaFile` and `Event` carry the fields the pages read: title, type and thumbnail are read by the pages but not declared in src/types/api.ts. An absent `path`, which `m.path?.startsWith` tolerates, is not modelled.
- The streaming page's `loading` flag is not a field of `StreamingPage`. The flag is set and cleared within the first load, and it only selects what is rendered.
- The event-details mount effect re-runs when a creation moves the route to the new event's id. For an event id it only sets and clears `loading`, so it is not modelled as part of `HandleSave`.
