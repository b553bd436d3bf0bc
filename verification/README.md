# TunesRemote+ playback control, modelled in Dafny

TunesRemote+ is an Android remote control for a media-library server. Its main screen,
`ControlActivity`, turns user gestures and server status updates into playback commands and
screen refreshes. This project models the decision logic of that screen:

- the speaker volume slider: one loop finds the loudest and second-loudest speaker volume, then
  one set-speaker-volume request is sent and that speaker's volume is updated locally;
- the master-volume cache: the reading is refreshed only when it is older than `CACHE_TIME`
  (10 000 ms), then moved by the key increment and sent as it is;
- the repeat button (off → single → all → off) and the shuffle button (off ↔ on), and the
  checks that only show the current mode;
- the status-update handler: a switch whose cases fall through, so a track update also runs the
  cover, state and progress stages; the cover stage compares the new album id with the one on
  screen (by object identity in the source, by text in this model's handler, see Findings); the
  one-shot `ignoreNextTick` flag set by a seek skips the next progress refresh;
- auto-pause for phone calls: ringing or off-hook pauses a playing server and remembers it
  (`wasPlaying`); idle resumes it if it is still paused.

Requests to the server (through the session or the status object) are appended, in order, to
the log `sent` of the activity. A master-volume read from the server (`status.getVolume()`) is a
network request, so it is logged too, as `FetchVolume`. Whatever else the status object reports
is passed in as a value: the `StatusView` of an update, the play state of a call event, the
server volume of a cache check. The clock is a parameter `now` in milliseconds. Whether the
session and the status object exist (`null` in the source) is a parameter where the source
checks it.

Layout: `options.dfy` (Option), `modes.dfy` (repeat/shuffle/play modes and the next-mode
functions), `peaks.dfy` (loudest and second loudest), `volume_cache.dfy` (the 10-second
cache), `dispatch.dfy` (fall-through stage selection, the cover decision, the seek flag),
`auto_pause.dfy` (the call-state machine), `control.dfy` (the activity's state as classes
`ControlActivity`, `Speaker`, `VolumeSeekBarListener`, `CallStateListener`, whose methods are
proved against the functions of the other modules).

The speaker loop (`ControlActivity.java:425-432`) scans every speaker in the list, inactive ones
and the speaker being adjusted included, and so does the model.

## Model

| member | source | states |
|---|---|---|
| Peaks.Peak | src/org/tunesremote/ControlActivity.java:421-432 | the loudest value is at least 0, at least every volume, and either 0 or one of the volumes |
| Peaks.RemoveOneMultiset | src/org/tunesremote/ControlActivity.java:427-430 | removing the loudest takes out exactly one occurrence, so a duplicate loudest stays for the second place |
| Peaks.Top2Step | src/org/tunesremote/ControlActivity.java:425-432 | one loop iteration (new loudest pushes the old one to second; otherwise a louder second replaces the second) keeps the pair equal to (loudest, loudest of the rest) |
| Peaks.SecondBelowPeak | src/org/tunesremote/ControlActivity.java:422-432 | 0 <= second loudest <= loudest |
| Peaks.DuplicatePeak | src/org/tunesremote/ControlActivity.java:426-431 | a loudest volume held by two speakers is also the second loudest |
| Peaks.SecondIsLeftOver | src/org/tunesremote/ControlActivity.java:427-430 | a non-zero second loudest is a volume left after removing one loudest |
| Peaks.PeakPermutation | src/org/tunesremote/ControlActivity.java:425-432 | the loudest depends only on the multiset of volumes, not on speaker order |
| Peaks.Top2Permutation | src/org/tunesremote/ControlActivity.java:425-432 | both peaks are independent of speaker order |
| Control.LoudestTwo | src/org/tunesremote/ControlActivity.java:421-432 | the loop returns the loudest volume of all speakers (or 0) and the loudest left after removing one occurrence of it; no speaker is louder than the first; 0 <= second <= first |
| Control.PeaksOfSpeakers | src/org/tunesremote/ControlActivity.java:421-432 | the loudest volume bounds every speaker's volume and is some speaker's volume (or 0), and the runner-up lies between 0 and it |
| Control.VolumeSeekBarListener.OnProgressChanged | src/org/tunesremote/ControlActivity.java:419-438 | a user move checks the cache, sends exactly one set-speaker-volume request with the speaker id, new volume, former volume, both peaks over the list before the move and the cached master volume, then sets that speaker to the new volume; other speakers unchanged; a non-user move changes nothing |
| VolumeCache.Refreshed | src/org/tunesremote/ControlActivity.java:881-887 | after a check the reading is fresh at `now`; it changes iff it was older than 10 000 ms, and then holds the server volume and time `now` |
| VolumeCache.RefreshIdempotent | src/org/tunesremote/ControlActivity.java:881-887 | a second check at the same time is a no-op |
| VolumeCache.AtMostOneFetchPerWindow | src/org/tunesremote/ControlActivity.java:881-887 | after a refresh at t1 no check up to t1 + 10 000 ms fetches again |
| VolumeCache.FreshReadingKept | src/org/tunesremote/ControlActivity.java:882-886 | a fresh reading is used without asking the server |
| VolumeCache.InitialIsStale | src/org/tunesremote/ControlActivity.java:118-119 | the initial reading (time -1) is stale once the clock reaches 10 000 ms |
| VolumeCache.Incremented | src/org/tunesremote/ControlActivity.java:850-857 | after a key press the reading is the checked value plus the increment, without clamping |
| VolumeCache.IncrementsAddUp | src/org/tunesremote/ControlActivity.java:853-856 | two presses at one time move the reading by the sum of the increments |
| Control.ControlActivity.constructor | src/org/tunesremote/ControlActivity.java:102-119 | starts with cache (-1, -1), no album shown, no pending seek, empty log |
| Control.ControlActivity.CheckCachedVolume | src/org/tunesremote/ControlActivity.java:881-887 | the new cache is Refreshed of the old one, and exactly one volume fetch is logged iff the old reading was stale |
| Control.ControlActivity.IncrementVolume | src/org/tunesremote/ControlActivity.java:850-857 | the cache becomes Incremented of the old one and the request sent carries exactly the new cached volume |
| Modes.NextRepeat | src/org/tunesremote/ControlActivity.java:775-804 | off asks for single, single for all, all for off; never the current mode |
| Modes.NextShuffle | src/org/tunesremote/ControlActivity.java:825-848 | asks for the other shuffle mode |
| Modes.RepeatCycle | src/org/tunesremote/ControlActivity.java:780-798 | three presses restore the repeat mode, two do not |
| Modes.ShuffleCycle | src/org/tunesremote/ControlActivity.java:830-842 | two presses restore the shuffle mode |
| Control.ControlActivity.CheckRepeat | src/org/tunesremote/ControlActivity.java:752-773 | shows the reported repeat mode; nothing without a session and a status |
| Control.ControlActivity.CheckSetRepeat | src/org/tunesremote/ControlActivity.java:775-804 | with a session and a status: exactly one request for the next repeat mode, which is shown; otherwise nothing |
| Control.ControlActivity.CheckShuffle | src/org/tunesremote/ControlActivity.java:806-823 | shows the reported shuffle mode; nothing without a session and a status |
| Control.ControlActivity.CheckSetShuffle | src/org/tunesremote/ControlActivity.java:825-848 | with a session and a status: exactly one request for the other shuffle mode, which is shown; otherwise nothing |
| Control.ControlActivity.StartTrackingTouch | src/org/tunesremote/ControlActivity.java:654-656 | the seek bar is being dragged |
| Control.ControlActivity.StopTrackingTouch | src/org/tunesremote/ControlActivity.java:658-669 | drag ends; with a session one seek request is sent and the next progress tick is marked to be skipped; without one nothing else changes |
| Dispatch.FallsInto | src/org/tunesremote/ControlActivity.java:187-236 | a case falls only into the case written right after it |
| Dispatch.RunFrom | src/org/tunesremote/ControlActivity.java:187-251 | the stages run from a case label are the chain of fall-throughs, ending at the first case that breaks |
| Dispatch.StagesTable | src/org/tunesremote/ControlActivity.java:187-251 | track runs track, cover, state, progress; cover runs cover, state, progress; state runs state, progress; progress runs progress; rating runs rating only |
| Dispatch.RunsIff | src/org/tunesremote/ControlActivity.java:187-251 | a stage runs iff it lies in that chain |
| Dispatch.ExecutedIsChain | src/org/tunesremote/ControlActivity.java:226-236 | the stages that refresh are the chain, less the progress stage when a pending seek makes it return early |
| Dispatch.ProgressEndsEveryChain | src/org/tunesremote/ControlActivity.java:226-250 | every update but a rating update ends in the progress stage; a rating update runs the rating stage alone |
| Dispatch.IgnoreAfter | src/org/tunesremote/ControlActivity.java:227-230 | the seek flag survives an update only if it was set and the update has no progress stage |
| Dispatch.OneShotSkip | src/org/tunesremote/ControlActivity.java:226-230 | after one seek, exactly one later progress refresh is skipped if any update runs the progress stage; with no seek pending none is |
| Dispatch.RedrawOfShownAlbum | src/org/tunesremote/ControlActivity.java:203 | the reference comparison redraws the cover of an album already on screen when it arrives as another String object with the same text; the text comparison does not (see Findings) |
| Dispatch.CoverDecision | src/org/tunesremote/ControlActivity.java:202-205 | a cover update always redraws; otherwise no redraw for the same album; for ids whose one object has one text, every redraw is also one the source makes, and the source redraws more only for the same album in another object |
| Control.ControlActivity.HandleStatusUpdate | src/org/tunesremote/ControlActivity.java:185-255 | runs the fall-through stages of the update kind: rating hidden by a track stage, cover and shown album set only on a redraw decided by the text comparison, pause button and seek maximum by the state stage, seek position by the progress stage unless dragging, rating shown only when >= 0; a pending seek is cleared and skips the progress refresh and the mode checks once |
| Control.ControlActivity.ShowTrack | src/org/tunesremote/ControlActivity.java:193-194 | the track stage leaves the rating bar hidden |
| Control.ControlActivity.RefreshCover | src/org/tunesremote/ControlActivity.java:202-219 | the cover is redrawn, and the shown album recorded, exactly when the text-comparing cover decision says so; an empty cover turns black, a cached one becomes the album art, otherwise the picture stays |
| Control.ControlActivity.ShowPlayState | src/org/tunesremote/ControlActivity.java:220-224 | the pause button is shown exactly when the status is playing, and the seek maximum is the track length |
| Control.ControlActivity.RefreshProgress | src/org/tunesremote/ControlActivity.java:226-236 | a pending seek flag is cleared and reported as a skip with the seek bar untouched; otherwise the bar follows the position unless the user is dragging |
| Control.ControlActivity.ShowRating | src/org/tunesremote/ControlActivity.java:240-250 | the rating bar becomes visible exactly when the rating is not negative, otherwise its visibility is unchanged |
| AutoPause.CallStep | src/org/tunesremote/ControlActivity.java:262-287 | with auto-pause on: ringing or off-hook while playing sends pause and sets wasPlaying; idle with wasPlaying while paused sends play and clears it; otherwise, and always with auto-pause off, nothing is sent and wasPlaying is kept |
| AutoPause.ResumesFollowPauses | src/org/tunesremote/ControlActivity.java:264-287 | over any run of call events, resumes never outnumber the pauses that preceded them |
| AutoPause.RingThenIdle | src/org/tunesremote/ControlActivity.java:266-283 | a ring while playing, then idle while paused, sends pause then play and ends with wasPlaying clear |
| AutoPause.OffSendsNothing | src/org/tunesremote/ControlActivity.java:264 | with auto-pause off no call event sends anything or changes wasPlaying |
| Control.CallStateListener.OnCallStateChanged | src/org/tunesremote/ControlActivity.java:262-288 | the new wasPlaying and the request sent are those of CallStep |

## Findings

| source | as written | input that shows it | evidently intended | confidence | as-written member | corrected member |
|---|---|---|---|---|---|---|
| src/org/tunesremote/ControlActivity.java:203 | `status.albumId != showingAlbumId` compares the two Java Strings by reference | the album on screen is "alpha" and a track update reports "alpha" again as a different String object, with a cover: the cover is redrawn | compare the album ids by their text, so the cover is redrawn only when the album changes, as the comment on line 207 says | not executed; medium: it depends on whether the status object keeps one String object per album across polls, and the status class is not part of this model | Dispatch.RedrawOfShownAlbum | Dispatch.CoverDecision |

The update handler in this model, `Control.ControlActivity.HandleStatusUpdate`, uses the corrected
comparison (`Dispatch.CoverShouldUpdate`); the two lines under "## Left out" that start with
its name and with `Control.ControlActivity.RefreshCover` record the difference.

## Left out

- Control.ControlActivity.RefreshCover: decides the redraw by comparing album ids by their text (`Dispatch.CoverShouldUpdate`), not by the String reference comparison of line 203 (`Dispatch.CoverShouldUpdateAsWritten`); for the same album arriving in another String object the source redraws and records the new id, the model keeps the picture and the old id.
- Control.ControlActivity.HandleStatusUpdate: its cover stage is `RefreshCover`, so the same text comparison replaces line 203's reference comparison in its redraw clause.
- The session and status objects themselves (the server protocol, polling, the speaker list fetch): their reads are parameters and their commands are entries of the request log.
- Threads: `incrementVolume` runs on a new thread and the status handler on the UI thread; the model runs every event to completion, one after another, so races on the static `session` and `status` fields are not modelled.
- A `null` session or status where the source dereferences it without a check (the volume slider, `checkCachedVolume`, `incrementVolume`, the update handler, and the call listener's reads of the play state at lines 267, 273 and 279 with a live session but no status) would raise a NullPointerException; the model assumes both exist there.
- Java `long` and `int` overflow of volumes and times: integers are unbounded.
- `checkCachedVolume` reads the clock twice (lines 883 and 885); the model uses one time `now` for both.
- Integer codes outside the named constants for repeat mode, shuffle mode, update kind and call state (the switches' empty defaults) are not represented.
- Rendering: texts, toasts, vibration, the fade view, the rating bar's star value (a float conversion, lines 243 and 737); the model records only rating visibility, the cover image kind, the pause button, the seek bar and the mode icons.
- The seek release's null checks of the seek bar and the vibrator (line 660): only the session check is modelled.
- Other handlers of the screen (previous, next and play/pause buttons, rating changes, speaker activation, menus, now-playing navigation, notifications) and the activity lifecycle, service binding, preferences and EULA handling.
