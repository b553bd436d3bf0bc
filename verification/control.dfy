/**
 * The playback-control activity: the state it keeps between events and the
 * requests it sends. Requests to the server go through the session and the
 * status object; here they are appended, in order, to the log `sent`. What the
 * status object reports at the moment of an event is passed in as a value.
 */
module Control {
  import opened Options
  import opened Modes
  import opened Peaks
  import opened VolumeCache
  import opened Dispatch
  import opened AutoPause

  /** A request sent to the server, with the arguments it carries. */
  datatype Request =
    | Play
    | Pause
    | Seek(position: int)
    | SetRepeat(repeat: RepeatMode)
    | SetShuffle(shuffle: ShuffleMode)
    | FetchVolume
    | SetVolume(volume: int)
    | SetSpeakerVolume(speakerId: int, newVolume: int, formerVolume: int,
                       maxVolume: int, secondMaxVolume: int, masterVolume: int)

  /** What the status object reports when the update handler reads it. */
  datatype StatusView = StatusView(
    play: PlayState,
    repeat: RepeatMode,
    shuffle: ShuffleMode,
    progress: int,
    progressTotal: int,
    albumId: Option<AlbumRef>,
    coverEmpty: bool,
    coverCached: bool,
    rating: int)

  /** What the cover image shows. */
  datatype CoverImage = NoImage | BlackCover | AlbumArt

  /** The requests a cache check sends: one volume fetch when the reading is stale. */
  function FetchIfStale(c: Cache, now: int): (r: seq<Request>)
    ensures r == [] || r == [FetchVolume]
    ensures r == [FetchVolume] <==> Stale(c, now)
  {
    if Stale(c, now) then [FetchVolume] else []
  }

  /** The request an auto-pause action sends. */
  function CallRequests(a: CallAction): (r: seq<Request>)
    ensures a == NoAction <==> r == []
  {
    match a
    case NoAction => []
    case SendPause => [Pause]
    case SendPlay => [Play]
  }

  /** One output (speaker) of the server: its id, whether it is on, and its absolute volume. */
  class Speaker {
    const id: int
    var active: bool
    var absoluteVolume: int

    constructor (id: int, active: bool, absoluteVolume: int)
      ensures this.id == id && this.active == active && this.absoluteVolume == absoluteVolume
    {
      this.id := id;
      this.active := active;
      this.absoluteVolume := absoluteVolume;
    }
  }

  /** The absolute volumes of the speakers, in list order. */
  function Volumes(ss: seq<Speaker>): (vs: seq<int>)
    reads ss
    ensures |vs| == |ss|
    ensures forall i :: 0 <= i < |ss| ==> vs[i] == ss[i].absoluteVolume
  {
    if ss == [] then [] else Volumes(ss[..|ss| - 1]) + [ss[|ss| - 1].absoluteVolume]
  }

  /** What Top2 of the speakers' volumes says about the speakers themselves. */
  lemma PeaksOfSpeakers(speakers: seq<Speaker>)
    ensures forall s :: s in speakers ==> s.absoluteVolume <= Top2(Volumes(speakers)).0
    ensures Top2(Volumes(speakers)).0 == 0 ||
            exists s :: s in speakers && s.absoluteVolume == Top2(Volumes(speakers)).0
    ensures 0 <= Top2(Volumes(speakers)).1 <= Top2(Volumes(speakers)).0
  {
    var vs := Volumes(speakers);
    SecondBelowPeak(vs);
    forall s | s in speakers ensures s.absoluteVolume <= Peak(vs) {
      var k :| 0 <= k < |speakers| && speakers[k] == s;
      assert vs[k] == s.absoluteVolume;
    }
    if Peak(vs) != 0 {
      var k :| 0 <= k < |vs| && vs[k] == Peak(vs);
      assert speakers[k] in speakers;
    }
  }

  /**
   * The speaker loop of the volume slider: the loudest and second-loudest
   * absolute volume over every speaker in the list, active or not, starting
   * from 0.
   */
  method LoudestTwo(speakers: seq<Speaker>) returns (maxVolume: int, secondMaxVolume: int)
    ensures (maxVolume, secondMaxVolume) == Top2(Volumes(speakers))
    ensures forall s :: s in speakers ==> s.absoluteVolume <= maxVolume
    ensures maxVolume == 0 || exists s :: s in speakers && s.absoluteVolume == maxVolume
    ensures 0 <= secondMaxVolume <= maxVolume
  {
    ghost var vs := Volumes(speakers);
    maxVolume, secondMaxVolume := 0, 0;
    for i := 0 to |speakers|
      invariant (maxVolume, secondMaxVolume) == Top2(vs[..i])
    {
      var v := speakers[i].absoluteVolume;
      assert vs[..i + 1] == vs[..i] + [v];
      Top2Step(vs[..i], v);
      if v > maxVolume {
        secondMaxVolume := maxVolume;
        maxVolume := v;
      } else if v > secondMaxVolume {
        secondMaxVolume := v;
      }
    }
    assert vs[..|speakers|] == vs;
    PeaksOfSpeakers(speakers);
  }

  class ControlActivity {
    /** The speakers as last fetched from the status object. */
    var speakers: seq<Speaker>
    /** Last master-volume reading and the time it was taken (milliseconds), -1 before the first. */
    var cachedVolume: int
    var cachedTime: int
    /** The album whose cover is on screen (null until the first cover is drawn). */
    var showingAlbumId: Option<AlbumRef>
    /** Set by a seek: the next progress stage is skipped. */
    var ignoreNextTick: bool
    /** True while the user holds the seek bar. */
    var dragging: bool
    /** The auto-pause-on-call preference. */
    var autoPause: bool
    /** What the screen shows. */
    var ratingVisible: bool
    var cover: CoverImage
    var showsPauseButton: bool
    var seekMax: int
    var seekProgress: int
    var repeatIcon: Option<RepeatMode>
    var shuffleIcon: Option<ShuffleMode>
    /** Every request sent to the server, oldest first. */
    var sent: seq<Request>

    constructor (autoPause: bool)
      ensures this.autoPause == autoPause
      ensures Reading() == Initial && showingAlbumId == None
      ensures !ignoreNextTick && !dragging && speakers == [] && sent == []
      ensures repeatIcon == None && shuffleIcon == None && cover == NoImage
    {
      this.autoPause := autoPause;
      speakers := [];
      cachedVolume, cachedTime := -1, -1;
      showingAlbumId := None;
      ignoreNextTick, dragging := false, false;
      ratingVisible, cover, showsPauseButton := false, NoImage, false;
      seekMax, seekProgress := 0, 0;
      repeatIcon, shuffleIcon := None, None;
      sent := [];
    }

    /** The master-volume cache as a value. */
    function Reading(): Cache
      reads this
    {
      VolumeCache.Cache(cachedVolume, cachedTime)
    }

    /**
     * Refreshes the master-volume reading when it is older than CACHE_TIME;
     * `serverVolume` is what the status object would report.
     */
    method CheckCachedVolume(now: int, serverVolume: int)
      modifies this`cachedVolume, this`cachedTime, this`sent
      ensures Reading() == Refreshed(old(Reading()), now, serverVolume)
      ensures sent == old(sent) + FetchIfStale(old(Reading()), now)
    {
      if now - cachedTime > CACHE_TIME {
        cachedVolume := serverVolume;
        cachedTime := now;
        sent := sent + [FetchVolume];
      }
    }

    /** A volume key press: the checked master volume moved by `increment` and sent as it is. */
    method IncrementVolume(increment: int, now: int, serverVolume: int)
      modifies this`cachedVolume, this`cachedTime, this`sent
      ensures Reading() == Incremented(old(Reading()), now, serverVolume, increment)
      ensures sent == old(sent) + FetchIfStale(old(Reading()), now) + [SetVolume(cachedVolume)]
    {
      CheckCachedVolume(now, serverVolume);
      cachedVolume := cachedVolume + increment;
      sent := sent + [SetVolume(cachedVolume)];
    }

    /** Shows the repeat mode the status reports; does nothing without a session and a status. */
    method CheckRepeat(sessionLive: bool, status: Option<StatusView>)
      modifies this`repeatIcon
      ensures repeatIcon == if sessionLive && status.Some? then Some(status.value.repeat) else old(repeatIcon)
    {
      if !sessionLive || status.None? {
        return;
      }
      repeatIcon := Some(status.value.repeat);
    }

    /** A press on the repeat button: asks for the next repeat mode and shows it. */
    method CheckSetRepeat(sessionLive: bool, status: Option<StatusView>)
      modifies this`repeatIcon, this`sent
      ensures sessionLive && status.Some? ==>
        var next := NextRepeat(status.value.repeat);
        sent == old(sent) + [SetRepeat(next)] && repeatIcon == Some(next)
      ensures !(sessionLive && status.Some?) ==> sent == old(sent) && repeatIcon == old(repeatIcon)
    {
      if !sessionLive || status.None? {
        return;
      }
      var next := NextRepeat(status.value.repeat);
      sent := sent + [SetRepeat(next)];
      repeatIcon := Some(next);
    }

    /** Shows the shuffle mode the status reports; does nothing without a session and a status. */
    method CheckShuffle(sessionLive: bool, status: Option<StatusView>)
      modifies this`shuffleIcon
      ensures shuffleIcon == if sessionLive && status.Some? then Some(status.value.shuffle) else old(shuffleIcon)
    {
      if !sessionLive || status.None? {
        return;
      }
      shuffleIcon := Some(status.value.shuffle);
    }

    /** A press on the shuffle button: asks for the other shuffle mode and shows it. */
    method CheckSetShuffle(sessionLive: bool, status: Option<StatusView>)
      modifies this`shuffleIcon, this`sent
      ensures sessionLive && status.Some? ==>
        var next := NextShuffle(status.value.shuffle);
        sent == old(sent) + [SetShuffle(next)] && shuffleIcon == Some(next)
      ensures !(sessionLive && status.Some?) ==> sent == old(sent) && shuffleIcon == old(shuffleIcon)
    {
      if !sessionLive || status.None? {
        return;
      }
      var next := NextShuffle(status.value.shuffle);
      sent := sent + [SetShuffle(next)];
      shuffleIcon := Some(next);
    }

    /** The user takes hold of the seek bar. */
    method StartTrackingTouch()
      modifies this`dragging
      ensures dragging
    {
      dragging := true;
    }

    /** The user lets go of the seek bar at `position`: seek there and skip the next progress tick. */
    method StopTrackingTouch(sessionLive: bool, position: int)
      modifies this`dragging, this`sent, this`ignoreNextTick
      ensures !dragging
      ensures sessionLive ==> sent == old(sent) + [Seek(position)] && ignoreNextTick
      ensures !sessionLive ==> sent == old(sent) && ignoreNextTick == old(ignoreNextTick)
    {
      dragging := false;
      if !sessionLive {
        return;
      }
      sent := sent + [Seek(position)];
      ignoreNextTick := true;
    }

    /** The cover stage: redraws when forced or when the album changed and has a cover. */
    method RefreshCover(forced: bool, st: StatusView)
      modifies this`showingAlbumId, this`cover
      ensures var redraw := CoverShouldUpdate(forced, st.albumId, old(showingAlbumId), st.coverEmpty);
        && showingAlbumId == (if redraw then st.albumId else old(showingAlbumId))
        && cover == (if redraw && st.coverEmpty then BlackCover
                     else if redraw && st.coverCached then AlbumArt
                     else old(cover))
    {
      if CoverShouldUpdate(forced, st.albumId, showingAlbumId, st.coverEmpty) {
        if st.coverEmpty {
          // no artwork: fade to black
          cover := BlackCover;
        } else if st.coverCached {
          cover := AlbumArt;
        }
        showingAlbumId := st.albumId;
      }
    }

    /** The track stage: the rating is hidden until it is known. */
    method ShowTrack()
      modifies this`ratingVisible
      ensures !ratingVisible
    {
      ratingVisible := false;
    }

    /** The state stage: the play/pause button and the length of the seek bar. */
    method ShowPlayState(st: StatusView)
      modifies this`showsPauseButton, this`seekMax
      ensures showsPauseButton == (st.play == Playing) && seekMax == st.progressTotal
    {
      showsPauseButton := st.play == Playing;
      seekMax := st.progressTotal;
    }

    /** The rating stage: the rating is shown only when the status knows it (not negative). */
    method ShowRating(st: StatusView)
      modifies this`ratingVisible
      ensures ratingVisible == (st.rating >= 0 || old(ratingVisible))
    {
      if st.rating >= 0 {
        ratingVisible := true;
      }
    }

    /**
     * The progress stage: a pending seek is cleared and the stage returns
     * early (`skipped`); otherwise the seek bar follows the position unless
     * the user is dragging it.
     */
    method RefreshProgress(st: StatusView) returns (skipped: bool)
      modifies this`ignoreNextTick, this`seekProgress
      ensures skipped == old(ignoreNextTick) && !ignoreNextTick
      ensures seekProgress == if !skipped && !dragging then st.progress else old(seekProgress)
    {
      if ignoreNextTick {
        ignoreNextTick := false;
        return true;
      }
      if !dragging {
        seekProgress := st.progress;
      }
      return false;
    }

    /**
     * The status-update handler: runs the stages of `kind` in switch order and
     * then shows the shuffle and repeat modes. `ran` lists the stages that
     * refreshed the screen; a pending seek makes the progress stage clear its
     * flag and return before refreshing, which also skips the mode checks.
     */
    method HandleStatusUpdate(kind: UpdateKind, st: StatusView, sessionLive: bool) returns (ran: seq<Stage>)
      modifies this`showingAlbumId, this`ignoreNextTick, this`ratingVisible, this`cover,
               this`showsPauseButton, this`seekMax, this`seekProgress, this`repeatIcon, this`shuffleIcon
      ensures var skipped := SkipsProgress(old(ignoreNextTick), kind);
        && ran == Executed(kind, skipped)
        && ignoreNextTick == IgnoreAfter(old(ignoreNextTick), kind)
        && (if !skipped && Runs(kind, ProgressStage) && !dragging then seekProgress == st.progress
            else seekProgress == old(seekProgress))
        && (if !skipped && sessionLive then repeatIcon == Some(st.repeat) && shuffleIcon == Some(st.shuffle)
            else repeatIcon == old(repeatIcon) && shuffleIcon == old(shuffleIcon))
      ensures var redraw := Runs(kind, CoverStage) &&
                            CoverShouldUpdate(kind == UpdateCover, st.albumId, old(showingAlbumId), st.coverEmpty);
        && showingAlbumId == (if redraw then st.albumId else old(showingAlbumId))
        && cover == (if redraw && st.coverEmpty then BlackCover
                     else if redraw && st.coverCached then AlbumArt
                     else old(cover))
      ensures Runs(kind, StateStage) ==> showsPauseButton == (st.play == Playing) && seekMax == st.progressTotal
      ensures !Runs(kind, StateStage) ==> showsPauseButton == old(showsPauseButton) && seekMax == old(seekMax)
      ensures ratingVisible == (if Runs(kind, RatingStage) && st.rating >= 0 then true
                                else if Runs(kind, TrackStage) then false
                                else old(ratingVisible))
    {
      // The switch's fall-through, case by case.
      var skipped := false;
      match kind {
      case UpdateTrack =>
        ShowTrack();
        RefreshCover(false, st);
        ShowPlayState(st);
        skipped := RefreshProgress(st);
        ran := [TrackStage, CoverStage, StateStage] + (if skipped then [] else [ProgressStage]);
      case UpdateCover =>
        RefreshCover(true, st);
        ShowPlayState(st);
        skipped := RefreshProgress(st);
        ran := [CoverStage, StateStage] + (if skipped then [] else [ProgressStage]);
      case UpdateState =>
        ShowPlayState(st);
        skipped := RefreshProgress(st);
        ran := [StateStage] + (if skipped then [] else [ProgressStage]);
      case UpdateProgress =>
        skipped := RefreshProgress(st);
        ran := if skipped then [] else [ProgressStage];
      case UpdateRating =>
        ShowRating(st);
        ran := [RatingStage];
      }
      if skipped {
        return;
      }
      CheckShuffle(sessionLive, Some(st));
      CheckRepeat(sessionLive, Some(st));
    }
  }

  /** The listener on one speaker's volume slider. */
  class VolumeSeekBarListener {
    const owner: ControlActivity
    const speaker: Speaker

    constructor (owner: ControlActivity, speaker: Speaker)
      ensures this.owner == owner && this.speaker == speaker
    {
      this.owner := owner;
      this.speaker := speaker;
    }

    /**
     * The slider moved to `newVolume`. A move made by the user sends one
     * speaker-volume request carrying the speaker's former volume, the two
     * loudest volumes over all speakers and the checked master volume, then
     * sets the speaker's volume locally. Any other move changes nothing.
     */
    method OnProgressChanged(newVolume: int, fromUser: bool, now: int, serverVolume: int)
      modifies owner`cachedVolume, owner`cachedTime, owner`sent, speaker`absoluteVolume
      ensures !fromUser ==> owner.sent == old(owner.sent) && owner.Reading() == old(owner.Reading())
                            && speaker.absoluteVolume == old(speaker.absoluteVolume)
      ensures fromUser ==>
        var peaks := Top2(old(Volumes(owner.speakers)));
        && owner.Reading() == Refreshed(old(owner.Reading()), now, serverVolume)
        && owner.sent == old(owner.sent) + FetchIfStale(old(owner.Reading()), now)
                         + [SetSpeakerVolume(speaker.id, newVolume, old(speaker.absoluteVolume),
                                             peaks.0, peaks.1, owner.cachedVolume)]
        && speaker.absoluteVolume == newVolume
      ensures forall s :: s in owner.speakers && s != speaker ==> s.absoluteVolume == old(s.absoluteVolume)
    {
      if fromUser {
        var maxVolume, secondMaxVolume := LoudestTwo(owner.speakers);
        owner.CheckCachedVolume(now, serverVolume);
        var formerVolume := speaker.absoluteVolume;
        owner.sent := owner.sent + [SetSpeakerVolume(speaker.id, newVolume, formerVolume,
                                                     maxVolume, secondMaxVolume, owner.cachedVolume)];
        speaker.absoluteVolume := newVolume;
      }
    }
  }

  /** The phone-state listener that pauses playback for calls. */
  class CallStateListener {
    const owner: ControlActivity
    var wasPlaying: bool

    constructor (owner: ControlActivity)
      ensures this.owner == owner && !wasPlaying
    {
      this.owner := owner;
      wasPlaying := false;
    }

    /**
     * The call state changed to `state`. `play` is the status object's play
     * state, read only when a session is live.
     */
    method OnCallStateChanged(state: CallState, sessionLive: bool, play: PlayState)
      modifies this`wasPlaying, owner`sent
      ensures var step := CallStep(owner.autoPause, old(wasPlaying), state, sessionLive, play);
        wasPlaying == step.0 && owner.sent == old(owner.sent) + CallRequests(step.1)
    {
      if owner.autoPause {
        match state
        case CallIdle =>
          if wasPlaying && sessionLive && play == Paused {
            owner.sent := owner.sent + [Play];
            wasPlaying := false;
          }
        case CallOffHook =>
          if sessionLive && play == Playing {
            owner.sent := owner.sent + [Pause];
            wasPlaying := true;
          }
        case CallRinging =>
          if sessionLive && play == Playing {
            owner.sent := owner.sent + [Pause];
            wasPlaying := true;
          }
      }
    }
  }
}
