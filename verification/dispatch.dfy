/**
 * Which refresh stages a status update runs. The update handler is a switch
 * whose cases fall through: an update enters at its own case label and runs
 * every following case up to the first `break` or `return`.
 */
module Dispatch {
  import opened Options

  datatype UpdateKind = UpdateTrack | UpdateCover | UpdateState | UpdateProgress | UpdateRating

  /** The switch's cases, in the order they are written. */
  datatype Stage = TrackStage | CoverStage | StateStage | ProgressStage | RatingStage

  /** Position of a case in the switch. */
  function Rank(s: Stage): nat
  {
    match s
    case TrackStage => 0
    case CoverStage => 1
    case StateStage => 2
    case ProgressStage => 3
    case RatingStage => 4
  }

  /** The case label an update kind jumps to. */
  function Entry(k: UpdateKind): (s: Stage)
  {
    match k
    case UpdateTrack => TrackStage
    case UpdateCover => CoverStage
    case UpdateState => StateStage
    case UpdateProgress => ProgressStage
    case UpdateRating => RatingStage
  }

  /**
   * The case a case falls into when its body ends, or None when its body ends
   * with `break` (progress and rating).
   */
  function FallsInto(s: Stage): (n: Option<Stage>)
    ensures n.Some? ==> Rank(n.value) == Rank(s) + 1
  {
    match s
    case TrackStage => Some(CoverStage)
    case CoverStage => Some(StateStage)
    case StateStage => Some(ProgressStage)
    case ProgressStage => None
    case RatingStage => None
  }

  /** The cases run after jumping to `s`: the chain of fall-throughs up to the first break. */
  function RunFrom(s: Stage): (r: seq<Stage>)
    decreases 4 - Rank(s)
    ensures |r| > 0 && r[0] == s
    ensures forall i {:trigger FallsInto(r[i])} :: 0 <= i < |r| - 1 ==> FallsInto(r[i]) == Some(r[i + 1])
    ensures FallsInto(r[|r| - 1]) == None
    ensures forall i :: 0 <= i < |r| ==> Rank(r[i]) == Rank(s) + i
  {
    match FallsInto(s)
    case None => [s]
    case Some(n) => [s] + RunFrom(n)
  }

  /** The stages an update of kind `k` runs, in order. */
  function Stages(k: UpdateKind): (r: seq<Stage>)
    ensures |r| > 0 && r[0] == Entry(k)
  {
    RunFrom(Entry(k))
  }

  /**
   * True when an update of kind `k` runs stage `s`: the rating case runs only
   * for rating updates; every other case runs for the updates whose label is
   * written at or above it.
   */
  predicate Runs(k: UpdateKind, s: Stage)
  {
    if s == RatingStage then k == UpdateRating
    else k != UpdateRating && Rank(Entry(k)) <= Rank(s)
  }

  /** The stages that refresh the screen, in switch order, when the progress stage does or does not return early. */
  function Executed(k: UpdateKind, skipped: bool): seq<Stage>
  {
    var progress := if skipped then [] else [ProgressStage];
    match k
    case UpdateTrack => [TrackStage, CoverStage, StateStage] + progress
    case UpdateCover => [CoverStage, StateStage] + progress
    case UpdateState => [StateStage] + progress
    case UpdateProgress => progress
    case UpdateRating => [RatingStage]
  }

  /** The fall-through table: each update kind and the stages it runs. */
  lemma StagesTable()
    ensures Stages(UpdateTrack) == [TrackStage, CoverStage, StateStage, ProgressStage]
    ensures Stages(UpdateCover) == [CoverStage, StateStage, ProgressStage]
    ensures Stages(UpdateState) == [StateStage, ProgressStage]
    ensures Stages(UpdateProgress) == [ProgressStage]
    ensures Stages(UpdateRating) == [RatingStage]
  {
  }

  /** Runs says exactly which stages occur in the chain of Stages. */
  lemma {:induction false} RunsIff(k: UpdateKind, s: Stage)
    ensures Runs(k, s) <==> s in Stages(k)
  {
    StagesTable();
  }

  /**
   * The stages that refresh the screen are the fall-through chain, less its
   * last stage (progress) when a pending seek makes that stage return early.
   */
  lemma ExecutedIsChain(k: UpdateKind)
    ensures Executed(k, false) == Stages(k)
    ensures Runs(k, ProgressStage) ==> Executed(k, true) == Stages(k)[..|Stages(k)| - 1]
    ensures !Runs(k, ProgressStage) ==> Executed(k, true) == Stages(k)
  {
    StagesTable();
    match k
    case UpdateTrack =>
      assert Executed(k, true) == [TrackStage, CoverStage, StateStage];
    case UpdateCover =>
      assert Executed(k, true) == [CoverStage, StateStage];
    case UpdateState =>
      assert Executed(k, true) == [StateStage];
    case UpdateProgress =>
      assert Executed(k, true) == [];
    case UpdateRating =>
      assert Executed(k, true) == [RatingStage];
  }

  /** Every update except a rating update ends in the progress stage; a rating update runs nothing else. */
  lemma ProgressEndsEveryChain(k: UpdateKind)
    ensures k != UpdateRating <==> Stages(k)[|Stages(k)| - 1] == ProgressStage
    ensures k == UpdateRating <==> Stages(k) == [RatingStage]
  {
    StagesTable();
  }

  // ---------------------------------------------------------------------------
  // The cover stage.

  /**
   * An album id as the status object holds it: a Java String, that is, an
   * object identity `handle` and its characters `text`.
   */
  datatype AlbumRef = AlbumRef(handle: nat, text: string)

  /** Whether two album ids are the same object (Java `==` on references, null equal only to null). */
  predicate SameObject(a: Option<AlbumRef>, b: Option<AlbumRef>)
  {
    match (a, b)
    case (None, None) => true
    case (Some(x), Some(y)) => x.handle == y.handle
    case _ => false
  }

  /** Two album ids that are one object have one text, as a Java String does. */
  predicate Coherent(a: Option<AlbumRef>, b: Option<AlbumRef>)
  {
    a.Some? && b.Some? && a.value.handle == b.value.handle ==> a.value.text == b.value.text
  }

  /** Whether two album ids name the same album (String.equals, with null equal only to null). */
  predicate SameAlbum(a: Option<AlbumRef>, b: Option<AlbumRef>)
  {
    match (a, b)
    case (None, None) => true
    case (Some(x), Some(y)) => x.text == y.text
    case _ => false
  }

  /**
   * The cover decision as written: a cover update forces it; otherwise the
   * album id is compared with `!=`, which for Java Strings compares object
   * identity, and an album known to have no cover is not redrawn.
   */
  predicate CoverShouldUpdateAsWritten(forced: bool, albumId: Option<AlbumRef>,
                                       showing: Option<AlbumRef>, coverEmpty: bool)
  {
    forced || (!SameObject(albumId, showing) && !coverEmpty)
  }

  /** The as-written decision redraws a cover for an album already on screen; the text comparison does not. */
  lemma RedrawOfShownAlbum()
    ensures var shown := Some(AlbumRef(1, "alpha"));
            var polled := Some(AlbumRef(2, "alpha"));
            Coherent(polled, shown) && SameAlbum(polled, shown) &&
            CoverShouldUpdateAsWritten(false, polled, shown, false) &&
            !CoverShouldUpdate(false, polled, shown, false)
  {
  }

  /** The cover decision comparing album ids by their text, which the rest of the model uses. */
  predicate CoverShouldUpdate(forced: bool, albumId: Option<AlbumRef>,
                              showing: Option<AlbumRef>, coverEmpty: bool)
  {
    forced || (!SameAlbum(albumId, showing) && !coverEmpty)
  }

  /**
   * The text comparison redraws only on a cover update or on a change of album
   * that has a cover. For coherent ids, every redraw it makes the as-written
   * decision also makes, and the as-written decision redraws more only for the
   * same album held in a different object.
   */
  lemma CoverDecision(forced: bool, albumId: Option<AlbumRef>, showing: Option<AlbumRef>, coverEmpty: bool)
    ensures forced ==> CoverShouldUpdate(forced, albumId, showing, coverEmpty)
    ensures !forced && SameAlbum(albumId, showing) ==> !CoverShouldUpdate(forced, albumId, showing, coverEmpty)
    ensures Coherent(albumId, showing) && CoverShouldUpdate(forced, albumId, showing, coverEmpty) ==>
      CoverShouldUpdateAsWritten(forced, albumId, showing, coverEmpty)
    ensures CoverShouldUpdateAsWritten(forced, albumId, showing, coverEmpty) &&
            !CoverShouldUpdate(forced, albumId, showing, coverEmpty) ==>
      !forced && !coverEmpty && SameAlbum(albumId, showing) && !SameObject(albumId, showing)
  {
  }

  // ---------------------------------------------------------------------------
  // The one-shot flag set after a seek.

  /** Whether the progress stage of an update of kind `k` returns early. */
  predicate SkipsProgress(ignoreNextTick: bool, k: UpdateKind)
  {
    ignoreNextTick && Runs(k, ProgressStage)
  }

  /** The flag after an update of kind `k`: cleared by the first progress stage that sees it. */
  function IgnoreAfter(ignoreNextTick: bool, k: UpdateKind): (r: bool)
    ensures r ==> ignoreNextTick
    ensures r <==> ignoreNextTick && !SkipsProgress(ignoreNextTick, k)
  {
    ignoreNextTick && !Runs(k, ProgressStage)
  }

  /** How many of the updates `ks`, handled in order starting with the flag `ignore`, skip their progress stage. */
  function SkipCount(ignore: bool, ks: seq<UpdateKind>): nat
  {
    if ks == [] then 0
    else (if SkipsProgress(ignore, ks[0]) then 1 else 0) + SkipCount(IgnoreAfter(ignore, ks[0]), ks[1..])
  }

  /**
   * One seek skips exactly one progress refresh: of any run of updates after
   * it, one is skipped if some update runs the progress stage and none otherwise;
   * without a pending seek none is skipped.
   */
  lemma {:induction false} OneShotSkip(ignore: bool, ks: seq<UpdateKind>)
    ensures SkipCount(ignore, ks) ==
      if ignore && exists i :: 0 <= i < |ks| && Runs(ks[i], ProgressStage) then 1 else 0
  {
    if ks != [] {
      OneShotSkip(IgnoreAfter(ignore, ks[0]), ks[1..]);
      if ignore && !Runs(ks[0], ProgressStage) {
        assert (exists i :: 0 <= i < |ks| && Runs(ks[i], ProgressStage)) <==>
               (exists i :: 0 <= i < |ks[1..]| && Runs(ks[1..][i], ProgressStage)) by {
          forall i | 0 <= i < |ks| && Runs(ks[i], ProgressStage)
            ensures 0 <= i - 1 < |ks[1..]| && Runs(ks[1..][i - 1], ProgressStage)
          {
            assert i != 0;
          }
        }
      }
    }
  }
}
