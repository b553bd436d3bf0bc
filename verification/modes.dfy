/**
 * Repeat and shuffle modes as the status object reports them, and the
 * next mode that a press on the repeat or shuffle button asks for.
 */
module Modes {
  datatype RepeatMode = RepeatOff | RepeatSingle | RepeatAll
  datatype ShuffleMode = ShuffleOff | ShuffleOn
  datatype PlayState = Stopped | Paused | Playing

  /** The repeat mode requested by a press: off, then single, then all, then off again. */
  function NextRepeat(m: RepeatMode): (r: RepeatMode)
    ensures r != m
    ensures m == RepeatOff ==> r == RepeatSingle
    ensures m == RepeatSingle ==> r == RepeatAll
    ensures m == RepeatAll ==> r == RepeatOff
  {
    match m
    case RepeatOff => RepeatSingle
    case RepeatSingle => RepeatAll
    case RepeatAll => RepeatOff
  }

  /** The shuffle mode requested by a press: the other one. */
  function NextShuffle(m: ShuffleMode): (r: ShuffleMode)
    ensures r != m
  {
    match m
    case ShuffleOff => ShuffleOn
    case ShuffleOn => ShuffleOff
  }

  /** Three presses of the repeat button come back to the starting mode, and fewer do not. */
  lemma RepeatCycle(m: RepeatMode)
    ensures NextRepeat(NextRepeat(NextRepeat(m))) == m
    ensures NextRepeat(NextRepeat(m)) != m
  {
  }

  /** Two presses of the shuffle button come back to the starting mode. */
  lemma ShuffleCycle(m: ShuffleMode)
    ensures NextShuffle(NextShuffle(m)) == m
  {
  }
}
