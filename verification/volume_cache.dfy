/**
 * The master-volume cache: a server volume reading and the time it was taken.
 * A reading older than CACHE_TIME milliseconds is fetched again before use.
 */
module VolumeCache {

  /** How long a master-volume reading is trusted, in milliseconds. */
  const CACHE_TIME: int := 10000

  datatype Cache = Cache(volume: int, time: int)

  /** The activity starts with no reading: volume and time are both -1. */
  const Initial: Cache := Cache(-1, -1)

  predicate Stale(c: Cache, now: int)
  {
    now - c.time > CACHE_TIME
  }

  /** The cache after a check at time `now`, where `serverVolume` is what the server would report. */
  function Refreshed(c: Cache, now: int, serverVolume: int): (r: Cache)
    ensures !Stale(r, now)
    ensures Stale(c, now) <==> r != c
    ensures r != c ==> r.volume == serverVolume && r.time == now && r.time > c.time
  {
    if Stale(c, now) then Cache(serverVolume, now) else c
  }

  /** A second check at the same time changes nothing, whatever the server would say. */
  lemma RefreshIdempotent(c: Cache, now: int, v: int, w: int)
    ensures Refreshed(Refreshed(c, now, v), now, w) == Refreshed(c, now, v)
  {
  }

  /** After a refresh at t1, no check within the next CACHE_TIME milliseconds fetches again. */
  lemma AtMostOneFetchPerWindow(c: Cache, t1: int, v1: int, t2: int, v2: int)
    requires Stale(c, t1) && t1 <= t2 <= t1 + CACHE_TIME
    ensures !Stale(Refreshed(c, t1, v1), t2)
    ensures Refreshed(Refreshed(c, t1, v1), t2, v2) == Refreshed(c, t1, v1)
  {
  }

  /** A fresh reading is used as it is: the volume sent is the cached one, not a new fetch. */
  lemma FreshReadingKept(c: Cache, now: int, v: int)
    requires !Stale(c, now)
    ensures Refreshed(c, now, v).volume == c.volume
  {
  }

  /** The first check after start-up always fetches, once the clock has passed CACHE_TIME - 1. */
  lemma InitialIsStale(now: int)
    requires now >= CACHE_TIME
    ensures Stale(Initial, now)
  {
  }

  /** The cache after a volume key press: the checked reading moved by `increment`, not clamped. */
  function Incremented(c: Cache, now: int, serverVolume: int, increment: int): (r: Cache)
    ensures r.time == Refreshed(c, now, serverVolume).time
    ensures r.volume - increment == (if Stale(c, now) then serverVolume else c.volume)
  {
    var base := Refreshed(c, now, serverVolume);
    base.(volume := base.volume + increment)
  }

  /** Presses within one cache window add up: two increments move the reading by their sum. */
  lemma IncrementsAddUp(c: Cache, now: int, v: int, a: int, b: int)
    ensures Incremented(Incremented(c, now, v, a), now, v, b) == Incremented(c, now, v, a + b)
  {
  }
}
