/** The pure part of the playback-queue store: the repeat-aware index
    getters `nextindex` and `previndex`, the track lookups `next`, `prev`
    and `currenttrack` built on them, and what repeated advancing does. */
module QueueIndex {

  /** The repeat setting read from the settings store. */
  datatype Repeat = None | One | All

  /** A tracklist entry; only the fields the queue reads are kept. */
  datatype Track = Track(filepath: string, trackhash: string)

  /** What indexing a JavaScript array yields: an element, or `undefined`
      when the index is outside the array. `CurrentTrack` also uses
      `Undefined` for the empty placeholder object `{}` the `currenttrack`
      getter returns when there is no current track. */
  datatype Slot = Filled(track: Track) | Undefined

  /** `tracklist[k]` */
  function At(tracks: seq<Track>, k: int): (r: Slot)
    ensures r.Filled? <==> 0 <= k < |tracks|
    ensures r.Filled? ==> r.track == tracks[k]
  {
    if 0 <= k < |tracks| then Filled(tracks[k]) else Undefined
  }

  /** The `nextindex` getter: the same index under repeat `one`, otherwise
      one step forward, wrapping from the last index to 0. */
  function NextIndex(i: int, len: nat, repeat: Repeat): (r: int)
    ensures repeat == One ==> r == i
    ensures 0 <= i < len ==> 0 <= r < len
    ensures repeat != One && 0 <= i < len ==> r == (i + 1) % len
  {
    if repeat == One then i
    else if i == len - 1 then 0
    else i + 1
  }

  /** The `previndex` getter: the same index under repeat `one`, otherwise
      one step back, wrapping from 0 to the last index (to -1 when the list
      is empty). */
  function PrevIndex(i: int, len: nat, repeat: Repeat): (r: int)
    ensures repeat == One ==> r == i
    ensures 0 <= i < len ==> 0 <= r < len
    ensures repeat != One && 0 <= i < len ==> r == (i - 1) % len
    ensures repeat != One && len == 0 && i == 0 ==> r == -1
  {
    if repeat == One then i
    else if i == 0 then len - 1
    else i - 1
  }

  /** The `next` getter. */
  function Next(tracks: seq<Track>, i: int, repeat: Repeat): (r: Slot)
    ensures |tracks| == 0 ==> r == Undefined
    ensures 0 <= i < |tracks| ==> r.Filled?
    ensures repeat == One ==> r == At(tracks, i)
    ensures repeat != One && 0 <= i < |tracks| ==> r == Filled(tracks[(i + 1) % |tracks|])
  {
    At(tracks, NextIndex(i, |tracks|, repeat))
  }

  /** The `prev` getter. */
  function Prev(tracks: seq<Track>, i: int, repeat: Repeat): (r: Slot)
    ensures |tracks| == 0 ==> r == Undefined
    ensures 0 <= i < |tracks| ==> r.Filled?
    ensures repeat == One ==> r == At(tracks, i)
    ensures repeat != One && 0 <= i < |tracks| ==> r == Filled(tracks[(i - 1) % |tracks|])
  {
    At(tracks, PrevIndex(i, |tracks|, repeat))
  }

  /** The lookup part of the `currenttrack` getter: the track at the
      current index, or, when there is none, `Undefined`, which here stands
      for the empty placeholder object `{}` rather than JavaScript's
      `undefined`. */
  function CurrentTrack(tracks: seq<Track>, i: int): (r: Slot)
    ensures r.Filled? <==> 0 <= i < |tracks|
    ensures r.Filled? ==> r.track == tracks[i]
  {
    At(tracks, i)
  }

  /** The `currenttrackhash` getter: the current track's hash, or the
      empty string when there is no current track. */
  function CurrentTrackHash(tracks: seq<Track>, i: int): (r: string)
    ensures 0 <= i < |tracks| ==> r == tracks[i].trackhash
    ensures !(0 <= i < |tracks|) ==> r == ""
  {
    match CurrentTrack(tracks, i)
    case Filled(t) => t.trackhash
    case Undefined => ""
  }

  /** The index reached by moving forward `n` times from `i`. */
  function Advance(i: int, len: nat, repeat: Repeat, n: nat): (r: int)
    decreases n
  {
    if n == 0 then i else Advance(NextIndex(i, len, repeat), len, repeat, n - 1)
  }

  /** The index reached by moving back `n` times from `i`. */
  function Rewind(i: int, len: nat, repeat: Repeat, n: nat): (r: int)
    decreases n
  {
    if n == 0 then i else Rewind(PrevIndex(i, len, repeat), len, repeat, n - 1)
  }

  /** Stepping back undoes stepping forward on a non-empty list, and the
      other way round. */
  lemma StepsAreInverse(i: int, len: nat, repeat: Repeat)
    requires 0 <= i < len
    ensures PrevIndex(NextIndex(i, len, repeat), len, repeat) == i
    ensures NextIndex(PrevIndex(i, len, repeat), len, repeat) == i
  {
  }

  /** Under repeat `one` no number of steps leaves the current index, in
      either direction and whatever the list length. */
  lemma {:induction false} RepeatOneStays(i: int, len: nat, n: nat)
    ensures Advance(i, len, One, n) == i
    ensures Rewind(i, len, One, n) == i
  {
    if n > 0 {
      RepeatOneStays(i, len, n - 1);
    }
  }

  /** Adding the list length does not change a position on the circle. */
  lemma ModPeriod(x: int, len: nat)
    requires len > 0
    ensures (x + len) % len == x % len
  {
    var q, r := x / len, x % len;
    assert x + len == (q + 1) * len + r;
    ModUnique(x + len, q + 1, r, len);
  }

  /** Euclidean division has one remainder. */
  lemma ModUnique(x: int, q: int, r: int, len: nat)
    requires len > 0 && 0 <= r < len && x == q * len + r
    ensures x % len == r
  {
    var q', r' := x / len, x % len;
    assert x == q' * len + r';
    assert (q - q') * len == r' - r;
    if q > q' {
      MulAtLeast(q - q', len);
    } else if q < q' {
      MulAtLeast(q' - q, len);
    }
  }

  lemma MulAtLeast(d: int, len: nat)
    requires d >= 1
    ensures d * len >= len
  {
  }

  /** Outside repeat `one`, moving forward `n` times from an in-range index
      lands on `(i + n) mod len`: the queue is walked as a circle. */
  lemma {:induction false} AdvanceWraps(i: int, len: nat, repeat: Repeat, n: nat)
    requires repeat != One && 0 <= i < len
    ensures Advance(i, len, repeat, n) == (i + n) % len
    decreases n
  {
    if n > 0 {
      var j := NextIndex(i, len, repeat);
      AdvanceWraps(j, len, repeat, n - 1);
      if i == len - 1 {
        ModPeriod(n - 1, len);
        assert (i + n) == (n - 1) + len;
      } else {
        assert j == i + 1;
      }
    }
  }

  /** Outside repeat `one`, moving back `n` times from an in-range index
      lands on `(i - n) mod len`. */
  lemma {:induction false} RewindWraps(i: int, len: nat, repeat: Repeat, n: nat)
    requires repeat != One && 0 <= i < len
    ensures Rewind(i, len, repeat, n) == (i - n) % len
    decreases n
  {
    if n > 0 {
      var j := PrevIndex(i, len, repeat);
      RewindWraps(j, len, repeat, n - 1);
      if i == 0 {
        ModPeriod(-(n as int), len);
        assert j - (n - 1) == -(n as int) + len;
      } else {
        assert j == i - 1;
      }
    }
  }

  /** Two positions less than a full round apart are different. */
  lemma ModDistinct(a: int, d: int, len: nat)
    requires 0 < d < len
    ensures (a + d) % len != a % len
  {
    if (a + d) % len == a % len {
      var q, q' := a / len, (a + d) / len;
      assert a == q * len + a % len;
      assert a + d == q' * len + a % len;
      assert (q' - q) * len == d;
      if q' - q >= 1 {
        MulAtLeast(q' - q, len);
      } else {
        MulAtMostZero(q' - q, len);
      }
    }
  }

  lemma MulAtMostZero(d: int, len: nat)
    requires d <= 0
    ensures d * len <= 0
  {
  }

  /** Moving forward once per track brings the queue back to where it
      started, and outside repeat `one` the indices met on the way are all
      different: with repeat `all`, auto-advance plays every track once
      per round. */
  lemma FullRoundReturns(i: int, len: nat, repeat: Repeat)
    requires 0 <= i < len
    ensures Advance(i, len, repeat, len) == i
    ensures Rewind(i, len, repeat, len) == i
    ensures repeat != One ==>
      forall k, k' :: 0 <= k < k' < len ==> Advance(i, len, repeat, k) != Advance(i, len, repeat, k')
  {
    if repeat == One {
      RepeatOneStays(i, len, len);
    } else {
      AdvanceWraps(i, len, repeat, len);
      ModPeriod(i, len);
      RewindWraps(i, len, repeat, len);
      ModPeriod(i - len, len);
      forall k, k' | 0 <= k < k' < len
        ensures Advance(i, len, repeat, k) != Advance(i, len, repeat, k')
      {
        AdvanceWraps(i, len, repeat, k);
        AdvanceWraps(i, len, repeat, k');
        ModDistinct(i + k, k' - k, len);
      }
    }
  }

  /** Forward steps from an in-range index visit each later index in turn,
      reaching the last index after `len - 1 - i` steps; one more step
      wraps to 0. */
  lemma ReachesLast(i: int, len: nat, repeat: Repeat)
    requires repeat != One && 0 <= i < len
    ensures Advance(i, len, repeat, len - 1 - i) == len - 1
    ensures Advance(i, len, repeat, len - i) == 0
  {
    AdvanceWraps(i, len, repeat, len - 1 - i);
    AdvanceWraps(i, len, repeat, len - i);
  }
}
