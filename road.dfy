/** The world streamer: a deque of fixed-length road segments, extended at
    the back as the car advances and trimmed at the front once segments are
    far behind it (game.cpp:57-59, 361-366, 629-634, 667-674). */
module Road {

  /** segmentSize: the length of one road tile along the travel axis. */
  const SegmentSize: real := 20.0

  /** The span covered by the road that resetGame lays down. */
  const GroundLength: real := 1000.0

  /** How far behind the car a segment's end must be before it is dropped. */
  const TrimBehind: real := 50.0

  /** numSegments = int(groundLength / segmentSize) + 2. */
  const NumSegments: int := (GroundLength / SegmentSize).Floor + 2

  /** startZ = -groundLength / 2. */
  const StartZ: real := -GroundLength / 2.0

  datatype RoadSegment = RoadSegment(zStart: real)

  /** The start of the segment that follows one starting at zStart (its end). */
  function NextStart(zStart: real): real {
    zStart + SegmentSize
  }

  /** The start of the i-th segment of a road whose first segment starts at z0. */
  function NthStart(z0: real, i: int): real {
    z0 + i as real * SegmentSize
  }

  /** Every start lies a whole number of segment lengths after the first. */
  predicate Contiguous(segs: seq<RoadSegment>) {
    forall i :: 0 <= i < |segs| ==> segs[i].zStart == NthStart(segs[0].zStart, i)
  }

  /** Consecutive starts are exactly one segment length apart. */
  predicate AdjacentApart(segs: seq<RoadSegment>) {
    forall i :: 0 < i < |segs| ==> segs[i].zStart == NextStart(segs[i - 1].zStart)
  }

  lemma {:induction false} ContiguousIffAdjacentApart(segs: seq<RoadSegment>)
    ensures Contiguous(segs) <==> AdjacentApart(segs)
  {
    if AdjacentApart(segs) && segs != [] {
      var i := 0;
      while i < |segs|
        invariant 0 <= i <= |segs|
        invariant forall j :: 0 <= j < i ==> segs[j].zStart == NthStart(segs[0].zStart, j)
      {
        if i > 0 {
          assert segs[i].zStart == NextStart(segs[i - 1].zStart);
        }
        i := i + 1;
      }
    }
  }

  /** The road that resetGame (and program start-up) lays down. */
  function InitialRoad(): (r: seq<RoadSegment>)
    ensures |r| == 52
    ensures r[0].zStart == -500.0 && r[51].zStart == 520.0
    ensures Contiguous(r)
  {
    assert NumSegments == 52 by { assert GroundLength / SegmentSize == 50.0; }
    seq(NumSegments, i requires 0 <= i < NumSegments => RoadSegment(NthStart(StartZ, i)))
  }

  function Last(segs: seq<RoadSegment>): RoadSegment
    requires segs != []
  {
    segs[|segs| - 1]
  }

  /** The segment's end lies more than TrimBehind units behind the car. */
  predicate Stale(seg: RoadSegment, carZ: real) {
    seg.zStart + SegmentSize < carZ - TrimBehind
  }

  /** A last start less than three segment lengths ahead of the car. */
  predicate WithinLookahead(lastStart: real, carZ: real) {
    carZ + SegmentSize * 3.0 > lastStart
  }

  /** The guard of generateRoadIfNeeded: the deque is non-empty and its last
      start lies less than three segment lengths ahead of the car. */
  predicate NeedsExtension(segs: seq<RoadSegment>, carZ: real) {
    segs != [] && WithinLookahead(Last(segs).zStart, carZ)
  }

  /** The pop_front loop: drop the longest front prefix of stale segments. */
  function TrimStale(segs: seq<RoadSegment>, carZ: real): (r: seq<RoadSegment>)
    ensures |r| <= |segs|
    decreases |segs|
  {
    if segs != [] && Stale(segs[0], carZ) then TrimStale(segs[1..], carZ) else segs
  }

  /** Trimming keeps a suffix, and what it drops is exactly the stale front:
      every dropped segment is stale and the new front is not. */
  lemma {:induction false} TrimStaleContract(segs: seq<RoadSegment>, carZ: real)
    ensures var r := TrimStale(segs, carZ);
            r == segs[|segs| - |r|..] &&
            (forall i :: 0 <= i < |segs| - |r| ==> Stale(segs[i], carZ)) &&
            (r != [] ==> !Stale(r[0], carZ))
    decreases |segs|
  {
    if segs != [] && Stale(segs[0], carZ) {
      var r := TrimStale(segs, carZ);
      TrimStaleContract(segs[1..], carZ);
      assert segs[1..][|segs| - 1 - |r|..] == segs[|segs| - |r|..];
      forall i | 0 <= i < |segs| - |r|
        ensures Stale(segs[i], carZ)
      {
        if i > 0 {
          assert segs[i] == segs[1..][i - 1];
        }
      }
    }
  }

  /** The segment that extends `segs` by one at the back. */
  function Extension(segs: seq<RoadSegment>): seq<RoadSegment>
    requires segs != []
  {
    segs + [RoadSegment(NextStart(Last(segs).zStart))]
  }

  /** generateRoadIfNeeded: append one segment and trim, or do nothing. */
  function StreamRoad(segs: seq<RoadSegment>, carZ: real): (r: seq<RoadSegment>)
    ensures !NeedsExtension(segs, carZ) ==> r == segs
    ensures |r| <= |segs| + 1
  {
    if NeedsExtension(segs, carZ) then TrimStale(Extension(segs), carZ) else segs
  }

  /** What generateRoadIfNeeded promises: nothing changes unless the road
      runs short; then exactly one segment is added at the back, only a stale
      front is removed and the order of what is left is kept. */
  lemma StreamRoadContract(segs: seq<RoadSegment>, carZ: real)
    ensures var r := StreamRoad(segs, carZ);
            (!NeedsExtension(segs, carZ) ==> r == segs) &&
            (NeedsExtension(segs, carZ) ==>
               var ext := Extension(segs);
               |r| <= |ext| && r == ext[|ext| - |r|..] &&
               (forall i :: 0 <= i < |ext| - |r| ==> Stale(ext[i], carZ)) &&
               (r != [] ==> !Stale(r[0], carZ)))
  {
    if NeedsExtension(segs, carZ) {
      TrimStaleContract(Extension(segs), carZ);
    }
  }

  lemma {:induction false} SuffixContiguous(segs: seq<RoadSegment>, k: int)
    requires Contiguous(segs) && 0 <= k <= |segs|
    ensures Contiguous(segs[k..])
  {
    forall i | 0 <= i < |segs| - k
      ensures segs[k..][i].zStart == NthStart(segs[k..][0].zStart, i)
    {
      assert segs[k + i].zStart == NthStart(segs[0].zStart, k + i);
      assert segs[k].zStart == NthStart(segs[0].zStart, k);
    }
  }

  lemma {:induction false} ExtensionContiguous(segs: seq<RoadSegment>)
    requires Contiguous(segs) && segs != []
    ensures Contiguous(Extension(segs))
    ensures Last(Extension(segs)).zStart == NextStart(Last(segs).zStart)
  {
    var ext := Extension(segs);
    forall i | 0 <= i < |ext|
      ensures ext[i].zStart == NthStart(ext[0].zStart, i)
    {
      if i < |segs| {
        assert ext[i] == segs[i];
      } else {
        assert segs[|segs| - 1].zStart == NthStart(segs[0].zStart, |segs| - 1);
      }
    }
  }

  /** Streaming keeps the starts exactly one segment length apart. */
  lemma {:induction false} StreamKeepsContiguity(segs: seq<RoadSegment>, carZ: real)
    requires Contiguous(segs)
    ensures Contiguous(StreamRoad(segs, carZ))
  {
    if NeedsExtension(segs, carZ) {
      ExtensionContiguous(segs);
      StreamRoadContract(segs, carZ);
      var ext := Extension(segs);
      var r := StreamRoad(segs, carZ);
      SuffixContiguous(ext, |ext| - |r|);
    }
  }

  /** Lookahead: when the road reaches three segment lengths past the car and
      the car moves at most one segment length in a frame, the road still
      reaches three segment lengths past the car after that frame, and the
      segments dropped were all behind it. */
  lemma {:induction false} StreamKeepsLookahead(segs: seq<RoadSegment>, oldZ: real, newZ: real)
    requires Contiguous(segs) && segs != []
    requires Last(segs).zStart + SegmentSize >= oldZ + 3.0 * SegmentSize
    requires oldZ <= newZ <= oldZ + SegmentSize
    ensures var r := StreamRoad(segs, newZ);
            r != [] && Last(r).zStart + SegmentSize >= newZ + 3.0 * SegmentSize &&
            Last(segs).zStart <= Last(r).zStart <= Last(segs).zStart + SegmentSize
  {
    var r := StreamRoad(segs, newZ);
    StreamRoadContract(segs, newZ);
    if NeedsExtension(segs, newZ) {
      var ext := Extension(segs);
      assert !Stale(ext[|ext| - 1], newZ);
      assert |ext| - |r| < |ext|;
      assert Last(r) == ext[|ext| - 1];
    }
  }

  /** A frame that carries the car far past the end of the road empties the
      deque, and an empty deque is never extended again. */
  lemma {:induction false} StreamCanDrain(segs: seq<RoadSegment>, carZ: real)
    requires Contiguous(segs) && NeedsExtension(segs, carZ)
    requires Stale(RoadSegment(NextStart(Last(segs).zStart)), carZ)
    ensures StreamRoad(segs, carZ) == []
    ensures forall z :: StreamRoad([], z) == []
  {
    ExtensionContiguous(segs);
    StreamRoadContract(segs, carZ);
  }
}
