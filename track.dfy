/**
 * The falling entities of the lane runner. Obstacles and coins are both lists of
 * (lane, progress) pairs: progress 0 is the top of the play field, 1 is past its bottom.
 * This module holds the list operations GameManager applies to them (the Kotlin
 * `map`, `filter`, `removeAll`, `none` and `any` calls) and the facts about them.
 */
module Track {

  /** Kotlin's Pair<Int, Float>: (lane, progress). */
  type Falling = (int, real)

  /** The car sits at 80% of the play field; the band it reaches is [0.8, 0.8 + 0.08). */
  const CarRow: real := 0.8
  const BandHeight: real := 0.08
  /** An entity below this progress is "near the top" and blocks spawning in its lane. */
  const NearTop: real := 0.15

  /** Kotlin's `filter`: the elements of `s` that pass `keep`, in their order. */
  function Filter<T>(s: seq<T>, keep: T -> bool): (r: seq<T>)
    ensures |r| <= |s|
    ensures forall x :: x in r ==> x in s && keep(x)
    ensures forall x :: x in s && keep(x) ==> x in r
    ensures multiset(r) <= multiset(s)
    decreases |s|
  {
    if s == [] then []
    else
      var init, last := s[..|s| - 1], s[|s| - 1];
      assert s == init + [last];
      if keep(last) then Filter(init, keep) + [last] else Filter(init, keep)
  }

  lemma FilterAppend<T>(s: seq<T>, x: T, keep: T -> bool)
    ensures Filter(s + [x], keep) == Filter(s, keep) + (if keep(x) then [x] else [])
  {
    assert (s + [x])[..|s|] == s;
  }

  /** Filtering three elements keeps those that pass, in their order. */
  lemma FilterThree<T>(x: T, y: T, z: T, keep: T -> bool)
    ensures Filter([x, y, z], keep)
            == (if keep(x) then [x] else []) + (if keep(y) then [y] else [])
               + (if keep(z) then [z] else [])
  {
    var none: seq<T> := [];
    assert [x] == none + [x] && [x, y] == [x] + [y] && [x, y, z] == [x, y] + [z];
    FilterAppend(none, x, keep);
    FilterAppend([x], y, keep);
    FilterAppend([x, y], z, keep);
  }

  /** Kotlin's `map { (lane, row) -> lane to (row + speed) }`. */
  function Shift(s: seq<Falling>, speed: real): (r: seq<Falling>)
    ensures |r| == |s|
    ensures forall i :: 0 <= i < |s| ==> r[i].0 == s[i].0 && r[i].1 == s[i].1 + speed
    decreases |s|
  {
    if s == [] then []
    else Shift(s[..|s| - 1], speed) + [(s[|s| - 1].0, s[|s| - 1].1 + speed)]
  }

  /** Still on screen: the entities kept by `removeAll { it.second >= 1.0f }`. */
  predicate OnScreen(e: Falling) {
    e.1 < 1.0
  }

  /** An entity is in the shifted list exactly when it was in the list one step higher. */
  lemma ShiftMembers(s: seq<Falling>, speed: real)
    ensures forall lane, p :: (lane, p) in Shift(s, speed) <==> (lane, p - speed) in s
  {
    forall lane, p
      ensures (lane, p) in Shift(s, speed) <==> (lane, p - speed) in s
    {
      ShiftMember(s, speed, lane, p);
    }
  }

  /** The same fact for one (lane, progress) pair. */
  lemma ShiftMember(s: seq<Falling>, speed: real, lane: int, p: real)
    ensures (lane, p) in Shift(s, speed) <==> (lane, p - speed) in s
  {
    var shifted := Shift(s, speed);
    if (lane, p) in shifted {
      var i :| 0 <= i < |shifted| && shifted[i] == (lane, p);
      assert s[i] == (lane, p - speed);
    }
    if (lane, p - speed) in s {
      var i :| 0 <= i < |s| && s[i] == (lane, p - speed);
      assert shifted[i] == (lane, p);
    }
  }

  /**
   * One tick of motion: every entity advances by `speed`, those reaching 1.0 are dropped.
   * An entity survives exactly when its progress before the tick plus the step stays
   * below 1.0 (both directions), and the order of the survivors is kept.
   */
  function Moved(s: seq<Falling>, speed: real): (r: seq<Falling>)
    ensures |r| <= |s|
    ensures forall lane, p :: (lane, p) in r <==> p < 1.0 && (lane, p - speed) in s
  {
    ShiftMembers(s, speed);
    Filter(Shift(s, speed), OnScreen)
  }

  /** Kotlin's `none { it.first == lane && it.second < 0.15f }`. */
  predicate LaneFree(s: seq<Falling>, lane: int) {
    forall e :: e in s ==> !(e.0 == lane && e.1 < NearTop)
  }

  /** How many entities of lane `lane` are near the top. */
  function NearTopCount(s: seq<Falling>, lane: int): nat
    decreases |s|
  {
    if s == [] then 0
    else
      NearTopCount(s[..|s| - 1], lane)
      + (if s[|s| - 1].0 == lane && s[|s| - 1].1 < NearTop then 1 else 0)
  }

  /**
   * The invariant of an obstacle or coin list: every entity is in a lane, its progress
   * is in [0, 1), and no lane holds two entities near the top.
   */
  ghost predicate OnTrack(s: seq<Falling>, lanes: int) {
    && (forall e :: e in s ==> 0 <= e.0 < lanes && 0.0 <= e.1 < 1.0)
    && (forall lane :: NearTopCount(s, lane) <= 1)
  }

  /** Kotlin's range `0 until n`: the lanes 0, 1, ..., n - 1 in order. */
  function LaneRange(n: nat): (r: seq<int>)
    ensures |r| == n
    ensures forall i :: 0 <= i < n ==> r[i] == i
    ensures forall l :: l in r <==> 0 <= l < n
  {
    if n == 0 then [] else
      var r := LaneRange(n - 1) + [n - 1];
      assert r[n - 1] == n - 1;
      r
  }

  /** The lanes `(0 until lanes).filter { lane -> s.none { ... } }`, in lane order. */
  function AvailableLanes(s: seq<Falling>, lanes: nat): (r: seq<int>)
    ensures forall l :: l in r <==> 0 <= l < lanes && LaneFree(s, l)
  {
    Filter(LaneRange(lanes), l => LaneFree(s, l))
  }

  /** An entity in lane `lane` inside the car's band [0.8, 0.88). */
  predicate InBand(e: Falling, lane: int) {
    e.0 == lane && CarRow <= e.1 < CarRow + BandHeight
  }

  function BandTest(lane: int): Falling -> bool {
    e => InBand(e, lane)
  }

  function ClearOfBand(lane: int): Falling -> bool {
    e => !InBand(e, lane)
  }

  /**
   * Kotlin's `any { (lane, row) -> lane == carLane && row in band }`: it holds exactly
   * when the band of the lane holds at least one entity.
   */
  function Collides(s: seq<Falling>, lane: int): (b: bool)
    ensures b <==> Filter(s, BandTest(lane)) != []
  {
    var hits := Filter(s, BandTest(lane));
    assert hits != [] ==> hits[0] in hits;
    exists e :: e in s && InBand(e, lane)
  }

  lemma NearTopCountAppend(s: seq<Falling>, e: Falling, lane: int)
    ensures NearTopCount(s + [e], lane)
            == NearTopCount(s, lane) + (if e.0 == lane && e.1 < NearTop then 1 else 0)
  {
    assert (s + [e])[..|s|] == s;
  }

  /** `none` over a lane is the same as a zero near-top count in it. */
  lemma {:induction false} LaneFreeIffNoneNearTop(s: seq<Falling>, lane: int)
    ensures LaneFree(s, lane) <==> NearTopCount(s, lane) == 0
    decreases |s|
  {
    if s != [] {
      var init, last := s[..|s| - 1], s[|s| - 1];
      assert s == init + [last];
      LaneFreeIffNoneNearTop(init, lane);
      assert LaneFree(s, lane) <==> LaneFree(init, lane) && !(last.0 == lane && last.1 < NearTop);
    }
  }

  /** Removing entities never adds one near the top of a lane. */
  lemma {:induction false} FilterNearTop(s: seq<Falling>, keep: Falling -> bool, lane: int)
    ensures NearTopCount(Filter(s, keep), lane) <= NearTopCount(s, lane)
    decreases |s|
  {
    if s != [] {
      var init, last := s[..|s| - 1], s[|s| - 1];
      FilterNearTop(init, keep, lane);
      if keep(last) {
        NearTopCountAppend(Filter(init, keep), last, lane);
      }
    }
  }

  /** Moving down by a non-negative step never adds one near the top of a lane. */
  lemma {:induction false} ShiftNearTop(s: seq<Falling>, speed: real, lane: int)
    requires speed >= 0.0
    ensures NearTopCount(Shift(s, speed), lane) <= NearTopCount(s, lane)
    decreases |s|
  {
    if s != [] {
      var init, last := s[..|s| - 1], s[|s| - 1];
      ShiftNearTop(init, speed, lane);
      NearTopCountAppend(Shift(init, speed), (last.0, last.1 + speed), lane);
    }
  }

  /** A tick at a non-negative step keeps a list on track. */
  lemma MovedOnTrack(s: seq<Falling>, speed: real, lanes: int)
    requires OnTrack(s, lanes) && speed >= 0.0
    ensures OnTrack(Moved(s, speed), lanes)
  {
    forall lane
      ensures NearTopCount(Moved(s, speed), lane) <= 1
    {
      FilterNearTop(Shift(s, speed), OnScreen, lane);
      ShiftNearTop(s, speed, lane);
    }
  }

  /** Removing entities keeps a list on track. */
  lemma FilterOnTrack(s: seq<Falling>, keep: Falling -> bool, lanes: int)
    requires OnTrack(s, lanes)
    ensures OnTrack(Filter(s, keep), lanes)
  {
    forall lane
      ensures NearTopCount(Filter(s, keep), lane) <= 1
    {
      FilterNearTop(s, keep, lane);
    }
  }

  /** A spawn at the top of a free lane keeps a list on track. */
  lemma SpawnOnTrack(s: seq<Falling>, lane: int, lanes: int)
    requires OnTrack(s, lanes) && 0 <= lane < lanes && LaneFree(s, lane)
    ensures OnTrack(s + [(lane, 0.0)], lanes)
  {
    LaneFreeIffNoneNearTop(s, lane);
    forall l
      ensures NearTopCount(s + [(lane, 0.0)], l) <= 1
    {
      NearTopCountAppend(s, (lane, 0.0), l);
    }
  }

  /** `keep` and `drop` split a list: together they account for every element. */
  lemma {:induction false} FilterPartition<T>(s: seq<T>, keep: T -> bool, drop: T -> bool)
    requires forall x :: drop(x) <==> !keep(x)
    ensures multiset(Filter(s, keep)) + multiset(Filter(s, drop)) == multiset(s)
    ensures |Filter(s, keep)| + |Filter(s, drop)| == |s|
    decreases |s|
  {
    if s != [] {
      var init, last := s[..|s| - 1], s[|s| - 1];
      assert s == init + [last];
      FilterPartition(init, keep, drop);
    }
    assert |multiset(Filter(s, keep)) + multiset(Filter(s, drop))| == |multiset(s)|;
  }

  /** Filtering a list whose elements all pass leaves it unchanged. */
  lemma {:induction false} FilterKeepsAll<T>(s: seq<T>, keep: T -> bool)
    requires forall x :: x in s ==> keep(x)
    ensures Filter(s, keep) == s
    decreases |s|
  {
    if s != [] {
      var init, last := s[..|s| - 1], s[|s| - 1];
      assert s == init + [last];
      FilterKeepsAll(init, keep);
    }
  }

  /**
   * The band collision query holds exactly when removing the band's entities from the
   * lane removes something; when it does not hold, removal is the identity.
   */
  lemma CollidesIffRemoves(s: seq<Falling>, lane: int)
    ensures Collides(s, lane) <==> |Filter(s, ClearOfBand(lane))| < |s|
    ensures !Collides(s, lane) ==> Filter(s, ClearOfBand(lane)) == s
  {
    FilterPartition(s, BandTest(lane), ClearOfBand(lane));
    var hits := Filter(s, BandTest(lane));
    if Collides(s, lane) {
      var e :| e in s && InBand(e, lane);
      assert e in hits;
    }
    if |hits| > 0 {
      assert hits[0] in hits;
    }
    if !Collides(s, lane) {
      FilterKeepsAll(s, ClearOfBand(lane));
    }
  }
}
