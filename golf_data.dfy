/**
 The mock course-data service: a constant two-hole table with a fallback to
 hole 1, a hole-state store that never holds a target, and a save that
 discards its arguments. The service's Promises are modelled by the values
 they resolve to.
 */
module GolfData {
  import opened Wrappers

  /** A point on the map, in degrees. */
  datatype LatLng = LatLng(lat: real, lng: real)

  datatype TeeColor = White | Blue | Red

  datatype HoleInfo = HoleInfo(
    holeNumber: int,
    par: int,
    handicap: int,
    teeColor: TeeColor,
    yardage: int,
    teePosition: LatLng,
    greenPosition: LatLng)

  /** What the store remembers about one hole of one round. */
  datatype HoleState = HoleState(targetPosition: Option<LatLng>)

  /** The hole returned for any hole number the table does not hold. */
  const FallbackHole: int := 1

  const MockCourse: map<int, HoleInfo> := map[
    1 := HoleInfo(1, 5, 7, Blue, 540, LatLng(37.4219983, -122.084), LatLng(37.4235, -122.0798)),
    2 := HoleInfo(2, 4, 11, White, 410, LatLng(37.4245, -122.0815), LatLng(37.426, -122.0775))
  ]

  /** Every entry of the table is filed under its own hole number. */
  lemma MockCourseIsKeyedByHoleNumber()
    ensures MockCourse.Keys == {1, 2}
    ensures forall k :: k in MockCourse ==> MockCourse[k].holeNumber == k
  {
  }

  /**
   The table entry for holeNumber, or hole 1's entry when there is none.
   The course identifier is accepted and ignored.
   */
  function GetHoleInfo(courseId: string, holeNumber: int): (info: HoleInfo)
    ensures holeNumber in MockCourse ==> info == MockCourse[holeNumber]
    ensures holeNumber !in MockCourse ==> info == MockCourse[FallbackHole]
    ensures info.holeNumber == 1 || info.holeNumber == 2
    ensures info.holeNumber == holeNumber <==> holeNumber in MockCourse
  {
    if holeNumber in MockCourse then MockCourse[holeNumber] else MockCourse[FallbackHole]
  }

  /** Two course identifiers always give the same hole. */
  lemma GetHoleInfoIgnoresCourse(courseA: string, courseB: string, holeNumber: int)
    ensures GetHoleInfo(courseA, holeNumber) == GetHoleInfo(courseB, holeNumber)
  {
  }

  /** The stored state of a hole: in this service there is never a target. */
  function GetHoleState(roundId: string, holeNumber: int): (state: HoleState)
    ensures state.targetPosition == None
  {
    HoleState(None)
  }

  /** Saving a target position: the arguments are discarded. */
  function SaveTargetPosition(roundId: string, holeNumber: int, target: LatLng): ()
  {
    ()
  }

  /**
   A save leaves nothing behind: a later read of any hole of any round,
   including the one just saved, still reports no target.
   */
  lemma SaveTargetPositionIsUnobservable(roundId: string, holeNumber: int, target: LatLng,
                                         laterRound: string, laterHole: int)
    ensures SaveTargetPosition(roundId, holeNumber, target) == ()
    ensures GetHoleState(laterRound, laterHole).targetPosition == None
    ensures GetHoleState(roundId, holeNumber).targetPosition != Some(target)
  {
  }
}
