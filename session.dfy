/**
 The hole-map screen's session: which hole is active, the hole's data once
 loaded, and the player's optional target. The pure functions below say what
 each handler does to that state; the class HoleMapSession holds the state in
 fields and its methods are proved to perform exactly those transitions.
 */
module Session {
  import opened Wrappers
  import opened GolfData
  import opened HoleView

  datatype SessionState = SessionState(
    activeHole: int,
    holeInfo: Option<HoleInfo>,
    targetPosition: Option<LatLng>)

  /** The argument of the hole selector's chevrons: back or forward one hole. */
  type Direction = d: int | d == -1 || d == 1 witness 1

  /** A request to store a target, as issued by the screen's save effect. */
  datatype SaveCall = SaveCall(roundId: string, holeNumber: int, target: LatLng)

  /** The session before any hole is loaded: the route's hole, no data, no target. */
  function Initial(holeNumber: int): (s: SessionState)
    ensures s.activeHole == holeNumber && s.holeInfo == None && s.targetPosition == None
  {
    SessionState(holeNumber, None, None)
  }

  /**
   The session invariant: loaded data always belongs to the active hole (by
   way of the lookup, so possibly hole 1's data), and a target is only ever
   set on a loaded hole.
   */
  predicate Consistent(courseId: string, s: SessionState)
    ensures Consistent(courseId, s) && s.holeInfo.Some? ==> s.holeInfo.value.holeNumber in MockCourse
    ensures Consistent(courseId, s) && s.targetPosition.Some? ==> InitialRegion(s.holeInfo).Some?
  {
    && (s.holeInfo.Some? ==> s.holeInfo.value == GetHoleInfo(courseId, s.activeHole))
    && (s.targetPosition.Some? ==> s.holeInfo.Some?)
  }

  /**
   `loadHole(hole)`: the looked-up data of the hole, the stored target of the
   hole (which the service never has) and the hole itself become the session.
   */
  function Loaded(courseId: string, roundId: string, hole: int): (s: SessionState)
    ensures s.activeHole == hole
    ensures s.holeInfo == Some(GetHoleInfo(courseId, hole))
    ensures s.targetPosition == None
    ensures Consistent(courseId, s)
  {
    SessionState(hole, Some(GetHoleInfo(courseId, hole)), GetHoleState(roundId, hole).targetPosition)
  }

  /** A long press or a drag of the target marker ending at `at`: only the target changes. */
  function TargetPlaced(s: SessionState, at: LatLng): (r: SessionState)
    ensures r.targetPosition == Some(at)
    ensures r.activeHole == s.activeHole && r.holeInfo == s.holeInfo
  {
    s.(targetPosition := Some(at))
  }

  /** `Math.max(1, active + direction)`: one hole on, never below hole 1, with no upper bound. */
  function NextHole(active: int, direction: Direction): (next: int)
    ensures next >= 1 && next >= active + direction
    ensures next == active + direction || next == 1
  {
    if active + direction > 1 then active + direction else 1
  }

  /**
   `handleHoleChange(direction)`: load the next hole, unless it is the
   active one (going back from hole 1), in which case nothing happens.
   */
  function HoleChanged(courseId: string, roundId: string, s: SessionState, direction: Direction): (r: SessionState)
    ensures r.activeHole == NextHole(s.activeHole, direction)
    ensures r == s <==> NextHole(s.activeHole, direction) == s.activeHole
    ensures r != s ==> r == Loaded(courseId, roundId, r.activeHole)
  {
    var next := NextHole(s.activeHole, direction);
    if next == s.activeHole then s else Loaded(courseId, roundId, next)
  }

  /**
   The screen's save effect, run after the target or the active hole changes:
   a save of the target for the active hole, and only when a target is set.
   */
  function SaveEffect(roundId: string, s: SessionState): (call: Option<SaveCall>)
    ensures call.Some? <==> s.targetPosition.Some?
    ensures call.Some? ==> call.value.roundId == roundId && call.value.holeNumber == s.activeHole
                           && call.value.target == s.targetPosition.value
  {
    match s.targetPosition
    case None => None
    case Some(t) => Some(SaveCall(roundId, s.activeHole, t))
  }

  /** The user's gestures on the screen. */
  datatype Event =
    | LongPress(at: LatLng)
    | MarkerDragEnd(at: LatLng)
    | HoleChange(direction: Direction)

  /**
   Whether the element that receives the gesture is on screen: the map (and
   so its long-press handler) only once a hole is loaded, the draggable
   target marker only while a target is set; the chevrons always.
   */
  predicate Enabled(s: SessionState, e: Event)
    ensures e.LongPress? ==> (Enabled(s, e) <==> InitialRegion(s.holeInfo).Some?)
    ensures e.MarkerDragEnd? ==> (Enabled(s, e) <==> s.targetPosition.Some?)
    ensures e.HoleChange? ==> Enabled(s, e)
  {
    match e
    case LongPress(_) => s.holeInfo.Some?
    case MarkerDragEnd(_) => s.targetPosition.Some?
    case HoleChange(_) => true
  }

  /** What a gesture does: a long press or drag moves only the target, a chevron press changes hole. */
  function Step(courseId: string, roundId: string, s: SessionState, e: Event): (r: SessionState)
    requires Enabled(s, e)
    ensures !e.HoleChange? ==> r.activeHole == s.activeHole && r.holeInfo == s.holeInfo && r.targetPosition == Some(e.at)
    ensures e.HoleChange? ==> r.activeHole == NextHole(s.activeHole, e.direction)
    ensures s.holeInfo.Some? ==> r.holeInfo.Some?
    ensures r.activeHole != s.activeHole ==> r.holeInfo.Some? && r.targetPosition.None?
  {
    match e
    case LongPress(at) => TargetPlaced(s, at)
    case MarkerDragEnd(at) => TargetPlaced(s, at)
    case HoleChange(direction) => HoleChanged(courseId, roundId, s, direction)
  }

  /** Every gesture of the sequence is possible in the state it meets. */
  predicate Admissible(courseId: string, roundId: string, s: SessionState, events: seq<Event>)
    ensures (forall i :: 0 <= i < |events| ==> events[i].HoleChange?) ==> Admissible(courseId, roundId, s, events)
    ensures Admissible(courseId, roundId, s, events) && events != [] ==> Enabled(s, events[0])
    decreases |events|
  {
    events == [] ||
    (Enabled(s, events[0]) && Admissible(courseId, roundId, Step(courseId, roundId, s, events[0]), events[1..]))
  }

  /**
   The state after a sequence of gestures. Loaded data is never unloaded, and
   the session only ever reaches a hole other than its starting one by loading it.
   */
  function Run(courseId: string, roundId: string, s: SessionState, events: seq<Event>): (r: SessionState)
    requires Admissible(courseId, roundId, s, events)
    ensures s.holeInfo.Some? ==> r.holeInfo.Some?
    ensures r.activeHole != s.activeHole ==> r.holeInfo.Some?
    decreases |events|
  {
    if events == [] then s
    else Run(courseId, roundId, Step(courseId, roundId, s, events[0]), events[1..])
  }

  lemma StepPreservesConsistent(courseId: string, roundId: string, s: SessionState, e: Event)
    requires Consistent(courseId, s) && Enabled(s, e)
    ensures Consistent(courseId, Step(courseId, roundId, s, e))
  {
  }

  /** The session invariant survives any sequence of gestures. */
  lemma {:induction false} RunPreservesConsistent(courseId: string, roundId: string, s: SessionState, events: seq<Event>)
    requires Consistent(courseId, s) && Admissible(courseId, roundId, s, events)
    ensures Consistent(courseId, Run(courseId, roundId, s, events))
    decreases |events|
  {
    if events != [] {
      StepPreservesConsistent(courseId, roundId, s, events[0]);
      RunPreservesConsistent(courseId, roundId, Step(courseId, roundId, s, events[0]), events[1..]);
    }
  }

  /** From a hole numbered 1 or more, no sequence of gestures ever drops below hole 1. */
  lemma {:induction false} RunNeverDropsBelowFirstHole(courseId: string, roundId: string, s: SessionState, events: seq<Event>)
    requires s.activeHole >= 1 && Admissible(courseId, roundId, s, events)
    ensures Run(courseId, roundId, s, events).activeHole >= 1
    decreases |events|
  {
    if events != [] {
      RunNeverDropsBelowFirstHole(courseId, roundId, Step(courseId, roundId, s, events[0]), events[1..]);
    }
  }

  /** n presses of the same chevron. */
  function Presses(direction: Direction, n: nat): (events: seq<Event>)
    ensures |events| == n
    ensures forall i :: 0 <= i < n ==> events[i] == HoleChange(direction)
  {
    seq(n, _ => HoleChange(direction))
  }

  /** Pressing forward n times from any hole numbered 0 or more moves n holes on: there is no last hole. */
  lemma {:induction false} ForwardHasNoLastHole(courseId: string, roundId: string, s: SessionState, n: nat)
    requires s.activeHole >= 0
    ensures Admissible(courseId, roundId, s, Presses(1, n))
    ensures Run(courseId, roundId, s, Presses(1, n)).activeHole == s.activeHole + n
    decreases n
  {
    if n > 0 {
      var events := Presses(1, n);
      assert events[1..] == Presses(1, n - 1);
      var next := Step(courseId, roundId, s, events[0]);
      assert next.activeHole == s.activeHole + 1;
      ForwardHasNoLastHole(courseId, roundId, next, n - 1);
    }
  }

  /** Pressing back n times from hole h (h at least 1) lands on hole max(1, h - n). */
  lemma {:induction false} BackStopsAtFirstHole(courseId: string, roundId: string, s: SessionState, n: nat)
    requires s.activeHole >= 1
    ensures Admissible(courseId, roundId, s, Presses(-1, n))
    ensures Run(courseId, roundId, s, Presses(-1, n)).activeHole
            == if s.activeHole - n >= 1 then s.activeHole - n else 1
    decreases n
  {
    if n > 0 {
      var events := Presses(-1, n);
      assert events[1..] == Presses(-1, n - 1);
      var next := Step(courseId, roundId, s, events[0]);
      BackStopsAtFirstHole(courseId, roundId, next, n - 1);
    }
  }

  /** Going back from hole 1 changes nothing: no reload, and the target is kept. */
  lemma BackFromFirstHoleIsNoOp(courseId: string, roundId: string, s: SessionState)
    requires s.activeHole == 1
    ensures HoleChanged(courseId, roundId, s, -1) == s
  {
  }

  /**
   The loaded data shows the active hole's own number exactly when the
   active hole is in the course table; otherwise it is hole 1's data.
   */
  lemma ShownHoleMatchesActiveHole(courseId: string, s: SessionState)
    requires Consistent(courseId, s) && s.holeInfo.Some?
    ensures s.holeInfo.value.holeNumber == s.activeHole <==> s.activeHole in MockCourse
    ensures s.activeHole !in MockCourse ==> s.holeInfo.value == MockCourse[FallbackHole]
  {
  }

  /**
   Moving forward from hole 2 makes hole 3 active while the data shown is
   hole 1's: the chevrons have no upper bound but the lookup falls back.
   */
  lemma PastLastHoleShowsFirstHole(courseId: string, roundId: string, s: SessionState)
    requires Consistent(courseId, s) && s.activeHole == 2
    ensures var r := HoleChanged(courseId, roundId, s, 1);
      && r.activeHole == 3
      && r.holeInfo == Some(MockCourse[1])
      && r.holeInfo.value.holeNumber == 1
  {
  }

  /**
   Right after a hole is loaded there is no target: no target distance, the
   prompt in the target bubble, and the full tee-to-green distance in the
   green bubble. Setting a target and then changing to a different hole
   restores this.
   */
  lemma LoadedHoleMeasuresTeeToGreen(dist: Distance, courseId: string, roundId: string, hole: int)
    ensures var s := Loaded(courseId, roundId, hole);
      var h := GetHoleInfo(courseId, hole);
      && TargetDistance(dist, s.holeInfo, s.targetPosition) == None
      && ApproachDistance(dist, s.holeInfo, s.targetPosition) == Some(dist(h.teePosition, h.greenPosition))
      && TargetSecondaryLabel(TargetDistance(dist, s.holeInfo, s.targetPosition)) == TargetPrompt
      && GreenSecondaryLabel(s.targetPosition) == TeeToGreenLabel
      && SaveEffect(roundId, s) == None
  {
  }

  /**
   The screen's session. `courseId`, `roundId` and the hole number of the
   route are fixed for the life of the screen; the three session fields are
   the screen's `useState` values.
   */
  class HoleMapSession {
    const courseId: string
    const roundId: string
    const routeHole: int
    var activeHole: int
    var holeInfo: Option<HoleInfo>
    var targetPosition: Option<LatLng>

    function State(): SessionState
      reads this
    {
      SessionState(activeHole, holeInfo, targetPosition)
    }

    ghost predicate Valid()
      reads this
    {
      Consistent(courseId, State())
    }

    /** The first render: the route's hole is active, nothing is loaded yet. */
    constructor (courseId: string, roundId: string, holeNumber: int)
      ensures this.courseId == courseId && this.roundId == roundId && routeHole == holeNumber
      ensures Valid()
      ensures State() == Initial(holeNumber)
    {
      this.courseId := courseId;
      this.roundId := roundId;
      routeHole := holeNumber;
      activeHole := holeNumber;
      holeInfo := None;
      targetPosition := None;
    }

    /** `loadHole(hole)`, with the save effect that follows it (which never saves). */
    method LoadHole(hole: int) returns (save: Option<SaveCall>)
      modifies this
      ensures Valid()
      ensures State() == Loaded(courseId, roundId, hole)
      ensures save == SaveEffect(roundId, State()) && save == None
    {
      var info := GetHoleInfo(courseId, hole);
      var state := GetHoleState(roundId, hole);
      holeInfo := Some(info);
      targetPosition := state.targetPosition;
      activeHole := hole;
      save := SaveEffect(roundId, State());
    }

    /** The mount effect: load the hole named by the route. */
    method Mount() returns (save: Option<SaveCall>)
      modifies this
      ensures Valid()
      ensures State() == Loaded(courseId, roundId, routeHole)
      ensures save == None
    {
      save := LoadHole(routeHole);
    }

    /** `handleLongPress`: the pressed point becomes the target, and is saved. */
    method HandleLongPress(at: LatLng) returns (save: Option<SaveCall>)
      requires Valid() && holeInfo.Some?
      modifies this
      ensures Valid()
      ensures State() == TargetPlaced(old(State()), at)
      ensures State() == Step(courseId, roundId, old(State()), LongPress(at))
      ensures save == Some(SaveCall(roundId, activeHole, at))
    {
      targetPosition := Some(at);
      save := SaveEffect(roundId, State());
    }

    /** The target marker's `onDragEnd`: the drop point becomes the target, and is saved. */
    method HandleMarkerDragEnd(at: LatLng) returns (save: Option<SaveCall>)
      requires Valid() && targetPosition.Some?
      modifies this
      ensures Valid()
      ensures State() == TargetPlaced(old(State()), at)
      ensures State() == Step(courseId, roundId, old(State()), MarkerDragEnd(at))
      ensures save == Some(SaveCall(roundId, activeHole, at))
    {
      targetPosition := Some(at);
      save := SaveEffect(roundId, State());
    }

    /** `handleHoleChange(direction)`: a chevron press. */
    method HandleHoleChange(direction: Direction) returns (save: Option<SaveCall>)
      requires Valid()
      modifies this
      ensures Valid()
      ensures State() == HoleChanged(courseId, roundId, old(State()), direction)
      ensures activeHole >= 1
      ensures save == None
    {
      var nextHole := NextHole(activeHole, direction);
      if nextHole == activeHole {
        return None;
      }
      save := LoadHole(nextHole);
    }
  }
}
