/**
 The values the hole-map screen derives from its session state (the loaded
 hole and the optional target): the initial map region, the tee-target-green
 line, the distances shown in the two bubbles and their labels.

 The geodesic distance in yards (`distanceInYards`) is a parameter `dist`,
 so everything proved here holds whatever that function computes; what is
 stated is which points reach it and when.
 */
module HoleView {
  import opened Wrappers
  import opened JsMath
  import opened GolfData
  import Decimal

  /** `distanceInYards(from, to)`, left uninterpreted. */
  type Distance = (LatLng, LatLng) -> real

  /** A map region: centre and the spans shown around it, in degrees. */
  datatype Region = Region(latitude: real, longitude: real, latitudeDelta: real, longitudeDelta: real)

  /** The smallest span the initial region shows in either direction. */
  const MinDelta: real := 0.002
  /** How much wider than the tee-green span the initial region is. */
  const SpanFactor: real := 1.6

  /**
   The region first shown for a hole: centred halfway between tee and green,
   each span 1.6 times the tee-green separation but never below 0.002, so that
   both tee and green are inside it.
   */
  function ComputeInitialRegion(tee: LatLng, green: LatLng): (r: Region)
    ensures r.latitude - tee.lat == green.lat - r.latitude
    ensures r.longitude - tee.lng == green.lng - r.longitude
    ensures r.latitudeDelta >= MinDelta && r.latitudeDelta >= SpanFactor * Abs(tee.lat - green.lat)
    ensures r.latitudeDelta == MinDelta || r.latitudeDelta == SpanFactor * Abs(tee.lat - green.lat)
    ensures r.longitudeDelta >= MinDelta && r.longitudeDelta >= SpanFactor * Abs(tee.lng - green.lng)
    ensures r.longitudeDelta == MinDelta || r.longitudeDelta == SpanFactor * Abs(tee.lng - green.lng)
    ensures Abs(tee.lat - r.latitude) <= r.latitudeDelta / 2.0 && Abs(green.lat - r.latitude) <= r.latitudeDelta / 2.0
    ensures Abs(tee.lng - r.longitude) <= r.longitudeDelta / 2.0 && Abs(green.lng - r.longitude) <= r.longitudeDelta / 2.0
  {
    Region(
      (tee.lat + green.lat) / 2.0,
      (tee.lng + green.lng) / 2.0,
      Max(Abs(tee.lat - green.lat) * SpanFactor, MinDelta),
      Max(Abs(tee.lng - green.lng) * SpanFactor, MinDelta))
  }

  /** Swapping tee and green gives the same region. */
  lemma InitialRegionIsSymmetric(tee: LatLng, green: LatLng)
    ensures ComputeInitialRegion(tee, green) == ComputeInitialRegion(green, tee)
  {
  }

  /** The map's initial region: there is none (and no map) until a hole is loaded. */
  function InitialRegion(info: Option<HoleInfo>): (r: Option<Region>)
    ensures r.Some? <==> info.Some?
    ensures info.Some? ==> r.value == ComputeInitialRegion(info.value.teePosition, info.value.greenPosition)
  {
    match info
    case None => None
    case Some(h) => Some(ComputeInitialRegion(h.teePosition, h.greenPosition))
  }

  /**
   The planned route of the hole in playing order: the tee, then the target
   when one is set, then the green; nothing while no hole is loaded.
   */
  function PlannedRoute(info: Option<HoleInfo>, target: Option<LatLng>): (r: seq<LatLng>)
    ensures info.None? ==> r == []
    ensures info.Some? ==> |r| == (if target.Some? then 3 else 2)
    ensures info.Some? ==> r[0] == info.value.teePosition && r[|r| - 1] == info.value.greenPosition
    ensures info.Some? && target.Some? ==> r[1] == target.value
  {
    match info
    case None => []
    case Some(h) =>
      [h.teePosition] + (match target case None => [] case Some(t) => [t]) + [h.greenPosition]
  }

  /** The dashed polyline's points, built by pushing onto a list. */
  method LineCoordinates(info: Option<HoleInfo>, target: Option<LatLng>) returns (points: seq<LatLng>)
    ensures points == PlannedRoute(info, target)
  {
    if info.None? {
      return [];
    }
    points := [info.value.teePosition];
    if target.Some? {
      points := points + [target.value];
    }
    points := points + [info.value.greenPosition];
  }

  /** The polyline is drawn when it has at least two points, that is, exactly when a hole is loaded. */
  lemma PolylineDrawnIffHoleLoaded(info: Option<HoleInfo>, target: Option<LatLng>)
    ensures |PlannedRoute(info, target)| >= 2 <==> info.Some?
  {
  }

  /**
   The points the camera is fitted to: none when the map is not mounted or no
   hole is loaded; otherwise tee and green with the target spliced in between.
   The source's `coords.length < 2` early return can never be taken.
   */
  method FitCoordinates(mapReady: bool, info: Option<HoleInfo>, target: Option<LatLng>)
    returns (coords: Option<seq<LatLng>>)
    ensures coords.Some? <==> mapReady && info.Some?
    ensures coords.Some? ==> coords.value == PlannedRoute(info, target)
  {
    if !mapReady || info.None? {
      return None;
    }
    var points := [info.value.teePosition, info.value.greenPosition];
    if target.Some? {
      points := points[..1] + [target.value] + points[1..];
    }
    assert |points| >= 2;
    coords := Some(points);
  }

  /** Tee-to-target distance: present exactly when both a hole and a target are. */
  function TargetDistance(dist: Distance, info: Option<HoleInfo>, target: Option<LatLng>): (d: Option<real>)
    ensures d.Some? <==> info.Some? && target.Some?
    ensures d.Some? ==> d.value == dist(info.value.teePosition, target.value)
  {
    if info.None? || target.None? then None
    else Some(dist(info.value.teePosition, target.value))
  }

  /**
   Distance still to play to the green: from the target when one is set,
   from the tee otherwise; absent while no hole is loaded.
   */
  function ApproachDistance(dist: Distance, info: Option<HoleInfo>, target: Option<LatLng>): (d: Option<real>)
    ensures d.Some? <==> info.Some?
    ensures info.Some? && target.Some? ==> d.value == dist(target.value, info.value.greenPosition)
    ensures info.Some? && target.None? ==> d.value == dist(info.value.teePosition, info.value.greenPosition)
  {
    match info
    case None => None
    case Some(h) =>
      match target
      case Some(t) => Some(dist(t, h.greenPosition))
      case None => Some(dist(h.teePosition, h.greenPosition))
  }

  /**
   The two distances are the lengths of the legs of the planned route: the
   target distance its first leg and the approach distance its last.
   */
  lemma DistancesAreRouteLegs(dist: Distance, info: Option<HoleInfo>, target: Option<LatLng>)
    requires info.Some?
    ensures var r := PlannedRoute(info, target);
      && ApproachDistance(dist, info, target) == Some(dist(r[|r| - 2], r[|r| - 1]))
      && (target.Some? ==> TargetDistance(dist, info, target) == Some(dist(r[0], r[1])))
  {
  }

  /** The fixed "plays like" reduction of the target distance. */
  const PlaysLikeFactor: real := 0.95

  /** The "plays like" yardage: 95% of the distance, rounded to the nearest yard. */
  function PlaysLike(distance: real): (yards: int)
    ensures PlaysLikeFactor * distance - 0.5 < yards as real <= PlaysLikeFactor * distance + 0.5
  {
    Round(distance * PlaysLikeFactor)
  }

  const TargetPrompt: string := "Long press to set a target"
  const PlaysLikePrefix: string := "Plays like "
  const PlaysLikeSuffix: string := "y 2W"

  /** The target bubble's second line: a prompt without a target distance, else the plays-like yardage. */
  function TargetSecondaryLabel(targetDistance: Option<real>): (text: string)
    ensures targetDistance.None? ==> text == TargetPrompt
    ensures targetDistance.Some? ==>
      text == PlaysLikePrefix + Decimal.IntToString(PlaysLike(targetDistance.value)) + PlaysLikeSuffix
  {
    match targetDistance
    case None => TargetPrompt
    case Some(d) => PlaysLikePrefix + Decimal.IntToString(PlaysLike(d)) + PlaysLikeSuffix
  }

  /**
   The plays-like label can be read back: between its prefix and suffix it
   holds the decimal numeral of the plays-like yardage, and it is never the prompt.
   */
  lemma PlaysLikeLabelReadsBack(distance: real)
    ensures var text := TargetSecondaryLabel(Some(distance));
      && |text| > |PlaysLikePrefix| + |PlaysLikeSuffix|
      && text[..|PlaysLikePrefix|] == PlaysLikePrefix
      && text[|text| - |PlaysLikeSuffix|..] == PlaysLikeSuffix
      && text != TargetPrompt
      && (var numeral := text[|PlaysLikePrefix|..|text| - |PlaysLikeSuffix|];
          Decimal.IsIntLiteral(numeral) && Decimal.ParseInt(numeral) == PlaysLike(distance))
  {
    var text := TargetSecondaryLabel(Some(distance));
    var numeral := Decimal.IntToString(PlaysLike(distance));
    assert text == PlaysLikePrefix + numeral + PlaysLikeSuffix;
    assert text[|PlaysLikePrefix|..|text| - |PlaysLikeSuffix|] == numeral;
    assert text[..|PlaysLikePrefix|] == PlaysLikePrefix;
    assert text[|text| - |PlaysLikeSuffix|..] == PlaysLikeSuffix;
    Decimal.IntToStringRoundTrip(PlaysLike(distance));
    assert text[0] == 'P' != TargetPrompt[0];
  }

  /** Two target distances with the same label have the same plays-like yardage. */
  lemma PlaysLikeLabelDeterminesYards(d1: real, d2: real)
    requires TargetSecondaryLabel(Some(d1)) == TargetSecondaryLabel(Some(d2))
    ensures PlaysLike(d1) == PlaysLike(d2)
  {
    PlaysLikeLabelReadsBack(d1);
    PlaysLikeLabelReadsBack(d2);
  }

  const ToGreenLabel: string := "To green"
  const TeeToGreenLabel: string := "Tee to green"

  /** The green bubble's second line. */
  function GreenSecondaryLabel(target: Option<LatLng>): (text: string)
    ensures text == ToGreenLabel <==> target.Some?
    ensures text == TeeToGreenLabel <==> target.None?
  {
    if target.Some? then ToGreenLabel else TeeToGreenLabel
  }

  /**
   Once a hole is loaded the two bubbles agree: the target bubble prompts for
   a target exactly when the green bubble measures from the tee.
   */
  lemma BubbleLabelsAgree(dist: Distance, info: Option<HoleInfo>, target: Option<LatLng>)
    requires info.Some?
    ensures TargetSecondaryLabel(TargetDistance(dist, info, target)) == TargetPrompt
        <==> GreenSecondaryLabel(target) == TeeToGreenLabel
  {
  }
}
