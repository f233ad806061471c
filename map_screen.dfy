/** The map screen's draggable bottom sheet and the region the map follows
    (Components/Map.tsx). Offsets are measured down from the top of the
    screen, so a taller sheet rests at a smaller offset. */
module MapScreen {

  /** The three heights the sheet snaps to. */
  datatype SnapPoint = Max | Mid | Min

  /** The order in which ties between equally near snap points are broken. */
  function Priority(p: SnapPoint): nat {
    match p
    case Max => 0
    case Mid => 1
    case Min => 2
  }

  /** The screen height and the three sheet heights, in pixels. The app
      derives them from the window (78%, 42% and 12% of its height). */
  datatype SheetGeometry = SheetGeometry(screenHeight: int, maxHeight: int, midHeight: int, minHeight: int)
  {
    /** The heights are strictly decreasing from MAX to MIN. */
    predicate Ordered() {
      maxHeight > midHeight > minHeight
    }

    /** The sheet's resting offset for a snap point. */
    function Anchor(p: SnapPoint): real {
      match p
      case Max => (screenHeight - maxHeight) as real
      case Mid => (screenHeight - midHeight) as real
      case Min => (screenHeight - minHeight) as real
    }

    /** Whether an offset is one of the three resting offsets. */
    predicate IsAnchor(y: real) {
      y == Anchor(Max) || y == Anchor(Mid) || y == Anchor(Min)
    }
  }

  function Abs(x: real): real {
    if x < 0.0 then -x else x
  }

  /** How far a released offset is from a snap point's anchor. */
  function Distance(g: SheetGeometry, movedTo: real, p: SnapPoint): real {
    Abs(movedTo - g.Anchor(p))
  }

  /** The snap point the release handler picks: the three distances, their
      minimum, then the first of MAX, MID, MIN whose distance is that
      minimum. It is the nearest anchor and, among equally near ones, the
      one first in tie-break order. */
  function SnapChoice(g: SheetGeometry, movedTo: real): (p: SnapPoint)
    ensures forall q :: Distance(g, movedTo, p) <= Distance(g, movedTo, q)
    ensures forall q :: Distance(g, movedTo, q) == Distance(g, movedTo, p) ==> Priority(p) <= Priority(q)
  {
    var distToMax := Distance(g, movedTo, Max);
    var distToMid := Distance(g, movedTo, Mid);
    var distToMin := Distance(g, movedTo, Min);
    var minDist := Min3(distToMax, distToMid, distToMin);
    if minDist == distToMax then Max
    else if minDist == distToMid then Mid
    else Min
  }

  /** `Math.min` of three numbers. */
  function Min3(a: real, b: real, c: real): real {
    if a <= b && a <= c then a else if b <= c then b else c
  }

  /** A nearest snap point that no equally near one precedes. */
  predicate IsPreferredNearest(g: SheetGeometry, movedTo: real, p: SnapPoint) {
    (forall q :: Distance(g, movedTo, p) <= Distance(g, movedTo, q))
    && (forall q :: Distance(g, movedTo, q) == Distance(g, movedTo, p) ==> Priority(p) <= Priority(q))
  }

  /** The release rule is exactly "nearest anchor, ties to MAX then MID":
      no other snap point meets that description. */
  lemma SnapChoiceIsPreferredNearest(g: SheetGeometry, movedTo: real, p: SnapPoint)
    ensures IsPreferredNearest(g, movedTo, p) <==> p == SnapChoice(g, movedTo)
  {
    var c := SnapChoice(g, movedTo);
    if IsPreferredNearest(g, movedTo, p) {
      assert Distance(g, movedTo, p) == Distance(g, movedTo, c);
      assert Priority(p) <= Priority(c) && Priority(c) <= Priority(p);
    }
  }

  /** With distinct anchors, releasing an undragged sheet at rest leaves it at
      the same anchor. */
  lemma SnapAtAnchorStays(g: SheetGeometry, p: SnapPoint)
    requires g.Ordered()
    ensures SnapChoice(g, g.Anchor(p)) == p
  {
  }

  /** A move claims the pan gesture only when it is more than 8 pixels
      vertically. */
  function ClaimsGesture(dy: real): (claims: bool)
    ensures claims <==> dy > 8.0 || dy < -8.0
  {
    Abs(dy) > 8.0
  }

  /** The part of the map's region the screen sets. */
  datatype Region = Region(latitude: real, longitude: real, latitudeDelta: real, longitudeDelta: real)

  /** The region before any location is known: all of India. */
  const InitialRegion: Region := Region(20.5937, 78.9629, 8.5, 8.5)

  /** The zoom the first location fix sets. */
  const FixDelta: real := 0.05

  /** A position update from the location watch: the map re-centres and
      keeps its zoom. */
  function FollowPosition(prev: Region, latitude: real, longitude: real): (r: Region)
    ensures r.latitude == latitude && r.longitude == longitude
    ensures r.latitudeDelta == prev.latitudeDelta && r.longitudeDelta == prev.longitudeDelta
  {
    prev.(latitude := latitude, longitude := longitude)
  }

  /** Updates from the watch compose: only the latest position counts and
      the zoom survives any number of them. */
  lemma FollowPositionTwice(prev: Region, lat1: real, lon1: real, lat2: real, lon2: real)
    ensures FollowPosition(FollowPosition(prev, lat1, lon1), lat2, lon2) == FollowPosition(prev, lat2, lon2)
  {
  }

  /** The state of the map screen: the sheet's animated offset (its offset
      and value parts), the resting offset remembered between gestures, and
      the map region. */
  class MapFrontPage {
    const geometry: SheetGeometry
    var lastTranslateY: real
    var sheetOffset: real
    var sheetValue: real
    var region: Region

    /** Between gestures the remembered resting offset is an anchor. */
    ghost predicate Valid()
      reads this
    {
      geometry.IsAnchor(lastTranslateY)
    }

    /** Where the sheet is drawn. */
    function Position(): real
      reads this
    {
      sheetOffset + sheetValue
    }

    /** First render: the sheet rests at the MIN anchor. */
    constructor (g: SheetGeometry)
      ensures geometry == g && Valid()
      ensures lastTranslateY == g.Anchor(Min) && Position() == g.Anchor(Min)
      ensures sheetOffset == 0.0 && region == InitialRegion
    {
      geometry := g;
      lastTranslateY := g.Anchor(Min);
      sheetOffset, sheetValue := 0.0, g.Anchor(Min);
      region := InitialRegion;
    }

    /** `animateSheetTo`: the target becomes the remembered resting offset
        and the spring carries the value to it. The screen only ever aims it
        at an anchor. */
    method AnimateSheetTo(toY: real)
      requires geometry.IsAnchor(toY)
      modifies this`lastTranslateY, this`sheetValue
      ensures Valid()
      ensures lastTranslateY == toY && sheetValue == toY
    {
      lastTranslateY := toY;
      sheetValue := toY;
    }

    /** The mount effect raises the sheet to the MID anchor. */
    method Mount()
      modifies this`lastTranslateY, this`sheetValue
      ensures Valid()
      ensures lastTranslateY == geometry.Anchor(Mid) && sheetValue == geometry.Anchor(Mid)
    {
      AnimateSheetTo(geometry.Anchor(Mid));
    }

    /** A granted gesture starts from the resting offset. */
    method Grant()
      modifies this`sheetOffset, this`sheetValue
      ensures sheetOffset == lastTranslateY && sheetValue == 0.0
      ensures Position() == lastTranslateY
    {
      sheetOffset := lastTranslateY;
      sheetValue := 0.0;
    }

    /** The finger has moved `dy` since the grant. */
    method Move(dy: real)
      modifies this`sheetValue
      ensures sheetValue == dy && Position() == old(sheetOffset) + dy
    {
      sheetValue := dy;
    }

    /** Release after a drag of `dy`: the offset is folded into the value and
        the sheet snaps to the anchor nearest to the resting offset plus the
        drag, which becomes the new resting offset. */
    method Release(dy: real) returns (p: SnapPoint)
      modifies this`lastTranslateY, this`sheetOffset, this`sheetValue
      ensures p == SnapChoice(geometry, old(lastTranslateY) + dy)
      ensures lastTranslateY == geometry.Anchor(p) && Valid()
      ensures sheetOffset == 0.0 && Position() == geometry.Anchor(p)
    {
      sheetValue, sheetOffset := sheetValue + sheetOffset, 0.0;
      var movedTo := lastTranslateY + dy;
      p := SnapChoice(geometry, movedTo);
      AnimateSheetTo(geometry.Anchor(p));
    }

    /** The first location fix centres the map and zooms in. */
    method FirstFix(latitude: real, longitude: real)
      modifies this`region
      ensures region == Region(latitude, longitude, FixDelta, FixDelta)
    {
      region := Region(latitude, longitude, FixDelta, FixDelta);
    }

    /** Each later position from the watch re-centres the map. */
    method WatchUpdate(latitude: real, longitude: real)
      modifies this`region
      ensures region == FollowPosition(old(region), latitude, longitude)
    {
      region := FollowPosition(region, latitude, longitude);
    }
  }
}
