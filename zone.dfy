/**
 * The screen region picked by dragging in the ZoneSelector window
 * (identical in the remote client and in the desktop watcher).
 */
module Zone {
  import opened Wrappers
  import opened Json

  /** The zone tuple (x, y, w, h). */
  datatype Rect = Rect(x: int, y: int, w: int, h: int)

  function Min(a: int, b: int): int { if a <= b then a else b }
  function Max(a: int, b: int): int { if a <= b then b else a }

  /**
   * ZoneSelector.on_release: the rectangle spanned by the press point and the
   * release point, normalised so that its size is never negative.
   */
  function OnRelease(startX: int, startY: int, endX: int, endY: int): (r: Rect)
    ensures r.w >= 0 && r.h >= 0
    ensures r.x == Min(startX, endX) && r.y == Min(startY, endY)
    ensures r.x + r.w == Max(startX, endX) && r.y + r.h == Max(startY, endY)
  {
    var x1, y1 := Min(startX, endX), Min(startY, endY);
    var x2, y2 := Max(startX, endX), Max(startY, endY);
    Rect(x1, y1, x2 - x1, y2 - y1)
  }

  /** The dragged direction does not matter: swapping press and release gives the same zone. */
  lemma OnReleaseSymmetric(px: int, py: int, qx: int, qy: int)
    ensures OnRelease(px, py, qx, qy) == OnRelease(qx, qy, px, py)
  {
  }

  /** A click without a drag selects a zero-size zone at the click point. */
  lemma OnReleaseClick(x: int, y: int)
    ensures OnRelease(x, y, x, y) == Rect(x, y, 0, 0)
  {
  }

  /** Both corner points lie in the selected zone, and it is the smallest such rectangle. */
  lemma OnReleaseSpans(px: int, py: int, qx: int, qy: int)
    ensures var r := OnRelease(px, py, qx, qy);
      r.x <= px <= r.x + r.w && r.x <= qx <= r.x + r.w &&
      r.y <= py <= r.y + r.h && r.y <= qy <= r.y + r.h &&
      (r.x == px || r.x == qx) && (r.x + r.w == px || r.x + r.w == qx) &&
      (r.y == py || r.y == qy) && (r.y + r.h == py || r.y + r.h == qy)
  {
  }

  /** The zone as json.dumps sees the tuple, and as tuple() restores it on the server: four integers. */
  function AsJson(r: Rect): (items: seq<Json>)
    ensures |items| == 4
    ensures items[0] == JNumber(r.x) && items[1] == JNumber(r.y)
    ensures items[2] == JNumber(r.w) && items[3] == JNumber(r.h)
  {
    [JNumber(r.x), JNumber(r.y), JNumber(r.w), JNumber(r.h)]
  }

  /** f"{zone}" for the zone tuple. */
  function Format(r: Rect): string {
    "(" + IntToString(r.x) + ", " + IntToString(r.y) + ", " + IntToString(r.w) + ", " + IntToString(r.h) + ")"
  }

  const SelectPrompt := "Select zone to watch on screen."
  const NoZoneSelected := "No zone selected"

  /**
   * select_zone after the selector window closed: `selected` is the
   * selector's zone (None when no release happened). Every 4-tuple is
   * truthy, so a zero-size zone is accepted. Gives the new zone and the
   * lines written to the log box.
   */
  function SelectZone(current: Option<Rect>, selected: Option<Rect>): (r: (Option<Rect>, seq<string>))
    ensures |r.1| == 2 && r.1[0] == SelectPrompt
    ensures selected.Some? ==> r.0 == selected && r.1[1] == "Selected zone : " + Format(selected.value)
    ensures selected.None? ==> r.0 == current && r.1[1] == NoZoneSelected
  {
    match selected
    case Some(z) => (Some(z), [SelectPrompt, "Selected zone : " + Format(z)])
    case None => (current, [SelectPrompt, NoZoneSelected])
  }

  /** Any completed drag, even a click, yields an accepted zone. */
  lemma ClickIsAccepted(current: Option<Rect>, x: int, y: int)
    ensures SelectZone(current, Some(OnRelease(x, y, x, y))).0 == Some(Rect(x, y, 0, 0))
  {
  }
}
