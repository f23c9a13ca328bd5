/** Overlay geometry of the tour player, over exact reals: the click-through cutout, and where the tooltip goes. */
module Overlay {
  datatype Rect = Rect(top: real, left: real, width: real, height: real)

  datatype Size = Size(width: real, height: real)

  datatype Side = Bottom | Top | Right | Left

  datatype Placement = Auto | Center | Asked(side: Side)

  datatype Position = Position(top: real, left: real, side: Side)

  const MARGIN := 8.0

  function Min(x: real, y: real): real { if x <= y then x else y }

  function Max(x: real, y: real): real { if x >= y then x else y }

  // ------------------------------------------------------------------ the spotlight

  /** A point is covered by a panel laid out at (top, left) with this size. */
  predicate Covers(r: Rect, x: real, y: real) {
    r.left <= x < r.left + r.width && r.top <= y < r.top + r.height
  }

  predicate OnScreen(vp: Size, x: real, y: real) { 0.0 <= x < vp.width && 0.0 <= y < vp.height }

  /** The four panels around the cutout: above, below, left of and right of it. */
  function Blockers(vp: Size, cut: Rect): seq<Rect> {
    var x0 := Max(0.0, Min(vp.width, cut.left));
    var x1 := Max(x0, Min(vp.width, cut.left + cut.width));
    var y0 := Max(0.0, Min(vp.height, cut.top));
    var y1 := Max(y0, Min(vp.height, cut.top + cut.height));
    [Panel(0.0, 0.0, vp.width, y0), Panel(y1, 0.0, vp.width, vp.height - y1),
     Panel(y0, 0.0, x0, y1 - y0), Panel(y0, x1, vp.width - x1, y1 - y0)]
  }

  function Panel(top: real, left: real, width: real, height: real): Rect {
    Rect(top, left, Max(0.0, width), Max(0.0, height))
  }

  /** How many of the panels catch a click at this point. */
  function Catching(panels: seq<Rect>, x: real, y: real): nat {
    if panels == [] then 0 else (if Covers(panels[0], x, y) then 1 else 0) + Catching(panels[1..], x, y)
  }

  lemma CatchingFour(p: seq<Rect>, x: real, y: real)
    requires |p| == 4
    ensures Catching(p, x, y) == (if Covers(p[0], x, y) then 1 else 0) + (if Covers(p[1], x, y) then 1 else 0)
                               + (if Covers(p[2], x, y) then 1 else 0) + (if Covers(p[3], x, y) then 1 else 0)
  {
    hide Covers;
    assert p[1..][1..] == p[2..] && p[2..][1..] == p[3..] && p[3..][1..] == [];
    assert Catching(p[2..], x, y) ==
      (if Covers(p[2], x, y) then 1 else 0) + ((if Covers(p[3], x, y) then 1 else 0) + Catching([], x, y));
  }

  /** For every cutout, on or off screen, of any size, the panels and the cutout partition the viewport: a point on screen is
      either inside the cutout and clicks through, or caught by exactly one panel. No panel reaches off screen. */
  lemma BlockersPartitionTheViewport(vp: Size, cut: Rect, x: real, y: real)
    requires 0.0 <= vp.width && 0.0 <= vp.height
    ensures OnScreen(vp, x, y) ==> Catching(Blockers(vp, cut), x, y) == if Covers(cut, x, y) then 0 else 1
    ensures !OnScreen(vp, x, y) ==> Catching(Blockers(vp, cut), x, y) == 0
  {
    CatchingFour(Blockers(vp, cut), x, y);
  }

  // ------------------------------------------------------------------ the tooltip

  /** `auto`: the first of below, above, right, left with room; else the roomiest, earlier sides winning ties. */
  function AutoSide(target: Rect, tip: Size, vp: Size, gap: real): Side {
    if Room(Bottom, target, vp) >= Needs(Bottom, tip, gap) then Bottom
    else if Room(Top, target, vp) >= Needs(Top, tip, gap) then Top
    else if Room(Right, target, vp) >= Needs(Right, tip, gap) then Right
    else if Room(Left, target, vp) >= Needs(Left, tip, gap) then Left
    else Roomier(Roomier(Roomier(Bottom, Top, target, vp), Right, target, vp), Left, target, vp)
  }

  function Room(side: Side, target: Rect, vp: Size): real {
    match side
    case Bottom => vp.height - (target.top + target.height)
    case Top => target.top
    case Right => vp.width - (target.left + target.width)
    case Left => target.left
  }

  function Needs(side: Side, tip: Size, gap: real): real {
    if side.Bottom? || side.Top? then tip.height + gap else tip.width + gap
  }

  /** Descending sort by room is stable, so an equal later side does not displace an earlier one. */
  function Roomier(a: Side, b: Side, target: Rect, vp: Size): Side {
    if Room(b, target, vp) > Room(a, target, vp) then b else a
  }

  /** Beside the target on one side, then clamped into the viewport's margins. */
  function At(side: Side, target: Rect, tip: Size, vp: Size, gap: real): Position {
    var cx := target.left + target.width / 2.0;
    var cy := target.top + target.height / 2.0;
    var top := match side
               case Bottom => target.top + target.height + gap
               case Top => target.top - tip.height - gap
               case _ => cy - tip.height / 2.0;
    var left := match side
                case Right => target.left + target.width + gap
                case Left => target.left - tip.width - gap
                case _ => cx - tip.width / 2.0;
    Position(Max(MARGIN, Min(top, vp.height - tip.height - MARGIN)), Max(MARGIN, Min(left, vp.width - tip.width - MARGIN)), side)
  }

  predicate Intersects(a: Rect, b: Rect) {
    a.left < b.left + b.width && b.left < a.left + a.width && a.top < b.top + b.height && b.top < a.top + a.height
  }

  predicate Clear(pos: Position, tip: Size, avoid: seq<Rect>) {
    forall k :: 0 <= k < |avoid| ==> !Intersects(Rect(pos.top, pos.left, tip.width, tip.height), avoid[k])
  }

  function FirstSide(placement: Placement, target: Rect, tip: Size, vp: Size, gap: real): Side {
    match placement
    case Asked(side) => side
    case _ => AutoSide(target, tip, vp, gap)
  }

  const SIDES := [Bottom, Top, Right, Left]

  /** Where the tooltip goes: the requested side, else the first side clear of the widget's own surfaces, else the
      requested side after all. The search is the source's loop. */
  method TooltipPosition(placement: Placement, target: Rect, tip: Size, vp: Size, gap: real, avoid: seq<Rect>)
    returns (pos: Position)
    ensures pos == At(pos.side, target, tip, vp, gap)
    ensures var first := FirstSide(placement, target, tip, vp, gap);
            if Clear(At(first, target, tip, vp, gap), tip, avoid) then pos.side == first
            else if exists side :: Clear(At(side, target, tip, vp, gap), tip, avoid)
            then Clear(pos, tip, avoid)
                 && forall k :: 0 <= k < Rank(pos.side) ==> !Clear(At(SIDES[k], target, tip, vp, gap), tip, avoid)
            else pos.side == first
  {
    var first := FirstSide(placement, target, tip, vp, gap);
    var chosen := At(first, target, tip, vp, gap);
    AtKeepsSide(first, target, tip, vp, gap);
    hide At;
    hide FirstSide;
    hide Clear;
    if avoid == [] { NothingToAvoid(chosen, tip, avoid); return chosen; }
    if Clear(chosen, tip, avoid) { return chosen; }
    for k := 0 to 4
      invariant forall j :: 0 <= j < k ==> !Clear(At(SIDES[j], target, tip, vp, gap), tip, avoid)
    {
      if SIDES[k] != first {
        var candidate := At(SIDES[k], target, tip, vp, gap);
        if Clear(candidate, tip, avoid) {
          AtKeepsSide(SIDES[k], target, tip, vp, gap);
          RankOf(k);
          return candidate;
        }
      }
    }
    forall side ensures !Clear(At(side, target, tip, vp, gap), tip, avoid) {
      assert SIDES[Rank(side)] == side;
    }
    return chosen;
  }

  function Rank(side: Side): nat {
    match side case Bottom => 0 case Top => 1 case Right => 2 case Left => 3
  }

  lemma RankOf(k: nat)
    requires k < 4
    ensures Rank(SIDES[k]) == k
  {
  }

  lemma AtKeepsSide(side: Side, target: Rect, tip: Size, vp: Size, gap: real)
    ensures At(side, target, tip, vp, gap).side == side
  {
  }

  lemma NothingToAvoid(pos: Position, tip: Size, avoid: seq<Rect>)
    requires avoid == []
    ensures Clear(pos, tip, avoid)
  {
  }

  /** Wherever it goes, a tooltip that fits stays within the margins on all four edges. */
  lemma TooltipStaysOnScreen(side: Side, target: Rect, tip: Size, vp: Size, gap: real)
    ensures var pos := At(side, target, tip, vp, gap);
            && MARGIN <= pos.top && MARGIN <= pos.left
            && (tip.height + 2.0 * MARGIN <= vp.height <==> pos.top + tip.height + MARGIN <= vp.height)
            && (tip.width + 2.0 * MARGIN <= vp.width <==> pos.left + tip.width + MARGIN <= vp.width)
  {
  }

  predicate Inside(r: Rect, x: real, y: real) { r.left < x < r.left + r.width && r.top < y < r.top + r.height }

  /** Two rectangles of some size intersect exactly when some point lies inside both; sharing an edge is not enough. */
  lemma IntersectsAtAPoint(a: Rect, b: Rect)
    requires 0.0 < a.width && 0.0 < a.height && 0.0 < b.width && 0.0 < b.height
    ensures Intersects(a, b) <==> exists x, y :: Inside(a, x, y) && Inside(b, x, y)
  {
    if Intersects(a, b) {
      var x := (Max(a.left, b.left) + Min(a.left + a.width, b.left + b.width)) / 2.0;
      var y := (Max(a.top, b.top) + Min(a.top + a.height, b.top + b.height)) / 2.0;
      assert Inside(a, x, y) && Inside(b, x, y);
    }
  }

  /** x is the wanted coordinate, moved as little as it takes to lie between lo and hi; lo when they cross. */
  predicate Nearest(x: real, wanted: real, lo: real, hi: real) {
    x == if hi < lo || wanted < lo then lo else if wanted > hi then hi else wanted
  }

  /** Before the clamp the tooltip stands `gap` away from its target on the side asked for, and its centre is level with the
      target's across that side; the clamp moves it no further than the margins ask. */
  lemma TooltipStandsBeside(side: Side, target: Rect, tip: Size, vp: Size, gap: real) returns (top: real, left: real)
    ensures var pos := At(side, target, tip, vp, gap);
            && Nearest(pos.top, top, MARGIN, vp.height - tip.height - MARGIN)
            && Nearest(pos.left, left, MARGIN, vp.width - tip.width - MARGIN) && pos.side == side
    ensures side.Bottom? ==> top == target.top + target.height + gap
    ensures side.Top? ==> top + tip.height + gap == target.top
    ensures side.Right? ==> left == target.left + target.width + gap
    ensures side.Left? ==> left + tip.width + gap == target.left
    ensures side.Bottom? || side.Top? ==> left + tip.width / 2.0 == target.left + target.width / 2.0
    ensures side.Right? || side.Left? ==> top + tip.height / 2.0 == target.top + target.height / 2.0
  {
    top := match side
           case Bottom => target.top + target.height + gap
           case Top => target.top - gap - tip.height
           case _ => target.top + target.height / 2.0 - tip.height / 2.0;
    left := match side
            case Right => target.left + target.width + gap
            case Left => target.left - gap - tip.width
            case _ => target.left + target.width / 2.0 - tip.width / 2.0;
  }

  /** `auto` never picks a side without room while another has it, and otherwise picks a side with the most. */
  lemma AutoSideHasRoom(target: Rect, tip: Size, vp: Size, gap: real)
    ensures var side := AutoSide(target, tip, vp, gap);
            if exists s :: Room(s, target, vp) >= Needs(s, tip, gap)
            then Room(side, target, vp) >= Needs(side, tip, gap)
                 && forall s :: Rank(s) < Rank(side) ==> Room(s, target, vp) < Needs(s, tip, gap)
            else forall s :: Room(s, target, vp) <= Room(side, target, vp)
  {
  }

  /** On a side with room, a target on screen is never covered by its own tooltip: the gap (12 pixels where it is called) is
      wider than the margin the clamp enforces, so the clamp cannot push the tooltip back over it. */
  lemma TooltipClearsItsTarget(side: Side, target: Rect, tip: Size, vp: Size, gap: real)
    requires MARGIN <= gap && 0.0 <= tip.width && 0.0 <= tip.height
    requires Room(side, target, vp) >= Needs(side, tip, gap)
    ensures var pos := At(side, target, tip, vp, gap);
            !Intersects(Rect(pos.top, pos.left, tip.width, tip.height), target)
  {
  }
}
