/**
 * The recogniser's pure computations: the movement threshold, the
 * touch-count classifications and the payloads of START and UPDATE.
 */
module Classifier {
  import opened Wrappers
  import opened Geometry
  import opened Pointers
  import opened Gestures

  /** Taxicab distance a touch must exceed to count as moved. */
  const MOVE_THRESHOLD: real := 20.0

  /** Origin of a synthetic zoom: off the drawing surface. */
  const ZOOM_ORIGIN := Point(-1.0, -1.0)

  /** Gesture chosen when a touch first crosses the threshold, by touch count. */
  function ThresholdKind(touchCount: nat): (g: Gesture)
    ensures g == Drag || g == Scale || g == Void
    ensures Broadcastable(g) <==> touchCount == 1 || touchCount == 2
    ensures g == Drag <==> touchCount == 1
    ensures g == Scale <==> touchCount == 2
  {
    if touchCount == 1 then Drag else if touchCount == 2 then Scale else Void
  }

  /** Gesture chosen at full release when nothing was classified before. */
  function ReleaseKind(maxTouches: nat): (g: Gesture)
    ensures g == Tap || g == Undo || g == Redo
    ensures Broadcastable(g)
    ensures g == Tap <==> maxTouches == 1
    ensures g == Undo <==> maxTouches == 2
    ensures g == Redo <==> maxTouches != 1 && maxTouches != 2
  {
    if maxTouches == 1 then Tap else if maxTouches == 2 then Undo else Redo
  }

  /** A touch has moved once it is more than the threshold away from where it started. */
  predicate Moved(start: Point, now: Point)
    ensures Moved(start, now) ==> now != start
  {
    Taxicab(Sub(now, start)) > MOVE_THRESHOLD
  }

  /** The changed touch is tracked and has moved past the threshold. */
  predicate Crosses(ps: seq<Contact>, c: Contact)
    ensures Crosses(ps, c) ==> Tracked(ps, c.id) && Lookup(ps, c.id).value != c.pos
  {
    match Lookup(ps, c.id)
    case Some(start) => Moved(start, c.pos)
    case None => false
  }

  /** How many of the changed touches cross the threshold. */
  function Crossings(ps: seq<Contact>, cs: seq<Contact>): (n: nat)
    ensures n <= |cs|
  {
    if cs == [] then 0 else (if Crosses(ps, cs[0]) then 1 else 0) + Crossings(ps, cs[1..])
  }

  /** No crossing is counted exactly when no changed touch crossed. */
  lemma {:induction false} CrossingsZero(ps: seq<Contact>, cs: seq<Contact>)
    ensures Crossings(ps, cs) == 0 <==> forall i :: 0 <= i < |cs| ==> !Crosses(ps, cs[i])
  {
    if cs != [] {
      CrossingsZero(ps, cs[1..]);
      assert forall i :: 1 <= i < |cs| ==> cs[i] == cs[1..][i - 1];
    }
  }

  /** The test `touchmove` makes on the recorded start of a tracked touch is `Crosses`. */
  lemma CrossesByGap(ps: seq<Contact>, c: Contact)
    requires Tracked(ps, c.id)
    ensures var start := Lookup(ps, c.id).value;
            Crosses(ps, c) <==> Abs(c.pos.x - start.x) + Abs(c.pos.y - start.y) > MOVE_THRESHOLD
  {
  }

  /** Counting the crossings of a suffix peels off its first touch. */
  lemma CrossingsStep(ps: seq<Contact>, cs: seq<Contact>, i: nat)
    requires i < |cs|
    ensures Crossings(ps, cs[i..]) == (if Crosses(ps, cs[i]) then 1 else 0) + Crossings(ps, cs[i + 1..])
  {
    assert cs[i..][1..] == cs[i + 1..];
  }

  /** START payload at the threshold: centroid of the recorded contacts, no drag yet. */
  function StartData(ps: seq<Contact>): (d: EventData)
    requires |ps| > 0
    ensures d.drag == Origin && d.scale.None? && d.angle.None?
  {
    EventData(Mean(Positions(ps)), Origin, None, None)
  }

  /** UPDATE payload of a one-finger drag: origin at the start, drag to the current position. */
  function DragUpdate(start: Point, now: Point): (d: EventData)
    ensures d.origin == start && Add(d.origin, d.drag) == now
    ensures d.scale.None? && d.angle.None?
  {
    EventData(start, Sub(now, start), None, None)
  }

  /** Ratio of the taxicab distances between the two contacts, now over at the start. */
  function ScaleRatio(a1: Point, a2: Point, b1: Point, b2: Point): (r: real)
    requires Taxicab(Sub(a1, a2)) != 0.0
    ensures r >= 0.0
    ensures r == 0.0 <==> b1 == b2
  {
    var now, before := Taxicab(Sub(b1, b2)), Taxicab(Sub(a1, a2));
    TaxicabZero(b1, b2);
    QuotientSign(now, before);
    now / before
  }

  lemma ScaledQuotient(k: real, d: real)
    requires d > 0.0
    ensures (k * d) / d == k
  {
    var q := (k * d) / d;
    assert q * d == k * d;
    assert (q - k) * d == 0.0;
  }

  lemma QuotientOfMultiple(n: real, d: real, k: real)
    requires d > 0.0 && n == k * d
    ensures n / d == k
  {
    ScaledQuotient(k, d);
  }

  lemma QuotientSign(n: real, d: real)
    requires n >= 0.0 && d > 0.0
    ensures n / d >= 0.0 && (n / d == 0.0 <==> n == 0.0)
  {
    assert n / d * d == n;
  }

  /**
   * UPDATE payload of a two-finger pinch from the start positions `a1`,
   * `a2` and the current ones `b1`, `b2`; `angle` is `Math.atan2` of the
   * vector from `b1` to `b2`, which the caller supplies.
   */
  function PinchUpdate(a1: Point, a2: Point, b1: Point, b2: Point, angle: real): (d: EventData)
    requires Taxicab(Sub(a1, a2)) != 0.0
    ensures d.origin == Midpoint(a1, a2)
    ensures Add(d.origin, d.drag) == Midpoint(b1, b2)
    ensures d.scale == Some(ScaleRatio(a1, a2, b1, b2))
    ensures d.angle == Some(angle)
  {
    var m0, m1 := Midpoint(a1, a2), Midpoint(b1, b2);
    EventData(m0, Sub(m1, m0), Some(ScaleRatio(a1, a2, b1, b2)), Some(angle))
  }

  /** Payload of a synthetic zoom. */
  function ZoomData(scale: real): (d: EventData)
    ensures d.origin == ZOOM_ORIGIN && d.drag == Origin && d.scale == Some(scale) && d.angle.None?
  {
    EventData(ZOOM_ORIGIN, Origin, Some(scale), None)
  }

  /** Payload of a mouse press: a drag anchored at the press point. */
  function PressData(page: Point): (d: EventData)
    ensures d.origin == page && d.drag == Origin && d.scale.None? && d.angle.None?
  {
    EventData(page, Origin, None, None)
  }

  /** Payload that starts a wheel gesture at the cursor. */
  function WheelStartData(cursor: Point): (d: EventData)
    ensures d.origin == cursor && d.drag == Origin && d.scale == Some(1.0) && d.angle.None?
  {
    EventData(cursor, Origin, Some(1.0), None)
  }

  /**
   * What `touchmove` emits while idle when `n` changed touches cross the
   * threshold: the first crossing opens `kind`; each further crossing in
   * the same event calls `setEventType` again, closing and reopening it.
   */
  function Restarts(kind: Gesture, data: Option<EventData>, n: nat): (r: seq<Signal>)
    ensures Broadcastable(kind) && n > 0 ==> |r| == 2 * n - 1 && r[0] == Signal(kind, Start, data)
    ensures !Broadcastable(kind) || n == 0 ==> r == []
  {
    if n == 0 || !Broadcastable(kind) then []
    else if n == 1 then [Signal(kind, Start, data)]
    else Restarts(kind, data, n - 1) + [Signal(kind, End, data), Signal(kind, Start, data)]
  }

  /**
   * One more crossing: `setEventType(kind, data)` from the state the
   * previous crossings left (idle after none) extends the emitted signals
   * from `n` crossings to `n + 1`.
   */
  lemma RestartsGrow(kind: Gesture, data: Option<EventData>, n: nat)
    ensures Restarts(kind, data, n) + Switch(if n == 0 then NoGesture else kind, if n == 0 then None else data, kind, data)
         == Restarts(kind, data, n + 1)
  {
    if n == 0 {
      assert Restarts(kind, data, 0) == [];
    }
  }

  /** The signals of any number of crossings in one event leave `kind` open with `data`. */
  lemma {:induction false} RestartsBracket(kind: Gesture, data: Option<EventData>, n: nat)
    requires n > 0
    ensures Replay(Closed, Restarts(kind, data, n)) == Expected(kind, data)
  {
    if n > 1 && Broadcastable(kind) {
      var front := Restarts(kind, data, n - 1);
      RestartsBracket(kind, data, n - 1);
      ReplayAppend(Closed, front, [Signal(kind, End, data), Signal(kind, Start, data)]);
      ReplayAppend(Expected(kind, data), [Signal(kind, End, data)], [Signal(kind, Start, data)]);
    }
  }

  /** The START payload's origin lies within the box spanned by the recorded contacts. */
  lemma StartOriginInsideContacts(ps: seq<Contact>, lo: Point, hi: Point)
    requires |ps| > 0
    requires forall i :: 0 <= i < |ps| ==> lo.x <= ps[i].pos.x <= hi.x && lo.y <= ps[i].pos.y <= hi.y
    ensures lo.x <= StartData(ps).origin.x <= hi.x && lo.y <= StartData(ps).origin.y <= hi.y
  {
    MeanWithinBox(Positions(ps), lo, hi);
  }

  /** Two fingers moving together by `v` give scale 1 and drag `v`. */
  lemma PinchOfTranslation(a1: Point, a2: Point, v: Point, angle: real)
    requires Taxicab(Sub(a1, a2)) != 0.0
    ensures PinchUpdate(a1, a2, Add(a1, v), Add(a2, v), angle).scale == Some(1.0)
    ensures PinchUpdate(a1, a2, Add(a1, v), Add(a2, v), angle).drag == v
  {
    var d := Taxicab(Sub(a1, a2));
    assert Sub(Add(a1, v), Add(a2, v)) == Sub(a1, a2);
    assert ScaleRatio(a1, a2, Add(a1, v), Add(a2, v)) == (1.0 * d) / d;
    ScaledQuotient(1.0, d);
  }

  /** Spreading both fingers by a factor `k` about any centre gives scale `k`. */
  lemma PinchOfDilation(a1: Point, a2: Point, c: Point, k: real, angle: real)
    requires Taxicab(Sub(a1, a2)) != 0.0 && k > 0.0
    ensures PinchUpdate(a1, a2, Dilate(c, k, a1), Dilate(c, k, a2), angle).scale == Some(k)
  {
    var b1, b2 := Dilate(c, k, a1), Dilate(c, k, a2);
    DilateGap(c, k, a1, a2);
    QuotientOfMultiple(Taxicab(Sub(b1, b2)), Taxicab(Sub(a1, a2)), k);
  }
}
