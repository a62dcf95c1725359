/**
 * The gesture state machine: touch, mouse and wheel samples in,
 * `(GESTURE, STATE, EventData)` broadcasts out. The controller owns one
 * "current gesture" slot with its last payload, the map of touches that
 * started while no gesture was detected, the touch count of the latest
 * accepted `touchstart`, and the ordered list of subscriber callbacks.
 */
module TouchControl {
  import opened Wrappers
  import opened Geometry
  import opened Pointers
  import opened Gestures
  import opened Classifier
  import Registry

  /**
   * The preconditions `updateCurrentEvent` needs: the touches it reads
   * were recorded at `touchstart` (the source dereferences them without a
   * check), and a pinch did not start with both fingers on one point.
   */
  predicate UpdateDefined(current: Gesture, ps: seq<Contact>, touches: seq<Contact>) {
    (current == Drag && |touches| >= 1 ==> Tracked(ps, touches[0].id)) &&
    (current == Scale && |touches| >= 2 ==>
       Tracked(ps, touches[0].id) && Tracked(ps, touches[1].id) &&
       Taxicab(Sub(Lookup(ps, touches[0].id).value, Lookup(ps, touches[1].id).value)) != 0.0)
  }

  /**
   * The payload `updateCurrentEvent` broadcasts, if any: a drag follows
   * the first touch from its recorded start; a pinch compares the first
   * two touches with their recorded starts; nothing else is updated.
   */
  function UpdatePayload(current: Gesture, ps: seq<Contact>, touches: seq<Contact>,
                         atan2: (real, real) -> real): (r: Option<EventData>)
    requires UpdateDefined(current, ps, touches)
    ensures r.Some? <==> (current == Drag && |touches| >= 1) || (current == Scale && |touches| >= 2)
    ensures current == Drag && |touches| >= 1 ==>
              r.value.origin == Lookup(ps, touches[0].id).value &&
              Add(r.value.origin, r.value.drag) == touches[0].pos &&
              r.value.scale.None? && r.value.angle.None?
    ensures current == Scale && |touches| >= 2 ==>
              var b1, b2 := touches[0].pos, touches[1].pos;
              var a1, a2 := Lookup(ps, touches[0].id).value, Lookup(ps, touches[1].id).value;
              r.value.origin == Midpoint(a1, a2) &&
              Add(r.value.origin, r.value.drag) == Midpoint(b1, b2) &&
              r.value.scale == Some(ScaleRatio(a1, a2, b1, b2)) &&
              r.value.angle == Some(atan2(b2.y - b1.y, b2.x - b1.x))
  {
    if current == Drag && |touches| >= 1 then
      Some(DragUpdate(Lookup(ps, touches[0].id).value, touches[0].pos))
    else if current == Scale && |touches| >= 2 then
      var b1, b2 := touches[0].pos, touches[1].pos;
      Some(PinchUpdate(Lookup(ps, touches[0].id).value, Lookup(ps, touches[1].id).value,
                       b1, b2, atan2(b2.y - b1.y, b2.x - b1.x)))
    else None
  }

  /** START payload of a threshold crossing, `undefined` for VOID. */
  function ThresholdData(ps: seq<Contact>, touchCount: nat): (r: Option<EventData>)
    ensures r.Some? <==> (touchCount == 1 || touchCount == 2) && |ps| > 0
    ensures r.Some? ==> r.value.origin == Mean(Positions(ps)) && r.value.drag == Origin
  {
    if ThresholdKind(touchCount) == Void || |ps| == 0 then None else Some(StartData(ps))
  }

  /**
   * What `touchend` emits when the last touch lifts: a sequence that was
   * never classified opens and closes its release gesture; otherwise the
   * open gesture is closed.
   */
  function ReleaseSignals(current: Gesture, last: Option<EventData>, maxTouches: nat): (s: seq<Signal>)
    ensures Replay(Expected(current, last), s) == Closed
    ensures current == NoGesture ==> |s| == 2
    ensures current != NoGesture ==> |s| <= 1
  {
    if current == NoGesture then
      var release := ReleaseKind(maxTouches);
      var opening, closing := Switch(NoGesture, last, release, None), Switch(release, None, NoGesture, None);
      SwitchKeepsBracket(NoGesture, last, release, None);
      SwitchKeepsBracket(release, None, NoGesture, None);
      ReplayAppend(Expected(current, last), opening, closing);
      opening + closing
    else
      SwitchKeepsBracket(current, last, NoGesture, None);
      Switch(current, last, NoGesture, None)
  }

  /**
   * A release with nothing classified is exactly one START/END pair of
   * TAP, UNDO or REDO with no payload; otherwise only the END of the open
   * gesture, repeating its last payload, is seen.
   */
  lemma ReleaseIsOnePair(current: Gesture, last: Option<EventData>, maxTouches: nat)
    ensures current == NoGesture ==>
              ReleaseSignals(current, last, maxTouches)
              == [Signal(ReleaseKind(maxTouches), Start, None), Signal(ReleaseKind(maxTouches), End, None)]
    ensures current != NoGesture ==>
              ReleaseSignals(current, last, maxTouches) == Emit(current, End, last)
  {
  }

  /**
   * One changed touch of an idle `touchmove`, on values: a crossing
   * extends the signals of `n` crossings to those of `n + 1`, any other
   * touch leaves them as they are.
   */
  lemma DetectStep(t0: seq<Signal>, l0: seq<Delivery>, cbs: seq<Callback>,
                   kind: Gesture, data: Option<EventData>, n: nat, crosses: bool,
                   tr: seq<Signal>, log: seq<Delivery>, tr': seq<Signal>, log': seq<Delivery>)
    requires tr == t0 + Restarts(kind, data, n) && log == l0 + Fan(cbs, Restarts(kind, data, n))
    requires var step := Switch(if n == 0 then NoGesture else kind, if n == 0 then None else data, kind, data);
             if crosses then tr' == tr + step && log' == log + Fan(cbs, step) else tr' == tr && log' == log
    ensures var m := if crosses then n + 1 else n;
            tr' == t0 + Restarts(kind, data, m) && log' == l0 + Fan(cbs, Restarts(kind, data, m))
  {
    if crosses {
      var step := Switch(if n == 0 then NoGesture else kind, if n == 0 then None else data, kind, data);
      RestartsGrow(kind, data, n);
      Chain(t0, l0, cbs, Restarts(kind, data, n), step);
    }
  }

  class TouchController {
    /** Touch identifier to the position recorded at `touchstart`. */
    var pointers: seq<Contact>
    /** Subscribers, in registration order. */
    var callbacks: seq<Callback>
    var lastData: Option<EventData>
    var currentEvent: Gesture
    var gestureMaxTouches: nat
    /** The calls made into subscriber callbacks, in order. */
    var invoked: seq<Delivery>
    /** Every signal that got past `broadcast`'s filter, in order. */
    ghost var trace: seq<Signal>

    /**
     * The pointer map has one entry per identifier; an idle or VOID
     * controller holds no payload; the signals broadcast so far are well
     * bracketed, with the current gesture open and carrying `lastData`;
     * and every call made into a subscriber carries one of those signals.
     */
    ghost predicate Valid()
      reads this
    {
      UniqueIds(pointers) &&
      (!Broadcastable(currentEvent) ==> lastData == None) &&
      Replay(Closed, trace) == Expected(currentEvent, lastData) &&
      DeliveredFrom(invoked, trace)
    }

    constructor ()
      ensures Valid()
      ensures pointers == [] && callbacks == [] && lastData == None
      ensures currentEvent == NoGesture && gestureMaxTouches == 0
      ensures invoked == [] && trace == []
    {
      pointers, callbacks, lastData := [], [], None;
      currentEvent, gestureMaxTouches := NoGesture, 0;
      invoked, trace := [], [];
    }

    method On(callback: Callback)
      modifies this`callbacks
      ensures callbacks == old(callbacks) + [callback]
    {
      callbacks := callbacks + [callback];
    }

    /** Unsubscribes the first registration of `callback`, if there is one. */
    method Off(callback: Callback)
      modifies this`callbacks
      ensures callbacks == Registry.RemoveFirst(old(callbacks), callback)
    {
      var cbIndex := Registry.IndexOf(callbacks, callback);
      if cbIndex != -1 {
        callbacks := callbacks[..cbIndex] + callbacks[cbIndex + 1..];
      }
    }

    method IsCurrentEventDetected() returns (detected: bool)
      ensures detected <==> currentEvent != NoGesture
    {
      detected := currentEvent != NoGesture;
    }

    /**
     * Sends `(currentEvent, phase, data)` to every callback in order and
     * records `data` as the last payload, unless the current gesture is
     * NONE or VOID, in which case nothing at all happens.
     */
    method Broadcast(phase: Phase, data: Option<EventData>)
      modifies this`lastData, this`invoked, this`trace
      ensures lastData == if Broadcastable(currentEvent) then data else old(lastData)
      ensures trace == old(trace) + Emit(currentEvent, phase, data)
      ensures invoked == old(invoked) + Fan(callbacks, Emit(currentEvent, phase, data))
    {
      var kind := currentEvent;
      if kind == NoGesture || kind == Void {
        return;
      }
      lastData := data;
      var signal := Signal(kind, phase, data);
      var i := 0;
      while i < |callbacks|
        invariant 0 <= i <= |callbacks|
        invariant invoked == old(invoked) + Deliver(callbacks[..i], signal)
        modifies this`invoked
      {
        invoked := invoked + [Delivery(callbacks[i], signal)];
        i := i + 1;
      }
      assert callbacks[..i] == callbacks;
      assert [signal][..0] == [];
      trace := trace + [signal];
    }

    /** Closes the current gesture with its last payload, then opens `eventType`. */
    method SetEventType(eventType: Gesture, eventData: Option<EventData>)
      requires Valid()
      modifies this`currentEvent, this`lastData, this`invoked, this`trace
      ensures Valid()
      ensures currentEvent == eventType
      ensures lastData == if Broadcastable(eventType) then eventData else None
      ensures trace == old(trace) + Switch(old(currentEvent), old(lastData), eventType, eventData)
      ensures invoked == old(invoked) + Fan(callbacks, Switch(old(currentEvent), old(lastData), eventType, eventData))
    {
      SwitchExtends(trace, currentEvent, lastData, eventType, eventData);
      DeliveredExtends(invoked, trace, callbacks, Switch(currentEvent, lastData, eventType, eventData));
      Chain(trace, invoked, callbacks, Emit(currentEvent, End, lastData), Emit(eventType, Start, eventData));
      Broadcast(End, lastData);
      currentEvent := eventType;
      lastData := None;
      Broadcast(Start, eventData);
    }

    /** Broadcasts an UPDATE with `data`. */
    method TriggerUpdate(data: EventData)
      requires Valid()
      modifies this`lastData, this`invoked, this`trace
      ensures Valid()
      ensures lastData == if Broadcastable(currentEvent) then Some(data) else old(lastData)
      ensures trace == old(trace) + Emit(currentEvent, Update, Some(data))
      ensures invoked == old(invoked) + Fan(callbacks, Emit(currentEvent, Update, Some(data)))
    {
      ReplayAppend(Closed, trace, Emit(currentEvent, Update, Some(data)));
      UpdateKeepsBracket(currentEvent, lastData, Some(data));
      DeliveredExtends(invoked, trace, callbacks, Emit(currentEvent, Update, Some(data)));
      Broadcast(Update, Some(data));
    }

    /** A keyboard zoom: a SCALE gesture from the off-surface origin, started then updated. */
    method TriggerZoom(scale: real)
      requires Valid()
      modifies this`currentEvent, this`lastData, this`invoked, this`trace
      ensures Valid()
      ensures currentEvent == Scale && lastData == Some(ZoomData(scale))
      ensures var out := Switch(old(currentEvent), old(lastData), Scale, Some(ZoomData(scale))) +
                         [Signal(Scale, Update, Some(ZoomData(scale)))];
              trace == old(trace) + out && invoked == old(invoked) + Fan(callbacks, out)
    {
      var data := ZoomData(scale);
      Chain(trace, invoked, callbacks, Switch(currentEvent, lastData, Scale, Some(data)), [Signal(Scale, Update, Some(data))]);
      SetEventType(Scale, Some(data));
      TriggerUpdate(data);
    }

    /** Removes every subscriber. */
    method Destroy()
      modifies this`callbacks
      ensures callbacks == []
    {
      callbacks := [];
    }

    /** The mean of the recorded touch positions, summed in map order. */
    method Centroid() returns (c: Point)
      requires |pointers| > 0
      ensures c == Mean(Positions(pointers))
    {
      var sumX, sumY := 0.0, 0.0;
      var i := 0;
      while i < |pointers|
        invariant 0 <= i <= |pointers|
        invariant sumX == SumX(Positions(pointers)[..i])
        invariant sumY == SumY(Positions(pointers)[..i])
      {
        assert Positions(pointers)[..i + 1][..i] == Positions(pointers)[..i];
        sumX := sumX + pointers[i].pos.x;
        sumY := sumY + pointers[i].pos.y;
        i := i + 1;
      }
      assert Positions(pointers)[..i] == Positions(pointers);
      c := Point(sumX / |pointers| as real, sumY / |pointers| as real);
    }

    /**
     * Ignored while a gesture is detected; otherwise records every changed
     * touch (last to first) and remembers how many touches are down.
     */
    method TouchStart(changed: seq<Contact>, touches: seq<Contact>)
      requires Valid()
      modifies this`pointers, this`gestureMaxTouches
      ensures Valid()
      ensures currentEvent != NoGesture ==>
                pointers == old(pointers) && gestureMaxTouches == old(gestureMaxTouches)
      ensures currentEvent == NoGesture ==>
                pointers == RecordAll(old(pointers), changed) && gestureMaxTouches == |touches|
    {
      var detected := IsCurrentEventDetected();
      if detected {
        return;
      }
      var i := |changed|;
      while i > 0
        invariant 0 <= i <= |changed|
        invariant pointers == RecordAll(old(pointers), changed[i..])
        invariant UniqueIds(pointers)
        modifies this`pointers
      {
        i := i - 1;
        assert changed[i..][1..] == changed[i + 1..];
        PutKeepsUnique(pointers, changed[i]);
        pointers := Put(pointers, changed[i]);
      }
      gestureMaxTouches := |touches|;
    }

    /**
     * Broadcasts an UPDATE for a detected DRAG or SCALE from the current
     * touches; the gesture itself never changes here.
     */
    method UpdateCurrentEvent(touches: seq<Contact>, atan2: (real, real) -> real)
      requires Valid() && UpdateDefined(currentEvent, pointers, touches)
      modifies this`lastData, this`invoked, this`trace
      ensures Valid()
      ensures var payload := UpdatePayload(currentEvent, pointers, touches, atan2);
              var out := if payload.Some? then [Signal(currentEvent, Update, payload)] else [];
              lastData == (if payload.Some? then payload else old(lastData)) &&
              trace == old(trace) + out && invoked == old(invoked) + Fan(callbacks, out)
    {
      ghost var payload := UpdatePayload(currentEvent, pointers, touches, atan2);
      if currentEvent == Drag {
        if |touches| < 1 {
          return;
        }
        var b := touches[0];
        var a := Lookup(pointers, b.id).value;
        assert payload == Some(DragUpdate(a, b.pos));
        TriggerUpdate(DragUpdate(a, b.pos));
      } else if currentEvent == Scale {
        if |touches| < 2 {
          return;
        }
        var b1, b2 := touches[0], touches[1];
        var a1, a2 := Lookup(pointers, b1.id).value, Lookup(pointers, b2.id).value;
        var angle := atan2(b2.pos.y - b1.pos.y, b2.pos.x - b1.pos.x);
        assert payload == Some(PinchUpdate(a1, a2, b1.pos, b2.pos, angle));
        TriggerUpdate(PinchUpdate(a1, a2, b1.pos, b2.pos, angle));
      }
    }

    /**
     * What the idle branch of `touchmove` has done after `n` crossings,
     * starting from the trace `t0` and the delivery log `l0`.
     */
    ghost predicate Detecting(t0: seq<Signal>, l0: seq<Delivery>, kind: Gesture, data: Option<EventData>, n: nat)
      reads this
    {
      Valid() &&
      currentEvent == (if n == 0 then NoGesture else kind) &&
      lastData == (if n == 0 then None else data) &&
      trace == t0 + Restarts(kind, data, n) &&
      invoked == l0 + Fan(callbacks, Restarts(kind, data, n))
    }

    /**
     * One changed touch of an idle `touchmove`: once it is more than the
     * threshold away from where it started, the centroid of the recorded
     * touches becomes the START origin and the number of touches down
     * picks DRAG, SCALE or VOID.
     */
    method CheckThreshold(touch: Contact, length: nat, ghost t0: seq<Signal>, ghost l0: seq<Delivery>, ghost n: nat)
      requires Tracked(pointers, touch.id)
      requires Detecting(t0, l0, ThresholdKind(length), ThresholdData(pointers, length), n)
      modifies this`currentEvent, this`lastData, this`invoked, this`trace
      ensures Detecting(t0, l0, ThresholdKind(length), ThresholdData(pointers, length),
                        if Crosses(pointers, touch) then n + 1 else n)
    {
      ghost var kind, data := ThresholdKind(length), ThresholdData(pointers, length);
      ghost var tr, log := trace, invoked;
      var pointer := Lookup(pointers, touch.id).value;
      var x := Abs(touch.pos.x - pointer.x);
      var y := Abs(touch.pos.y - pointer.y);
      CrossesByGap(pointers, touch);
      if x + y > MOVE_THRESHOLD {
        var origin := Centroid();
        var defaultData := EventData(origin, Origin, None, None);
        assert kind != Void ==> data == Some(defaultData);
        if length == 1 {
          assert kind == Drag;
          SetEventType(Drag, Some(defaultData));
        } else if length == 2 {
          assert kind == Scale;
          SetEventType(Scale, Some(defaultData));
        } else {
          assert kind == Void;
          SetEventType(Void, None);
        }
      }
      DetectStep(t0, l0, callbacks, kind, data, n, Crosses(pointers, touch), tr, log, trace, invoked);
    }

    /**
     * While a gesture is detected, updates it; otherwise looks for a
     * touch that crossed the threshold.
     */
    method TouchMove(changed: seq<Contact>, touches: seq<Contact>, atan2: (real, real) -> real)
      requires Valid()
      requires currentEvent == NoGesture ==> forall i :: 0 <= i < |changed| ==> Tracked(pointers, changed[i].id)
      requires currentEvent != NoGesture ==> UpdateDefined(currentEvent, pointers, touches)
      modifies this`currentEvent, this`lastData, this`invoked, this`trace
      ensures Valid()
      ensures old(currentEvent) != NoGesture ==>
                var payload := UpdatePayload(old(currentEvent), pointers, touches, atan2);
                var out := if payload.Some? then [Signal(old(currentEvent), Update, payload)] else [];
                currentEvent == old(currentEvent) &&
                lastData == (if payload.Some? then payload else old(lastData)) &&
                trace == old(trace) + out && invoked == old(invoked) + Fan(callbacks, out)
      ensures old(currentEvent) == NoGesture ==>
                var n := Crossings(pointers, changed);
                var kind, data := ThresholdKind(|touches|), ThresholdData(pointers, |touches|);
                currentEvent == (if n == 0 then NoGesture else kind) &&
                lastData == (if n == 0 then None else data) &&
                trace == old(trace) + Restarts(kind, data, n) &&
                invoked == old(invoked) + Fan(callbacks, Restarts(kind, data, n))
    {
      var detected := IsCurrentEventDetected();
      if detected {
        UpdateCurrentEvent(touches, atan2);
        return;
      }
      DetectGesture(changed, touches);
    }

    /**
     * With no gesture detected, checks each changed touch, last to first,
     * against the threshold; every crossing classifies by the number of
     * touches down and calls `setEventType`, so a second crossing in the
     * same event closes and reopens the gesture.
     */
    method DetectGesture(changed: seq<Contact>, touches: seq<Contact>)
      requires Valid() && currentEvent == NoGesture
      requires forall i :: 0 <= i < |changed| ==> Tracked(pointers, changed[i].id)
      modifies this`currentEvent, this`lastData, this`invoked, this`trace
      ensures Valid()
      ensures var n := Crossings(pointers, changed);
              var kind, data := ThresholdKind(|touches|), ThresholdData(pointers, |touches|);
              currentEvent == (if n == 0 then NoGesture else kind) &&
              lastData == (if n == 0 then None else data) &&
              trace == old(trace) + Restarts(kind, data, n) &&
              invoked == old(invoked) + Fan(callbacks, Restarts(kind, data, n))
    {
      ghost var kind, data := ThresholdKind(|touches|), ThresholdData(pointers, |touches|);
      assert old(trace) + Restarts(kind, data, 0) == old(trace);
      var i := |changed|;
      while i > 0
        invariant 0 <= i <= |changed|
        invariant Detecting(old(trace), old(invoked), kind, data, Crossings(pointers, changed[i..]))
      {
        i := i - 1;
        CrossingsStep(pointers, changed, i);
        CheckThreshold(changed[i], |touches|, old(trace), old(invoked), Crossings(pointers, changed[i + 1..]));
      }
    }

    /**
     * Forgets the lifted touches. When none is left: a sequence that never
     * crossed the threshold becomes TAP, UNDO or REDO by the touch count
     * of the latest `touchstart`, and the controller returns to NONE.
     */
    method TouchEnd(changed: seq<Contact>, touches: seq<Contact>)
      requires Valid()
      modifies this`pointers, this`gestureMaxTouches, this`currentEvent, this`lastData, this`invoked, this`trace
      ensures Valid()
      ensures pointers == RemoveAll(old(pointers), changed)
      ensures |touches| != 0 ==>
                currentEvent == old(currentEvent) && lastData == old(lastData) &&
                gestureMaxTouches == old(gestureMaxTouches) && trace == old(trace) && invoked == old(invoked)
      ensures |touches| == 0 ==>
                var out := ReleaseSignals(old(currentEvent), old(lastData), old(gestureMaxTouches));
                currentEvent == NoGesture && lastData == None && gestureMaxTouches == 0 &&
                trace == old(trace) + out && invoked == old(invoked) + Fan(callbacks, out)
    {
      var i := |changed|;
      while i > 0
        invariant 0 <= i <= |changed|
        invariant pointers == RemoveAll(old(pointers), changed[i..])
        invariant UniqueIds(pointers)
        modifies this`pointers
      {
        i := i - 1;
        assert changed[i..][1..] == changed[i + 1..];
        RemoveKeepsUnique(pointers, changed[i].id);
        pointers := Remove(pointers, changed[i].id);
      }
      if |touches| == 0 {
        if currentEvent == NoGesture {
          var release := ReleaseKind(gestureMaxTouches);
          Chain(trace, invoked, callbacks, Switch(NoGesture, lastData, release, None),
                Switch(release, None, NoGesture, None));
          SetEventType(release, None);
        }
        SetEventType(NoGesture, None);
        gestureMaxTouches := 0;
      }
    }

    /** A mouse press always starts a DRAG anchored at the press point. */
    method MouseDown(page: Point)
      requires Valid()
      modifies this`currentEvent, this`lastData, this`invoked, this`trace
      ensures Valid()
      ensures currentEvent == Drag && lastData == Some(PressData(page))
      ensures trace == old(trace) + Switch(old(currentEvent), old(lastData), Drag, Some(PressData(page)))
      ensures invoked == old(invoked) + Fan(callbacks, Switch(old(currentEvent), old(lastData), Drag, Some(PressData(page))))
    {
      SetEventType(Drag, Some(PressData(page)));
    }

    /**
     * A mouse move ends a SCALE (left open by the wheel or a keyboard
     * zoom); during a DRAG it moves the drag vector to the cursor.
     */
    method MouseMove(page: Point)
      requires Valid()
      modifies this`currentEvent, this`lastData, this`invoked, this`trace
      ensures Valid()
      ensures old(currentEvent) == Scale ==>
                currentEvent == NoGesture && lastData == None &&
                trace == old(trace) + [Signal(Scale, End, old(lastData))] &&
                invoked == old(invoked) + Fan(callbacks, [Signal(Scale, End, old(lastData))])
      ensures old(currentEvent) == Drag && old(lastData).Some? ==>
                var moved := Some(old(lastData).value.(drag := Sub(page, old(lastData).value.origin)));
                currentEvent == Drag && lastData == moved &&
                trace == old(trace) + [Signal(Drag, Update, moved)] &&
                invoked == old(invoked) + Fan(callbacks, [Signal(Drag, Update, moved)])
      ensures old(currentEvent) != Scale && (old(currentEvent) != Drag || old(lastData).None?) ==>
                currentEvent == old(currentEvent) && lastData == old(lastData) &&
                trace == old(trace) && invoked == old(invoked)
    {
      if currentEvent == Scale {
        SetEventType(NoGesture, None);
      } else if currentEvent == Drag {
        var data := lastData;
        if data.None? {
          return;
        }
        TriggerUpdate(data.value.(drag := Sub(page, data.value.origin)));
      }
    }

    /** A mouse release always returns to NONE. */
    method MouseUp()
      requires Valid()
      modifies this`currentEvent, this`lastData, this`invoked, this`trace
      ensures Valid()
      ensures currentEvent == NoGesture && lastData == None
      ensures trace == old(trace) + Emit(old(currentEvent), End, old(lastData))
      ensures invoked == old(invoked) + Fan(callbacks, Emit(old(currentEvent), End, old(lastData)))
    {
      SetEventType(NoGesture, None);
    }

    /**
     * Opens a SCALE at the cursor unless one is current, then subtracts
     * the wheel delta from its drag vector and broadcasts an UPDATE.
     */
    method Wheel(page: Point, delta: Point)
      requires Valid()
      modifies this`currentEvent, this`lastData, this`invoked, this`trace
      ensures Valid()
      ensures currentEvent == Scale
      ensures old(currentEvent) == Scale && old(lastData).None? ==>
                lastData == None && trace == old(trace) && invoked == old(invoked)
      ensures old(currentEvent) == Scale && old(lastData).Some? ==>
                var moved := Some(old(lastData).value.(drag := Sub(old(lastData).value.drag, delta)));
                lastData == moved &&
                trace == old(trace) + [Signal(Scale, Update, moved)] &&
                invoked == old(invoked) + Fan(callbacks, [Signal(Scale, Update, moved)])
      ensures old(currentEvent) != Scale ==>
                var moved := Some(WheelStartData(page).(drag := Sub(Origin, delta)));
                var out := Switch(old(currentEvent), old(lastData), Scale, Some(WheelStartData(page))) +
                           [Signal(Scale, Update, moved)];
                lastData == moved && trace == old(trace) + out && invoked == old(invoked) + Fan(callbacks, out)
    {
      if currentEvent != Scale {
        ghost var moved := WheelStartData(page).(drag := Sub(Origin, delta));
        Chain(trace, invoked, callbacks, Switch(currentEvent, lastData, Scale, Some(WheelStartData(page))),
              [Signal(Scale, Update, Some(moved))]);
        SetEventType(Scale, Some(WheelStartData(page)));
      }
      var data := lastData;
      if data.None? {
        return;
      }
      TriggerUpdate(data.value.(drag := Sub(data.value.drag, delta)));
    }
  }
}
