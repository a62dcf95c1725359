/**
 * The vocabulary of the recogniser (gesture kinds, lifecycle phases and
 * payloads) and the broadcast discipline its subscribers rely on: NONE and
 * VOID are never delivered, every signal goes to every callback in
 * registration order, and the signals form well-bracketed
 * START, UPDATE*, END runs, one gesture at a time.
 */
module Gestures {
  import opened Wrappers
  import opened Geometry

  /** `GESTURE` in the source; `NoGesture` is its `NONE`. */
  datatype Gesture = NoGesture | Tap | Drag | Undo | Scale | Redo | Void

  /** `STATE` in the source (its unused `NONE` member is not needed). */
  datatype Phase = Start | Update | End

  /** `EventData`: `scale` and `angle` are optional as in the source. */
  datatype EventData = EventData(origin: Point, drag: Point, scale: Option<real>, angle: Option<real>)

  /** One broadcast `(type, state, data)`; the data may be `undefined`. */
  datatype Signal = Signal(kind: Gesture, phase: Phase, data: Option<EventData>)

  /** A subscriber callback, known only by its identity. */
  datatype Callback = Callback(id: nat)

  /** One invocation `cb(type, state, data)` of a subscriber. */
  datatype Delivery = Delivery(to: Callback, signal: Signal)

  /** The kinds `broadcast` lets through. */
  predicate Broadcastable(g: Gesture) {
    g != NoGesture && g != Void
  }

  /** What one `broadcast(phase, data)` emits while `current` is the gesture. */
  function Emit(current: Gesture, phase: Phase, data: Option<EventData>): (r: seq<Signal>)
    ensures |r| <= 1
    ensures r != [] <==> Broadcastable(current)
  {
    if Broadcastable(current) then [Signal(current, phase, data)] else []
  }

  /** `callbacks.forEach(cb => cb(...))` for one signal. */
  function Deliver(cbs: seq<Callback>, s: Signal): (r: seq<Delivery>)
    ensures |r| == |cbs|
    ensures forall i :: 0 <= i < |cbs| ==> r[i] == Delivery(cbs[i], s)
  {
    seq(|cbs|, i requires 0 <= i < |cbs| => Delivery(cbs[i], s))
  }

  /** Every signal, in order, delivered to every callback, in registration order. */
  function Fan(cbs: seq<Callback>, sigs: seq<Signal>): (r: seq<Delivery>)
    ensures |sigs| == 1 ==> r == Deliver(cbs, sigs[0])
  {
    assert |sigs| == 1 ==> sigs[..0] == [];
    if sigs == [] then [] else Fan(cbs, sigs[..|sigs| - 1]) + Deliver(cbs, sigs[|sigs| - 1])
  }

  lemma {:induction false} FanAppend(cbs: seq<Callback>, s: seq<Signal>, t: seq<Signal>)
    ensures Fan(cbs, s + t) == Fan(cbs, s) + Fan(cbs, t)
  {
    if t != [] {
      var n := |t| - 1;
      assert (s + t)[..|s + t| - 1] == s + t[..n];
      FanAppend(cbs, s, t[..n]);
    } else {
      assert s + t == s;
    }
  }

  /** Each callback receives each signal once: |cbs| invocations per signal. */
  lemma {:induction false} FanCount(cbs: seq<Callback>, sigs: seq<Signal>)
    ensures |Fan(cbs, sigs)| == |cbs| * |sigs|
  {
    if sigs != [] {
      var n := |sigs| - 1;
      FanCount(cbs, sigs[..n]);
      assert |Fan(cbs, sigs)| == |cbs| * n + |cbs|;
      MultiplySuccessor(|cbs|, n);
    }
  }

  lemma MultiplySuccessor(a: nat, b: nat)
    ensures a * (b + 1) == a * b + a
  {
  }

  /** Every invocation carries a signal that was broadcast. */
  lemma {:induction false} FanCarriesSignals(cbs: seq<Callback>, sigs: seq<Signal>, k: nat)
    requires k < |Fan(cbs, sigs)|
    ensures Fan(cbs, sigs)[k].signal in sigs && Fan(cbs, sigs)[k].to in cbs
  {
    var n := |sigs| - 1;
    var front := Fan(cbs, sigs[..n]);
    if k < |front| {
      FanCarriesSignals(cbs, sigs[..n], k);
    } else {
      assert Fan(cbs, sigs)[k] == Deliver(cbs, sigs[n])[k - |front|];
    }
  }

  /** Every call in the delivery log carries a signal of the trace. */
  ghost predicate DeliveredFrom(log: seq<Delivery>, tr: seq<Signal>) {
    forall k :: 0 <= k < |log| ==> log[k].signal in tr
  }

  /** Broadcasting a batch keeps every delivered signal in the trace. */
  lemma DeliveredExtends(log: seq<Delivery>, tr: seq<Signal>, cbs: seq<Callback>, out: seq<Signal>)
    requires DeliveredFrom(log, tr)
    ensures DeliveredFrom(log + Fan(cbs, out), tr + out)
  {
    var log' := log + Fan(cbs, out);
    forall k | 0 <= k < |log'|
      ensures log'[k].signal in tr + out
    {
      if k < |log| {
        assert log'[k] == log[k];
      } else {
        FanCarriesSignals(cbs, out, k - |log|);
      }
    }
  }

  /** Once the callback list is empty nothing is invoked, whatever is broadcast. */
  lemma {:induction false} FanToNobody(sigs: seq<Signal>)
    ensures Fan([], sigs) == []
  {
    if sigs != [] {
      FanToNobody(sigs[..|sigs| - 1]);
    }
  }

  // ---------------------------------------------------------------------
  // The bracket automaton: what a subscriber can expect of the signal stream

  /**
   * `Closed`: no gesture open; `Open(k, d)`: gesture `k` is open and `d`
   * is the payload it last carried; `Broken`: the stream violated the
   * discipline.
   */
  datatype Bracket = Closed | Open(kind: Gesture, data: Option<EventData>) | Broken

  /**
   * A START opens a broadcastable gesture only when none is open; UPDATE
   * keeps the open gesture; END closes it and must repeat its last payload.
   */
  function Next(b: Bracket, s: Signal): Bracket {
    match b
    case Broken => Broken
    case Closed =>
      if s.phase == Start && Broadcastable(s.kind) then Open(s.kind, s.data) else Broken
    case Open(k, d) =>
      if s.kind != k then Broken
      else if s.phase == Update then Open(k, s.data)
      else if s.phase == End && s.data == d then Closed
      else Broken
  }

  function Replay(b: Bracket, sigs: seq<Signal>): Bracket {
    if sigs == [] then b else Next(Replay(b, sigs[..|sigs| - 1]), sigs[|sigs| - 1])
  }

  /** The state a well-behaved stream is in while `current` holds `last`. */
  function Expected(current: Gesture, last: Option<EventData>): (b: Bracket)
    ensures b != Broken
  {
    if Broadcastable(current) then Open(current, last) else Closed
  }

  lemma {:induction false} ReplayAppend(b: Bracket, s: seq<Signal>, t: seq<Signal>)
    ensures Replay(b, s + t) == Replay(Replay(b, s), t)
  {
    if t != [] {
      var n := |t| - 1;
      assert (s + t)[..|s + t| - 1] == s + t[..n];
      ReplayAppend(b, s, t[..n]);
    } else {
      assert s + t == s;
    }
  }

  /** A stream that is not broken has no broken prefix. */
  lemma {:induction false} ReplayPrefix(b: Bracket, s: seq<Signal>, k: nat)
    requires k <= |s| && Replay(b, s) != Broken
    ensures Replay(b, s[..k]) != Broken
  {
    if k < |s| {
      var n := |s| - 1;
      assert s[..n][..k] == s[..k];
      ReplayPrefix(b, s[..n], k);
    } else {
      assert s[..k] == s;
    }
  }

  /** Only a broadcastable gesture is ever open. */
  lemma {:induction false} OpenIsBroadcastable(tr: seq<Signal>)
    ensures Replay(Closed, tr).Open? ==> Broadcastable(Replay(Closed, tr).kind)
  {
    if tr != [] {
      OpenIsBroadcastable(tr[..|tr| - 1]);
    }
  }

  /** NONE and VOID never appear in a well-bracketed stream. */
  lemma WellBracketedIsBroadcastable(tr: seq<Signal>, i: nat)
    requires Replay(Closed, tr) != Broken && i < |tr|
    ensures Broadcastable(tr[i].kind)
  {
    ReplayPrefix(Closed, tr, i + 1);
    assert tr[..i + 1][..i] == tr[..i];
    OpenIsBroadcastable(tr[..i]);
  }

  /** Subscribers of a well-bracketed trace never receive NONE or VOID. */
  lemma DeliveredAreBroadcastable(log: seq<Delivery>, tr: seq<Signal>, k: nat)
    requires Replay(Closed, tr) != Broken && DeliveredFrom(log, tr) && k < |log|
    ensures Broadcastable(log[k].signal.kind)
  {
    assert log[k].signal in tr;
    var i :| 0 <= i < |tr| && tr[i] == log[k].signal;
    WellBracketedIsBroadcastable(tr, i);
  }

  /**
   * Every START after the first directly follows an END: a new gesture
   * never begins while the previous one is still open.
   */
  lemma StartFollowsEnd(tr: seq<Signal>, i: nat)
    requires Replay(Closed, tr) != Broken && 0 < i < |tr| && tr[i].phase == Start
    ensures tr[i - 1].phase == End
  {
    ReplayPrefix(Closed, tr, i + 1);
    assert tr[..i + 1][..i] == tr[..i];
    assert tr[..i][..i - 1] == tr[..i - 1];
  }

  /**
   * Every END closes the gesture of the signal just before it and repeats
   * that signal's payload (the `lastData` the source keeps for it).
   */
  lemma EndClosesPrevious(tr: seq<Signal>, i: nat)
    requires Replay(Closed, tr) != Broken && i < |tr| && tr[i].phase == End
    ensures 0 < i
    ensures tr[i - 1].phase != End && tr[i - 1].kind == tr[i].kind && tr[i - 1].data == tr[i].data
  {
    ReplayPrefix(Closed, tr, i + 1);
    assert tr[..i + 1][..i] == tr[..i];
    if i > 0 {
      assert tr[..i][..i - 1] == tr[..i - 1];
      ReplayPrefix(Closed, tr, i);
    }
  }

  /** What `setEventType` emits: END for the old gesture with its last payload, then START. */
  function Switch(current: Gesture, last: Option<EventData>, next: Gesture, data: Option<EventData>): (s: seq<Signal>)
    ensures |s| == (if Broadcastable(current) then 1 else 0) + (if Broadcastable(next) then 1 else 0)
    ensures Broadcastable(current) ==> s[0] == Signal(current, End, last)
    ensures Broadcastable(next) ==> s[|s| - 1] == Signal(next, Start, data)
  {
    Emit(current, End, last) + Emit(next, Start, data)
  }

  /** Switching gestures leaves a well-bracketed stream well bracketed. */
  lemma SwitchKeepsBracket(current: Gesture, last: Option<EventData>, next: Gesture, data: Option<EventData>)
    ensures Replay(Expected(current, last), Switch(current, last, next, data))
         == Expected(next, if Broadcastable(next) then data else None)
  {
    var ends, starts := Emit(current, End, last), Emit(next, Start, data);
    ReplayAppend(Expected(current, last), ends, starts);
    assert Replay(Expected(current, last), ends) == Closed;
  }

  /** A well-bracketed trace stays well bracketed across a gesture switch. */
  lemma SwitchExtends(tr: seq<Signal>, current: Gesture, last: Option<EventData>, next: Gesture, data: Option<EventData>)
    requires Replay(Closed, tr) == Expected(current, last)
    ensures Replay(Closed, tr + Switch(current, last, next, data))
         == Expected(next, if Broadcastable(next) then data else None)
  {
    ReplayAppend(Closed, tr, Switch(current, last, next, data));
    SwitchKeepsBracket(current, last, next, data);
  }

  /**
   * Two batches of signals broadcast one after the other extend the trace
   * and the delivery log exactly as their concatenation does.
   */
  lemma Chain(tr: seq<Signal>, log: seq<Delivery>, cbs: seq<Callback>, a: seq<Signal>, b: seq<Signal>)
    ensures tr + a + b == tr + (a + b)
    ensures log + Fan(cbs, a) + Fan(cbs, b) == log + Fan(cbs, a + b)
  {
    FanAppend(cbs, a, b);
    assert log + Fan(cbs, a) + Fan(cbs, b) == log + (Fan(cbs, a) + Fan(cbs, b));
  }

  /** `triggerUpdate` keeps the stream well bracketed and records the new payload. */
  lemma UpdateKeepsBracket(current: Gesture, last: Option<EventData>, data: Option<EventData>)
    ensures Replay(Expected(current, last), Emit(current, Update, data))
         == Expected(current, if Broadcastable(current) then data else last)
  {
  }
}
